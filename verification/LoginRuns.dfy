/** The login service's calls are runs of the statement-level login protocol: what the methods
    commit is what their statements, undisturbed, commit there. */
module LoginRuns {
  import opened Collections
  import P = LoginProtocol
  import R = RefreshTokens
  import opened AuthService

  const CLIENT: P.ClientId := 0

  // ----- the abstraction -----

  function Sessions(t: Tables): map<P.SessionId, P.PreAuthSession> {
    map k | k in t.sessions :: AbstractSession(t.sessions[k])
  }

  function AbstractSession(s: PreAuthSession): P.PreAuthSession {
    P.PreAuthSession(s.user, s.consumedAt.Some?)
  }

  function Tokens(rows: R.Table): map<P.TokenId, P.RefreshToken> {
    map k | k in rows :: AbstractRow(rows[k])
  }

  function AbstractRow(r: R.Row): P.RefreshToken {
    P.RefreshToken(r.family, r.org, r.user, r.active)
  }

  ghost predicate Represents(st: P.State, t: Tables) {
    st.sessions == Sessions(t) && st.tokens == Tokens(t.rows)
  }

  /** No transaction is open. */
  ghost predicate Quiet(st: P.State) {
    forall c :: c in st.phases ==> st.phases[c] == P.Idle
  }

  ghost predicate Reached(run: seq<P.Action>, t: Tables) {
    P.After(run).Some? && Quiet(P.After(run).value) && Represents(P.After(run).value, t)
  }

  // ----- undisturbed statements -----

  ghost function Steps(st: P.State, actions: seq<P.Action>): Option<P.State>
    decreases |actions|
  {
    if actions == [] then Some(st)
    else if !P.Enabled(st, actions[0]) then None
    else Steps(P.Apply(st, actions[0]), actions[1..])
  }

  lemma OneStep(st: P.State, a: P.Action, rest: seq<P.Action>)
    requires P.Enabled(st, a)
    ensures Steps(st, [a] + rest) == Steps(P.Apply(st, a), rest)
  {
    assert ([a] + rest)[1..] == rest;
  }

  lemma NoStep(st: P.State)
    ensures Steps(st, []) == Some(st)
  {
  }

  lemma {:induction false} StepsExtendRun(run: seq<P.Action>, actions: seq<P.Action>)
    requires P.After(run).Some? && Steps(P.After(run).value, actions).Some?
    ensures P.After(run + actions) == Steps(P.After(run).value, actions)
    decreases |actions|
  {
    if actions == [] {
      assert run + actions == run;
    } else {
      assert (run + [actions[0]])[..|run + [actions[0]]| - 1] == run;
      assert run + [actions[0]] + actions[1..] == run + actions;
      StepsExtendRun(run + [actions[0]], actions[1..]);
    }
  }

  lemma LoginSteps(st: P.State, s: P.SessionId, org: P.OrgId, f: P.FamilyId, token: P.TokenId) returns (st': P.State)
    requires Quiet(st) && P.FreshFamily(st, f) && P.FreshToken(st, token) && s in st.sessions && !st.sessions[s].consumed
    ensures Steps(st, [P.Lookup(CLIENT, s), P.Claim(CLIENT), P.Open(CLIENT, org, f, token), P.Commit(CLIENT)]) == Some(st')
    ensures Quiet(st') && st'.sessions == st.sessions[s := st.sessions[s].(consumed := true)]
    ensures st'.tokens == st.tokens[token := P.RefreshToken(f, org, st.sessions[s].user, true)]
  {
    P.LoginGoesThrough(st, CLIENT, s, org, f, token);
    var lookup, claim, open, commit := P.Lookup(CLIENT, s), P.Claim(CLIENT), P.Open(CLIENT, org, f, token), P.Commit(CLIENT);
    var s1 := P.Apply(st, lookup);
    var s2 := P.Apply(s1, claim);
    var s3 := P.Apply(s2, open);
    st' := P.Apply(s3, commit);
    FourSteps(st, lookup, claim, open, commit);
  }

  lemma FourSteps(st: P.State, a: P.Action, b: P.Action, c: P.Action, d: P.Action)
    requires P.Enabled(st, a)
    requires P.Enabled(P.Apply(st, a), b)
    requires P.Enabled(P.Apply(P.Apply(st, a), b), c)
    requires P.Enabled(P.Apply(P.Apply(P.Apply(st, a), b), c), d)
    ensures Steps(st, [a, b, c, d]) == Some(P.Apply(P.Apply(P.Apply(P.Apply(st, a), b), c), d))
  {
    ThreeSteps(P.Apply(st, a), b, c, d);
    OneStep(st, a, [b, c, d]);
    assert [a] + [b, c, d] == [a, b, c, d];
  }

  lemma ThreeSteps(st: P.State, a: P.Action, b: P.Action, c: P.Action)
    requires P.Enabled(st, a)
    requires P.Enabled(P.Apply(st, a), b)
    requires P.Enabled(P.Apply(P.Apply(st, a), b), c)
    ensures Steps(st, [a, b, c]) == Some(P.Apply(P.Apply(P.Apply(st, a), b), c))
  {
    var s1 := P.Apply(st, a);
    var s2 := P.Apply(s1, b);
    NoStep(P.Apply(s2, c));
    OneStep(s2, c, []);
    OneStep(s1, b, [c]);
    OneStep(st, a, [b, c]);
    assert [c] + [] == [c] && [b] + [c] == [b, c] && [a] + [b, c] == [a, b, c];
  }

  /** A selection refused after the consumption. */
  lemma RefusalSteps(st: P.State, s: P.SessionId) returns (st': P.State)
    requires Quiet(st) && s in st.sessions && !st.sessions[s].consumed
    ensures Steps(st, [P.Lookup(CLIENT, s), P.Claim(CLIENT), P.Rollback(CLIENT)]) == Some(st')
    ensures Quiet(st') && st'.sessions == st.sessions && st'.tokens == st.tokens
  {
    var s1 := P.Apply(st, P.Lookup(CLIENT, s));
    var s2 := P.Apply(s1, P.Claim(CLIENT));
    st' := P.Apply(s2, P.Rollback(CLIENT));
    ThreeSteps(st, P.Lookup(CLIENT, s), P.Claim(CLIENT), P.Rollback(CLIENT));
  }

  ghost predicate RotationEnabled(st: P.State, t: P.TokenId, next: P.TokenId) {
    && P.Enabled(st, P.Lock(CLIENT, t))
    && P.Enabled(P.Apply(st, P.Lock(CLIENT, t)), P.Deactivate(CLIENT))
    && P.Enabled(P.Apply(P.Apply(st, P.Lock(CLIENT, t)), P.Deactivate(CLIENT)), P.Issue(CLIENT, next))
    && P.Enabled(P.Apply(P.Apply(P.Apply(st, P.Lock(CLIENT, t)), P.Deactivate(CLIENT)), P.Issue(CLIENT, next)), P.Commit(CLIENT))
  }

  ghost function AfterRotation(st: P.State, t: P.TokenId, next: P.TokenId): P.State
    requires RotationEnabled(st, t, next)
  {
    P.Apply(P.Apply(P.Apply(P.Apply(st, P.Lock(CLIENT, t)), P.Deactivate(CLIENT)), P.Issue(CLIENT, next)), P.Commit(CLIENT))
  }

  lemma RotationEffect(st: P.State, t: P.TokenId, next: P.TokenId)
    requires RotationEnabled(st, t, next) && Quiet(st) && t in st.tokens && st.tokens[t].active
    ensures var st' := AfterRotation(st, t, next);
            && Quiet(st') && st'.sessions == st.sessions
            && st'.tokens == st.tokens[t := st.tokens[t].(active := false)][next := st.tokens[t]]
  {
  }

  lemma RotationSteps(st: P.State, t: P.TokenId, next: P.TokenId) returns (st': P.State)
    requires Quiet(st) && P.FreshToken(st, next) && t in st.tokens && st.tokens[t].active
    requires st.tokens[t].family in st.history.issued
    ensures Steps(st, [P.Lock(CLIENT, t), P.Deactivate(CLIENT), P.Issue(CLIENT, next), P.Commit(CLIENT)]) == Some(st')
    ensures Quiet(st') && st'.sessions == st.sessions
    ensures st'.tokens == st.tokens[t := st.tokens[t].(active := false)][next := st.tokens[t]]
  {
    P.RotationGoesThrough(st, CLIENT, t, next);
    assert RotationEnabled(st, t, next);
    RotationEffect(st, t, next);
    st' := AfterRotation(st, t, next);
    FourSteps(st, P.Lock(CLIENT, t), P.Deactivate(CLIENT), P.Issue(CLIENT, next), P.Commit(CLIENT));
  }

  lemma ExpirySteps(st: P.State, t: P.TokenId) returns (st': P.State)
    requires Quiet(st) && t in st.tokens && st.tokens[t].active
    ensures Steps(st, [P.Lock(CLIENT, t), P.Expire(CLIENT), P.Commit(CLIENT)]) == Some(st')
    ensures Quiet(st') && st'.sessions == st.sessions && st'.tokens == P.Inactive(st.tokens, {t})
  {
    st' := P.Apply(P.Apply(P.Apply(st, P.Lock(CLIENT, t)), P.Expire(CLIENT)), P.Commit(CLIENT));
    ThreeSteps(st, P.Lock(CLIENT, t), P.Expire(CLIENT), P.Commit(CLIENT));
  }

  // ----- revocations, one row at a time -----

  function RevokeRows(rows: seq<P.TokenId>): seq<P.Action> {
    Map((t: P.TokenId) => P.RevokeRow(CLIENT, t), rows)
  }

  function Elements(rows: seq<P.TokenId>): set<P.TokenId> {
    set t | t in rows
  }

  /** The revoking client alone is at work. */
  ghost predicate Revoking(st: P.State, rows: set<P.TokenId>) {
    && CLIENT in st.phases && st.phases[CLIENT] == P.Revoking(rows)
    && forall c :: c in st.phases && c != CLIENT ==> st.phases[c] == P.Idle
  }

  lemma RevocationCommits(st: P.State, touched: set<P.TokenId>) returns (st': P.State)
    requires Revoking(st, touched)
    ensures Steps(st, [P.Commit(CLIENT)]) == Some(st')
    ensures Quiet(st') && st'.sessions == st.sessions && st'.tokens == P.Inactive(st.tokens, touched)
  {
    st' := P.Apply(st, P.Commit(CLIENT));
    NoStep(st');
    OneStep(st, P.Commit(CLIENT), []);
    assert [P.Commit(CLIENT)] + [] == [P.Commit(CLIENT)];
  }

  lemma RevokeRowsFirst(rows: seq<P.TokenId>, rest: seq<P.Action>)
    requires rows != []
    ensures RevokeRows(rows) + rest == [P.RevokeRow(CLIENT, rows[0])] + (RevokeRows(rows[1..]) + rest)
    ensures {rows[0]} + Elements(rows[1..]) == Elements(rows)
  {
    assert RevokeRows(rows) == [P.RevokeRow(CLIENT, rows[0])] + RevokeRows(rows[1..]);
  }

  lemma {:induction false} RevokeSteps(st: P.State, touched: set<P.TokenId>, rows: seq<P.TokenId>) returns (st': P.State)
    requires Revoking(st, touched) && forall t :: t in rows ==> t in st.tokens && st.tokens[t].active
    ensures Steps(st, RevokeRows(rows) + [P.Commit(CLIENT)]) == Some(st')
    ensures Quiet(st') && st'.sessions == st.sessions && st'.tokens == P.Inactive(st.tokens, touched + Elements(rows))
    decreases |rows|
  {
    if rows == [] {
      st' := RevocationCommits(st, touched);
      assert RevokeRows(rows) + [P.Commit(CLIENT)] == [P.Commit(CLIENT)];
      assert touched + Elements(rows) == touched;
    } else {
      RevokingOn(st, touched, rows[0]);
      st' := RevokeSteps(P.Apply(st, P.RevokeRow(CLIENT, rows[0])), touched + {rows[0]}, rows[1..]);
      RevokeRowsFirst(rows, [P.Commit(CLIENT)]);
      OneStep(st, P.RevokeRow(CLIENT, rows[0]), RevokeRows(rows[1..]) + [P.Commit(CLIENT)]);
      assert touched + {rows[0]} + Elements(rows[1..]) == touched + Elements(rows);
    }
  }

  lemma RevokingOn(st: P.State, touched: set<P.TokenId>, t: P.TokenId)
    requires Revoking(st, touched) && t in st.tokens && st.tokens[t].active
    ensures P.Enabled(st, P.RevokeRow(CLIENT, t))
    ensures var st' := P.Apply(st, P.RevokeRow(CLIENT, t));
            Revoking(st', touched + {t}) && st'.tokens == st.tokens && st'.sessions == st.sessions
  {
  }

  lemma {:induction false} ListOf(s: set<P.TokenId>) returns (rows: seq<P.TokenId>)
    ensures Elements(rows) == s
  {
    if s == {} {
      rows := [];
    } else {
      var t :| t in s;
      var rest := ListOf(s - {t});
      rows := [t] + rest;
      forall x ensures x in rows <==> x in s { assert x in rest <==> x in Elements(rest); }
    }
  }

  /** The statements of a revocation by `first`: a start, or the lock of a replayed token. */
  lemma RevocationSteps(st: P.State, first: P.Action, touched: set<P.TokenId>, rows: set<P.TokenId>)
    returns (actions: seq<P.Action>, st': P.State)
    requires P.Enabled(st, first) && Revoking(P.Apply(st, first), touched)
    requires P.Apply(st, first).tokens == st.tokens && P.Apply(st, first).sessions == st.sessions
    requires forall t :: t in rows ==> t in st.tokens && st.tokens[t].active
    ensures Steps(st, actions) == Some(st') && Quiet(st') && st'.sessions == st.sessions
    ensures st'.tokens == P.Inactive(st.tokens, touched + rows)
  {
    var list := ListOf(rows);
    forall t | t in list ensures t in st.tokens && st.tokens[t].active { assert t in Elements(list); }
    st' := RevokeSteps(P.Apply(st, first), touched, list);
    actions := [first] + (RevokeRows(list) + [P.Commit(CLIENT)]);
    OneStep(st, first, RevokeRows(list) + [P.Commit(CLIENT)]);
  }

  // ----- the tables after each kind of transaction -----

  lemma TokenWritten(rows: R.Table, token: P.TokenId, row: R.Row)
    ensures Tokens(rows[token := row]) == Tokens(rows)[token := AbstractRow(row)]
  {
  }

  lemma SessionWritten(t: Tables, token: nat, row: PreAuthSession)
    ensures Sessions(t.(sessions := t.sessions[token := row])) == Sessions(t)[token := AbstractSession(row)]
  {
  }

  function Touched(rows: R.Table, hit: R.Row -> bool): set<P.TokenId> {
    set t | t in rows && hit(rows[t])
  }

  lemma RowRevoked(rows: R.Table, hit: R.Row -> bool, assign: R.Row -> R.Row, also: set<P.TokenId>, t: P.TokenId)
    requires t in rows && AbstractRow(assign(rows[t])) == AbstractRow(rows[t]).(active := false)
    requires t in also ==> !rows[t].active
    ensures Tokens(R.Update(rows, hit, assign))[t] == P.Inactive(Tokens(rows), also + Touched(rows, hit))[t]
  {
    assert t in Touched(rows, hit) <==> hit(rows[t]);
  }

  /** A bulk update that deactivates rows is a revocation of the rows it touches. */
  lemma RowsRevoked(rows: R.Table, hit: R.Row -> bool, assign: R.Row -> R.Row, also: set<P.TokenId>)
    requires forall t :: t in rows ==> AbstractRow(assign(rows[t])) == AbstractRow(rows[t]).(active := false)
    requires forall t :: t in also && t in rows ==> !rows[t].active
    ensures Tokens(R.Update(rows, hit, assign)) == P.Inactive(Tokens(rows), also + Touched(rows, hit))
  {
    forall t | t in rows
      ensures Tokens(R.Update(rows, hit, assign))[t] == P.Inactive(Tokens(rows), also + Touched(rows, hit))[t] {
      RowRevoked(rows, hit, assign, also, t);
    }
  }

  lemma IssuedIsUsed(st: P.State, t: Tables, f: P.FamilyId)
    requires P.Inv(st) && Represents(st, t) && f in st.history.issued
    ensures R.Used(t.rows, f)
  {
    assert P.IsChain(st, f, st.history.issued[f]);
    var first := st.history.issued[f][0];
    assert first in t.rows && t.rows[first].family == f;
  }

  lemma FreshInState(run: seq<P.Action>, t: Tables, f: P.FamilyId, token: P.TokenId)
    requires Reached(run, t) && !R.Used(t.rows, f) && token !in t.rows
    ensures P.FreshFamily(P.After(run).value, f) && P.FreshToken(P.After(run).value, token)
  {
    P.RunsKeep(run);
    if f in P.After(run).value.history.issued { IssuedIsUsed(P.After(run).value, t, f); }
  }

  // ----- each call -----

  /** The statements of an undisturbed selection. */
  function SelectionActions(t: Tables, s: Selection, lifetime: int): seq<P.Action> {
    if s.token !in t.sessions then []
    else if t.sessions[s.token].consumedAt.Some? then [P.Lookup(CLIENT, s.token)]
    else if t.sessions[s.token].expiresAt < s.now then [P.LookupExpired(CLIENT, s.token)]
    else if AfterSelection(t, s, None, lifetime).1.Err? then [P.Lookup(CLIENT, s.token), P.Claim(CLIENT), P.Rollback(CLIENT)]
    else [P.Lookup(CLIENT, s.token), P.Claim(CLIENT),
          P.Open(CLIENT, s.org, s.family, R.RawToken(Some(s.org), s.secret)), P.Commit(CLIENT)]
  }

  lemma IdleStep(st: P.State, a: P.Action)
    requires P.Enabled(st, a) && P.Apply(st, a) == st
    ensures Steps(st, [a]) == Some(st)
  {
    OneStep(st, a, []);
    assert [a] + [] == [a];
  }

  lemma AcceptedSelectionIsARun(run: seq<P.Action>, t: Tables, s: Selection, lifetime: int)
    requires Reached(run, t) && !R.Used(t.rows, s.family) && R.RawToken(Some(s.org), s.secret) !in t.rows
    requires AfterSelection(t, s, None, lifetime).1.Ok?
    ensures Reached(run + SelectionActions(t, s, lifetime), AfterSelection(t, s, None, lifetime).0)
  {
    var token, row := R.RawToken(Some(s.org), s.secret), t.sessions[s.token];
    FreshInState(run, t, s.family, token);
    var st' := LoginSteps(P.After(run).value, s.token, s.org, s.family, token);
    StepsExtendRun(run, SelectionActions(t, s, lifetime));
    SessionWritten(t, s.token, row.(consumedAt := Some(s.now)));
    TokenWritten(t.rows, token, R.NewRow(row.user, s.org, s.family, s.now, lifetime));
  }

  /** An undisturbed selection is the run of its statements: lookup, claim, open, commit, or
      lookup, claim, rollback when it is refused after the consumption. */
  lemma SelectionIsARun(run: seq<P.Action>, t: Tables, s: Selection, lifetime: int)
    requires Reached(run, t) && !R.Used(t.rows, s.family) && R.RawToken(Some(s.org), s.secret) !in t.rows
    ensures Reached(run + SelectionActions(t, s, lifetime), AfterSelection(t, s, None, lifetime).0)
  {
    var st, actions := P.After(run).value, SelectionActions(t, s, lifetime);
    if AfterSelection(t, s, None, lifetime).1.Ok? {
      AcceptedSelectionIsARun(run, t, s, lifetime);
    } else if |actions| == 3 {
      var st' := RefusalSteps(st, s.token);
      StepsExtendRun(run, actions);
    } else if actions != [] {
      IdleStep(st, actions[0]);
      StepsExtendRun(run, actions);
    } else {
      assert run + [] == run;
    }
  }

  /** An undisturbed rotation, likewise: lock, deactivate, issue, commit; a replay locks its
      token and revokes the active rows of the family one by one. */
  lemma RotationIsARun(run: seq<P.Action>, t: Tables, raw: R.RawToken, now: int, lifetime: int, secret: nat)
    returns (actions: seq<P.Action>)
    requires Reached(run, t) && (raw.hint.Some? ==> R.RawToken(raw.hint, secret) !in t.rows)
    ensures Reached(run + actions, t.(rows := R.AfterRotate(t.rows, raw, now, lifetime, secret).0))
    ensures R.AfterRotate(t.rows, raw, now, lifetime, secret).1.Rotated? ==>
              actions == [P.Lock(CLIENT, raw), P.Deactivate(CLIENT), P.Issue(CLIENT, R.RawToken(raw.hint, secret)), P.Commit(CLIENT)]
  {
    match R.Lookup(t.rows, raw) {
      case None =>
        actions := [];
        assert run + [] == run;
      case Some(row) =>
        if !row.active {
          actions := ReplayIsARun(run, t, raw, now);
        } else if row.expiresAt < now {
          actions := [P.Lock(CLIENT, raw), P.Expire(CLIENT), P.Commit(CLIENT)];
          ExpiryIsARun(run, t, raw, now);
        } else {
          actions := [P.Lock(CLIENT, raw), P.Deactivate(CLIENT), P.Issue(CLIENT, R.RawToken(raw.hint, secret)), P.Commit(CLIENT)];
          SuccessIsARun(run, t, raw, now, lifetime, secret);
        }
    }
  }

  lemma StoredFamilyIsIssued(run: seq<P.Action>, t: Tables, raw: R.RawToken)
    requires Reached(run, t) && raw in t.rows
    ensures var st := P.After(run).value;
            raw in st.tokens && st.tokens[raw] == AbstractRow(t.rows[raw]) && st.tokens[raw].family in st.history.issued
  {
    P.RunsKeep(run);
  }

  lemma SuccessIsARun(run: seq<P.Action>, t: Tables, raw: R.RawToken, now: int, lifetime: int, secret: nat)
    requires Reached(run, t) && R.Lookup(t.rows, raw).Some? && R.RawToken(raw.hint, secret) !in t.rows
    requires t.rows[raw].active && t.rows[raw].expiresAt >= now
    ensures var next := R.RawToken(raw.hint, secret);
            Reached(run + [P.Lock(CLIENT, raw), P.Deactivate(CLIENT), P.Issue(CLIENT, next), P.Commit(CLIENT)],
                    t.(rows := R.AfterRotate(t.rows, raw, now, lifetime, secret).0))
  {
    var next := R.RawToken(raw.hint, secret);
    StoredFamilyIsIssued(run, t, raw);
    var st' := RotationSteps(P.After(run).value, raw, next);
    StepsExtendRun(run, [P.Lock(CLIENT, raw), P.Deactivate(CLIENT), P.Issue(CLIENT, next), P.Commit(CLIENT)]);
    RotatedTokens(t.rows, raw, now, lifetime, secret);
  }

  lemma RotatedTokens(rows: R.Table, raw: R.RawToken, now: int, lifetime: int, secret: nat)
    requires R.Lookup(rows, raw).Some? && rows[raw].active && rows[raw].expiresAt >= now
    ensures Tokens(R.AfterRotate(rows, raw, now, lifetime, secret).0)
            == Tokens(rows)[raw := AbstractRow(rows[raw]).(active := false)][R.RawToken(raw.hint, secret) := AbstractRow(rows[raw])]
  {
    var row := rows[raw];
    TokenWritten(rows, raw, R.Revoked(now)(row));
    TokenWritten(rows[raw := R.Revoked(now)(row)], R.RawToken(raw.hint, secret),
                 R.NewRow(row.user, row.org, row.family, now, lifetime));
  }

  lemma ExpiryIsARun(run: seq<P.Action>, t: Tables, raw: R.RawToken, now: int)
    requires Reached(run, t) && raw in t.rows && t.rows[raw].active
    ensures Reached(run + [P.Lock(CLIENT, raw), P.Expire(CLIENT), P.Commit(CLIENT)],
                    t.(rows := t.rows[raw := R.Revoked(now)(t.rows[raw])]))
  {
    var st' := ExpirySteps(P.After(run).value, raw);
    StepsExtendRun(run, [P.Lock(CLIENT, raw), P.Expire(CLIENT), P.Commit(CLIENT)]);
    TokenWritten(t.rows, raw, R.Revoked(now)(t.rows[raw]));
    assert P.Inactive(Tokens(t.rows), {raw}) == Tokens(t.rows)[raw := AbstractRow(t.rows[raw]).(active := false)];
  }

  lemma ReplayIsARun(run: seq<P.Action>, t: Tables, raw: R.RawToken, now: int) returns (actions: seq<P.Action>)
    requires Reached(run, t) && raw in t.rows && !t.rows[raw].active
    ensures var row := t.rows[raw];
            Reached(run + actions, t.(rows := R.Update(t.rows, R.ActiveIn(row.org, row.family), R.FamilyRevoked(now))))
  {
    var hit := R.ActiveIn(t.rows[raw].org, t.rows[raw].family);
    var st';
    actions, st' := RevocationSteps(P.After(run).value, P.Lock(CLIENT, raw), {raw}, Touched(t.rows, hit));
    StepsExtendRun(run, actions);
    RowsRevoked(t.rows, hit, R.FamilyRevoked(now), {raw});
  }

  /** A logout or a logout everywhere is a revocation of the rows its update touches. */
  lemma BulkRevocationIsARun(run: seq<P.Action>, t: Tables, hit: R.Row -> bool, now: int) returns (actions: seq<P.Action>)
    requires Reached(run, t) && forall r: R.Row :: hit(r) ==> r.active
    ensures Reached(run + actions, t.(rows := R.Update(t.rows, hit, R.Revoked(now))))
  {
    var st';
    actions, st' := RevocationSteps(P.After(run).value, P.StartRevocation(CLIENT), {}, Touched(t.rows, hit));
    StepsExtendRun(run, actions);
    RowsRevoked(t.rows, hit, R.Revoked(now), {});
  }

  lemma StartIsARun(run: seq<P.Action>, t: Tables, user: R.UserId, secret: nat, expiresAt: int)
    requires Reached(run, t) && secret !in t.sessions
    ensures Reached(run + [P.CreateSession(secret, user)],
                    t.(sessions := t.sessions[secret := PreAuthSession(user, expiresAt, None)]))
  {
    var st, a := P.After(run).value, P.CreateSession(secret, user);
    NoStep(P.Apply(st, a));
    OneStep(st, a, []);
    assert [a] + [] == [a];
    StepsExtendRun(run, [a]);
    SessionWritten(t, secret, PreAuthSession(user, expiresAt, None));
  }

  ghost predicate Undisturbed(calls: seq<AuthCall>) {
    forall i :: 0 <= i < |calls| && calls[i].Select? ==> calls[i].overtaken.None?
  }

  lemma CallIsARun(run: seq<P.Action>, t: Tables, c: AuthCall, sessionLifetime: int, lifetime: int) returns (actions: seq<P.Action>)
    requires Reached(run, t) && FreshCall(t, c) && (c.Select? ==> c.overtaken.None?)
    ensures Reached(run + actions, ApplyCall(t, c, sessionLifetime, lifetime))
  {
    match c {
      case StartLogin(user, secret, now) =>
        actions := [P.CreateSession(secret, user)];
        StartIsARun(run, t, user, secret, now + sessionLifetime);
      case Select(s, _) =>
        actions := SelectionActions(t, s, lifetime);
        SelectionIsARun(run, t, s, lifetime);
      case TokenCall(call) =>
        match call {
          case Refresh(raw, secret, now) => actions := RotationIsARun(run, t, raw, now, lifetime, secret);
          case Logout(family, org, now) => actions := BulkRevocationIsARun(run, t, R.ActiveIn(org, family), now);
          case LogoutAll(user, org, now) => actions := BulkRevocationIsARun(run, t, R.ActiveOf(org, user), now);
        }
    }
  }

  /** Every undisturbed history of the service is a run of the protocol. */
  lemma {:induction false} HistoryIsARun(run: seq<P.Action>, t: Tables, calls: seq<AuthCall>, sessionLifetime: int, lifetime: int)
    returns (run': seq<P.Action>)
    requires Reached(run, t) && Undisturbed(calls) && IsAuthHistory(t, calls, sessionLifetime, lifetime)
    ensures Reached(run', AfterCalls(t, calls, sessionLifetime, lifetime))
    decreases |calls|
  {
    if calls == [] {
      run' := run;
    } else {
      var actions := CallIsARun(run, t, calls[0], sessionLifetime, lifetime);
      forall i | 0 <= i < |calls[1..]| && calls[1..][i].Select? ensures calls[1..][i].overtaken.None? {
        assert calls[1..][i] == calls[i + 1];
      }
      run' := HistoryIsARun(run + actions, ApplyCall(t, calls[0], sessionLifetime, lifetime), calls[1..], sessionLifetime, lifetime);
    }
  }

  lemma NothingReached()
    ensures Reached([], EMPTY_TABLES)
  {
    assert Sessions(EMPTY_TABLES) == map[] && Tokens(EMPTY_TABLES.rows) == map[];
  }

  /** What the service's tables owe to the protocol: after any undisturbed history, its
      families and its spent sessions correspond one to one, with the same user. */
  lemma ServiceFamiliesMatchSessions(calls: seq<AuthCall>, sessionLifetime: int, lifetime: int) returns (opener: map<R.FamilyId, nat>)
    requires Undisturbed(calls) && IsAuthHistory(EMPTY_TABLES, calls, sessionLifetime, lifetime)
    ensures var t := AfterCalls(EMPTY_TABLES, calls, sessionLifetime, lifetime);
            && (forall f :: f in opener <==> R.Used(t.rows, f))
            && (forall f, g :: f in opener && g in opener && opener[f] == opener[g] ==> f == g)
            && (forall s :: Spent(t, s) <==> s in opener.Values)
            && (forall k :: k in t.rows ==>
                  t.rows[k].family in opener && opener[t.rows[k].family] in t.sessions
                  && t.rows[k].user == t.sessions[opener[t.rows[k].family]].user)
  {
    NothingReached();
    var run := HistoryIsARun([], EMPTY_TABLES, calls, sessionLifetime, lifetime);
    P.FamiliesMatchSessions(run);
    opener := P.After(run).value.history.opener;
    OpenersInTables(P.After(run).value, AfterCalls(EMPTY_TABLES, calls, sessionLifetime, lifetime));
  }

  lemma OpenersInTables(st: P.State, t: Tables)
    requires Represents(st, t)
    requires var opener := st.history.opener;
             && (forall k :: k in st.tokens ==> st.tokens[k].family in opener)
             && (forall f :: f in opener <==> exists k :: k in st.tokens && st.tokens[k].family == f)
             && (forall s :: s in st.sessions && st.sessions[s].consumed <==> s in opener.Values)
             && (forall k :: k in st.tokens ==>
                   opener[st.tokens[k].family] in st.sessions
                   && st.tokens[k].user == st.sessions[opener[st.tokens[k].family]].user)
    ensures forall f :: f in st.history.opener <==> R.Used(t.rows, f)
    ensures forall s :: Spent(t, s) <==> s in st.history.opener.Values
    ensures forall k :: k in t.rows ==>
              t.rows[k].family in st.history.opener && st.history.opener[t.rows[k].family] in t.sessions
              && t.rows[k].user == t.sessions[st.history.opener[t.rows[k].family]].user
  {
    forall k ensures k in t.rows <==> k in st.tokens {
    }
    forall k | k in t.rows ensures st.tokens[k] == AbstractRow(t.rows[k]) {
    }
    forall s ensures Spent(t, s) <==> s in st.sessions && st.sessions[s].consumed {
    }
  }
}
