/** Login and token rotation as a transition system over single database statements.

    Any number of clients run `select_organisation`, `refresh_tokens` and the revocations
    at the same time; each statement is one step, every transaction can roll back at any
    point, and a statement that needs a row another open transaction has written or locked
    is not enabled until that transaction ends.  Rows are read as last committed. */
module LoginProtocol {
  import opened Collections
  import RefreshTokens

  type UserId = nat
  type OrgId = nat
  type SessionId = nat
  type TokenId = RefreshTokens.RawToken
  type FamilyId = nat
  type ClientId = nat

  datatype PreAuthSession = PreAuthSession(user: UserId, consumed: bool)

  datatype RefreshToken = RefreshToken(family: FamilyId, org: OrgId, user: UserId, active: bool)

  /** Where a client's open transaction stands. */
  datatype Phase =
    | Idle
    | LookedUp(session: SessionId)                                        // select returned an unconsumed row
    | Consumed(session: SessionId)                                        // conditional update hit, row locked
    | Opened(session: SessionId, token: TokenId, row: RefreshToken)       // first token of a new family inserted
    | Locked(prior: TokenId)                                                // FOR UPDATE returned an active row
    | Deactivated(prior: TokenId)
    | Rotated(prior: TokenId, token: TokenId, row: RefreshToken)            // successor inserted
    | Revoking(rows: set<TokenId>)                                        // rows set inactive so far

  /** Which committed transaction issued what; only the proofs read it. */
  datatype History = History(
    issued: map<FamilyId, seq<TokenId>>,        // tokens of a family in commit order
    opener: map<FamilyId, SessionId>,           // the pre-auth session that opened it
    parent: map<TokenId, TokenId>)              // the token a successor replaced

  datatype State = State(
    sessions: map<SessionId, PreAuthSession>,
    tokens: map<TokenId, RefreshToken>,
    phases: map<ClientId, Phase>,
    history: History)

  datatype Action =
    | CreateSession(session: SessionId, user: UserId)
    | Lookup(client: ClientId, session: SessionId)
    | LookupExpired(client: ClientId, session: SessionId)
    | Claim(client: ClientId)
    | Open(client: ClientId, org: OrgId, family: FamilyId, token: TokenId)
    | Lock(client: ClientId, token: TokenId)
    | Expire(client: ClientId)
    | Deactivate(client: ClientId)
    | Issue(client: ClientId, token: TokenId)
    | StartRevocation(client: ClientId)
    | RevokeRow(client: ClientId, token: TokenId)
    | Commit(client: ClientId)
    | Rollback(client: ClientId)

  function PhaseOf(st: State, c: ClientId): Phase {
    if c in st.phases then st.phases[c] else Idle
  }

  predicate Holds(p: Phase, t: TokenId) {
    match p
    case Locked(prior) => prior == t
    case Deactivated(prior) => prior == t
    case Rotated(prior, _, _) => prior == t
    case Revoking(rows) => t in rows
    case _ => false
  }

  predicate HoldsSession(p: Phase, s: SessionId) {
    match p
    case Consumed(session) => session == s
    case Opened(session, _, _) => session == s
    case _ => false
  }

  predicate Inserts(p: Phase, t: TokenId) {
    (p.Opened? || p.Rotated?) && p.token == t
  }

  predicate InsertsFamily(p: Phase, f: FamilyId) {
    p.Opened? && p.row.family == f
  }

  ghost predicate TokenFree(st: State, c: ClientId, t: TokenId) {
    forall d :: d in st.phases && d != c ==> !Holds(st.phases[d], t)
  }

  ghost predicate SessionFree(st: State, c: ClientId, s: SessionId) {
    forall d :: d in st.phases && d != c ==> !HoldsSession(st.phases[d], s)
  }

  ghost predicate FreshToken(st: State, t: TokenId) {
    t !in st.tokens && forall d :: d in st.phases ==> !Inserts(st.phases[d], t)
  }

  ghost predicate FreshFamily(st: State, f: FamilyId) {
    f !in st.history.issued && forall d :: d in st.phases ==> !InsertsFamily(st.phases[d], f)
  }

  /** When a statement can execute.  The rows it refers to exist: nothing deletes them. */
  ghost predicate Enabled(st: State, a: Action) {
    match a
    case CreateSession(s, _) => s !in st.sessions
    case Lookup(c, s) => PhaseOf(st, c) == Idle && s in st.sessions
    case LookupExpired(c, s) => PhaseOf(st, c) == Idle && s in st.sessions
    case Claim(c) =>
      PhaseOf(st, c).LookedUp? && PhaseOf(st, c).session in st.sessions && SessionFree(st, c, PhaseOf(st, c).session)
    case Open(c, _, f, t) =>
      PhaseOf(st, c).Consumed? && PhaseOf(st, c).session in st.sessions && FreshFamily(st, f) && FreshToken(st, t)
    case Lock(c, t) => PhaseOf(st, c) == Idle && t in st.tokens && TokenFree(st, c, t)
    case Expire(c) => PhaseOf(st, c).Locked?
    case Deactivate(c) => PhaseOf(st, c).Locked?
    case Issue(c, t) => PhaseOf(st, c).Deactivated? && PhaseOf(st, c).prior in st.tokens && FreshToken(st, t)
    case StartRevocation(c) => PhaseOf(st, c) == Idle
    case RevokeRow(c, t) => PhaseOf(st, c).Revoking? && t in st.tokens && st.tokens[t].active && TokenFree(st, c, t)
    case Commit(c) => Committable(st, PhaseOf(st, c))
    case Rollback(c) => !PhaseOf(st, c).Idle?
  }

  ghost predicate Committable(st: State, p: Phase) {
    match p
    case Opened(s, _, _) => s in st.sessions
    case Rotated(prior, _, row) => prior in st.tokens && row.family in st.history.issued
    case Revoking(_) => true
    case _ => false
  }

  function Move(st: State, c: ClientId, p: Phase): State {
    st.(phases := st.phases[c := p])
  }

  function Inactive(tokens: map<TokenId, RefreshToken>, rows: set<TokenId>): (r: map<TokenId, RefreshToken>)
    ensures r.Keys == tokens.Keys
    ensures forall t :: t in r ==> r[t] == if t in rows then tokens[t].(active := false) else tokens[t]
  {
    map t | t in tokens :: if t in rows then tokens[t].(active := false) else tokens[t]
  }

  /** The effect of committing a transaction in phase `p`. */
  ghost function Committed(st: State, p: Phase): State
    requires Committable(st, p)
  {
    var h := st.history;
    match p
    case Opened(s, t, row) =>
      st.(sessions := st.sessions[s := st.sessions[s].(consumed := true)],
          tokens := st.tokens[t := row],
          history := h.(issued := h.issued[row.family := [t]], opener := h.opener[row.family := s]))
    case Rotated(prior, t, row) =>
      st.(tokens := st.tokens[prior := st.tokens[prior].(active := false)][t := row],
          history := h.(issued := h.issued[row.family := h.issued[row.family] + [t]], parent := h.parent[t := prior]))
    case Revoking(rows) => st.(tokens := Inactive(st.tokens, rows))
  }

  ghost function Apply(st: State, a: Action): State
    requires Enabled(st, a)
  {
    match a
    case CreateSession(s, user) => st.(sessions := st.sessions[s := PreAuthSession(user, false)])
    case Lookup(c, s) => if st.sessions[s].consumed then st else Move(st, c, LookedUp(s))
    case LookupExpired(_, _) => st
    case Claim(c) =>
      var s := PhaseOf(st, c).session;
      if st.sessions[s].consumed then Move(st, c, Idle) else Move(st, c, Consumed(s))
    case Open(c, org, f, t) =>
      var s := PhaseOf(st, c).session;
      Move(st, c, Opened(s, t, RefreshToken(f, org, st.sessions[s].user, true)))
    case Lock(c, t) => if st.tokens[t].active then Move(st, c, Locked(t)) else Move(st, c, Revoking({t}))
    case Expire(c) => Move(st, c, Revoking({PhaseOf(st, c).prior}))
    case Deactivate(c) => Move(st, c, Deactivated(PhaseOf(st, c).prior))
    case Issue(c, t) => Move(st, c, Rotated(PhaseOf(st, c).prior, t, st.tokens[PhaseOf(st, c).prior]))
    case StartRevocation(c) => Move(st, c, Revoking({}))
    case RevokeRow(c, t) => Move(st, c, Revoking(PhaseOf(st, c).rows + {t}))
    case Commit(c) => Move(Committed(st, PhaseOf(st, c)), c, Idle)
    case Rollback(c) => Move(st, c, Idle)
  }

  const INITIAL := State(map[], map[], map[], History(map[], map[], map[]))

  /** The state a run leads to; None when an action was not enabled where it occurs. */
  ghost function After(run: seq<Action>): Option<State> {
    if run == [] then Some(INITIAL)
    else
      match After(run[..|run| - 1])
      case None => None
      case Some(st) => if Enabled(st, run[|run| - 1]) then Some(Apply(st, run[|run| - 1])) else None
  }

  // ----- the invariant -----

  ghost predicate Compatible(p: Phase, q: Phase) {
    && (forall t :: !(Holds(p, t) && Holds(q, t)))
    && (forall s :: !(HoldsSession(p, s) && HoldsSession(q, s)))
    && (forall t :: !(Inserts(p, t) && Inserts(q, t)))
    && (forall f :: !(InsertsFamily(p, f) && InsertsFamily(q, f)))
  }

  ghost predicate PhaseSound(st: State, p: Phase) {
    match p
    case Idle => true
    case LookedUp(s) => s in st.sessions
    case Consumed(s) => s in st.sessions && !st.sessions[s].consumed
    case Opened(s, t, row) =>
      && s in st.sessions && !st.sessions[s].consumed
      && t !in st.tokens && row.family !in st.history.issued
      && row.active && row.user == st.sessions[s].user
    case Locked(prior) => prior in st.tokens && st.tokens[prior].active
    case Deactivated(prior) => prior in st.tokens && st.tokens[prior].active
    case Rotated(prior, t, row) =>
      prior in st.tokens && st.tokens[prior].active && row == st.tokens[prior] && t !in st.tokens
    case Revoking(rows) => rows <= st.tokens.Keys
  }

  ghost predicate PhasesSound(st: State) {
    && (forall c :: c in st.phases ==> PhaseSound(st, st.phases[c]))
    && (forall c, d :: c in st.phases && d in st.phases && c != d ==> Compatible(st.phases[c], st.phases[d]))
  }

  /** Family `f` is a chain in commit order of which only the last token can be active. */
  ghost predicate IsChain(st: State, f: FamilyId, chain: seq<TokenId>) {
    && ChainLists(st, f, chain) && ChainQuiet(st, chain) && ChainLinked(st, chain) && ChainUniform(st, chain)
  }

  /** The chain lists every token of the family once. */
  ghost predicate ChainLists(st: State, f: FamilyId, chain: seq<TokenId>) {
    && chain != []
    && (forall i :: 0 <= i < |chain| ==> chain[i] in st.tokens && st.tokens[chain[i]].family == f)
    && (forall t :: t in st.tokens && st.tokens[t].family == f ==> t in chain)
    && (forall i, j :: 0 <= i < j < |chain| ==> chain[i] != chain[j])
  }

  ghost predicate ChainQuiet(st: State, chain: seq<TokenId>) {
    forall i :: 0 <= i < |chain| - 1 ==> chain[i] in st.tokens && !st.tokens[chain[i]].active
  }

  /** Each token but the first replaced the one before it. */
  ghost predicate ChainLinked(st: State, chain: seq<TokenId>) {
    forall i :: 0 < i < |chain| ==> chain[i] in st.history.parent && st.history.parent[chain[i]] == chain[i - 1]
  }

  /** All tokens have the first one's user and organisation. */
  ghost predicate ChainUniform(st: State, chain: seq<TokenId>) {
    forall i :: 0 <= i < |chain| ==>
      && chain[i] in st.tokens && chain[0] in st.tokens
      && st.tokens[chain[i]].user == st.tokens[chain[0]].user && st.tokens[chain[i]].org == st.tokens[chain[0]].org
  }

  ghost predicate ChainsSound(st: State) {
    && (forall f :: f in st.history.issued ==> IsChain(st, f, st.history.issued[f]))
    && (forall t :: t in st.tokens ==> st.tokens[t].family in st.history.issued)
  }

  /** Committed families and consumed sessions correspond one to one, with the same user. */
  ghost predicate OpenersSound(st: State) {
    && OpenersConsumed(st) && OpenersInjective(st) && ConsumedOpened(st) && TokensMatchOpeners(st)
  }

  ghost predicate OpenersConsumed(st: State) {
    && st.history.opener.Keys == st.history.issued.Keys
    && forall f :: f in st.history.opener ==>
         st.history.opener[f] in st.sessions && st.sessions[st.history.opener[f]].consumed
  }

  ghost predicate OpenersInjective(st: State) {
    forall f, g :: f in st.history.opener && g in st.history.opener && st.history.opener[f] == st.history.opener[g] ==> f == g
  }

  ghost predicate ConsumedOpened(st: State) {
    forall s :: s in st.sessions && st.sessions[s].consumed ==> exists f :: f in st.history.opener && st.history.opener[f] == s
  }

  ghost predicate TokensMatchOpeners(st: State) {
    forall t :: t in st.tokens ==>
      && st.tokens[t].family in st.history.opener
      && st.history.opener[st.tokens[t].family] in st.sessions
      && st.tokens[t].user == st.sessions[st.history.opener[st.tokens[t].family]].user
  }

  ghost predicate Inv(st: State) {
    PhasesSound(st) && ChainsSound(st) && OpenersSound(st)
  }

  // ----- every action keeps the invariant -----

  lemma MovedPhases(st: State, c: ClientId, p: Phase)
    requires PhasesSound(st) && PhaseSound(st, p)
    requires forall d :: d in st.phases && d != c ==> Compatible(p, st.phases[d])
    ensures PhasesSound(Move(st, c, p))
  {
    var st' := Move(st, c, p);
    forall d | d in st'.phases ensures PhaseSound(st', st'.phases[d]) {
      assert PhaseSound(st, if d == c then p else st.phases[d]);
    }
    forall d, e | d in st'.phases && e in st'.phases && d != e ensures Compatible(st'.phases[d], st'.phases[e]) {
      assert d != c && e != c ==> Compatible(st.phases[d], st.phases[e]);
      assert d != c ==> Compatible(p, st.phases[d]);
      assert e != c ==> Compatible(p, st.phases[e]);
    }
  }

  /** A move of one client to a phase that fits with the others'. */
  lemma MoveKeeps(st: State, c: ClientId, p: Phase)
    requires Inv(st) && PhaseSound(st, p)
    requires forall d :: d in st.phases && d != c ==> Compatible(p, st.phases[d])
    ensures Inv(Move(st, c, p))
  {
    MovedPhases(st, c, p);
    SameRowsSameChains(st, Move(st, c, p));
    SameRowsSameOpeners(st, Move(st, c, p));
  }

  /** The family's tokens are the same, except perhaps deactivated, and so are their parents. */
  ghost predicate FamilyKept(st: State, st': State, f: FamilyId) {
    && (forall t :: t in st.tokens && st.tokens[t].family == f ==>
          && t in st'.tokens && SameButActive(st.tokens[t], st'.tokens[t])
          && (t in st.history.parent ==> t in st'.history.parent && st'.history.parent[t] == st.history.parent[t]))
    && (forall t :: t in st'.tokens && st'.tokens[t].family == f ==> t in st.tokens && st.tokens[t].family == f)
  }

  predicate SameButActive(row: RefreshToken, row': RefreshToken) {
    row'.family == row.family && row'.org == row.org && row'.user == row.user && (row'.active ==> row.active)
  }

  lemma KeptLists(st: State, st': State, f: FamilyId, chain: seq<TokenId>)
    requires ChainLists(st, f, chain) && FamilyKept(st, st', f)
    ensures ChainLists(st', f, chain)
  {
  }

  lemma KeptLinks(st: State, st': State, f: FamilyId, chain: seq<TokenId>)
    requires ChainLists(st, f, chain) && ChainLinked(st, chain) && FamilyKept(st, st', f)
    ensures ChainLinked(st', chain)
  {
    forall i | 0 < i < |chain| ensures chain[i] in st'.history.parent && st'.history.parent[chain[i]] == chain[i - 1] {
      assert st.tokens[chain[i]].family == f;
    }
  }

  lemma KeptRows(st: State, st': State, f: FamilyId, chain: seq<TokenId>)
    requires ChainLists(st, f, chain) && ChainQuiet(st, chain) && ChainUniform(st, chain) && FamilyKept(st, st', f)
    ensures ChainQuiet(st', chain) && ChainUniform(st', chain)
  {
    forall i | 0 <= i < |chain| ensures chain[i] in st'.tokens && SameButActive(st.tokens[chain[i]], st'.tokens[chain[i]]) {
      assert st.tokens[chain[i]].family == f;
    }
  }

  lemma KeptChain(st: State, st': State, f: FamilyId, chain: seq<TokenId>)
    requires IsChain(st, f, chain) && FamilyKept(st, st', f)
    ensures IsChain(st', f, chain)
  {
    KeptLists(st, st', f, chain);
    KeptLinks(st, st', f, chain);
    KeptRows(st, st', f, chain);
  }

  lemma SameRowsSameChains(st: State, st': State)
    requires st'.tokens == st.tokens && st'.history == st.history && ChainsSound(st)
    ensures ChainsSound(st')
  {
    forall f | f in st'.history.issued ensures IsChain(st', f, st'.history.issued[f]) {
      KeptChain(st, st', f, st.history.issued[f]);
    }
  }

  lemma SameRowsSameOpeners(st: State, st': State)
    requires st'.tokens == st.tokens && st'.sessions == st.sessions && st'.history == st.history && OpenersSound(st)
    ensures OpenersSound(st')
  {
  }

  lemma Grows(p: Phase, p': Phase, q: Phase)
    requires Compatible(p, q)
    requires forall t :: Holds(p', t) && Holds(q, t) ==> Holds(p, t)
    requires forall s :: HoldsSession(p', s) && HoldsSession(q, s) ==> HoldsSession(p, s)
    requires forall t :: Inserts(p', t) && Inserts(q, t) ==> Inserts(p, t)
    requires forall f :: InsertsFamily(p', f) && InsertsFamily(q, f) ==> InsertsFamily(p, f)
    ensures Compatible(p', q)
  {
  }

  lemma IdleCompatible(q: Phase)
    ensures Compatible(Idle, q)
  {
  }

  /** What a statement may claim: only rows no other open transaction has. */
  ghost predicate Unclaimed(st: State, c: ClientId, p: Phase) {
    forall d :: d in st.phases && d != c ==>
      && (forall t :: Holds(p, t) && Holds(st.phases[d], t) ==> Holds(PhaseOf(st, c), t))
      && (forall s :: HoldsSession(p, s) && HoldsSession(st.phases[d], s) ==> HoldsSession(PhaseOf(st, c), s))
      && (forall t :: Inserts(p, t) && Inserts(st.phases[d], t) ==> Inserts(PhaseOf(st, c), t))
      && (forall f :: InsertsFamily(p, f) && InsertsFamily(st.phases[d], f) ==> InsertsFamily(PhaseOf(st, c), f))
  }

  lemma MoveUnclaimedKeeps(st: State, c: ClientId, p: Phase)
    requires Inv(st) && PhaseSound(st, p) && Unclaimed(st, c, p)
    ensures Inv(Move(st, c, p))
  {
    forall d | d in st.phases && d != c ensures Compatible(p, st.phases[d]) {
      if c in st.phases { assert Compatible(st.phases[c], st.phases[d]); } else { IdleCompatible(st.phases[d]); }
      Grows(PhaseOf(st, c), p, st.phases[d]);
    }
    MoveKeeps(st, c, p);
  }

  /** Each statement moves its client to a phase that is sound and claims nothing taken. */
  ghost predicate Fits(st: State, c: ClientId, p: Phase) {
    PhaseSound(st, p) && Unclaimed(st, c, p)
  }

  lemma EmptyHandedFits(st: State, c: ClientId, p: Phase)
    requires p == Idle || p == Revoking({}) || (p.LookedUp? && p.session in st.sessions)
    ensures Fits(st, c, p)
  {
  }

  lemma ClaimFits(st: State, c: ClientId)
    requires Enabled(st, Claim(c)) && !st.sessions[PhaseOf(st, c).session].consumed
    ensures Fits(st, c, Consumed(PhaseOf(st, c).session))
  {
  }

  lemma OpenFits(st: State, c: ClientId, org: OrgId, f: FamilyId, t: TokenId)
    requires PhaseSound(st, PhaseOf(st, c)) && Enabled(st, Open(c, org, f, t))
    ensures var s := PhaseOf(st, c).session;
            Fits(st, c, Opened(s, t, RefreshToken(f, org, st.sessions[s].user, true)))
  {
  }

  lemma LockFits(st: State, c: ClientId, t: TokenId)
    requires Enabled(st, Lock(c, t))
    ensures st.tokens[t].active ==> Fits(st, c, Locked(t))
    ensures Fits(st, c, Revoking({t}))
  {
  }

  lemma IssueFits(st: State, c: ClientId, t: TokenId)
    requires PhaseSound(st, PhaseOf(st, c)) && Enabled(st, Issue(c, t))
    ensures Fits(st, c, Rotated(PhaseOf(st, c).prior, t, st.tokens[PhaseOf(st, c).prior]))
  {
  }

  lemma RevokeRowFits(st: State, c: ClientId, t: TokenId)
    requires PhaseSound(st, PhaseOf(st, c)) && Enabled(st, RevokeRow(c, t))
    ensures Fits(st, c, Revoking(PhaseOf(st, c).rows + {t}))
  {
  }

  lemma LockedFits(st: State, c: ClientId)
    requires PhaseSound(st, PhaseOf(st, c)) && PhaseOf(st, c).Locked?
    ensures Fits(st, c, Deactivated(PhaseOf(st, c).prior))
    ensures Fits(st, c, Revoking({PhaseOf(st, c).prior}))
  {
  }

  lemma StatementFits(st: State, a: Action)
    requires PhasesSound(st) && Enabled(st, a)
    requires !a.CreateSession? && !a.LookupExpired? && !a.Commit?
    ensures Apply(st, a) == st || (Apply(st, a) == Move(st, a.client, PhaseOf(Apply(st, a), a.client))
                                   && Fits(st, a.client, PhaseOf(Apply(st, a), a.client)))
  {
    assert PhaseSound(st, PhaseOf(st, a.client));
    match a
    case Lookup(c, s) => EmptyHandedFits(st, c, LookedUp(s));
    case Claim(c) =>
      if st.sessions[PhaseOf(st, c).session].consumed { EmptyHandedFits(st, c, Idle); } else { ClaimFits(st, c); }
    case Open(c, org, f, t) => OpenFits(st, c, org, f, t);
    case Lock(c, t) => LockFits(st, c, t);
    case Expire(c) => LockedFits(st, c);
    case Deactivate(c) => LockedFits(st, c);
    case Issue(c, t) => IssueFits(st, c, t);
    case StartRevocation(c) => EmptyHandedFits(st, c, Revoking({}));
    case RevokeRow(c, t) => RevokeRowFits(st, c, t);
    case Rollback(c) => EmptyHandedFits(st, c, Idle);
  }

  lemma CreateSessionKeepsPhases(st: State, s: SessionId, user: UserId)
    requires PhasesSound(st) && s !in st.sessions
    ensures PhasesSound(Apply(st, CreateSession(s, user)))
  {
    var st' := Apply(st, CreateSession(s, user));
    forall c | c in st'.phases ensures PhaseSound(st', st'.phases[c]) {
      assert PhaseSound(st, st.phases[c]);
    }
  }

  lemma CreateSessionKeepsOpeners(st: State, s: SessionId, user: UserId)
    requires OpenersSound(st) && s !in st.sessions
    ensures OpenersSound(Apply(st, CreateSession(s, user)))
  {
    var st' := Apply(st, CreateSession(s, user));
    forall x | x in st'.sessions && st'.sessions[x].consumed
      ensures exists f :: f in st'.history.opener && st'.history.opener[f] == x {
      assert x in st.sessions && st.sessions[x].consumed;
    }
  }

  lemma CreateSessionKeeps(st: State, s: SessionId, user: UserId)
    requires Inv(st) && s !in st.sessions
    ensures Inv(Apply(st, CreateSession(s, user)))
  {
    CreateSessionKeepsPhases(st, s, user);
    CreateSessionKeepsOpeners(st, s, user);
    SameRowsSameChains(st, Apply(st, CreateSession(s, user)));
  }

  lemma OthersStaySound(st: State, st': State, c: ClientId)
    requires PhasesSound(st) && c in st.phases && st'.phases == st.phases[c := Idle]
    requires forall d :: d in st.phases && d != c ==> PhaseSound(st', st.phases[d])
    ensures PhasesSound(st')
  {
    forall d, e | d in st'.phases && e in st'.phases && d != e ensures Compatible(st'.phases[d], st'.phases[e]) {
      if d == c { IdleCompatible(st'.phases[e]); }
      else if e == c { IdleCompatible(st'.phases[d]); }
      else { assert Compatible(st.phases[d], st.phases[e]); }
    }
  }

  // Committing a revocation.

  /** The commit deactivates exactly the touched rows and keeps chains and openers, whichever
      rows and however many the revocation touched. */
  lemma RevocationCommitKeeps(st: State, c: ClientId)
    requires Inv(st) && Enabled(st, Commit(c)) && PhaseOf(st, c).Revoking?
    ensures Inv(Apply(st, Commit(c)))
    ensures var rows, st' := PhaseOf(st, c).rows, Apply(st, Commit(c));
            && rows <= st'.tokens.Keys == st.tokens.Keys
            && (forall t :: t in rows ==> !st'.tokens[t].active)
            && (forall t :: t in st.tokens && t !in rows ==> st'.tokens[t] == st.tokens[t])
            && st'.sessions == st.sessions && st'.history == st.history
  {
    var rows := PhaseOf(st, c).rows;
    var st' := Apply(st, Commit(c));
    assert PhaseSound(st, PhaseOf(st, c));
    RevocationPhases(st, c);
    RevocationRowsSound(st, st', rows);
  }

  lemma RevocationPhases(st: State, c: ClientId)
    requires PhasesSound(st) && Enabled(st, Commit(c)) && PhaseOf(st, c).Revoking?
    ensures PhasesSound(Apply(st, Commit(c)))
  {
    var rows := PhaseOf(st, c).rows;
    var st' := Apply(st, Commit(c));
    forall d | d in st.phases && d != c ensures PhaseSound(st', st.phases[d]) {
      assert PhaseSound(st, st.phases[d]) && Compatible(st.phases[d], st.phases[c]);
      RowsUntouched(st, st', rows, st.phases[d]);
    }
    OthersStaySound(st, st', c);
  }

  ghost predicate OnlyDeactivates(st: State, st': State) {
    && st'.sessions == st.sessions && st'.history == st.history && st'.tokens.Keys == st.tokens.Keys
    && forall t :: t in st.tokens ==> SameButActive(st.tokens[t], st'.tokens[t])
  }

  lemma RevocationRowsSound(st: State, st': State, rows: set<TokenId>)
    requires ChainsSound(st) && OpenersSound(st)
    requires st'.sessions == st.sessions && st'.history == st.history && st'.tokens == Inactive(st.tokens, rows)
    ensures ChainsSound(st') && OpenersSound(st')
  {
    assert OnlyDeactivates(st, st');
    DeactivatedOpeners(st, st');
    DeactivatedFamilies(st, st');
    forall f | f in st'.history.issued ensures IsChain(st', f, st'.history.issued[f]) {
      DeactivatedChain(st, st', f, st.history.issued[f]);
    }
  }

  lemma DeactivatedFamilies(st: State, st': State)
    requires ChainsSound(st) && OnlyDeactivates(st, st')
    ensures forall t :: t in st'.tokens ==> st'.tokens[t].family in st'.history.issued
  {
    forall t | t in st'.tokens ensures st'.tokens[t].family in st'.history.issued {
      assert SameButActive(st.tokens[t], st'.tokens[t]);
    }
  }

  lemma DeactivatedOpeners(st: State, st': State)
    requires OpenersSound(st) && OnlyDeactivates(st, st')
    ensures OpenersSound(st')
  {
    forall t | t in st'.tokens ensures SameButActive(st.tokens[t], st'.tokens[t]) {
    }
  }

  lemma DeactivatedChain(st: State, st': State, f: FamilyId, chain: seq<TokenId>)
    requires IsChain(st, f, chain) && OnlyDeactivates(st, st')
    ensures IsChain(st', f, chain)
  {
    forall t | t in st.tokens ensures SameButActive(st.tokens[t], st'.tokens[t]) {
    }
    KeptChain(st, st', f, chain);
  }

  lemma RowsUntouched(st: State, st': State, rows: set<TokenId>, q: Phase)
    requires PhaseSound(st, q) && Compatible(q, Revoking(rows))
    requires st'.sessions == st.sessions && st'.history == st.history && st'.tokens == Inactive(st.tokens, rows)
    ensures PhaseSound(st', q)
  {
    if q.Locked? || q.Deactivated? || q.Rotated? {
      assert Holds(q, q.prior);
      assert !Holds(Revoking(rows), q.prior);
    }
  }

  // Committing a new family.

  lemma OpeningCommitKeeps(st: State, c: ClientId)
    requires Inv(st) && Enabled(st, Commit(c)) && PhaseOf(st, c).Opened?
    ensures Inv(Apply(st, Commit(c)))
  {
    var p := PhaseOf(st, c);
    var st' := Apply(st, Commit(c));
    assert PhaseSound(st, p);
    forall d | d in st.phases && d != c ensures PhaseSound(st', st.phases[d]) {
      assert PhaseSound(st, st.phases[d]) && Compatible(st.phases[d], p);
      OpeningUntouched(st, st', p, st.phases[d]);
    }
    OthersStaySound(st, st', c);
    OpeningChains(st, st', p);
    OpeningOpeners(st, st', p);
  }

  ghost predicate OpeningEffect(st: State, st': State, p: Phase) {
    && p.Opened? && PhaseSound(st, p)
    && st'.sessions == st.sessions[p.session := st.sessions[p.session].(consumed := true)]
    && st'.tokens == st.tokens[p.token := p.row]
    && st'.history == History(st.history.issued[p.row.family := [p.token]],
                              st.history.opener[p.row.family := p.session], st.history.parent)
  }

  lemma OpeningUntouched(st: State, st': State, p: Phase, q: Phase)
    requires OpeningEffect(st, st', p) && PhaseSound(st, q) && Compatible(q, p)
    ensures PhaseSound(st', q)
  {
    assert HoldsSession(p, p.session) && Inserts(p, p.token) && InsertsFamily(p, p.row.family);
    if q.Consumed? || q.Opened? { assert HoldsSession(q, q.session); }
    if q.Opened? || q.Rotated? { assert Inserts(q, q.token); }
    if q.Opened? { assert InsertsFamily(q, q.row.family); }
  }

  lemma OpeningChains(st: State, st': State, p: Phase)
    requires ChainsSound(st) && OpeningEffect(st, st', p)
    ensures ChainsSound(st')
  {
    OpeningFirstChain(st, st', p);
    forall f | f in st'.history.issued ensures IsChain(st', f, st'.history.issued[f]) {
      if f != p.row.family { OpeningOtherChain(st, st', p, f); }
    }
  }

  lemma OpeningFirstChain(st: State, st': State, p: Phase)
    requires ChainsSound(st) && OpeningEffect(st, st', p)
    ensures IsChain(st', p.row.family, [p.token])
  {
  }

  lemma OpeningOtherChain(st: State, st': State, p: Phase, f: FamilyId)
    requires OpeningEffect(st, st', p) && f in st.history.issued && f != p.row.family
    requires IsChain(st, f, st.history.issued[f])
    ensures IsChain(st', f, st.history.issued[f])
  {
    KeptChain(st, st', f, st.history.issued[f]);
  }

  lemma OpeningConsumedOpened(st: State, st': State, p: Phase)
    requires ConsumedOpened(st) && OpeningEffect(st, st', p) && st.history.opener.Keys == st.history.issued.Keys
    ensures ConsumedOpened(st')
  {
    forall s | s in st'.sessions && st'.sessions[s].consumed
      ensures exists f :: f in st'.history.opener && st'.history.opener[f] == s
    {
      if s == p.session {
        assert st'.history.opener[p.row.family] == s;
      } else {
        var f :| f in st.history.opener && st.history.opener[f] == s;
        assert f != p.row.family;
        assert st'.history.opener[f] == s;
      }
    }
  }

  lemma OpeningConsumes(st: State, st': State, p: Phase)
    requires OpenersConsumed(st) && OpenersInjective(st) && OpeningEffect(st, st', p)
    ensures OpenersConsumed(st') && OpenersInjective(st')
  {
    forall f | f in st.history.opener ensures st.history.opener[f] != p.session {
      assert st.sessions[st.history.opener[f]].consumed;
    }
  }

  lemma OpeningTokens(st: State, st': State, p: Phase)
    requires OpenersConsumed(st) && TokensMatchOpeners(st) && OpeningEffect(st, st', p)
    ensures TokensMatchOpeners(st')
  {
  }

  lemma OpeningOpeners(st: State, st': State, p: Phase)
    requires OpenersSound(st) && OpeningEffect(st, st', p)
    ensures OpenersSound(st')
  {
    OpeningConsumedOpened(st, st', p);
    OpeningConsumes(st, st', p);
    OpeningTokens(st, st', p);
  }

  // Committing a rotation.

  lemma RotationCommitKeeps(st: State, c: ClientId)
    requires Inv(st) && Enabled(st, Commit(c)) && PhaseOf(st, c).Rotated?
    ensures Inv(Apply(st, Commit(c)))
  {
    var p := PhaseOf(st, c);
    var st' := Apply(st, Commit(c));
    assert PhaseSound(st, p);
    forall d | d in st.phases && d != c ensures PhaseSound(st', st.phases[d]) {
      assert PhaseSound(st, st.phases[d]) && Compatible(st.phases[d], p);
      RotationUntouched(st, st', p, st.phases[d]);
    }
    OthersStaySound(st, st', c);
    RotationChains(st, st', p);
    RotationOpeners(st, st', p);
  }

  lemma RotationTokens(st: State, st': State, p: Phase)
    requires TokensMatchOpeners(st) && RotationEffect(st, st', p)
    ensures TokensMatchOpeners(st')
  {
  }

  lemma RotationOpeners(st: State, st': State, p: Phase)
    requires OpenersSound(st) && RotationEffect(st, st', p)
    ensures OpenersSound(st')
  {
    RotationTokens(st, st', p);
    assert OpenersConsumed(st') && OpenersInjective(st') && ConsumedOpened(st');
  }

  ghost predicate RotationEffect(st: State, st': State, p: Phase) {
    && p.Rotated? && PhaseSound(st, p) && p.row.family in st.history.issued
    && st'.sessions == st.sessions
    && st'.tokens == st.tokens[p.prior := p.row.(active := false)][p.token := p.row]
    && st'.history == History(st.history.issued[p.row.family := st.history.issued[p.row.family] + [p.token]],
                              st.history.opener, st.history.parent[p.token := p.prior])
  }

  lemma RotationUntouched(st: State, st': State, p: Phase, q: Phase)
    requires RotationEffect(st, st', p) && PhaseSound(st, q) && Compatible(q, p)
    ensures PhaseSound(st', q)
  {
    assert Holds(p, p.prior) && Inserts(p, p.token);
    if q.Locked? || q.Deactivated? || q.Rotated? { assert Holds(q, q.prior); }
    if q.Opened? || q.Rotated? { assert Inserts(q, q.token); }
  }

  /** The rotated token was still active, so it was the last of its chain. */
  lemma ActiveIsLast(st: State, t: TokenId)
    requires ChainsSound(st) && t in st.tokens && st.tokens[t].active
    ensures var chain := st.history.issued[st.tokens[t].family];
            chain != [] && t == chain[|chain| - 1]
  {
    var f := st.tokens[t].family;
    var chain := st.history.issued[f];
    assert IsChain(st, f, chain);
    assert t in chain;
  }

  lemma RotationChains(st: State, st': State, p: Phase)
    requires ChainsSound(st) && RotationEffect(st, st', p)
    ensures ChainsSound(st')
  {
    ActiveIsLast(st, p.prior);
    forall f | f in st'.history.issued ensures IsChain(st', f, st'.history.issued[f]) {
      assert IsChain(st, f, st.history.issued[f]);
      if f == p.row.family { RotatedChain(st, st', p); } else { UnrelatedChain(st, st', p, f); }
    }
  }

  lemma UnrelatedChain(st: State, st': State, p: Phase, f: FamilyId)
    requires RotationEffect(st, st', p) && f in st.history.issued && f != p.row.family
    requires IsChain(st, f, st.history.issued[f])
    ensures IsChain(st', f, st.history.issued[f])
  {
    KeptChain(st, st', f, st.history.issued[f]);
  }

  lemma RotatedLists(st: State, st': State, p: Phase, chain: seq<TokenId>)
    requires RotationEffect(st, st', p) && ChainLists(st, p.row.family, chain)
    ensures ChainLists(st', p.row.family, chain + [p.token])
  {
  }

  lemma RotatedLinks(st: State, st': State, p: Phase, chain: seq<TokenId>)
    requires RotationEffect(st, st', p) && ChainLists(st, p.row.family, chain) && ChainLinked(st, chain)
    requires p.prior == chain[|chain| - 1]
    ensures ChainLinked(st', chain + [p.token])
  {
  }

  lemma RotatedRows(st: State, st': State, p: Phase, chain: seq<TokenId>)
    requires RotationEffect(st, st', p) && ChainLists(st, p.row.family, chain)
    requires ChainQuiet(st, chain) && ChainUniform(st, chain) && p.prior == chain[|chain| - 1]
    ensures ChainQuiet(st', chain + [p.token]) && ChainUniform(st', chain + [p.token])
  {
  }

  lemma RotatedChain(st: State, st': State, p: Phase)
    requires RotationEffect(st, st', p)
    requires IsChain(st, p.row.family, st.history.issued[p.row.family])
    requires p.prior == st.history.issued[p.row.family][|st.history.issued[p.row.family]| - 1]
    ensures IsChain(st', p.row.family, st'.history.issued[p.row.family])
  {
    var chain := st.history.issued[p.row.family];
    RotatedLists(st, st', p, chain);
    RotatedLinks(st, st', p, chain);
    RotatedRows(st, st', p, chain);
  }

  lemma CommitKeeps(st: State, c: ClientId)
    requires Inv(st) && Enabled(st, Commit(c))
    ensures Inv(Apply(st, Commit(c)))
  {
    match PhaseOf(st, c)
    case Revoking(_) => RevocationCommitKeeps(st, c);
    case Opened(_, _, _) => OpeningCommitKeeps(st, c);
    case Rotated(_, _, _) => RotationCommitKeeps(st, c);
  }

  /** A statement leaves everything, or moves its own client to a phase that fits. */
  lemma StatementKeeps(st: State, a: Action)
    requires Inv(st) && !a.CreateSession? && !a.LookupExpired? && !a.Commit? && Enabled(st, a)
    requires Apply(st, a) == st || (Apply(st, a) == Move(st, a.client, PhaseOf(Apply(st, a), a.client))
                                    && Fits(st, a.client, PhaseOf(Apply(st, a), a.client)))
    ensures Inv(Apply(st, a))
  {
    var p := PhaseOf(Apply(st, a), a.client);
    if Apply(st, a) != st { MoveUnclaimedKeeps(st, a.client, p); }
  }

  lemma ActionKeeps(st: State, a: Action)
    requires Inv(st) && Enabled(st, a)
    ensures Inv(Apply(st, a))
  {
    if a.CreateSession? {
      CreateSessionKeeps(st, a.session, a.user);
    } else if a.Commit? {
      CommitKeeps(st, a.client);
    } else if !a.LookupExpired? {
      StatementFits(st, a);
      StatementKeeps(st, a);
    }
  }

  /** The invariant holds after every run. */
  lemma {:induction false} RunsKeep(run: seq<Action>)
    requires After(run).Some?
    ensures Inv(After(run).value)
  {
    if run != [] {
      RunsKeep(run[..|run| - 1]);
      ActionKeeps(After(run[..|run| - 1]).value, run[|run| - 1]);
    }
  }

  // ----- the claims over whole runs -----

  /** How many rotations of family `f` the run committed. */
  ghost function CommittedRotations(run: seq<Action>, f: FamilyId): nat
    requires After(run).Some?
  {
    if run == [] then 0
    else
      var front := run[..|run| - 1];
      CommittedRotations(front, f) + (if CommitsRotation(After(front).value, run[|run| - 1], f) then 1 else 0)
  }

  ghost predicate CommitsRotation(st: State, a: Action, f: FamilyId) {
    a.Commit? && PhaseOf(st, a.client).Rotated? && PhaseOf(st, a.client).row.family == f
  }

  /** How many consumptions of session `s` the run committed. */
  ghost function CommittedConsumptions(run: seq<Action>, s: SessionId): nat
    requires After(run).Some?
  {
    if run == [] then 0
    else
      var front := run[..|run| - 1];
      CommittedConsumptions(front, s) + (if CommitsConsumption(After(front).value, run[|run| - 1], s) then 1 else 0)
  }

  ghost predicate CommitsConsumption(st: State, a: Action, s: SessionId) {
    a.Commit? && PhaseOf(st, a.client).Opened? && PhaseOf(st, a.client).session == s
  }

  /** In every interleaving each family is a chain in issue order: one token and one more
      per committed rotation, each the successor of the one before, and only the last can
      be active. */
  lemma FamiliesAreChains(run: seq<Action>, f: FamilyId)
    requires After(run).Some? && f in After(run).value.history.issued
    ensures var st := After(run).value;
            && IsChain(st, f, st.history.issued[f])
            && |st.history.issued[f]| == 1 + CommittedRotations(run, f)
  {
    RunsKeep(run);
    LengthCountsRotations(run, f);
  }

  ghost function Length(st: State, f: FamilyId): nat {
    if f in st.history.issued then |st.history.issued[f]| else 0
  }

  /** One action lengthens a family by the rotation it commits, or opens it. */
  lemma LengthStep(st: State, a: Action, f: FamilyId)
    requires PhasesSound(st) && Enabled(st, a)
    ensures f in st.history.issued ==>
              f in Apply(st, a).history.issued
              && Length(Apply(st, a), f) == Length(st, f) + if CommitsRotation(st, a, f) then 1 else 0
    ensures f !in st.history.issued ==> !CommitsRotation(st, a, f) && Length(Apply(st, a), f) <= 1
  {
    if a.Commit? { assert PhaseSound(st, PhaseOf(st, a.client)); }
  }

  lemma {:induction false} LengthCountsRotations(run: seq<Action>, f: FamilyId)
    requires After(run).Some?
    ensures var st := After(run).value;
            if f in st.history.issued then Length(st, f) == 1 + CommittedRotations(run, f)
            else CommittedRotations(run, f) == 0
  {
    if run != [] {
      var front, a := run[..|run| - 1], run[|run| - 1];
      LengthCountsRotations(front, f);
      RunsKeep(front);
      RunsKeep(run);
      LengthStep(After(front).value, a, f);
      if f in After(run).value.history.issued { assert IsChain(After(run).value, f, After(run).value.history.issued[f]); }
    }
  }

  ghost function ConsumedBit(st: State, s: SessionId): nat {
    if s in st.sessions && st.sessions[s].consumed then 1 else 0
  }

  lemma ConsumptionStep(st: State, a: Action, s: SessionId)
    requires Enabled(st, a) && (a.Commit? ==> PhaseSound(st, PhaseOf(st, a.client)))
    ensures ConsumedBit(Apply(st, a), s) == ConsumedBit(st, s) + if CommitsConsumption(st, a, s) then 1 else 0
  {
  }

  /** At most one consumption of a pre-auth session commits, and its row says whether one did. */
  lemma {:induction false} ConsumedAtMostOnce(run: seq<Action>, s: SessionId)
    requires After(run).Some?
    ensures CommittedConsumptions(run, s)
            == if s in After(run).value.sessions && After(run).value.sessions[s].consumed then 1 else 0
  {
    if run != [] {
      var front, a := run[..|run| - 1], run[|run| - 1];
      ConsumedAtMostOnce(front, s);
      RunsKeep(front);
      assert a.Commit? ==> PhaseSound(After(front).value, PhaseOf(After(front).value, a.client));
      ConsumptionStep(After(front).value, a, s);
    }
  }

  /** Over every run, committed families and consumed sessions correspond one to one, and
      every token of a family belongs to the user of the session that opened it. */
  lemma FamiliesMatchSessions(run: seq<Action>)
    requires After(run).Some?
    ensures var st := After(run).value; var opener := st.history.opener;
            && (forall t :: t in st.tokens ==> st.tokens[t].family in opener)
            && (forall f :: f in opener <==> exists t :: t in st.tokens && st.tokens[t].family == f)
            && (forall f, g :: f in opener && g in opener && opener[f] == opener[g] ==> f == g)
            && (forall s :: s in st.sessions && st.sessions[s].consumed <==> s in opener.Values)
            && (forall t :: t in st.tokens ==>
                  opener[st.tokens[t].family] in st.sessions
                  && st.tokens[t].user == st.sessions[opener[st.tokens[t].family]].user)
  {
    RunsKeep(run);
    var st := After(run).value;
    forall f | f in st.history.opener ensures exists t :: t in st.tokens && st.tokens[t].family == f {
      assert IsChain(st, f, st.history.issued[f]);
      var t := st.history.issued[f][0];
      assert t in st.tokens && st.tokens[t].family == f;
    }
  }

  // ----- the protocol can always go on -----

  /** An idle client can always rotate an active token that nobody has locked. */
  lemma RotationGoesThrough(st: State, c: ClientId, t: TokenId, next: TokenId)
    requires PhaseOf(st, c) == Idle && FreshToken(st, next)
    requires t in st.tokens && st.tokens[t].active && TokenFree(st, c, t)
    requires st.tokens[t].family in st.history.issued   // part of the invariant
    ensures Enabled(st, Lock(c, t))
    ensures var s1 := Apply(st, Lock(c, t));
            && Enabled(s1, Deactivate(c))
            && var s2 := Apply(s1, Deactivate(c));
            && Enabled(s2, Issue(c, next))
            && var s3 := Apply(s2, Issue(c, next));
            && Enabled(s3, Commit(c))
            && var s4 := Apply(s3, Commit(c));
            && t != next && !s4.tokens[t].active && s4.tokens[next].active
            && s4.history.issued[st.tokens[t].family] == st.history.issued[st.tokens[t].family] + [next]
  {
  }

  /** An idle client can always log in with an unconsumed session that nobody has claimed. */
  lemma LoginGoesThrough(st: State, c: ClientId, s: SessionId, org: OrgId, f: FamilyId, t: TokenId)
    requires PhaseOf(st, c) == Idle && FreshFamily(st, f) && FreshToken(st, t)
    requires s in st.sessions && !st.sessions[s].consumed && SessionFree(st, c, s)
    ensures Enabled(st, Lookup(c, s))
    ensures var s1 := Apply(st, Lookup(c, s));
            && Enabled(s1, Claim(c))
            && var s2 := Apply(s1, Claim(c));
            && Enabled(s2, Open(c, org, f, t))
            && var s3 := Apply(s2, Open(c, org, f, t));
            && Enabled(s3, Commit(c))
            && var s4 := Apply(s3, Commit(c));
            && s4.sessions[s].consumed && s4.history.opener[f] == s
            && s4.tokens[t] == RefreshToken(f, org, st.sessions[s].user, true)
  {
  }

  // ----- transactions that come to nothing -----

  /** The client ends with no transaction and no row claimed; what is committed stays. */
  ghost predicate EndsWithoutTrace(st: State, st': State, c: ClientId) {
    && st'.sessions == st.sessions && st'.tokens == st.tokens && st'.history == st.history
    && PhaseOf(st', c) == Idle && forall d :: d != c ==> PhaseOf(st', d) == PhaseOf(st, d)
  }

  lemma MovedToIdle(st: State, c: ClientId)
    ensures EndsWithoutTrace(st, Move(st, c, Idle), c)
  {
  }

  lemma OneMore(run: seq<Action>, a: Action)
    requires After(run).Some? && Enabled(After(run).value, a)
    ensures After(run + [a]) == Some(Apply(After(run).value, a))
  {
    assert (run + [a])[..|run|] == run;
  }

  /** In every run an open transaction can roll back, at any point, and leaves no trace. */
  lemma RollbackLeavesNothing(run: seq<Action>, c: ClientId)
    requires After(run).Some? && !PhaseOf(After(run).value, c).Idle?
    ensures After(run + [Rollback(c)]).Some?
    ensures EndsWithoutTrace(After(run).value, After(run + [Rollback(c)]).value, c)
  {
    OneMore(run, Rollback(c));
    MovedToIdle(After(run).value, c);
  }

  /** In every run a client that has looked a session up can claim it as soon as no other open
      transaction has claimed it; if one has consumed it meanwhile, the claim leaves no trace. */
  lemma LostClaimLeavesNothing(run: seq<Action>, c: ClientId)
    requires After(run).Some? && PhaseOf(After(run).value, c).LookedUp?
    ensures var st, s := After(run).value, PhaseOf(After(run).value, c).session;
            && s in st.sessions
            && (Enabled(st, Claim(c)) <==> SessionFree(st, c, s))
            && (SessionFree(st, c, s) && st.sessions[s].consumed ==>
                  After(run + [Claim(c)]).Some? && EndsWithoutTrace(st, After(run + [Claim(c)]).value, c))
  {
    var st := After(run).value;
    RunsKeep(run);
    assert PhaseSound(st, PhaseOf(st, c));
    if Enabled(st, Claim(c)) { OneMore(run, Claim(c)); }
    MovedToIdle(st, c);
  }
}
