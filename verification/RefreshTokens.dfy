/** The refresh-token service, one committed transaction per call.

    A raw token is its routing hint and its secret; hashing is injective, so rows are keyed
    by the raw token itself.  Row-level security restricts every statement to the rows of
    the organisation whose context the call has set. */
module RefreshTokens {
  import opened Collections

  type UserId = nat
  type OrgId = nat
  type FamilyId = nat

  /** `hint` is None when the text before the dot is not a UUID, or there is no secret. */
  datatype RawToken = RawToken(hint: Option<OrgId>, secret: nat)

  datatype Row = Row(user: UserId, org: OrgId, family: FamilyId, active: bool, expiresAt: int,
                     revokedAt: Option<int>, familyRevokedAt: Option<int>)

  type Table = map<RawToken, Row>

  datatype RotateResult = Rotated(token: RawToken, row: Row) | NotRotated | ReuseDetected(family: FamilyId)

  // ----- statements -----

  function Update(rows: Table, touched: Row -> bool, assign: Row -> Row): (r: Table)
    ensures r.Keys == rows.Keys
    ensures forall t :: t in r ==> r[t] == if touched(rows[t]) then assign(rows[t]) else rows[t]
  {
    map t | t in rows :: if touched(rows[t]) then assign(rows[t]) else rows[t]
  }

  function ActiveIn(org: OrgId, family: FamilyId): Row -> bool {
    (r: Row) => r.org == org && r.family == family && r.active
  }

  function ActiveOf(org: OrgId, user: UserId): Row -> bool {
    (r: Row) => r.org == org && r.user == user && r.active
  }

  function Revoked(now: int): Row -> Row {
    (r: Row) => r.(active := false, revokedAt := Some(now))
  }

  function FamilyRevoked(now: int): Row -> Row {
    (r: Row) => r.(active := false, revokedAt := Some(now), familyRevokedAt := Some(now))
  }

  // ----- the calls -----

  function NewRow(user: UserId, org: OrgId, family: FamilyId, now: int, lifetime: int): Row {
    Row(user, org, family, true, now + lifetime, None, None)
  }

  /** The row a token authenticates: looked up under the organisation its hint names. */
  function Lookup(rows: Table, raw: RawToken): Option<Row> {
    if raw.hint.Some? && raw in rows && rows[raw].org == raw.hint.value then Some(rows[raw]) else None
  }

  function AfterRotate(rows: Table, raw: RawToken, now: int, lifetime: int, secret: nat): (Table, RotateResult) {
    match Lookup(rows, raw)
    case None => (rows, NotRotated)
    case Some(row) =>
      if !row.active then (Update(rows, ActiveIn(row.org, row.family), FamilyRevoked(now)), ReuseDetected(row.family))
      else if row.expiresAt < now then (rows[raw := Revoked(now)(row)], NotRotated)
      else
        var token := RawToken(Some(row.org), secret);
        var successor := NewRow(row.user, row.org, row.family, now, lifetime);
        (rows[raw := Revoked(now)(row)][token := successor], Rotated(token, successor))
  }

  class RefreshTokenService {
    const lifetime: int
    var rows: Table

    constructor (lifetime: int)
      ensures this.lifetime == lifetime && rows == map[]
    {
      this.lifetime := lifetime;
      rows := map[];
    }

    /** A new family when `family` is the fresh id of a new login. */
    method Create(user: UserId, org: OrgId, family: FamilyId, now: int, secret: nat) returns (token: RawToken)
      modifies this
      ensures token == RawToken(Some(org), secret)
      ensures rows == old(rows)[token := NewRow(user, org, family, now, lifetime)]
      ensures rows[token] == Row(user, org, family, true, now + lifetime, None, None)
    {
      token := RawToken(Some(org), secret);
      rows := rows[token := NewRow(user, org, family, now, lifetime)];
    }

    method Rotate(raw: RawToken, now: int, secret: nat) returns (result: RotateResult)
      modifies this
      ensures (rows, result) == AfterRotate(old(rows), raw, now, lifetime, secret)
      ensures RotationIs(old(rows), raw, now, secret, rows, result)
    {
      if raw.hint.None? || raw !in rows || rows[raw].org != raw.hint.value {
        return NotRotated;
      }
      var row := rows[raw];
      if !row.active {
        rows := Update(rows, ActiveIn(row.org, row.family), FamilyRevoked(now));
        return ReuseDetected(row.family);
      }
      if row.expiresAt < now {
        rows := rows[raw := Revoked(now)(row)];
        return NotRotated;
      }
      rows := rows[raw := Revoked(now)(row)];
      var token := Create(row.user, row.org, row.family, now, secret);
      result := Rotated(token, rows[token]);
    }

    /** The four outcomes: no row of the hinted organisation, a replay, an expired token, and
        a successor that lives for the lifetime from now. */
    ghost predicate RotationIs(before: Table, raw: RawToken, now: int, secret: nat, after: Table, result: RotateResult) {
      if raw.hint.None? || raw !in before || before[raw].org != raw.hint.value then after == before && result == NotRotated
      else
        var row := before[raw];
        if !row.active then
          && result == ReuseDetected(row.family) && after.Keys == before.Keys
          && forall t :: t in after ==>
               after[t] == if before[t].active && before[t].family == row.family && before[t].org == row.org
                           then before[t].(active := false, revokedAt := Some(now), familyRevokedAt := Some(now)) else before[t]
        else
          var retired := before[raw := row.(active := false, revokedAt := Some(now))];
          if now > row.expiresAt then after == retired && result == NotRotated
          else
            var token, successor := RawToken(raw.hint, secret), Row(row.user, row.org, row.family, true, now + lifetime, None, None);
            after == retired[token := successor] && result == Rotated(token, successor)
    }

    /** Without an organisation the update runs under the context the transaction already
        has, and under none it sees no row. */
    method RevokeFamily(family: FamilyId, organisation: Option<OrgId>, ambient: Option<OrgId>, now: int)
      modifies this
      ensures rows == match (if organisation.Some? then organisation else ambient)
                      case Some(org) => Update(old(rows), ActiveIn(org, family), Revoked(now))
                      case None => old(rows)
      ensures rows.Keys == old(rows).Keys
      ensures forall t :: t in rows ==>
                var row := old(rows)[t];
                rows[t] == if row.active && row.family == family && (organisation == Some(row.org) || (organisation.None? && ambient == Some(row.org)))
                           then row.(active := false, revokedAt := Some(now)) else row
    {
      var context := ambient;
      if organisation.Some? {
        context := organisation;
      }
      if context.Some? {
        rows := Update(rows, ActiveIn(context.value, family), Revoked(now));
      }
    }

    method RevokeAllForUserOrg(user: UserId, org: OrgId, now: int)
      modifies this
      ensures rows == Update(old(rows), ActiveOf(org, user), Revoked(now))
      ensures rows.Keys == old(rows).Keys
      ensures forall t :: t in rows ==>
                var row := old(rows)[t];
                rows[t] == if row.active && row.user == user && row.org == org then row.(active := false, revokedAt := Some(now)) else row
    {
      rows := Update(rows, ActiveOf(org, user), Revoked(now));
    }
  }

  // ----- runs of service calls -----

  /** Logins, refreshes, logouts; ids and secrets drawn by a call are fresh. */
  datatype Call =
    | Login(user: UserId, org: OrgId, family: FamilyId, secret: nat, now: int)
    | Refresh(raw: RawToken, secret: nat, now: int)
    | Logout(family: FamilyId, org: OrgId, now: int)
    | LogoutAll(user: UserId, org: OrgId, now: int)

  ghost predicate Used(rows: Table, family: FamilyId) {
    exists t :: t in rows && rows[t].family == family
  }

  ghost predicate Fresh(rows: Table, call: Call) {
    match call
    case Login(_, org, family, secret, _) => !Used(rows, family) && RawToken(Some(org), secret) !in rows
    case Refresh(raw, secret, _) => raw.hint.Some? ==> RawToken(raw.hint, secret) !in rows
    case _ => true
  }

  function Apply(rows: Table, call: Call, lifetime: int): Table {
    match call
    case Login(user, org, family, secret, now) => rows[RawToken(Some(org), secret) := NewRow(user, org, family, now, lifetime)]
    case Refresh(raw, secret, now) => AfterRotate(rows, raw, now, lifetime, secret).0
    case Logout(family, org, now) => Update(rows, ActiveIn(org, family), Revoked(now))
    case LogoutAll(user, org, now) => Update(rows, ActiveOf(org, user), Revoked(now))
  }

  function Answer(rows: Table, call: Call, lifetime: int): RotateResult {
    if call.Refresh? then AfterRotate(rows, call.raw, call.now, lifetime, call.secret).1 else NotRotated
  }

  ghost predicate IsHistory(rows: Table, calls: seq<Call>, lifetime: int)
    decreases |calls|
  {
    calls == [] || (Fresh(rows, calls[0]) && IsHistory(Apply(rows, calls[0], lifetime), calls[1..], lifetime))
  }

  function ApplyAll(rows: Table, calls: seq<Call>, lifetime: int): Table
    decreases |calls|
  {
    if calls == [] then rows else ApplyAll(Apply(rows, calls[0], lifetime), calls[1..], lifetime)
  }

  // ----- what every call keeps -----

  ghost predicate Dead(rows: Table, family: FamilyId) {
    forall t :: t in rows && rows[t].family == family ==> !rows[t].active
  }

  ghost function ActiveTokens(rows: Table, family: FamilyId): set<RawToken> {
    set t | t in rows && rows[t].family == family && rows[t].active
  }

  /** A family has one user, one organisation, at most one active token, and its tokens
      carry its organisation as their hint. */
  ghost predicate Sound(rows: Table) {
    && (forall t :: t in rows ==> t.hint == Some(rows[t].org))
    && (forall t, u :: t in rows && u in rows && rows[t].family == rows[u].family ==>
          && rows[t].org == rows[u].org && rows[t].user == rows[u].user
          && (rows[t].active && rows[u].active ==> t == u))
  }

  lemma DeactivationKeepsSound(rows: Table, rows': Table)
    requires Sound(rows) && rows'.Keys == rows.Keys
    requires forall t :: t in rows ==>
               && rows'[t].org == rows[t].org && rows'[t].user == rows[t].user && rows'[t].family == rows[t].family
               && (rows'[t].active ==> rows[t].active)
    ensures Sound(rows')
  {
  }

  /** Adding an active token to a family of which none is active. */
  lemma AdditionKeepsSound(rows: Table, token: RawToken, row: Row)
    requires Sound(rows) && token !in rows && token.hint == Some(row.org)
    requires Dead(rows, row.family)
    requires forall t :: t in rows && rows[t].family == row.family ==> rows[t].org == row.org && rows[t].user == row.user
    ensures Sound(rows[token := row])
  {
  }

  lemma RotationKeepsSound(rows: Table, raw: RawToken, now: int, lifetime: int, secret: nat)
    requires Sound(rows) && (raw.hint.Some? ==> RawToken(raw.hint, secret) !in rows)
    requires Lookup(rows, raw).Some? && rows[raw].active && rows[raw].expiresAt >= now
    ensures Sound(AfterRotate(rows, raw, now, lifetime, secret).0)
  {
    var row := rows[raw];
    var rows1 := rows[raw := Revoked(now)(row)];
    DeactivationKeepsSound(rows, rows1);
    AdditionKeepsSound(rows1, RawToken(Some(row.org), secret), NewRow(row.user, row.org, row.family, now, lifetime));
  }

  lemma CallKeepsSound(rows: Table, call: Call, lifetime: int)
    requires Sound(rows) && Fresh(rows, call)
    ensures Sound(Apply(rows, call, lifetime))
  {
    match call
    case Login(user, org, family, secret, now) =>
      AdditionKeepsSound(rows, RawToken(Some(org), secret), NewRow(user, org, family, now, lifetime));
    case Refresh(raw, secret, now) =>
      if Lookup(rows, raw).Some? {
        if rows[raw].active && rows[raw].expiresAt >= now {
          RotationKeepsSound(rows, raw, now, lifetime, secret);
        } else {
          DeactivationKeepsSound(rows, Apply(rows, call, lifetime));
        }
      }
    case Logout(_, _, _) => DeactivationKeepsSound(rows, Apply(rows, call, lifetime));
    case LogoutAll(_, _, _) => DeactivationKeepsSound(rows, Apply(rows, call, lifetime));
  }

  lemma {:induction false} HistoryKeepsSound(rows: Table, calls: seq<Call>, lifetime: int)
    requires Sound(rows) && IsHistory(rows, calls, lifetime)
    ensures Sound(ApplyAll(rows, calls, lifetime))
    decreases |calls|
  {
    if calls != [] {
      CallKeepsSound(rows, calls[0], lifetime);
      HistoryKeepsSound(Apply(rows, calls[0], lifetime), calls[1..], lifetime);
    }
  }

  /** A refresh succeeds exactly for the active, unexpired token of a family. */
  lemma RotatesExactlyWhenLive(rows: Table, raw: RawToken, now: int, lifetime: int, secret: nat)
    requires Sound(rows)
    ensures AfterRotate(rows, raw, now, lifetime, secret).1.Rotated? <==>
            raw in rows && rows[raw].active && rows[raw].expiresAt >= now
    ensures AfterRotate(rows, raw, now, lifetime, secret).1.ReuseDetected? <==> raw in rows && !rows[raw].active
  {
  }

  /** Replaying a used token kills its whole family, and only it. */
  lemma ReuseKillsFamily(rows: Table, raw: RawToken, now: int, lifetime: int, secret: nat)
    requires Sound(rows) && raw in rows && !rows[raw].active
    ensures var rows' := AfterRotate(rows, raw, now, lifetime, secret).0;
            && Dead(rows', rows[raw].family)
            && forall g :: g != rows[raw].family ==> ActiveTokens(rows', g) == ActiveTokens(rows, g)
  {
  }

  ghost predicate BelongsTo(rows: Table, family: FamilyId, org: OrgId) {
    exists t :: t in rows && rows[t].family == family && rows[t].org == org
  }

  /** Logging out kills the family exactly when it runs under the family's own organisation
      (or nothing was alive), and every other family keeps exactly its active tokens. */
  lemma LogoutKillsExactlyUnderOwnOrg(rows: Table, family: FamilyId, org: OrgId, now: int, lifetime: int)
    requires Sound(rows)
    ensures var rows' := Apply(rows, Logout(family, org, now), lifetime);
            && (Dead(rows', family) <==> Dead(rows, family) || BelongsTo(rows, family, org))
            && (!BelongsTo(rows, family, org) ==> rows' == rows)
            && forall g :: g != family ==> ActiveTokens(rows', g) == ActiveTokens(rows, g)
  {
    var rows' := Apply(rows, Logout(family, org, now), lifetime);
    if !BelongsTo(rows, family, org) {
      assert forall t :: t in rows ==> rows'[t] == rows[t];
      assert rows' == rows;
    } else {
      var t :| t in rows && rows[t].family == family && rows[t].org == org;
      assert forall u :: u in rows && rows[u].family == family ==> rows[u].org == rows[t].org;
    }
  }

  /** The witness: a logout under another organisation leaves the family alive. */
  lemma LogoutElsewhereKeepsFamily(token: RawToken, row: Row, org: OrgId, now: int, lifetime: int)
    requires row.active && token.hint == Some(row.org) && org != row.org
    ensures Sound(map[token := row])
    ensures !Dead(Apply(map[token := row], Logout(row.family, org, now), lifetime), row.family)
  {
    var rows := map[token := row];
    forall t | t in rows ensures rows[t] == row && t == token {
    }
    assert !BelongsTo(rows, row.family, org);
    LogoutKillsExactlyUnderOwnOrg(rows, row.family, org, now, lifetime);
    assert token in rows && rows[token].active;
  }

  /** Logging out everywhere kills every family of that user in that organisation and no other. */
  lemma LogoutAllKillsTheUsersFamilies(rows: Table, user: UserId, org: OrgId, now: int, lifetime: int, family: FamilyId)
    requires Sound(rows)
    ensures var rows' := Apply(rows, LogoutAll(user, org, now), lifetime);
            if exists t :: t in rows && rows[t].family == family && rows[t].org == org && rows[t].user == user
            then Dead(rows', family)
            else ActiveTokens(rows', family) == ActiveTokens(rows, family)
  {
    if t :| t in rows && rows[t].family == family && rows[t].org == org && rows[t].user == user {
      assert forall u :: u in rows && rows[u].family == family ==> rows[u].org == rows[t].org && rows[u].user == rows[t].user;
    }
  }

  lemma CallKeepsDead(rows: Table, call: Call, lifetime: int, family: FamilyId)
    requires Sound(rows) && Fresh(rows, call)
    requires Used(rows, family) && Dead(rows, family)
    ensures Used(Apply(rows, call, lifetime), family) && Dead(Apply(rows, call, lifetime), family)
    ensures Answer(rows, call, lifetime).Rotated? ==> Answer(rows, call, lifetime).row.family != family
  {
    var t :| t in rows && rows[t].family == family;
    var rows' := Apply(rows, call, lifetime);
    assert t in rows' && rows'[t].family == family;
  }

  /** A dead family stays dead: after any further calls none of its tokens is active, and
      none of those calls rotated a token of it. */
  lemma {:induction false} DeadForever(rows: Table, calls: seq<Call>, lifetime: int, family: FamilyId)
    requires Sound(rows) && IsHistory(rows, calls, lifetime)
    requires Used(rows, family) && Dead(rows, family)
    ensures Dead(ApplyAll(rows, calls, lifetime), family)
    ensures forall i :: 0 <= i < |calls| ==>
              var answer := Answer(ApplyAll(rows, calls[..i], lifetime), calls[i], lifetime);
              answer.Rotated? ==> answer.row.family != family
    decreases |calls|
  {
    if calls != [] {
      var rows' := Apply(rows, calls[0], lifetime);
      CallKeepsSound(rows, calls[0], lifetime);
      CallKeepsDead(rows, calls[0], lifetime, family);
      DeadForever(rows', calls[1..], lifetime, family);
      forall i | 0 <= i < |calls|
        ensures var answer := Answer(ApplyAll(rows, calls[..i], lifetime), calls[i], lifetime);
                answer.Rotated? ==> answer.row.family != family
      {
        if i > 0 {
          assert calls[..i][1..] == calls[1..][..i - 1];
          assert calls[i] == calls[1..][i - 1];
        } else {
          assert calls[..0] == [];
        }
      }
    }
  }

  /** What kills a family: a replay, a logout under its organisation, or its user logging
      out everywhere there. */
  ghost predicate Kills(rows: Table, call: Call, family: FamilyId) {
    match call
    case Refresh(raw, _, _) => raw in rows && rows[raw].family == family && !rows[raw].active
    case Logout(f, org, _) => f == family && BelongsTo(rows, family, org)
    case LogoutAll(user, org, _) =>
      exists t :: t in rows && rows[t].family == family && rows[t].org == org && rows[t].user == user
    case Login(_, _, _, _, _) => false
  }

  lemma {:induction false} HistorySplits(rows: Table, before: seq<Call>, after: seq<Call>, lifetime: int)
    requires IsHistory(rows, before + after, lifetime)
    ensures IsHistory(rows, before, lifetime)
    ensures IsHistory(ApplyAll(rows, before, lifetime), after, lifetime)
    ensures ApplyAll(rows, before + after, lifetime) == ApplyAll(ApplyAll(rows, before, lifetime), after, lifetime)
    decreases |before|
  {
    if before == [] {
      assert before + after == after;
    } else {
      assert (before + after)[1..] == before[1..] + after;
      HistorySplits(Apply(rows, before[0], lifetime), before[1..], after, lifetime);
    }
  }

  /** Over every history from the empty table: once a call has killed a family, no token of
      it is active in any later state and no later refresh of it succeeds. */
  lemma KilledFamiliesStayDead(before: seq<Call>, kill: Call, after: seq<Call>, lifetime: int, family: FamilyId)
    requires IsHistory(map[], before + [kill] + after, lifetime)
    requires Kills(ApplyAll(map[], before, lifetime), kill, family)
    ensures Dead(ApplyAll(map[], before + [kill] + after, lifetime), family)
    ensures forall i :: 0 <= i < |after| ==>
              var answer := Answer(ApplyAll(map[], before + [kill] + after[..i], lifetime), after[i], lifetime);
              answer.Rotated? ==> answer.row.family != family
  {
    HistorySplits(map[], before + [kill], after, lifetime);
    HistorySplits(map[], before, [kill], lifetime);
    HistoryKeepsSound(map[], before, lifetime);
    var rows := ApplyAll(map[], before, lifetime);
    var rows' := Apply(rows, kill, lifetime);
    assert ApplyAll(rows, [kill], lifetime) == rows' by {
      assert [kill][1..] == [];
    }
    KillTakesEffect(rows, kill, lifetime, family);
    CallKeepsSound(rows, kill, lifetime);
    DeadForever(rows', after, lifetime, family);
    forall i | 0 <= i < |after|
      ensures ApplyAll(map[], before + [kill] + after[..i], lifetime) == ApplyAll(rows', after[..i], lifetime)
    {
      assert before + [kill] + after == (before + [kill] + after[..i]) + after[i..];
      HistorySplits(map[], before + [kill] + after[..i], after[i..], lifetime);
      HistorySplits(map[], before + [kill], after[..i], lifetime);
    }
  }

  lemma KillTakesEffect(rows: Table, kill: Call, lifetime: int, family: FamilyId)
    requires Sound(rows) && Fresh(rows, kill) && Kills(rows, kill, family)
    ensures Used(Apply(rows, kill, lifetime), family) && Dead(Apply(rows, kill, lifetime), family)
  {
    var t :| t in rows && rows[t].family == family;
    match kill
    case Refresh(raw, secret, now) => ReuseKillsFamily(rows, raw, now, lifetime, secret);
    case Logout(f, org, now) => LogoutKillsExactlyUnderOwnOrg(rows, f, org, now, lifetime);
    case LogoutAll(user, org, now) => LogoutAllKillsTheUsersFamilies(rows, user, org, now, lifetime, family);
    assert t in Apply(rows, kill, lifetime) && Apply(rows, kill, lifetime)[t].family == family;
  }
}
