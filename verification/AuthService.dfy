/** Where the login calls commit and where they roll back: pre-auth sessions, the second
    login step, refresh and logout. */
module AuthService {
  import opened Collections
  import opened RefreshTokens

  /** Sessions are keyed by the raw token: hashing is injective. */
  datatype PreAuthSession = PreAuthSession(user: UserId, expiresAt: int, consumedAt: Option<int>)

  type Sessions = map<nat, PreAuthSession>

  datatype Consumption = Consumed(user: UserId) | NotConsumable | Reused(user: UserId)

  /** `overtaken` is the time of another request's consumption, if one commits between this
      request's lookup and its conditional update. */
  function AfterConsume(sessions: Sessions, token: nat, now: int, overtaken: Option<int>): (Sessions, Consumption) {
    if token !in sessions then (sessions, NotConsumable)
    else
      var row := sessions[token];
      if row.consumedAt.Some? then (sessions, Reused(row.user))
      else if row.expiresAt < now then (sessions, NotConsumable)
      else if overtaken.Some? then (sessions[token := row.(consumedAt := overtaken)], Reused(row.user))
      else (sessions[token := row.(consumedAt := Some(now))], Consumed(row.user))
  }

  class PreAuthSessionService {
    const lifetime: int
    var sessions: Sessions

    constructor (lifetime: int)
      ensures this.lifetime == lifetime && sessions == map[]
    {
      this.lifetime := lifetime;
      sessions := map[];
    }

    method Create(user: UserId, now: int, secret: nat) returns (token: nat)
      modifies this
      ensures token == secret && sessions == old(sessions)[token := PreAuthSession(user, now + lifetime, None)]
    {
      token := secret;
      sessions := sessions[token := PreAuthSession(user, now + lifetime, None)];
    }

    /** Look up, then mark consumed only if still unconsumed. */
    method Consume(token: nat, now: int, overtaken: Option<int>) returns (result: Consumption)
      modifies this
      ensures (sessions, result) == AfterConsume(old(sessions), token, now, overtaken)
      ensures ConsumptionIs(old(sessions), token, now, overtaken, result)
    {
      if token !in sessions { return NotConsumable; }
      var row := sessions[token];
      if row.consumedAt.Some? { return Reused(row.user); }
      if row.expiresAt < now { return NotConsumable; }
      if overtaken.Some? {
        sessions := sessions[token := row.(consumedAt := overtaken)];   // the other request commits
      }
      if sessions[token].consumedAt.Some? { return Reused(row.user); }
      sessions := sessions[token := sessions[token].(consumedAt := Some(now))];
      return Consumed(row.user);
    }
  }

  /** Which sessions can be consumed: stored, unconsumed, not past their expiry, and not
      overtaken by another request. */
  ghost predicate Consumable(sessions: Sessions, token: nat, now: int, overtaken: Option<int>) {
    token in sessions && sessions[token].consumedAt.None? && now <= sessions[token].expiresAt && overtaken.None?
  }

  /** A session spent before, or by the overtaking request. */
  ghost predicate SpentByAnother(sessions: Sessions, token: nat, now: int, overtaken: Option<int>) {
    token in sessions && (sessions[token].consumedAt.Some? || (now <= sessions[token].expiresAt && overtaken.Some?))
  }

  ghost predicate ConsumptionIs(sessions: Sessions, token: nat, now: int, overtaken: Option<int>, result: Consumption) {
    && (result.Consumed? <==> Consumable(sessions, token, now, overtaken))
    && (result.Reused? <==> SpentByAnother(sessions, token, now, overtaken))
    && (!result.NotConsumable? ==> token in sessions && result.user == sessions[token].user)
  }

  // ----- the second login step -----

  /** The live rows the step verifies against. */
  datatype Directory = Directory(activeUsers: set<UserId>, activeOrganisations: set<OrgId>, members: set<(UserId, OrgId)>)

  datatype SelectionError = SessionReused | SessionExpired | UserInactive | OrganisationNotFound | NotAMember

  datatype Tables = Tables(sessions: Sessions, rows: Table)

  datatype Selection = Selection(token: nat, org: OrgId, family: FamilyId, secret: nat, now: int, dir: Directory)

  function Refusal(user: UserId, org: OrgId, dir: Directory): Option<SelectionError> {
    if user !in dir.activeUsers then Some(UserInactive)
    else if org !in dir.activeOrganisations then Some(OrganisationNotFound)
    else if (user, org) !in dir.members then Some(NotAMember)
    else None
  }

  function AfterSelection(t: Tables, s: Selection, overtaken: Option<int>, lifetime: int): (Tables, Result<RawToken, SelectionError>) {
    var (sessions, consumption) := AfterConsume(t.sessions, s.token, s.now, overtaken);
    match consumption
    case Reused(_) => (t.(sessions := sessions), Err(SessionReused))
    case NotConsumable => (t, Err(SessionExpired))
    case Consumed(user) =>
      var refusal := Refusal(user, s.org, s.dir);
      if refusal.Some? then (t, Err(refusal.value))
      else
        var token := RawToken(Some(s.org), s.secret);
        (Tables(sessions, t.rows[token := NewRow(user, s.org, s.family, s.now, lifetime)]), Ok(token))
  }

  /** The outcome of every selection: it succeeds exactly when its session is consumable, the
      session's user and the organisation are active, and the user is a member there. */
  ghost predicate SelectionIs(t: Tables, s: Selection, overtaken: Option<int>, result: Result<RawToken, SelectionError>) {
    var consumable := Consumable(t.sessions, s.token, s.now, overtaken);
    var userActive := consumable && t.sessions[s.token].user in s.dir.activeUsers;
    var bothActive := userActive && s.org in s.dir.activeOrganisations;
    && (result.Ok? <==> bothActive && (t.sessions[s.token].user, s.org) in s.dir.members)
    && (result == Err(NotAMember) <==> bothActive && (t.sessions[s.token].user, s.org) !in s.dir.members)
    && (result == Err(OrganisationNotFound) <==> userActive && !bothActive)
    && (result == Err(UserInactive) <==> consumable && !userActive)
    && (result == Err(SessionReused) <==> SpentByAnother(t.sessions, s.token, s.now, overtaken))
    && (result == Err(SessionExpired) <==> !consumable && !SpentByAnother(t.sessions, s.token, s.now, overtaken))
  }

  class AuthService {
    const preAuth: PreAuthSessionService
    const refresh: RefreshTokenService
    var committed: Tables

    constructor (preAuth: PreAuthSessionService, refresh: RefreshTokenService)
      ensures this.preAuth == preAuth && this.refresh == refresh
      ensures committed == Tables(preAuth.sessions, refresh.rows)
    {
      this.preAuth, this.refresh := preAuth, refresh;
      committed := Tables(preAuth.sessions, refresh.rows);
    }

    /** No transaction is open: nothing differs from what is committed. */
    ghost predicate Settled()
      reads this, preAuth, refresh
    {
      committed == Tables(preAuth.sessions, refresh.rows)
    }

    method Commit()
      modifies this
      ensures Settled() && committed == Tables(preAuth.sessions, refresh.rows)
    {
      committed := Tables(preAuth.sessions, refresh.rows);
    }

    method Rollback()
      modifies preAuth, refresh
      ensures Settled()
    {
      preAuth.sessions, refresh.rows := committed.sessions, committed.rows;
    }

    /** Consuming the session and opening the family commit together or not at all. */
    method SelectOrganisation(s: Selection, overtaken: Option<int>) returns (result: Result<RawToken, SelectionError>)
      requires Settled()
      modifies this, preAuth, refresh
      ensures Settled()
      ensures (committed, result) == AfterSelection(old(committed), s, overtaken, refresh.lifetime)
      ensures SelectionIs(old(committed), s, overtaken, result)
      ensures result.Ok? ==>
                && result.value == RawToken(Some(s.org), s.secret)
                && var session := old(committed).sessions[s.token];
                && committed.sessions == old(committed).sessions[s.token := session.(consumedAt := Some(s.now))]
                && committed.rows == old(committed).rows[result.value :=
                     Row(session.user, s.org, s.family, true, s.now + refresh.lifetime, None, None)]
      ensures result.Err? ==>
                && committed.rows == old(committed).rows
                && committed.sessions
                   == if result.error == SessionReused && old(committed).sessions[s.token].consumedAt.None?
                      then old(committed).sessions[s.token := old(committed).sessions[s.token].(consumedAt := overtaken)]
                      else old(committed).sessions
    {
      var consumption := preAuth.Consume(s.token, s.now, overtaken);
      match consumption {
        case Reused(_) =>
          Commit();
          return Err(SessionReused);
        case NotConsumable =>
          Rollback();
          return Err(SessionExpired);
        case Consumed(user) =>
          var refusal := Refusal(user, s.org, s.dir);
          if refusal.Some? {
            Rollback();
            return Err(refusal.value);
          }
          var token := refresh.Create(user, s.org, s.family, s.now, s.secret);
          Commit();
          return Ok(token);
      }
    }

    /** Every outcome commits, so a detected reuse keeps the family revoked even though the
        call then raises. */
    method RefreshTokens(raw: RawToken, now: int, secret: nat) returns (result: RotateResult)
      requires Settled()
      modifies this, refresh
      ensures Settled()
      ensures committed == old(committed).(rows := AfterRotate(old(committed).rows, raw, now, refresh.lifetime, secret).0)
      ensures result == AfterRotate(old(committed).rows, raw, now, refresh.lifetime, secret).1
    {
      result := refresh.Rotate(raw, now, secret);
      Commit();
    }

    method Logout(family: FamilyId, org: OrgId, now: int)
      requires Settled()
      modifies this, refresh
      ensures Settled()
      ensures committed == old(committed).(rows := Apply(old(committed).rows, Call.Logout(family, org, now), refresh.lifetime))
    {
      refresh.RevokeFamily(family, Some(org), None, now);
      Commit();
    }

    method LogoutAll(user: UserId, org: OrgId, now: int)
      requires Settled()
      modifies this, refresh
      ensures Settled()
      ensures committed == old(committed).(rows := Apply(old(committed).rows, Call.LogoutAll(user, org, now), refresh.lifetime))
    {
      refresh.RevokeAllForUserOrg(user, org, now);
      Commit();
    }
  }

  // ----- what the boundaries achieve -----

  datatype AuthCall =
    | StartLogin(user: UserId, secret: nat, now: int)
    | Select(selection: Selection, overtaken: Option<int>)
    | TokenCall(call: Call)     // refresh, logout, logout everywhere

  function ApplyCall(t: Tables, c: AuthCall, sessionLifetime: int, lifetime: int): Tables {
    match c
    case StartLogin(user, secret, now) =>
      t.(sessions := t.sessions[secret := PreAuthSession(user, now + sessionLifetime, None)])
    case Select(s, overtaken) => AfterSelection(t, s, overtaken, lifetime).0
    case TokenCall(call) => t.(rows := Apply(t.rows, call, lifetime))
  }

  /** Secrets and family ids drawn by a call are fresh. */
  ghost predicate FreshCall(t: Tables, c: AuthCall) {
    match c
    case StartLogin(_, secret, _) => secret !in t.sessions
    case Select(s, _) => !Used(t.rows, s.family) && RawToken(Some(s.org), s.secret) !in t.rows
    case TokenCall(call) => !call.Login? && Fresh(t.rows, call)
  }

  ghost predicate IsAuthHistory(t: Tables, calls: seq<AuthCall>, sessionLifetime: int, lifetime: int)
    decreases |calls|
  {
    calls == [] || (FreshCall(t, calls[0])
                    && IsAuthHistory(ApplyCall(t, calls[0], sessionLifetime, lifetime), calls[1..], sessionLifetime, lifetime))
  }

  predicate Succeeds(t: Tables, c: AuthCall, token: nat, lifetime: int) {
    c.Select? && c.selection.token == token && AfterSelection(t, c.selection, c.overtaken, lifetime).1.Ok?
  }

  /** How many selections with this session succeed along the calls. */
  function Successes(t: Tables, calls: seq<AuthCall>, token: nat, sessionLifetime: int, lifetime: int): nat
    decreases |calls|
  {
    if calls == [] then 0
    else (if Succeeds(t, calls[0], token, lifetime) then 1 else 0)
         + Successes(ApplyCall(t, calls[0], sessionLifetime, lifetime), calls[1..], token, sessionLifetime, lifetime)
  }

  predicate Spent(t: Tables, token: nat) {
    token in t.sessions && t.sessions[token].consumedAt.Some?
  }

  lemma CallKeepsSpent(t: Tables, c: AuthCall, token: nat, sessionLifetime: int, lifetime: int)
    requires FreshCall(t, c)
    ensures Spent(t, token) ==> Spent(ApplyCall(t, c, sessionLifetime, lifetime), token) && !Succeeds(t, c, token, lifetime)
    ensures Succeeds(t, c, token, lifetime) ==> Spent(ApplyCall(t, c, sessionLifetime, lifetime), token)
  {
  }

  /** Over every history a session opens at most one family, and none once it is spent. */
  lemma {:induction false} OneSelectionPerSession(t: Tables, calls: seq<AuthCall>, token: nat, sessionLifetime: int, lifetime: int)
    requires IsAuthHistory(t, calls, sessionLifetime, lifetime)
    ensures Successes(t, calls, token, sessionLifetime, lifetime) <= if Spent(t, token) then 0 else 1
    decreases |calls|
  {
    if calls != [] {
      CallKeepsSpent(t, calls[0], token, sessionLifetime, lifetime);
      OneSelectionPerSession(ApplyCall(t, calls[0], sessionLifetime, lifetime), calls[1..], token, sessionLifetime, lifetime);
    }
  }

  // ----- histories that open families only by selections -----

  function AfterCalls(t: Tables, calls: seq<AuthCall>, sessionLifetime: int, lifetime: int): Tables
    decreases |calls|
  {
    if calls == [] then t
    else AfterCalls(ApplyCall(t, calls[0], sessionLifetime, lifetime), calls[1..], sessionLifetime, lifetime)
  }

  /** What one call is to the refresh-token table: a login if it opens a family, or nothing. */
  function Projected(t: Tables, c: AuthCall, lifetime: int): seq<Call> {
    match c
    case StartLogin(_, _, _) => []
    case TokenCall(call) => [call]
    case Select(s, overtaken) =>
      if AfterSelection(t, s, overtaken, lifetime).1.Ok?
      then [Call.Login(t.sessions[s.token].user, s.org, s.family, s.secret, s.now)] else []
  }

  function ProjectedAll(t: Tables, calls: seq<AuthCall>, sessionLifetime: int, lifetime: int): seq<Call>
    decreases |calls|
  {
    if calls == [] then []
    else Projected(t, calls[0], lifetime)
         + ProjectedAll(ApplyCall(t, calls[0], sessionLifetime, lifetime), calls[1..], sessionLifetime, lifetime)
  }

  lemma ProjectedStep(t: Tables, c: AuthCall, sessionLifetime: int, lifetime: int)
    requires FreshCall(t, c)
    ensures IsHistory(t.rows, Projected(t, c, lifetime), lifetime)
    ensures ApplyAll(t.rows, Projected(t, c, lifetime), lifetime) == ApplyCall(t, c, sessionLifetime, lifetime).rows
  {
    var calls := Projected(t, c, lifetime);
    if calls != [] {
      assert calls[1..] == [];
      assert Fresh(t.rows, calls[0]);
    }
  }

  lemma {:induction false} HistoryJoins(rows: Table, before: seq<Call>, after: seq<Call>, lifetime: int)
    requires IsHistory(rows, before, lifetime) && IsHistory(ApplyAll(rows, before, lifetime), after, lifetime)
    ensures IsHistory(rows, before + after, lifetime)
    decreases |before|
  {
    if before == [] {
      assert before + after == after;
    } else {
      assert (before + after)[1..] == before[1..] + after;
      HistoryJoins(Apply(rows, before[0], lifetime), before[1..], after, lifetime);
    }
  }

  /** Every history of the service is, on the token table, a history of token calls. */
  lemma {:induction false} HistoryProjects(t: Tables, calls: seq<AuthCall>, sessionLifetime: int, lifetime: int)
    requires IsAuthHistory(t, calls, sessionLifetime, lifetime)
    ensures IsHistory(t.rows, ProjectedAll(t, calls, sessionLifetime, lifetime), lifetime)
    ensures ApplyAll(t.rows, ProjectedAll(t, calls, sessionLifetime, lifetime), lifetime)
            == AfterCalls(t, calls, sessionLifetime, lifetime).rows
    decreases |calls|
  {
    if calls != [] {
      var t' := ApplyCall(t, calls[0], sessionLifetime, lifetime);
      var first, rest := Projected(t, calls[0], lifetime), ProjectedAll(t', calls[1..], sessionLifetime, lifetime);
      ProjectedStep(t, calls[0], sessionLifetime, lifetime);
      HistoryProjects(t', calls[1..], sessionLifetime, lifetime);
      HistoryJoins(t.rows, first, rest, lifetime);
      HistorySplits(t.rows, first, rest, lifetime);
    }
  }

  lemma {:induction false} AuthHistorySplits(t: Tables, before: seq<AuthCall>, after: seq<AuthCall>, sessionLifetime: int, lifetime: int)
    requires IsAuthHistory(t, before + after, sessionLifetime, lifetime)
    ensures IsAuthHistory(t, before, sessionLifetime, lifetime)
    ensures var t' := AfterCalls(t, before, sessionLifetime, lifetime);
            && IsAuthHistory(t', after, sessionLifetime, lifetime)
            && AfterCalls(t, before + after, sessionLifetime, lifetime) == AfterCalls(t', after, sessionLifetime, lifetime)
    decreases |before|
  {
    if before == [] {
      assert before + after == after;
    } else {
      assert (before + after)[1..] == before[1..] + after;
      AuthHistorySplits(ApplyCall(t, before[0], sessionLifetime, lifetime), before[1..], after, sessionLifetime, lifetime);
    }
  }

  const EMPTY_TABLES := Tables(map[], map[])

  /** The refresh, if the call is one, rotates a token of the family. */
  predicate RotatesFamily(t: Tables, c: AuthCall, family: FamilyId, lifetime: int) {
    c.TokenCall? && Answer(t.rows, c.call, lifetime).Rotated? && Answer(t.rows, c.call, lifetime).row.family == family
  }

  lemma {:induction false} ProjectionSplits(t: Tables, before: seq<AuthCall>, after: seq<AuthCall>, sessionLifetime: int, lifetime: int)
    ensures ProjectedAll(t, before + after, sessionLifetime, lifetime)
            == ProjectedAll(t, before, sessionLifetime, lifetime)
               + ProjectedAll(AfterCalls(t, before, sessionLifetime, lifetime), after, sessionLifetime, lifetime)
    decreases |before|
  {
    if before == [] {
      assert before + after == after;
    } else {
      assert (before + after)[1..] == before[1..] + after;
      ProjectionSplits(ApplyCall(t, before[0], sessionLifetime, lifetime), before[1..], after, sessionLifetime, lifetime);
    }
  }

  lemma ProjectedCall(t: Tables, call: Call, sessionLifetime: int, lifetime: int)
    ensures ProjectedAll(t, [TokenCall(call)], sessionLifetime, lifetime) == [call]
    ensures AfterCalls(t, [TokenCall(call)], sessionLifetime, lifetime) == ApplyCall(t, TokenCall(call), sessionLifetime, lifetime)
  {
    assert [TokenCall(call)][1..] == [];
  }

  /** The token calls of a history with a killing call in the middle. */
  lemma KillProjects(before: seq<AuthCall>, kill: Call, after: seq<AuthCall>, sessionLifetime: int, lifetime: int)
    ensures var t := AfterCalls(EMPTY_TABLES, before + [TokenCall(kill)], sessionLifetime, lifetime);
            ProjectedAll(EMPTY_TABLES, before + [TokenCall(kill)] + after, sessionLifetime, lifetime)
            == ProjectedAll(EMPTY_TABLES, before, sessionLifetime, lifetime) + [kill] + ProjectedAll(t, after, sessionLifetime, lifetime)
  {
    ProjectionSplits(EMPTY_TABLES, before + [TokenCall(kill)], after, sessionLifetime, lifetime);
    ProjectionSplits(EMPTY_TABLES, before, [TokenCall(kill)], sessionLifetime, lifetime);
    ProjectedCall(AfterCalls(EMPTY_TABLES, before, sessionLifetime, lifetime), kill, sessionLifetime, lifetime);
  }

  /** A prefix of a history is one, and its tables are those of its token calls. */
  lemma PrefixProjects(calls: seq<AuthCall>, rest: seq<AuthCall>, sessionLifetime: int, lifetime: int)
    requires IsAuthHistory(EMPTY_TABLES, calls + rest, sessionLifetime, lifetime)
    ensures IsHistory(map[], ProjectedAll(EMPTY_TABLES, calls, sessionLifetime, lifetime), lifetime)
    ensures ApplyAll(map[], ProjectedAll(EMPTY_TABLES, calls, sessionLifetime, lifetime), lifetime)
            == AfterCalls(EMPTY_TABLES, calls, sessionLifetime, lifetime).rows
  {
    AuthHistorySplits(EMPTY_TABLES, calls, rest, sessionLifetime, lifetime);
    HistoryProjects(EMPTY_TABLES, calls, sessionLifetime, lifetime);
  }

  /** Call `i` of a history, if it is a token call, is the next of its projection. */
  lemma ProjectedAt(t: Tables, calls: seq<AuthCall>, i: nat, sessionLifetime: int, lifetime: int)
    requires i < |calls| && calls[i].TokenCall?
    ensures var all, front := ProjectedAll(t, calls, sessionLifetime, lifetime), ProjectedAll(t, calls[..i], sessionLifetime, lifetime);
            |front| < |all| && all[..|front|] == front && all[|front|] == calls[i].call
  {
    var t' := AfterCalls(t, calls[..i], sessionLifetime, lifetime);
    assert calls == calls[..i] + ([calls[i]] + calls[i + 1..]);
    ProjectionSplits(t, calls[..i], [calls[i]] + calls[i + 1..], sessionLifetime, lifetime);
    ProjectionSplits(t', [calls[i]], calls[i + 1..], sessionLifetime, lifetime);
    ProjectedCall(t', calls[i].call, sessionLifetime, lifetime);
  }

  /** `KilledFamiliesStayDead` for the token calls of the history. */
  lemma KilledProjection(before: seq<AuthCall>, kill: Call, after: seq<AuthCall>, sessionLifetime: int, lifetime: int, family: FamilyId)
    requires IsAuthHistory(EMPTY_TABLES, before + [TokenCall(kill)] + after, sessionLifetime, lifetime)
    requires Kills(AfterCalls(EMPTY_TABLES, before, sessionLifetime, lifetime).rows, kill, family)
    ensures Dead(AfterCalls(EMPTY_TABLES, before + [TokenCall(kill)] + after, sessionLifetime, lifetime).rows, family)
    ensures var front := ProjectedAll(EMPTY_TABLES, before, sessionLifetime, lifetime);
            var t := AfterCalls(EMPTY_TABLES, before + [TokenCall(kill)], sessionLifetime, lifetime);
            var rest := ProjectedAll(t, after, sessionLifetime, lifetime);
            forall m :: 0 <= m < |rest| ==>
              var answer := Answer(ApplyAll(map[], front + [kill] + rest[..m], lifetime), rest[m], lifetime);
              answer.Rotated? ==> answer.row.family != family
  {
    var t := AfterCalls(EMPTY_TABLES, before + [TokenCall(kill)], sessionLifetime, lifetime);
    KillProjects(before, kill, after, sessionLifetime, lifetime);
    HistoryProjects(EMPTY_TABLES, before + [TokenCall(kill)] + after, sessionLifetime, lifetime);
    assert before + [TokenCall(kill)] + after == before + ([TokenCall(kill)] + after);
    PrefixProjects(before, [TokenCall(kill)] + after, sessionLifetime, lifetime);
    KilledFamiliesStayDead(ProjectedAll(EMPTY_TABLES, before, sessionLifetime, lifetime), kill,
                           ProjectedAll(t, after, sessionLifetime, lifetime), lifetime, family);
  }

  /** Where call `i` after the kill stands in the projection, and the rows it meets. */
  lemma ProjectedAfterKill(before: seq<AuthCall>, kill: Call, after: seq<AuthCall>, i: nat, sessionLifetime: int, lifetime: int)
    returns (m: nat)
    requires IsAuthHistory(EMPTY_TABLES, before + [TokenCall(kill)] + after, sessionLifetime, lifetime)
    requires i < |after| && after[i].TokenCall?
    ensures var front := ProjectedAll(EMPTY_TABLES, before, sessionLifetime, lifetime);
            var t := AfterCalls(EMPTY_TABLES, before + [TokenCall(kill)], sessionLifetime, lifetime);
            var rest := ProjectedAll(t, after, sessionLifetime, lifetime);
            && m < |rest| && rest[m] == after[i].call
            && ApplyAll(map[], front + [kill] + rest[..m], lifetime)
               == AfterCalls(EMPTY_TABLES, before + [TokenCall(kill)] + after[..i], sessionLifetime, lifetime).rows
  {
    var killed := before + [TokenCall(kill)];
    var t := AfterCalls(EMPTY_TABLES, killed, sessionLifetime, lifetime);
    m := |ProjectedAll(t, after[..i], sessionLifetime, lifetime)|;
    ProjectedAt(t, after, i, sessionLifetime, lifetime);
    KillProjects(before, kill, after[..i], sessionLifetime, lifetime);
    assert killed + after == (killed + after[..i]) + after[i..];
    PrefixProjects(killed + after[..i], after[i..], sessionLifetime, lifetime);
  }

  lemma NeverRotatedAfter(before: seq<AuthCall>, kill: Call, after: seq<AuthCall>, i: nat, sessionLifetime: int, lifetime: int,
                          family: FamilyId)
    requires IsAuthHistory(EMPTY_TABLES, before + [TokenCall(kill)] + after, sessionLifetime, lifetime)
    requires Kills(AfterCalls(EMPTY_TABLES, before, sessionLifetime, lifetime).rows, kill, family)
    requires i < |after| && after[i].TokenCall?
    ensures !RotatesFamily(AfterCalls(EMPTY_TABLES, before + [TokenCall(kill)] + after[..i], sessionLifetime, lifetime),
                           after[i], family, lifetime)
  {
    var m := ProjectedAfterKill(before, kill, after, i, sessionLifetime, lifetime);
    KilledProjection(before, kill, after, sessionLifetime, lifetime, family);
  }

  /** In every history of the service, whose families only selections open: once a replay, a
      logout or a logout everywhere has killed a family, no later state has an active token
      of it and no later refresh rotates it. */
  lemma KilledInServiceStaysDead(before: seq<AuthCall>, kill: Call, after: seq<AuthCall>, sessionLifetime: int, lifetime: int,
                                 family: FamilyId)
    requires IsAuthHistory(EMPTY_TABLES, before + [TokenCall(kill)] + after, sessionLifetime, lifetime)
    requires Kills(AfterCalls(EMPTY_TABLES, before, sessionLifetime, lifetime).rows, kill, family)
    ensures Dead(AfterCalls(EMPTY_TABLES, before + [TokenCall(kill)] + after, sessionLifetime, lifetime).rows, family)
    ensures forall i :: 0 <= i < |after| ==>
              !RotatesFamily(AfterCalls(EMPTY_TABLES, before + [TokenCall(kill)] + after[..i], sessionLifetime, lifetime),
                             after[i], family, lifetime)
  {
    KilledProjection(before, kill, after, sessionLifetime, lifetime, family);
    forall i | 0 <= i < |after|
      ensures !RotatesFamily(AfterCalls(EMPTY_TABLES, before + [TokenCall(kill)] + after[..i], sessionLifetime, lifetime),
                             after[i], family, lifetime)
    {
      if after[i].TokenCall? { NeverRotatedAfter(before, kill, after, i, sessionLifetime, lifetime, family); }
    }
  }

  // ----- who can hold a token -----

  /** The selection, in these tables, is a member's own login to an active organisation. */
  ghost predicate MemberSelects(t: Tables, c: AuthCall, row: Row) {
    && c.Select? && c.selection.family == row.family && c.selection.org == row.org
    && Consumable(t.sessions, c.selection.token, c.selection.now, c.overtaken)
    && t.sessions[c.selection.token].user == row.user
    && row.user in c.selection.dir.activeUsers && row.org in c.selection.dir.activeOrganisations
    && (row.user, row.org) in c.selection.dir.members
  }

  ghost predicate SameHolder(a: Row, b: Row) {
    a.user == b.user && a.org == b.org && a.family == b.family
  }

  /** A row comes from an earlier one of the same holder and family, or from a selection. */
  lemma RowsComeFrom(t: Tables, c: AuthCall, sessionLifetime: int, lifetime: int, k: RawToken)
    requires FreshCall(t, c) && k in ApplyCall(t, c, sessionLifetime, lifetime).rows
    ensures var row := ApplyCall(t, c, sessionLifetime, lifetime).rows[k];
            MemberSelects(t, c, row) || exists k' :: k' in t.rows && SameHolder(t.rows[k'], row)
  {
    var row := ApplyCall(t, c, sessionLifetime, lifetime).rows[k];
    if k in t.rows && SameHolder(t.rows[k], row) {
    } else if c.TokenCall? && c.call.Refresh? && c.call.raw in t.rows {
      assert SameHolder(t.rows[c.call.raw], row);
    }
  }

  /** Over every history, each row of the token table descends from a selection that the
      service accepted: by its own user, at that moment active, a member, and with a session
      that could still be consumed, of its own organisation, at that moment active. */
  lemma {:induction false} OnlyMembersHoldTokens(calls: seq<AuthCall>, sessionLifetime: int, lifetime: int, k: RawToken) returns (i: nat)
    requires IsAuthHistory(EMPTY_TABLES, calls, sessionLifetime, lifetime)
    requires k in AfterCalls(EMPTY_TABLES, calls, sessionLifetime, lifetime).rows
    ensures i < |calls|
    ensures MemberSelects(AfterCalls(EMPTY_TABLES, calls[..i], sessionLifetime, lifetime), calls[i],
                          AfterCalls(EMPTY_TABLES, calls, sessionLifetime, lifetime).rows[k])
    decreases |calls|
  {
    assert calls != [];
    var n := |calls| - 1;
    var t, row := AfterCalls(EMPTY_TABLES, calls[..n], sessionLifetime, lifetime), AfterCalls(EMPTY_TABLES, calls, sessionLifetime, lifetime).rows[k];
    LastCall(calls, sessionLifetime, lifetime);
    RowsComeFrom(t, calls[n], sessionLifetime, lifetime, k);
    if MemberSelects(t, calls[n], row) {
      i := n;
    } else {
      var k' :| k' in t.rows && SameHolder(t.rows[k'], row);
      i := OnlyMembersHoldTokens(calls[..n], sessionLifetime, lifetime, k');
      assert calls[..n][..i] == calls[..i];
    }
  }

  lemma LastCall(calls: seq<AuthCall>, sessionLifetime: int, lifetime: int)
    requires calls != [] && IsAuthHistory(EMPTY_TABLES, calls, sessionLifetime, lifetime)
    ensures var t, last := AfterCalls(EMPTY_TABLES, calls[..|calls| - 1], sessionLifetime, lifetime), calls[|calls| - 1];
            && IsAuthHistory(EMPTY_TABLES, calls[..|calls| - 1], sessionLifetime, lifetime) && FreshCall(t, last)
            && AfterCalls(EMPTY_TABLES, calls, sessionLifetime, lifetime) == ApplyCall(t, last, sessionLifetime, lifetime)
  {
    var front, last := calls[..|calls| - 1], calls[|calls| - 1];
    assert calls == front + [last];
    AuthHistorySplits(EMPTY_TABLES, front, [last], sessionLifetime, lifetime);
    assert [last][1..] == [];
  }

  // ----- a history that kills a family -----

  lemma NextCall(t: Tables, c: AuthCall, rest: seq<AuthCall>, sessionLifetime: int, lifetime: int)
    requires FreshCall(t, c) && IsAuthHistory(ApplyCall(t, c, sessionLifetime, lifetime), rest, sessionLifetime, lifetime)
    ensures IsAuthHistory(t, [c] + rest, sessionLifetime, lifetime)
    ensures AfterCalls(t, [c] + rest, sessionLifetime, lifetime)
            == AfterCalls(ApplyCall(t, c, sessionLifetime, lifetime), rest, sessionLifetime, lifetime)
  {
    assert ([c] + rest)[1..] == rest;
  }

  /** User 0 logs in to organisation 0, as a member. */
  const LOGIN := Select(Selection(1, 0, 0, 2, 0, Directory({0}, {0}, {(0, 0)})), None)
  const FIRST := RawToken(Some(0), 2)
  const SECOND := RawToken(Some(0), 3)

  lemma LoggedIn(sessionLifetime: int, lifetime: int) returns (t: Tables)
    requires sessionLifetime >= 0
    ensures t == ApplyCall(ApplyCall(EMPTY_TABLES, StartLogin(0, 1, 0), sessionLifetime, lifetime), LOGIN, sessionLifetime, lifetime)
    ensures FreshCall(ApplyCall(EMPTY_TABLES, StartLogin(0, 1, 0), sessionLifetime, lifetime), LOGIN)
    ensures t.rows == map[FIRST := Row(0, 0, 0, true, lifetime, None, None)]
  {
    t := ApplyCall(ApplyCall(EMPTY_TABLES, StartLogin(0, 1, 0), sessionLifetime, lifetime), LOGIN, sessionLifetime, lifetime);
  }

  lemma ReplayKills(t: Tables, sessionLifetime: int, lifetime: int)
    requires lifetime >= 0 && t.rows == map[FIRST := Row(0, 0, 0, true, lifetime, None, None)]
    ensures var calls := [TokenCall(Refresh(FIRST, 3, 0)), TokenCall(Refresh(FIRST, 4, 0))];
            && IsAuthHistory(t, calls, sessionLifetime, lifetime)
            && Answer(t.rows, calls[0].call, lifetime).Rotated?
            && Used(AfterCalls(t, calls, sessionLifetime, lifetime).rows, 0)
            && Dead(AfterCalls(t, calls, sessionLifetime, lifetime).rows, 0)
  {
    var rotate, replay := TokenCall(Refresh(FIRST, 3, 0)), TokenCall(Refresh(FIRST, 4, 0));
    var t1 := ApplyCall(t, rotate, sessionLifetime, lifetime);
    assert t1.rows[SECOND].active && !t1.rows[FIRST].active && t1.rows.Keys == {FIRST, SECOND};
    NextCall(t1, replay, [], sessionLifetime, lifetime);
    NextCall(t, rotate, [replay], sessionLifetime, lifetime);
    assert [replay] + [] == [replay] && [rotate] + [replay] == [rotate, replay];
    var end := ApplyCall(t1, replay, sessionLifetime, lifetime);
    assert SECOND in end.rows && end.rows[SECOND].family == 0;
  }

  /** A history of the service in which a member logs in, refreshes, and the replay of the
      first token kills the family, so that the claims about such histories are not empty. */
  lemma ReplayHistory(sessionLifetime: int, lifetime: int) returns (calls: seq<AuthCall>)
    requires sessionLifetime >= 0 && lifetime >= 0
    ensures calls == [StartLogin(0, 1, 0), LOGIN, TokenCall(Refresh(FIRST, 3, 0)), TokenCall(Refresh(FIRST, 4, 0))]
    ensures IsAuthHistory(EMPTY_TABLES, calls, sessionLifetime, lifetime)
    ensures var rows := AfterCalls(EMPTY_TABLES, calls, sessionLifetime, lifetime).rows;
            Used(rows, 0) && Dead(rows, 0)
  {
    var refreshes := [TokenCall(Refresh(FIRST, 3, 0)), TokenCall(Refresh(FIRST, 4, 0))];
    var start := StartLogin(0, 1, 0);
    var t := LoggedIn(sessionLifetime, lifetime);
    ReplayKills(t, sessionLifetime, lifetime);
    NextCall(ApplyCall(EMPTY_TABLES, start, sessionLifetime, lifetime), LOGIN, refreshes, sessionLifetime, lifetime);
    NextCall(EMPTY_TABLES, start, [LOGIN] + refreshes, sessionLifetime, lifetime);
    calls := [start] + ([LOGIN] + refreshes);
  }
}
