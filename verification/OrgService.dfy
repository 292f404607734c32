/** The membership operations, each run in a transaction of its own. */
module OrgService {
  import opened Collections
  import opened Ownership

  datatype Call =
    | Register(org: OrgId, user: UserId)                       // both ids are fresh
    | AddMember(org: OrgId, user: UserId, role: Role)
    | RemoveMember(org: OrgId, user: UserId)
    | ChangeMemberRole(org: OrgId, user: UserId, role: Role)
    | TransferOwnership(org: OrgId, current: UserId, next: UserId)

  datatype OrgError =
    | UserNotFound | AlreadyMember | NotAMember | CannotRemoveOwner | CannotChangeOwner
    | SameUser | NotTheOwner | NewOwnerNotMember
    | IntegrityError     // a constraint or the unique index refused a statement
    | OwnerCountWrong    // the deferred trigger refused the commit

  const NO_CHANGES := Tx({}, map[], false)

  /** Another row of the organisation is its owner in this view. */
  predicate OwnedByAnother(db: Db, k: Key) {
    exists k' :: k' in db.roles && k'.0 == k.0 && k' != k && Owns(db, k')
  }

  // ----- what each call should do -----

  function Refusal(db: Db, users: set<UserId>, call: Call): Option<OrgError> {
    match call
    case Register(_, _) => None
    case AddMember(org, user, role) =>
      if user !in users then Some(UserNotFound)
      else if (org, user) in db.roles then Some(AlreadyMember)
      else if org !in db.organisations || (role == OWNER && OwnedByAnother(db, (org, user))) then Some(IntegrityError)
      else None
    case RemoveMember(org, user) =>
      if (org, user) !in db.roles then Some(NotAMember)
      else if Owns(db, (org, user)) then Some(CannotRemoveOwner)
      else None
    case ChangeMemberRole(org, user, role) =>
      if (org, user) !in db.roles then Some(NotAMember)
      else if Owns(db, (org, user)) then Some(CannotChangeOwner)
      else if role == OWNER && OwnedByAnother(db, (org, user)) then Some(IntegrityError)
      else None
    case TransferOwnership(org, current, next) =>
      if current == next then Some(SameUser)
      else if !Owns(db, (org, current)) then Some(NotTheOwner)
      else if (org, next) !in db.roles then Some(NewOwnerNotMember)
      else if OwnedByAnother(db.(roles := db.roles[(org, current) := ADMINISTRATOR]), (org, next)) then Some(IntegrityError)
      else None
  }

  function Changed(db: Db, call: Call): Db {
    match call
    case Register(org, user) => Db(db.organisations + {org}, db.roles[(org, user) := OWNER])
    case AddMember(org, user, role) => db.(roles := db.roles[(org, user) := role])
    case RemoveMember(org, user) => db.(roles := db.roles - {(org, user)})
    case ChangeMemberRole(org, user, role) => db.(roles := db.roles[(org, user) := role])
    case TransferOwnership(org, current, next) =>
      db.(roles := db.roles[(org, current) := ADMINISTRATOR][(org, next) := OWNER])
  }

  function Answer(db: Db, users: set<UserId>, call: Call): Result<(), OrgError> {
    var refusal := Refusal(db, users, call);
    if refusal.Some? then Err(refusal.value)
    else if |Owners(Changed(db, call), call.org)| != 1 then Err(OwnerCountWrong)
    else Ok(())
  }

  function AfterCall(db: Db, users: set<UserId>, call: Call): Db {
    if Answer(db, users, call).Ok? then Changed(db, call) else db
  }

  // ----- the session and the service -----

  class OrgSession {
    var committed: Db
    var tx: Tx

    constructor (db: Db)
      ensures committed == db && tx == NO_CHANGES
    {
      committed, tx := db, NO_CHANGES;
    }

    ghost function Alone(): System
      reads this
    {
      System(committed, map[0 := tx])
    }

    function Current(): Db
      reads this
    {
      View(committed, tx)
    }

    method InsertMember(k: Key, role: Role) returns (ok: bool)
      requires !tx.passed
      modifies this`tx
      ensures ok == Enabled(old(Alone()), Insert(0, k, role))
      ensures ok == (k !in old(Current()).roles && k.0 in old(Current()).organisations
                     && (role == OWNER ==> !OwnedByAnother(old(Current()), k)))
      ensures tx == if ok then Written(old(tx), k, Some(role)) else old(tx)
    {
      IndexSeesTheView(committed, tx, k);
      ok := k !in Current().roles && k.0 in Current().organisations && !(role == OWNER && OwnedByAnother(Current(), k));
      if ok { tx := Written(tx, k, Some(role)); }
    }

    method UpdateRole(k: Key, role: Role) returns (ok: bool)
      requires !tx.passed && k in Current().roles
      modifies this`tx
      ensures ok == Enabled(old(Alone()), SetRole(0, k, role))
      ensures ok == (role == OWNER ==> !OwnedByAnother(old(Current()), k))
      ensures tx == if ok then Written(old(tx), k, Some(role)) else old(tx)
    {
      IndexSeesTheView(committed, tx, k);
      ok := !(role == OWNER && OwnedByAnother(Current(), k));
      if ok { tx := Written(tx, k, Some(role)); }
    }

    method DeleteMember(k: Key)
      requires !tx.passed && k in Current().roles
      modifies this`tx
      ensures Enabled(old(Alone()), Delete(0, k))
      ensures tx == Written(old(tx), k, None)
    {
      tx := Written(tx, k, None);
    }

    method InsertOrganisation(org: OrgId)
      requires !tx.passed && org !in Current().organisations
      modifies this`tx
      ensures Enabled(old(Alone()), CreateOrganisation(0, org))
      ensures tx == old(tx).(created := old(tx).created + {org})
    {
      tx := tx.(created := tx.created + {org});
    }

    /** The scope's exit: roll back on an exception; otherwise run the deferred checks and
        commit only if every one of them counts one owner. */
    method Exit(exception: bool) returns (done: bool)
      modifies this
      ensures done == (!exception && TriggerPasses(old(committed), old(tx)))
      ensures committed == if done then View(old(committed), old(tx)) else old(committed)
      ensures tx == NO_CHANGES
    {
      done := !exception && forall k :: k in tx.writes ==> |Owners(Current(), k.0)| == 1;
      if done { committed := Current(); }
      tx := NO_CHANGES;
    }

    method DoRegister(org: OrgId, user: UserId) returns (error: Option<OrgError>)
      requires tx == NO_CHANGES && org !in committed.organisations
      requires forall k :: k in committed.roles ==> k.0 != org
      modifies this`tx
      ensures error.None? && Current() == Changed(committed, Register(org, user))
      ensures tx.writes.Keys == {(org, user)}
    {
      InsertOrganisation(org);
      var ok := InsertMember((org, user), OWNER);
      error := None;
    }

    method DoAddMember(users: set<UserId>, org: OrgId, user: UserId, role: Role) returns (error: Option<OrgError>)
      requires tx == NO_CHANGES
      modifies this`tx
      ensures error == Refusal(committed, users, AddMember(org, user, role))
      ensures error.None? ==> Current() == Changed(committed, AddMember(org, user, role)) && tx.writes.Keys == {(org, user)}
    {
      NoChangesNoView(committed);
      if user !in users { return Some(UserNotFound); }
      if (org, user) in Current().roles { return Some(AlreadyMember); }
      var ok := InsertMember((org, user), role);
      return if ok then None else Some(IntegrityError);
    }

    method DoRemoveMember(org: OrgId, user: UserId) returns (error: Option<OrgError>)
      requires tx == NO_CHANGES
      modifies this`tx
      ensures error == Refusal(committed, {}, RemoveMember(org, user))
      ensures error.None? ==> Current() == Changed(committed, RemoveMember(org, user)) && tx.writes.Keys == {(org, user)}
    {
      NoChangesNoView(committed);
      if (org, user) !in Current().roles { return Some(NotAMember); }
      if Current().roles[(org, user)] == OWNER { return Some(CannotRemoveOwner); }
      DeleteMember((org, user));
      return None;
    }

    method DoChangeMemberRole(org: OrgId, user: UserId, role: Role) returns (error: Option<OrgError>)
      requires tx == NO_CHANGES
      modifies this`tx
      ensures error == Refusal(committed, {}, ChangeMemberRole(org, user, role))
      ensures error.None? ==>
                Current() == Changed(committed, ChangeMemberRole(org, user, role)) && tx.writes.Keys == {(org, user)}
    {
      NoChangesNoView(committed);
      if (org, user) !in Current().roles { return Some(NotAMember); }
      if Current().roles[(org, user)] == OWNER { return Some(CannotChangeOwner); }
      var ok := UpdateRole((org, user), role);
      return if ok then None else Some(IntegrityError);
    }

    /** Demote first, then promote: the index would refuse the other order. */
    method DoTransferOwnership(org: OrgId, current: UserId, next: UserId) returns (error: Option<OrgError>)
      requires tx == NO_CHANGES
      modifies this`tx
      ensures error == Refusal(committed, {}, TransferOwnership(org, current, next))
      ensures error.None? ==>
                && Current() == Changed(committed, TransferOwnership(org, current, next))
                && tx.writes.Keys == {(org, current), (org, next)}
    {
      NoChangesNoView(committed);
      if current == next { return Some(SameUser); }
      if (org, current) !in Current().roles || Current().roles[(org, current)] != OWNER { return Some(NotTheOwner); }
      if (org, next) !in Current().roles { return Some(NewOwnerNotMember); }
      var ok := UpdateRole((org, current), ADMINISTRATOR);
      DemotedView(committed, org, current);
      ok := UpdateRole((org, next), OWNER);
      TransferredView(committed, org, current, next);
      return if ok then None else Some(IntegrityError);
    }

    /** One service call in its own scope. */
    method Run(users: set<UserId>, call: Call) returns (result: Result<(), OrgError>)
      requires tx == NO_CHANGES
      requires call.Register? ==> FreshOrganisation(committed, call.org)
      modifies this
      ensures result == Answer(old(committed), users, call)
      ensures committed == AfterCall(old(committed), users, call) && tx == NO_CHANGES
    {
      var error: Option<OrgError>;
      match call {
        case Register(org, user) => error := DoRegister(org, user);
        case AddMember(org, user, role) => error := DoAddMember(users, org, user, role);
        case RemoveMember(org, user) => error := DoRemoveMember(org, user);
        case ChangeMemberRole(org, user, role) => error := DoChangeMemberRole(org, user, role);
        case TransferOwnership(org, current, next) => error := DoTransferOwnership(org, current, next);
      }
      assert error.None? ==> (exists k :: k in tx.writes) && forall k :: k in tx.writes ==> k.0 == call.org;
      var done := Exit(error.Some?);
      if error.Some? { return Err(error.value); }
      return if done then Ok(()) else Err(OwnerCountWrong);
    }
  }

  lemma NoChangesNoView(db: Db)
    ensures View(db, NO_CHANGES) == db
  {
  }

  lemma IndexSeesTheView(db: Db, tx: Tx, k: Key)
    ensures IndexAllows(System(db, map[0 := tx]), 0, k) <==> !OwnedByAnother(View(db, tx), k)
  {
    var view, s := View(db, tx), System(db, map[0 := tx]);
    forall k': Key ensures Owns(view, k') <==> PromotesAt(tx, k') || (Owns(db, k') && k' !in tx.writes) {
    }
    assert s.open[0] == tx;
    if OwnedByAnother(view, k) {
      var k' :| k' in view.roles && k'.0 == k.0 && k' != k && Owns(view, k');
      assert PromotesAt(s.open[0], k') || (Owns(db, k') && k' !in tx.writes);
    } else {
      forall k' | k' != k && k'.0 == k.0 ensures !PromotesAt(tx, k') && (Owns(db, k') ==> k' in tx.writes) {
        assert !Owns(view, k');
      }
    }
  }

  lemma DemotedView(db: Db, org: OrgId, current: UserId)
    requires (org, current) in db.roles
    ensures View(db, Written(NO_CHANGES, (org, current), Some(ADMINISTRATOR)))
            == db.(roles := db.roles[(org, current) := ADMINISTRATOR])
  {
  }

  lemma TransferredView(db: Db, org: OrgId, current: UserId, next: UserId)
    ensures var tx := Written(Written(NO_CHANGES, (org, current), Some(ADMINISTRATOR)), (org, next), Some(OWNER));
            View(db, tx) == Changed(db, TransferOwnership(org, current, next))
            && tx.writes.Keys == {(org, current), (org, next)}
  {
  }

  // ----- the claims over whole histories -----

  ghost predicate FreshOrganisation(db: Db, org: OrgId) {
    org !in db.organisations && forall k :: k in db.roles ==> k.0 != org
  }

  /** Every organisation has exactly one owner, and every member's organisation exists. */
  ghost predicate AllOwned(db: Db) {
    && (forall org :: org in db.organisations ==> ExactlyOneOwner(db, org))
    && (forall k :: k in db.roles ==> k.0 in db.organisations)
  }

  lemma OwnerElsewhere(db: Db, org: OrgId, k: Key)
    requires AllOwned(db) && org in db.organisations && k.0 == org && !Owns(db, k)
    ensures OwnedByAnother(db, k)
  {
    var k' :| Owns(db, k') && k'.0 == org;
  }

  /** Only a registration or a transfer makes anyone an owner, and only in its organisation. */
  predicate OwnsAfter(db: Db, call: Call, k: Key) {
    match call
    case Register(org, user) => k == (org, user) || Owns(db, k)
    case TransferOwnership(org, current, next) => if k.0 == org then k == (org, next) else Owns(db, k)
    case _ => Owns(db, k)
  }

  lemma WhoOwnsAfterTransfer(db: Db, call: Call, k: Key)
    requires call.TransferOwnership? && call.current != call.next
    requires Owns(db, (call.org, call.current)) && AtMostOneOwner(db, call.org)
    ensures Owns(Changed(db, call), k) <==> OwnsAfter(db, call, k)
  {
    if k.0 == call.org && Owns(db, k) { assert k == (call.org, call.current); }
  }

  /** A role change that does not ask for ownership, of a row that is not the owner's. */
  lemma WhoOwnsAfterRole(db: Db, k0: Key, role: Role, k: Key)
    requires role != OWNER && !Owns(db, k0)
    ensures Owns(db.(roles := db.roles[k0 := role]), k) <==> Owns(db, k)
  {
  }

  lemma WhoOwns(db: Db, users: set<UserId>, call: Call, k: Key)
    requires AllOwned(db) && Refusal(db, users, call).None?
    requires call.Register? ==> FreshOrganisation(db, call.org)
    ensures Owns(Changed(db, call), k) <==> OwnsAfter(db, call, k)
  {
    match call
    case AddMember(org, user, role) =>
      if role == OWNER { OwnerElsewhere(db, org, (org, user)); }
      WhoOwnsAfterRole(db, (org, user), role, k);
    case ChangeMemberRole(org, user, role) =>
      if role == OWNER { OwnerElsewhere(db, org, (org, user)); }
      WhoOwnsAfterRole(db, (org, user), role, k);
    case TransferOwnership(org, current, next) =>
      assert ExactlyOneOwner(db, org);
      WhoOwnsAfterTransfer(db, call, k);
    case _ =>
  }

  lemma StillOneOwner(db: Db, call: Call, org: OrgId)
    requires AllOwned(db) && org in Changed(db, call).organisations
    requires call.Register? ==> FreshOrganisation(db, call.org)
    requires forall k: Key :: Owns(Changed(db, call), k) <==> OwnsAfter(db, call, k)
    ensures ExactlyOneOwner(Changed(db, call), org)
  {
    var db' := Changed(db, call);
    if call.Register? && org == call.org {
      assert OwnsAfter(db, call, (org, call.user)) && Owns(db', (org, call.user));
    } else if call.TransferOwnership? && org == call.org {
      assert OwnsAfter(db, call, (org, call.next)) && Owns(db', (org, call.next));
    } else {
      assert org in db.organisations;
      OwnersAsBefore(db, db', org);
    }
  }

  lemma OwnersAsBefore(db: Db, db': Db, org: OrgId)
    requires ExactlyOneOwner(db, org) && forall k: Key :: k.0 == org ==> (Owns(db', k) <==> Owns(db, k))
    ensures ExactlyOneOwner(db', org)
  {
    var k :| Owns(db, k) && k.0 == org;
    assert Owns(db', k);
  }

  lemma AcceptedKeepsAllOwned(db: Db, users: set<UserId>, call: Call)
    requires AllOwned(db) && Refusal(db, users, call).None?
    requires call.Register? ==> FreshOrganisation(db, call.org)
    ensures AllOwned(Changed(db, call)) && call.org in Changed(db, call).organisations
  {
    forall k: Key ensures Owns(Changed(db, call), k) <==> OwnsAfter(db, call, k) {
      WhoOwns(db, users, call, k);
    }
    forall org | org in Changed(db, call).organisations ensures ExactlyOneOwner(Changed(db, call), org) {
      StillOneOwner(db, call, org);
    }
    AcceptedOrganisation(db, users, call);
  }

  lemma AcceptedOrganisation(db: Db, users: set<UserId>, call: Call)
    requires forall k :: k in db.roles ==> k.0 in db.organisations
    requires Refusal(db, users, call).None?
    ensures call.org in Changed(db, call).organisations
    ensures forall k :: k in Changed(db, call).roles ==> k.0 in Changed(db, call).organisations
  {
    assert call.TransferOwnership? ==> (call.org, call.current) in db.roles;
    assert call.RemoveMember? || call.ChangeMemberRole? ==> (call.org, call.user) in db.roles;
  }

  /** Run one at a time, the service's calls never meet the deferred trigger: a call that its
      own checks and the index let through always commits. */
  lemma TriggerNeverFires(db: Db, users: set<UserId>, call: Call)
    requires AllOwned(db) && (call.Register? ==> FreshOrganisation(db, call.org))
    ensures Answer(db, users, call).Ok? <==> Refusal(db, users, call).None?
    ensures AllOwned(AfterCall(db, users, call))
  {
    if Refusal(db, users, call).None? {
      CountsOneOwner(db, users, call);
      AcceptedMeans(db, users, call);
    } else {
      assert AfterCall(db, users, call) == db;
    }
  }

  lemma CountsOneOwner(db: Db, users: set<UserId>, call: Call)
    requires AllOwned(db) && Refusal(db, users, call).None?
    requires call.Register? ==> FreshOrganisation(db, call.org)
    ensures AllOwned(Changed(db, call)) && |Owners(Changed(db, call), call.org)| == 1
  {
    AcceptedKeepsAllOwned(db, users, call);
    CountIsOne(Changed(db, call), call.org);
  }

  lemma AcceptedMeans(db: Db, users: set<UserId>, call: Call)
    requires Refusal(db, users, call).None? && |Owners(Changed(db, call), call.org)| == 1
    ensures Answer(db, users, call).Ok? && AfterCall(db, users, call) == Changed(db, call)
  {
  }

  ghost predicate IsHistory(db: Db, users: set<UserId>, calls: seq<Call>)
    decreases |calls|
  {
    calls == [] || (&& (calls[0].Register? ==> FreshOrganisation(db, calls[0].org))
                    && IsHistory(AfterCall(db, users, calls[0]), users, calls[1..]))
  }

  function AfterAll(db: Db, users: set<UserId>, calls: seq<Call>): Db
    decreases |calls|
  {
    if calls == [] then db else AfterAll(AfterCall(db, users, calls[0]), users, calls[1..])
  }

  /** After any history of calls every organisation has exactly one owner. */
  lemma {:induction false} HistoriesKeepOneOwner(db: Db, users: set<UserId>, calls: seq<Call>)
    requires AllOwned(db) && IsHistory(db, users, calls)
    ensures AllOwned(AfterAll(db, users, calls))
    decreases |calls|
  {
    if calls != [] {
      TriggerNeverFires(db, users, calls[0]);
      HistoriesKeepOneOwner(AfterCall(db, users, calls[0]), users, calls[1..]);
    }
  }

  /** A transfer succeeds exactly when it is from the owner to another member. */
  lemma TransferExactlyWhen(db: Db, users: set<UserId>, org: OrgId, current: UserId, next: UserId)
    requires AllOwned(db)
    ensures Answer(db, users, TransferOwnership(org, current, next)).Ok? <==>
              Owns(db, (org, current)) && (org, next) in db.roles && current != next
  {
    if Owns(db, (org, current)) { NobodyLeft(db, org, current, next); }
    TriggerNeverFires(db, users, TransferOwnership(org, current, next));
    var refusal := Refusal(db, users, TransferOwnership(org, current, next));
    assert refusal.None? <==> Owns(db, (org, current)) && (org, next) in db.roles && current != next;
  }

  ghost predicate Swapped(db: Db, db': Db, org: OrgId, current: UserId, next: UserId) {
    && db'.organisations == db.organisations && db'.roles.Keys == db.roles.Keys
    && (org, current) in db.roles && db'.roles[(org, current)] == ADMINISTRATOR
    && (forall k :: k in db.roles && k != (org, current) && k != (org, next) ==> db'.roles[k] == db.roles[k])
    && Owners(db, org) == {(org, current)} && Owners(db', org) == {(org, next)}
  }

  /** It then swaps those two roles, moves the ownership, and touches nothing else. */
  lemma TransferSwapsTwoRoles(db: Db, users: set<UserId>, org: OrgId, current: UserId, next: UserId)
    requires AllOwned(db) && Answer(db, users, TransferOwnership(org, current, next)).Ok?
    ensures Swapped(db, AfterCall(db, users, TransferOwnership(org, current, next)), org, current, next)
  {
    TransferExactlyWhen(db, users, org, current, next);
    assert ExactlyOneOwner(db, org);
    TransferredRoles(db, org, current, next);
  }

  lemma TransferredRoles(db: Db, org: OrgId, current: UserId, next: UserId)
    requires ExactlyOneOwner(db, org) && Owns(db, (org, current)) && (org, next) in db.roles && current != next
    ensures Swapped(db, Changed(db, TransferOwnership(org, current, next)), org, current, next)
  {
    SoleOwner(db, (org, current));
    var db' := Changed(db, TransferOwnership(org, current, next));
    forall k | Owns(db', k) && k.0 == org ensures k == (org, next) {
      assert k != (org, next) ==> k == (org, current) || Owns(db, k);
    }
    SoleOwner(db', (org, next));
  }

  lemma SoleOwner(db: Db, k: Key)
    requires ExactlyOneOwner(db, k.0) && Owns(db, k)
    ensures Owners(db, k.0) == {k}
  {
  }

  /** Once the only owner is demoted, the index allows any promotion. */
  lemma NobodyLeft(db: Db, org: OrgId, current: UserId, next: UserId)
    requires AllOwned(db) && Owns(db, (org, current))
    ensures !OwnedByAnother(db.(roles := db.roles[(org, current) := ADMINISTRATOR]), (org, next))
  {
    var demoted := db.(roles := db.roles[(org, current) := ADMINISTRATOR]);
    assert ExactlyOneOwner(db, org);
    forall k | k in demoted.roles && k.0 == org ensures !Owns(demoted, k) {
      assert Owns(demoted, k) ==> Owns(db, k);
    }
  }

  /** The role "owner" can be asked for when a member is added or changed, and the unique
      index is what always refuses it. */
  lemma OwnerRoleIsRefused(db: Db, users: set<UserId>, org: OrgId, user: UserId)
    requires AllOwned(db)
    ensures (org, user) in db.roles && !Owns(db, (org, user)) ==>
              Answer(db, users, ChangeMemberRole(org, user, OWNER)) == Err(IntegrityError)
    ensures user in users && (org, user) !in db.roles ==>
              Answer(db, users, AddMember(org, user, OWNER)) == Err(IntegrityError)
  {
    if org in db.organisations && !Owns(db, (org, user)) { OwnerElsewhere(db, org, (org, user)); }
  }

  // ----- every call's answer and effect, in terms of who is a member and who the owner -----

  ghost predicate Member(db: Db, org: OrgId, user: UserId) {
    (org, user) in db.roles
  }

  ghost predicate AnswerIs(db: Db, users: set<UserId>, call: Call, result: Result<(), OrgError>) {
    match call
    case Register(_, _) => result.Ok?
    case AddMember(org, user, role) =>
      var candidate, sound := user in users && !Member(db, org, user), org in db.organisations && role != Some("owner");
      && (result == Err(UserNotFound) <==> user !in users)
      && (result == Err(AlreadyMember) <==> user in users && Member(db, org, user))
      && (result == Err(IntegrityError) <==> candidate && !sound)
      && (result.Ok? <==> candidate && sound)
    case RemoveMember(org, user) =>
      && (result == Err(NotAMember) <==> !Member(db, org, user))
      && (result == Err(CannotRemoveOwner) <==> Owns(db, (org, user)))
      && (result.Ok? <==> Member(db, org, user) && !Owns(db, (org, user)))
    case ChangeMemberRole(org, user, role) =>
      var changeable := Member(db, org, user) && !Owns(db, (org, user));
      && (result == Err(NotAMember) <==> !Member(db, org, user))
      && (result == Err(CannotChangeOwner) <==> Owns(db, (org, user)))
      && (result == Err(IntegrityError) <==> changeable && role == Some("owner"))
      && (result.Ok? <==> changeable && role != Some("owner"))
    case TransferOwnership(org, current, next) =>
      && (result == Err(SameUser) <==> current == next)
      && (result == Err(NotTheOwner) <==> current != next && !Owns(db, (org, current)))
      && (result == Err(NewOwnerNotMember) <==> current != next && Owns(db, (org, current)) && !Member(db, org, next))
      && (result.Ok? <==> current != next && Owns(db, (org, current)) && Member(db, org, next))
  }

  /** The role a member has after an accepted call; None for no member. */
  ghost function RoleAfter(db: Db, call: Call, k: Key): Option<Role> {
    var before := if k in db.roles then Some(db.roles[k]) else None;
    match call
    case Register(org, user) => if k == (org, user) then Some(Some("owner")) else before
    case AddMember(org, user, role) => if k == (org, user) then Some(role) else before
    case RemoveMember(org, user) => if k == (org, user) then None else before
    case ChangeMemberRole(org, user, role) => if k == (org, user) then Some(role) else before
    case TransferOwnership(org, current, next) =>
      if k == (org, current) then Some(Some("administrator")) else if k == (org, next) then Some(Some("owner")) else before
  }

  ghost predicate RolesAre(db: Db, call: Call, db': Db) {
    && db'.organisations == db.organisations + (if call.Register? then {call.org} else {})
    && forall k :: RoleAfter(db, call, k) == if k in db'.roles then Some(db'.roles[k]) else None
  }

  lemma OwnerRoleConflicts(db: Db, org: OrgId, user: UserId)
    requires AllOwned(db) && org in db.organisations
    ensures OwnedByAnother(db, (org, user)) <==> !Owns(db, (org, user))
  {
    if !Owns(db, (org, user)) {
      OwnerElsewhere(db, org, (org, user));
    } else {
      assert ExactlyOneOwner(db, org);
    }
  }

  lemma RefusedFor(db: Db, users: set<UserId>, call: Call)
    requires AllOwned(db)
    ensures var refusal := Refusal(db, users, call);
            AnswerIs(db, users, call, if refusal.None? then Ok(()) else Err(refusal.value))
  {
    match call
    case AddMember(org, user, role) => if org in db.organisations { OwnerRoleConflicts(db, org, user); }
    case ChangeMemberRole(org, user, role) => if Member(db, org, user) { OwnerRoleConflicts(db, org, user); }
    case TransferOwnership(org, current, next) => if Owns(db, (org, current)) { NobodyLeft(db, org, current, next); }
    case _ =>
  }

  lemma ChangedRoles(db: Db, call: Call)
    requires call.TransferOwnership? ==> call.current != call.next
    ensures RolesAre(db, call, Changed(db, call))
  {
    forall k ensures RoleAfter(db, call, k) == if k in Changed(db, call).roles then Some(Changed(db, call).roles[k]) else None {
      match call
      case TransferOwnership(org, current, next) => assert (org, current) != (org, next);
      case _ =>
    }
  }

  lemma AnswerIsRefusal(db: Db, users: set<UserId>, call: Call)
    requires Answer(db, users, call).Ok? <==> Refusal(db, users, call).None?
    ensures var refusal := Refusal(db, users, call);
            Answer(db, users, call) == if refusal.None? then Ok(()) else Err(refusal.value)
  {
  }

  /** In every sound state each call is refused for exactly these reasons, and an accepted one
      stores exactly these roles and leaves every other membership as it was. */
  lemma CallsDoExactly(db: Db, users: set<UserId>, call: Call)
    requires AllOwned(db) && (call.Register? ==> FreshOrganisation(db, call.org))
    ensures AnswerIs(db, users, call, Answer(db, users, call))
    ensures Answer(db, users, call).Err? ==> AfterCall(db, users, call) == db
    ensures Answer(db, users, call).Ok? ==> RolesAre(db, call, AfterCall(db, users, call))
  {
    TriggerNeverFires(db, users, call);
    RefusedFor(db, users, call);
    AnswerIsRefusal(db, users, call);
    if Answer(db, users, call).Ok? { ChangedRoles(db, call); }
  }
}
