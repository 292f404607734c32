/** Exactly one owner per organisation: the partial unique index, which acts at every
    statement, and the deferred trigger, which counts owners when a transaction commits,
    under any interleaving of any transactions. */
module Ownership {
  import opened Collections

  type OrgId = nat
  type UserId = nat
  type TxId = nat

  /** A membership row is identified by its organisation and user. */
  type Key = (OrgId, UserId)

  /** No role at all, or a role name. */
  type Role = Option<string>

  const OWNER: Role := Some("owner")

  datatype Db = Db(organisations: set<OrgId>, roles: map<Key, Role>)

  predicate Owns(db: Db, k: Key) {
    k in db.roles && db.roles[k] == OWNER
  }

  function Owners(db: Db, org: OrgId): set<Key> {
    set k | k in db.roles && k.0 == org && Owns(db, k)
  }

  ghost predicate HasMember(db: Db, org: OrgId) {
    exists k :: k in db.roles && k.0 == org
  }

  ghost predicate AtMostOneOwner(db: Db, org: OrgId) {
    forall k, k' :: Owns(db, k) && Owns(db, k') && k.0 == org && k'.0 == org ==> k == k'
  }

  ghost predicate ExactlyOneOwner(db: Db, org: OrgId) {
    AtMostOneOwner(db, org) && exists k :: Owns(db, k) && k.0 == org
  }

  /** What the trigger counts is what the claims below speak about. */
  lemma CountIsOne(db: Db, org: OrgId)
    ensures |Owners(db, org)| == 1 <==> ExactlyOneOwner(db, org)
  {
    var owners := Owners(db, org);
    if |owners| == 1 {
      var k :| k in owners;
      assert |owners - {k}| == 0;
      forall k' | Owns(db, k') && k'.0 == org ensures k' == k {
        assert k' in owners;
        assert k' !in owners - {k};
      }
    }
    if ExactlyOneOwner(db, org) {
      var k :| Owns(db, k) && k.0 == org;
      assert owners == {k};
    }
  }

  // ----- open transactions -----

  /** Rows written (None: deleted), organisations created, and whether the deferred trigger
      has already passed.  A written row stays locked until the transaction ends. */
  datatype Tx = Tx(created: set<OrgId>, writes: map<Key, Option<Role>>, passed: bool)

  datatype System = System(db: Db, open: map<TxId, Tx>)

  /** What a transaction sees: the committed state with its own writes on top. */
  function View(db: Db, tx: Tx): Db {
    Db(db.organisations + tx.created,
       map k | k in db.roles.Keys + tx.writes.Keys && (k in tx.writes ==> tx.writes[k].Some?) ::
         if k in tx.writes then tx.writes[k].value else db.roles[k])
  }

  datatype Action =
    | Begin(t: TxId)
    | CreateOrganisation(t: TxId, org: OrgId)
    | Insert(t: TxId, key: Key, role: Role)
    | SetRole(t: TxId, key: Key, role: Role)
    | Delete(t: TxId, key: Key)
    | RunTrigger(t: TxId)
    | Commit(t: TxId)
    | Rollback(t: TxId)

  predicate PromotesAt(tx: Tx, k: Key) {
    k in tx.writes && tx.writes[k] == Some(OWNER)
  }

  /** The row is not locked by another open transaction. */
  ghost predicate Unlocked(s: System, t: TxId, k: Key) {
    forall t' :: t' in s.open && t' != t ==> k !in s.open[t'].writes
  }

  /** The unique index lets `t` make `k` an owner: no other owner row of the organisation is
      committed and untouched by `t`, or written by any open transaction. */
  ghost predicate IndexAllows(s: System, t: TxId, k: Key)
    requires t in s.open
  {
    && (forall k' :: k' != k && k'.0 == k.0 && Owns(s.db, k') ==> k' in s.open[t].writes)
    && (forall t', k' :: t' in s.open && k' != k && k'.0 == k.0 ==> !PromotesAt(s.open[t'], k'))
  }

  ghost predicate Writable(s: System, t: TxId, k: Key, role: Role)
    requires t in s.open
  {
    Unlocked(s, t, k) && !s.open[t].passed && (role == OWNER ==> IndexAllows(s, t, k))
  }

  ghost predicate Enabled(s: System, a: Action) {
    (a.Begin? <==> a.t !in s.open) &&
    match a
    case Begin(t) => true
    case CreateOrganisation(t, org) =>
      !s.open[t].passed && org !in s.db.organisations && forall t' :: t' in s.open ==> org !in s.open[t'].created
    case Insert(t, k, role) =>
      k !in View(s.db, s.open[t]).roles && k.0 in View(s.db, s.open[t]).organisations && Writable(s, t, k, role)
    case SetRole(t, k, role) => k in View(s.db, s.open[t]).roles && Writable(s, t, k, role)
    case Delete(t, k) => k in View(s.db, s.open[t]).roles && Unlocked(s, t, k) && !s.open[t].passed
    case RunTrigger(t) => !s.open[t].passed && TriggerPasses(s.db, s.open[t])
    case Commit(t) => s.open[t].passed
    case Rollback(t) => true
  }

  /** One deferred check per written row, each counting the owners of the row's organisation. */
  ghost predicate TriggerPasses(db: Db, tx: Tx) {
    forall k :: k in tx.writes ==> |Owners(View(db, tx), k.0)| == 1
  }

  ghost function Apply(s: System, a: Action): System
    requires Enabled(s, a)
  {
    match a
    case Begin(t) => s.(open := s.open[t := Tx({}, map[], false)])
    case CreateOrganisation(t, org) => Rewrite(s, t, s.open[t].(created := s.open[t].created + {org}))
    case Insert(t, k, role) => Rewrite(s, t, Written(s.open[t], k, Some(role)))
    case SetRole(t, k, role) => Rewrite(s, t, Written(s.open[t], k, Some(role)))
    case Delete(t, k) => Rewrite(s, t, Written(s.open[t], k, None))
    case RunTrigger(t) => Rewrite(s, t, s.open[t].(passed := true))
    case Commit(t) => System(View(s.db, s.open[t]), s.open - {t})
    case Rollback(t) => s.(open := s.open - {t})
  }

  function Written(tx: Tx, k: Key, row: Option<Role>): Tx {
    tx.(writes := tx.writes[k := row])
  }

  function Rewrite(s: System, t: TxId, tx: Tx): System {
    s.(open := s.open[t := tx])
  }

  const EMPTY := System(Db({}, map[]), map[])

  ghost function After(run: seq<Action>): Option<System> {
    if run == [] then Some(EMPTY)
    else
      match After(run[..|run| - 1])
      case None => None
      case Some(s) => if Enabled(s, run[|run| - 1]) then Some(Apply(s, run[|run| - 1])) else None
  }

  // ----- the invariant -----

  /** An organisation with any member at all has exactly one owner. */
  ghost predicate DbSound(db: Db) {
    && (forall org :: AtMostOneOwner(db, org))
    && (forall k :: k in db.roles ==> ExactlyOneOwner(db, k.0))
  }

  ghost predicate LocksSound(s: System) {
    forall t, t', k :: t in s.open && t' in s.open && t != t' && k in s.open[t].writes ==> k !in s.open[t'].writes
  }

  /** A pending owner excludes every other one, committed or pending. */
  ghost predicate PendingSound(s: System) {
    forall t, k :: t in s.open && PromotesAt(s.open[t], k) ==> IndexAllows(s, t, k)
  }

  ghost predicate PassedSound(s: System) {
    forall t, k :: t in s.open && s.open[t].passed && k in s.open[t].writes ==> ExactlyOneOwner(View(s.db, s.open[t]), k.0)
  }

  ghost predicate Inv(s: System) {
    DbSound(s.db) && LocksSound(s) && PendingSound(s) && PassedSound(s)
  }

  // ----- statements keep it -----

  lemma WriteKeepsPending(s: System, t: TxId, k: Key, row: Option<Role>)
    requires PendingSound(s) && t in s.open
    requires row == Some(OWNER) ==> IndexAllows(s, t, k)
    ensures PendingSound(Rewrite(s, t, Written(s.open[t], k, row)))
  {
    var s' := Rewrite(s, t, Written(s.open[t], k, row));
    forall t', k' | t' in s'.open && PromotesAt(s'.open[t'], k') ensures IndexAllows(s', t', k') {
      if t' == t && k' == k {
        StillAllowed(s, t, k, row, t, k);
      } else {
        assert PromotesAt(s.open[t'], k') && IndexAllows(s, t', k');
        StillAllowed(s, t, k, row, t', k');
      }
    }
  }

  lemma StillAllowed(s: System, t: TxId, k: Key, row: Option<Role>, t': TxId, k': Key)
    requires t in s.open && t' in s.open && IndexAllows(s, t', k')
    requires row == Some(OWNER) ==> IndexAllows(s, t, k) && ((t' == t && k' == k) || PromotesAt(s.open[t'], k'))
    ensures IndexAllows(Rewrite(s, t, Written(s.open[t], k, row)), t', k')
  {
    var s' := Rewrite(s, t, Written(s.open[t], k, row));
    forall t'', k'' | t'' in s'.open && k'' != k' && k''.0 == k'.0 ensures !PromotesAt(s'.open[t''], k'') {
      assert !PromotesAt(s.open[t''], k'');
    }
  }

  lemma WriteKeeps(s: System, t: TxId, k: Key, row: Option<Role>)
    requires Inv(s) && t in s.open && !s.open[t].passed && Unlocked(s, t, k)
    requires row == Some(OWNER) ==> IndexAllows(s, t, k)
    ensures Inv(Rewrite(s, t, Written(s.open[t], k, row)))
  {
    WriteKeepsPending(s, t, k, row);
    WriteKeepsLocks(s, t, k, row);
  }

  lemma WriteKeepsLocks(s: System, t: TxId, k: Key, row: Option<Role>)
    requires LocksSound(s) && t in s.open && Unlocked(s, t, k)
    ensures LocksSound(Rewrite(s, t, Written(s.open[t], k, row)))
  {
  }

  lemma OtherStatementKeeps(s: System, t: TxId, tx: Tx)
    requires Inv(s) && t in s.open && tx.writes == s.open[t].writes
    requires tx.passed ==> forall k :: k in tx.writes ==> ExactlyOneOwner(View(s.db, tx), k.0)
    ensures Inv(Rewrite(s, t, tx))
  {
    var s' := Rewrite(s, t, tx);
    forall t', k' | t' in s'.open && PromotesAt(s'.open[t'], k') ensures IndexAllows(s', t', k') {
      assert PromotesAt(s.open[t'], k');
    }
  }

  lemma RemovalKeeps(s: System, t: TxId)
    requires Inv(s) && t in s.open
    ensures Inv(s.(open := s.open - {t}))
  {
    var s' := s.(open := s.open - {t});
    forall t', k' | t' in s'.open && PromotesAt(s'.open[t'], k') ensures IndexAllows(s', t', k') {
      assert PromotesAt(s.open[t'], k');
    }
  }

  // ----- commits keep it -----

  lemma PendingExcludes(s: System, t: TxId, k: Key, k': Key)
    requires PendingSound(s) && t in s.open && PromotesAt(s.open[t], k)
    requires Owns(View(s.db, s.open[t]), k') && k'.0 == k.0
    ensures k' == k
  {
    assert IndexAllows(s, t, k);
    if !PromotesAt(s.open[t], k') { OwnerNotPromoted(s.db, s.open[t], k'); }
  }

  /** The index alone: no transaction ever sees two owners. */
  lemma ViewHasAtMostOne(s: System, t: TxId, org: OrgId)
    requires PendingSound(s) && AtMostOneOwner(s.db, org) && t in s.open
    ensures AtMostOneOwner(View(s.db, s.open[t]), org)
  {
    var tx := s.open[t];
    forall k, k' | Owns(View(s.db, tx), k) && Owns(View(s.db, tx), k') && k.0 == org && k'.0 == org ensures k == k' {
      if PromotesAt(tx, k) {
        PendingExcludes(s, t, k, k');
      } else if PromotesAt(tx, k') {
        PendingExcludes(s, t, k', k);
      } else {
        OwnerNotPromoted(s.db, tx, k);
        OwnerNotPromoted(s.db, tx, k');
      }
    }
  }

  lemma CommittedDbSound(s: System, t: TxId)
    requires Inv(s) && t in s.open && s.open[t].passed
    ensures DbSound(View(s.db, s.open[t]))
  {
    var tx := s.open[t];
    var db' := View(s.db, tx);
    forall org ensures AtMostOneOwner(db', org) { ViewHasAtMostOne(s, t, org); }
    forall k | k in db'.roles ensures ExactlyOneOwner(db', k.0) {
      if w :| w in tx.writes && w.0 == k.0 {
        assert ExactlyOneOwner(db', w.0);
      } else {
        UntouchedOrganisation(s.db, tx, k.0);
        assert k in s.db.roles;
      }
    }
  }

  lemma UntouchedOrganisation(db: Db, tx: Tx, org: OrgId)
    requires forall w :: w in tx.writes ==> w.0 != org
    ensures forall k: Key :: k.0 == org ==> (Owns(View(db, tx), k) <==> Owns(db, k))
  {
  }

  /** Only one open transaction at a time can change who owns an organisation, so a check
      that passed stays right while other transactions commit. */
  lemma CommitKeepsPassed(s: System, t: TxId, t': TxId, w: Key)
    requires Inv(s) && t in s.open && t' in s.open && t != t'
    requires s.open[t].passed && s.open[t'].passed && w in s.open[t'].writes
    ensures ExactlyOneOwner(View(View(s.db, s.open[t]), s.open[t']), w.0)
  {
    var tx, tx', org := s.open[t], s.open[t'], w.0;
    if forall k :: k in tx.writes ==> k.0 != org {
      UntouchedOrganisation(s.db, tx, org);
      SameOwnersSameView(s.db, View(s.db, tx), tx', org);
    } else {
      var v :| v in tx.writes && v.0 == org;
      BothTouched(s, t, t', v, w);
    }
  }

  lemma SameOwnersSameView(db: Db, db': Db, tx: Tx, org: OrgId)
    requires forall k: Key :: k.0 == org ==> (Owns(db', k) <==> Owns(db, k))
    requires ExactlyOneOwner(View(db, tx), org)
    ensures ExactlyOneOwner(View(db', tx), org)
  {
    var k :| Owns(View(db, tx), k) && k.0 == org;
    assert Owns(View(db', tx), k);
    forall k' | Owns(View(db', tx), k') && k'.0 == org ensures k' == k {
      assert Owns(View(db, tx), k');
    }
  }

  lemma BothTouched(s: System, t: TxId, t': TxId, v: Key, w: Key)
    requires Inv(s) && t in s.open && t' in s.open && t != t' && v.0 == w.0
    requires s.open[t].passed && s.open[t'].passed && v in s.open[t].writes && w in s.open[t'].writes
    ensures ExactlyOneOwner(View(View(s.db, s.open[t]), s.open[t']), w.0)
  {
    var tx, tx', org := s.open[t], s.open[t'], w.0;
    var db' := View(s.db, tx);
    assert ExactlyOneOwner(db', org) && ExactlyOneOwner(View(s.db, tx'), org);
    var k :| Owns(db', k) && k.0 == org;
    var k' :| Owns(View(s.db, tx'), k') && k'.0 == org;
    if PromotesAt(tx', k') {
      // then t changed nothing about ownership
      NoPromotion(s, t', t, k');
      OwnerNotPromoted(s.db, tx, k);
      assert IndexAllows(s, t', k');
      assert Owns(View(db', tx'), k');
      forall j | Owns(View(db', tx'), j) && j.0 == org ensures j == k' {
        if PromotesAt(tx', j) { assert IndexAllows(s, t', j); } else { OwnerNotPromoted(s.db, tx, j); }
      }
    } else {
      // t' changed nothing about ownership
      assert Owns(s.db, k') && k' !in tx'.writes;
      NoPromotionAt(s, t', org, k');
      OwnerSurvives(s, t, t', k, k');
    }
  }

  lemma NoPromotion(s: System, t: TxId, other: TxId, k: Key)
    requires Inv(s) && t in s.open && other in s.open && t != other && PromotesAt(s.open[t], k)
    ensures forall j: Key :: j.0 == k.0 ==> !PromotesAt(s.open[other], j)
  {
    assert IndexAllows(s, t, k);
  }

  lemma OwnerNotPromoted(db: Db, tx: Tx, k: Key)
    requires Owns(View(db, tx), k) && !PromotesAt(tx, k)
    ensures Owns(db, k) && k !in tx.writes
  {
  }

  /** A transaction whose view still has the committed owner promotes nobody. */
  lemma NoPromotionAt(s: System, t: TxId, org: OrgId, k: Key)
    requires Inv(s) && t in s.open && Owns(s.db, k) && k.0 == org && k !in s.open[t].writes
    ensures forall j: Key :: j.0 == org ==> !PromotesAt(s.open[t], j)
  {
    forall j: Key | j.0 == org ensures !PromotesAt(s.open[t], j) {
      assert PromotesAt(s.open[t], j) ==> IndexAllows(s, t, j);
    }
  }

  lemma OwnerSurvives(s: System, t: TxId, t': TxId, k: Key, k': Key)
    requires Inv(s) && t in s.open && t' in s.open && t != t' && k.0 == k'.0
    requires Owns(View(s.db, s.open[t]), k) && AtMostOneOwner(View(s.db, s.open[t]), k.0)
    requires Owns(s.db, k') && k' !in s.open[t'].writes
    requires forall j: Key :: j.0 == k.0 ==> !PromotesAt(s.open[t'], j)
    ensures ExactlyOneOwner(View(View(s.db, s.open[t]), s.open[t']), k.0)
  {
    var tx, tx' := s.open[t], s.open[t'];
    var db' := View(s.db, tx);
    if !PromotesAt(tx, k) {
      OwnerNotPromoted(s.db, tx, k);
      assert AtMostOneOwner(s.db, k.0);
      assert k == k';
    }
    assert k !in tx'.writes;
    assert Owns(View(db', tx'), k);
    forall j | Owns(View(db', tx'), j) && j.0 == k.0 ensures j == k {
      OwnerNotPromoted(db', tx', j);
    }
  }

  lemma CommitKeepsPending(s: System, t: TxId)
    requires Inv(s) && t in s.open && s.open[t].passed
    ensures PendingSound(Apply(s, Commit(t)))
  {
    var s' := Apply(s, Commit(t));
    forall t', k | t' in s'.open && PromotesAt(s'.open[t'], k) ensures IndexAllows(s', t', k) {
      assert PromotesAt(s.open[t'], k) && IndexAllows(s, t', k);
      forall k' | k' != k && k'.0 == k.0 && Owns(s'.db, k') ensures k' in s'.open[t'].writes {
        NoPromotion(s, t', t, k);
        OwnerNotPromoted(s.db, s.open[t], k');
      }
    }
  }

  lemma CommitKeeps(s: System, t: TxId)
    requires Inv(s) && Enabled(s, Commit(t))
    ensures Inv(Apply(s, Commit(t)))
  {
    var s' := Apply(s, Commit(t));
    CommittedDbSound(s, t);
    CommitKeepsPending(s, t);
    forall t', w | t' in s'.open && s'.open[t'].passed && w in s'.open[t'].writes
      ensures ExactlyOneOwner(View(s'.db, s'.open[t']), w.0) {
      CommitKeepsPassed(s, t, t', w);
    }
  }

  lemma ActionKeeps(s: System, a: Action)
    requires Inv(s) && Enabled(s, a)
    ensures Inv(Apply(s, a))
  {
    match a
    case Begin(t) => BeginKeeps(s, t);
    case CreateOrganisation(t, org) => OtherStatementKeeps(s, t, s.open[t].(created := s.open[t].created + {org}));
    case Insert(t, k, role) => WriteKeeps(s, t, k, Some(role));
    case SetRole(t, k, role) => WriteKeeps(s, t, k, Some(role));
    case Delete(t, k) => WriteKeeps(s, t, k, None);
    case RunTrigger(t) => TriggerKeeps(s, t);
    case Commit(t) => CommitKeeps(s, t);
    case Rollback(t) => RemovalKeeps(s, t);
  }

  lemma BeginKeeps(s: System, t: TxId)
    requires Inv(s) && t !in s.open
    ensures Inv(Apply(s, Begin(t)))
  {
    var s' := Apply(s, Begin(t));
    forall t', k' | t' in s'.open && PromotesAt(s'.open[t'], k') ensures IndexAllows(s', t', k') {
      assert PromotesAt(s.open[t'], k');
    }
  }

  lemma TriggerKeeps(s: System, t: TxId)
    requires Inv(s) && Enabled(s, RunTrigger(t))
    ensures Inv(Apply(s, RunTrigger(t)))
  {
    var tx := s.open[t].(passed := true);
    forall k | k in tx.writes ensures ExactlyOneOwner(View(s.db, tx), k.0) {
      CountIsOne(View(s.db, s.open[t]), k.0);
      assert View(s.db, tx) == View(s.db, s.open[t]);
    }
    OtherStatementKeeps(s, t, tx);
  }

  lemma {:induction false} RunsKeep(run: seq<Action>)
    requires After(run).Some?
    ensures Inv(After(run).value)
  {
    if run != [] {
      RunsKeep(run[..|run| - 1]);
      ActionKeeps(After(run[..|run| - 1]).value, run[|run| - 1]);
    }
  }

  // ----- the claims over whole runs -----

  /** Whatever the transactions write and however their statements, checks and commits
      interleave, every committed state has exactly one owner in every organisation that
      has members. */
  lemma EveryCommittedStateHasOneOwner(run: seq<Action>, org: OrgId)
    requires After(run).Some?
    ensures ExactlyOneOwner(After(run).value.db, org) <==> HasMember(After(run).value.db, org)
  {
    RunsKeep(run);
  }

  /** Between any two statements of any transaction, it sees at most one owner: the states
      with none exist, those with two do not. */
  lemma NoStatementLeavesTwoOwners(run: seq<Action>, t: TxId, org: OrgId)
    requires After(run).Some? && t in After(run).value.open
    ensures AtMostOneOwner(View(After(run).value.db, After(run).value.open[t]), org)
  {
    RunsKeep(run);
    ViewHasAtMostOne(After(run).value, t, org);
  }

  /** Because the index never lets there be two owners, the deferred check refuses a
      transaction exactly when it would leave an organisation it wrote to without one. */
  lemma TriggerRefusesExactlyOwnerless(run: seq<Action>, t: TxId)
    requires After(run).Some? && t in After(run).value.open
    ensures var s := After(run).value;
            var view := View(s.db, s.open[t]);
            TriggerPasses(s.db, s.open[t]) <==>
              forall k :: k in s.open[t].writes ==> exists k' :: Owns(view, k') && k'.0 == k.0
  {
    var s := After(run).value;
    var view := View(s.db, s.open[t]);
    forall k | k in s.open[t].writes
      ensures |Owners(view, k.0)| == 1 <==> exists k' :: Owns(view, k') && k'.0 == k.0 {
      CountIsOne(view, k.0);
      NoStatementLeavesTwoOwners(run, t, k.0);
    }
  }

  // ----- the deferred check is what protects the owner -----

  /** One action more leads to this state. */
  lemma StepTo(run: seq<Action>, a: Action, s: System)
    requires After(run).Some? && Enabled(After(run).value, a) && Apply(After(run).value, a) == s
    ensures After(run + [a]) == Some(s)
  {
    assert (run + [a])[..|run + [a]| - 1] == run;
  }

  const ADMINISTRATOR: Role := Some("administrator")
  const UNTOUCHED := Tx({}, map[], false)

  /** One organisation with an owner, user 0, and a plain member, user 1; and the same
      organisation after user 0 has handed over to user 1. */
  const BEFORE_TRANSFER := Db({0}, map[(0, 0) := OWNER, (0, 1) := None])
  const AFTER_TRANSFER := Db({0}, map[(0, 0) := ADMINISTRATOR, (0, 1) := OWNER])

  const REGISTERED := map[(0, 0) := Some(OWNER), (0, 1) := Some(None)]
  const TRANSFERRED := map[(0, 0) := Some(ADMINISTRATOR), (0, 1) := Some(OWNER)]

  lemma OneOwnerOf(db: Db, owner: Key)
    requires Owns(db, owner) && forall k :: Owns(db, k) ==> k == owner
    ensures |Owners(db, owner.0)| == 1
  {
    assert Owners(db, owner.0) == {owner};
  }

  lemma OrganisationCreated() returns (run: seq<Action>)
    ensures After(run) == Some(System(Db({}, map[]), map[0 := Tx({0}, map[], false)]))
  {
    var db := Db({}, map[]);
    assert After([]) == Some(EMPTY);
    StepTo([], Begin(0), System(db, map[0 := UNTOUCHED]));
    run := [] + [Begin(0)];
    assert UNTOUCHED.created + {0} == {0};
    StepTo(run, CreateOrganisation(0, 0), System(db, map[0 := Tx({0}, map[], false)]));
    run := run + [CreateOrganisation(0, 0)];
  }

  lemma MembersInserted() returns (run: seq<Action>)
    ensures After(run) == Some(System(Db({}, map[]), map[0 := Tx({0}, REGISTERED, false)]))
  {
    run := OrganisationCreated();
    var db := Db({}, map[]);
    StepTo(run, Insert(0, (0, 0), OWNER), System(db, map[0 := Tx({0}, map[(0, 0) := Some(OWNER)], false)]));
    run := run + [Insert(0, (0, 0), OWNER)];
    StepTo(run, Insert(0, (0, 1), None), System(db, map[0 := Tx({0}, REGISTERED, false)]));
    run := run + [Insert(0, (0, 1), None)];
  }

  lemma TwoMembersReached() returns (run: seq<Action>)
    ensures After(run) == Some(System(BEFORE_TRANSFER, map[]))
  {
    run := MembersInserted();
    var db := Db({}, map[]);
    assert View(db, Tx({0}, REGISTERED, false)) == BEFORE_TRANSFER;
    assert View(db, Tx({0}, REGISTERED, true)) == BEFORE_TRANSFER;
    assert map[0 := Tx({0}, REGISTERED, true)] - {0} == map[];
    OneOwnerOf(BEFORE_TRANSFER, (0, 0));
    StepTo(run, RunTrigger(0), System(db, map[0 := Tx({0}, REGISTERED, true)]));
    run := run + [RunTrigger(0)];
    StepTo(run, Commit(0), System(BEFORE_TRANSFER, map[]));
    run := run + [Commit(0)];
  }

  const DEMOTED := map[(0, 0) := Some(ADMINISTRATOR)]

  lemma BothBegun() returns (run: seq<Action>)
    ensures After(run) == Some(System(BEFORE_TRANSFER, map[0 := UNTOUCHED, 1 := UNTOUCHED]))
  {
    run := TwoMembersReached();
    StepTo(run, Begin(0), System(BEFORE_TRANSFER, map[0 := UNTOUCHED]));
    run := run + [Begin(0)];
    StepTo(run, Begin(1), System(BEFORE_TRANSFER, map[0 := UNTOUCHED, 1 := UNTOUCHED]));
    run := run + [Begin(1)];
  }

  lemma OwnerDemoted() returns (run: seq<Action>)
    ensures After(run) == Some(System(BEFORE_TRANSFER, map[0 := UNTOUCHED, 1 := Tx({}, DEMOTED, false)]))
  {
    run := BothBegun();
    assert View(BEFORE_TRANSFER, UNTOUCHED) == BEFORE_TRANSFER;
    StepTo(run, SetRole(1, (0, 0), ADMINISTRATOR), System(BEFORE_TRANSFER, map[0 := UNTOUCHED, 1 := Tx({}, DEMOTED, false)]));
    run := run + [SetRole(1, (0, 0), ADMINISTRATOR)];
  }

  /** Transaction 0 has read that user 1 is no owner; transaction 1 has made them one. */
  lemma TransferOverlaps() returns (run: seq<Action>)
    ensures After(run) == Some(System(BEFORE_TRANSFER, map[0 := UNTOUCHED, 1 := Tx({}, TRANSFERRED, false)]))
  {
    run := OwnerDemoted();
    assert (0, 1) in View(BEFORE_TRANSFER, Tx({}, DEMOTED, false)).roles;
    assert DEMOTED[(0, 1) := Some(OWNER)] == TRANSFERRED;
    StepTo(run, SetRole(1, (0, 1), OWNER), System(BEFORE_TRANSFER, map[0 := UNTOUCHED, 1 := Tx({}, TRANSFERRED, false)]));
    run := run + [SetRole(1, (0, 1), OWNER)];
  }

  lemma TransferMayPass()
    ensures TriggerPasses(BEFORE_TRANSFER, Tx({}, TRANSFERRED, false))
  {
    assert View(BEFORE_TRANSFER, Tx({}, TRANSFERRED, false)) == AFTER_TRANSFER;
    OneOwnerOf(AFTER_TRANSFER, (0, 1));
  }

  lemma TransferChecked() returns (run: seq<Action>)
    ensures After(run) == Some(System(BEFORE_TRANSFER, map[0 := UNTOUCHED, 1 := Tx({}, TRANSFERRED, true)]))
  {
    run := TransferOverlaps();
    TransferMayPass();
    StepTo(run, RunTrigger(1), System(BEFORE_TRANSFER, map[0 := UNTOUCHED, 1 := Tx({}, TRANSFERRED, true)]));
    run := run + [RunTrigger(1)];
  }

  lemma TransferCommits() returns (run: seq<Action>)
    ensures After(run) == Some(System(AFTER_TRANSFER, map[0 := UNTOUCHED]))
  {
    run := TransferChecked();
    assert View(BEFORE_TRANSFER, Tx({}, TRANSFERRED, true)) == AFTER_TRANSFER;
    assert map[0 := UNTOUCHED, 1 := Tx({}, TRANSFERRED, true)] - {1} == map[0 := UNTOUCHED];
    StepTo(run, Commit(1), System(AFTER_TRANSFER, map[0 := UNTOUCHED]));
    run := run + [Commit(1)];
  }

  /** A run in which the deferred check refuses a removal that the service's own check let
      through: a transfer to the member commits between the removal's read and its delete. */
  lemma TriggerProtectsTheOwner() returns (run: seq<Action>)
    ensures After(run).Some? && run != [] && run[|run| - 1] == Delete(0, (0, 1))
    ensures var s := After(run).value; 0 in s.open && !s.open[0].passed && !Enabled(s, RunTrigger(0))
  {
    run := TransferCommits();
    var removed := Tx({}, map[(0, 1) := None], false);
    assert View(AFTER_TRANSFER, UNTOUCHED) == AFTER_TRANSFER;
    StepTo(run, Delete(0, (0, 1)), System(AFTER_TRANSFER, map[0 := removed]));
    run := run + [Delete(0, (0, 1))];
    assert Owners(View(AFTER_TRANSFER, removed), 0) == {};
    assert (0, 1) in removed.writes;
  }
}
