/** Row-level security of the six knowledge tables, and the sessions that carry its
    transaction-scoped context. */
module RowPolicy {
  import opened Collections

  type Uuid = nat

  datatype Table = Sources | Documents | Versions | Jobs | Chunks | Embeddings

  datatype Row = Row(table: Table, organisationId: Uuid, workspaceId: Uuid, id: Uuid, body: string)

  type Rows = seq<Row>

  /** What `current_setting` can hold: never set, the empty string, or an id. */
  datatype Setting = Unset | Empty | Id(value: Uuid)

  datatype Context = Context(organisation: Setting, user: Setting, workspace: Setting)

  const CLEARED := Context(Empty, Empty, Empty)

  /** `NULLIF(current_setting(…), '')`: only an id is not null. */
  function NullIf(s: Setting): Option<Uuid> {
    match s
    case Id(v) => Some(v)
    case _ => None
  }

  /** The USING and the WITH CHECK predicate: comparing with null is never true. */
  predicate Allowed(ctx: Context, row: Row) {
    && NullIf(ctx.organisation) == Some(row.organisationId)
    && NullIf(ctx.workspace) == Some(row.workspaceId)
  }

  datatype Statement =
    | Select(table: Table, where: Row -> bool)
    | Insert(row: Row)
    | Update(table: Table, where: Row -> bool, assign: Row -> Row)
    | Delete(table: Table, where: Row -> bool)
    | Commit
    | Rollback

  datatype Outcome = Found(rows: Rows) | Affected(count: nat) | Rejected | InFailedTransaction | Done

  /** The rows a statement with this WHERE clause touches: the policy is always added. */
  function Touches(ctx: Context, table: Table, where: Row -> bool): Row -> bool {
    (r: Row) => Allowed(ctx, r) && r.table == table && where(r)
  }

  function Rewritten(hit: Row -> bool, assign: Row -> Row): Row -> Row {
    (r: Row) => if hit(r) then assign(r).(table := r.table) else r
  }

  function Not(p: Row -> bool): Row -> bool {
    (r: Row) => !p(r)
  }

  /** Rows that would leave the tenant: touched, and no longer allowed afterwards. */
  function Escapes(ctx: Context, table: Table, where: Row -> bool, assign: Row -> Row): Row -> bool {
    (r: Row) => Touches(ctx, table, where)(r) && !Allowed(ctx, assign(r))
  }

  function MapRows(f: Row -> Row, rows: Rows): Rows {
    if rows == [] then [] else [f(rows[0])] + MapRows(f, rows[1..])
  }

  /** One row statement under the policy. */
  function Execute(ctx: Context, rows: Rows, stmt: Statement): (Outcome, Rows)
    requires !stmt.Commit? && !stmt.Rollback?
  {
    match stmt
    case Select(table, where) =>
      (Found(Filter(Touches(ctx, table, where), rows)), rows)
    case Insert(row) =>
      if Allowed(ctx, row) then (Affected(1), rows + [row]) else (Rejected, rows)
    case Update(table, where, assign) =>
      if Filter(Escapes(ctx, table, where, assign), rows) != [] then (Rejected, rows)
      else (Affected(|Filter(Touches(ctx, table, where), rows)|),
            MapRows(Rewritten(Touches(ctx, table, where), assign), rows))
    case Delete(table, where) =>
      (Affected(|Filter(Touches(ctx, table, where), rows)|),
       Filter(Not(Touches(ctx, table, where)), rows))
  }

  // ----- what a statement answers and leaves, row by row -----

  /** The row is of the organisation and the workspace that the context names. */
  ghost predicate OwnRow(ctx: Context, r: Row) {
    ctx.organisation == Id(r.organisationId) && ctx.workspace == Id(r.workspaceId)
  }

  /** The rows a statement may see or change: the context's own, of its table, that its WHERE
      clause asks for. */
  ghost predicate Meant(ctx: Context, table: Table, where: Row -> bool, r: Row) {
    OwnRow(ctx, r) && r.table == table && where(r)
  }

  /** The policy refuses to insert a foreign row, and any update that would make one. */
  ghost predicate Refused(ctx: Context, rows: Rows, stmt: Statement) {
    || (stmt.Insert? && !OwnRow(ctx, stmt.row))
    || (stmt.Update? && exists i :: 0 <= i < |rows| && Meant(ctx, stmt.table, stmt.where, rows[i]) && !OwnRow(ctx, stmt.assign(rows[i])))
  }

  ghost predicate EffectIs(ctx: Context, rows: Rows, stmt: Statement, outcome: Outcome, rows': Rows)
    requires !stmt.Commit? && !stmt.Rollback?
  {
    match stmt
    case Select(table, where) =>
      && outcome.Found? && rows' == rows
      && forall r :: multiset(outcome.rows)[r] == if Meant(ctx, table, where, r) then multiset(rows)[r] else 0
    case Insert(row) => outcome == Affected(1) && rows' == rows + [row]
    case Update(table, where, assign) =>
      && outcome == Affected(|set i | 0 <= i < |rows| && Meant(ctx, table, where, rows[i])|)
      && |rows'| == |rows|
      && forall i :: 0 <= i < |rows| ==>
           rows'[i] == if Meant(ctx, table, where, rows[i]) then assign(rows[i]).(table := table) else rows[i]
    case Delete(table, where) =>
      && outcome == Affected(|set i | 0 <= i < |rows| && Meant(ctx, table, where, rows[i])|)
      && forall r :: multiset(rows')[r] == if Meant(ctx, table, where, r) then 0 else multiset(rows)[r]
  }

  lemma {:induction false} MapRowsAt(f: Row -> Row, rows: Rows)
    ensures |MapRows(f, rows)| == |rows| && forall i :: 0 <= i < |rows| ==> MapRows(f, rows)[i] == f(rows[i])
  {
    if rows != [] { MapRowsAt(f, rows[1..]); }
  }

  lemma NullIfIs(s: Setting, v: Uuid)
    ensures NullIf(s) == Some(v) <==> s == Id(v)
  {
    match s
    case Id(w) =>
    case _ =>
  }

  /** The policy lets a row through exactly when the context names its tenant. */
  lemma AllowedIsOwn(ctx: Context, r: Row)
    ensures Allowed(ctx, r) <==> OwnRow(ctx, r)
  {
    NullIfIs(ctx.organisation, r.organisationId);
    NullIfIs(ctx.workspace, r.workspaceId);
  }

  lemma TouchedAre(ctx: Context, rows: Rows, table: Table, where: Row -> bool)
    ensures forall r :: Touches(ctx, table, where)(r) <==> Meant(ctx, table, where, r)
    ensures |Filter(Touches(ctx, table, where), rows)| == |set i | 0 <= i < |rows| && Meant(ctx, table, where, rows[i])|
  {
    var hit := Touches(ctx, table, where);
    forall r: Row ensures hit(r) <==> Meant(ctx, table, where, r) { AllowedIsOwn(ctx, r); }
    FilterLength(hit, rows);
    assert Positions(hit, rows) == set i | 0 <= i < |rows| && Meant(ctx, table, where, rows[i]);
  }

  lemma UpdateIsRefused(ctx: Context, rows: Rows, stmt: Statement)
    requires stmt.Update?
    ensures Filter(Escapes(ctx, stmt.table, stmt.where, stmt.assign), rows) != [] <==> Refused(ctx, rows, stmt)
  {
    var escape := Escapes(ctx, stmt.table, stmt.where, stmt.assign);
    var escaped := Filter(escape, rows);
    forall r: Row ensures escape(r) <==> Meant(ctx, stmt.table, stmt.where, r) && !OwnRow(ctx, stmt.assign(r)) {
      AllowedIsOwn(ctx, r);
      AllowedIsOwn(ctx, stmt.assign(r));
    }
    if escaped != [] {
      assert escaped[0] in escaped;
      var i :| 0 <= i < |rows| && rows[i] == escaped[0];
      assert escape(rows[i]);
    }
    if Refused(ctx, rows, stmt) {
      var i :| 0 <= i < |rows| && Meant(ctx, stmt.table, stmt.where, rows[i]) && !OwnRow(ctx, stmt.assign(rows[i]));
      assert rows[i] in escaped;
    }
  }

  /** Every statement is refused exactly when the policy says so, and otherwise answers and
      changes exactly the rows it is meant for. */
  lemma ExecutesExactly(ctx: Context, rows: Rows, stmt: Statement)
    requires !stmt.Commit? && !stmt.Rollback?
    ensures var (outcome, rows') := Execute(ctx, rows, stmt);
            && (outcome == Rejected <==> Refused(ctx, rows, stmt))
            && (outcome == Rejected ==> rows' == rows)
            && (outcome != Rejected ==> EffectIs(ctx, rows, stmt, outcome, rows'))
  {
    match stmt
    case Select(table, where) => SelectsExactly(ctx, rows, table, where);
    case Insert(row) => AllowedIsOwn(ctx, row);
    case Update(table, where, assign) =>
      TouchedAre(ctx, rows, table, where);
      UpdateIsRefused(ctx, rows, stmt);
      MapRowsAt(Rewritten(Touches(ctx, table, where), assign), rows);
    case Delete(table, where) => DeletesExactly(ctx, rows, table, where);
  }

  lemma SelectsExactly(ctx: Context, rows: Rows, table: Table, where: Row -> bool)
    ensures EffectIs(ctx, rows, Select(table, where), Found(Filter(Touches(ctx, table, where), rows)), rows)
  {
    TouchedAre(ctx, rows, table, where);
    forall r ensures multiset(Filter(Touches(ctx, table, where), rows))[r]
                     == if Meant(ctx, table, where, r) then multiset(rows)[r] else 0 {
      FilterCounts(Touches(ctx, table, where), rows, r);
    }
  }

  lemma DeletesExactly(ctx: Context, rows: Rows, table: Table, where: Row -> bool)
    ensures var hit := Touches(ctx, table, where);
            EffectIs(ctx, rows, Delete(table, where), Affected(|Filter(hit, rows)|), Filter(Not(hit), rows))
  {
    var hit := Touches(ctx, table, where);
    TouchedAre(ctx, rows, table, where);
    forall r ensures multiset(Filter(Not(hit), rows))[r] == if Meant(ctx, table, where, r) then 0 else multiset(rows)[r] {
      FilterCounts(Not(hit), rows, r);
    }
  }

  /** A session: its context, the committed rows, its own uncommitted view, and whether the
      open transaction has failed. */
  datatype State = State(ctx: Context, committed: Rows, working: Rows, failed: bool)

  function Begin(ctx: Context, rows: Rows): State {
    State(ctx, rows, rows, false)
  }

  function Ended(s: State, keep: bool): State {
    var rows := if keep && !s.failed then s.working else s.committed;
    State(CLEARED, rows, rows, false)
  }

  function Step(s: State, stmt: Statement): (Outcome, State) {
    match stmt
    case Commit => (Done, Ended(s, true))
    case Rollback => (Done, Ended(s, false))
    case _ =>
      if s.failed then (InFailedTransaction, s)
      else
        var (outcome, rows) := Execute(s.ctx, s.working, stmt);
        if outcome == Rejected then (Rejected, s.(failed := true))
        else (outcome, s.(working := rows))
  }

  // ----- the session object -----

  /** The context manager that sets the context on entry, and commits or rolls back on exit. */
  class OrganisationScopedSession {
    const organisationId: Uuid
    const userId: Option<Uuid>
    const workspaceId: Option<Uuid>
    var ctx: Context
    var committed: Rows
    var working: Rows
    var failed: bool

    constructor (organisationId: Uuid, userId: Option<Uuid>, workspaceId: Option<Uuid>, rows: Rows)
      ensures this.organisationId == organisationId && this.userId == userId && this.workspaceId == workspaceId
      ensures Abstract() == State(Context(Unset, Unset, Unset), rows, rows, false)
    {
      this.organisationId := organisationId;
      this.userId := userId;
      this.workspaceId := workspaceId;
      ctx := Context(Unset, Unset, Unset);
      committed, working, failed := rows, rows, false;
    }

    ghost function Abstract(): State
      reads this
    {
      State(ctx, committed, working, failed)
    }

    method Enter()
      requires ctx == Context(Unset, Unset, Unset) && working == committed && !failed
      modifies this
      ensures Abstract() == Begin(ScopedContext(organisationId, userId, workspaceId), old(committed))
      ensures ctx.organisation == Id(organisationId)
      ensures ctx.workspace == match workspaceId case Some(ws) => Id(ws) case None => Empty
      ensures ctx.user == match userId case Some(u) => Id(u) case None => Empty
    {
      SetConfig(Id(organisationId), ctx.user, ctx.workspace);
      SetConfig(ctx.organisation, if userId.Some? then Id(userId.value) else Empty, ctx.workspace);
      SetConfig(ctx.organisation, ctx.user, if workspaceId.Some? then Id(workspaceId.value) else Empty);
    }

    method SetConfig(organisation: Setting, user: Setting, workspace: Setting)
      modifies this`ctx
      ensures ctx == Context(organisation, user, workspace)
    {
      ctx := Context(organisation, user, workspace);
    }

    method Run(stmt: Statement) returns (outcome: Outcome)
      modifies this
      ensures (outcome, Abstract()) == Step(old(Abstract()), stmt)
      ensures stmt.Commit? || stmt.Rollback? ==>
                && outcome == Done && working == committed && !failed && ctx == CLEARED
                && committed == if stmt.Commit? && !old(failed) then old(working) else old(committed)
      ensures !stmt.Commit? && !stmt.Rollback? ==>
                && committed == old(committed) && ctx == old(ctx)
                && if old(failed) then outcome == InFailedTransaction && failed && working == old(working)
                   else if Refused(ctx, old(working), stmt) then outcome == Rejected && failed && working == old(working)
                   else !failed && EffectIs(ctx, old(working), stmt, outcome, working)
    {
      if stmt.Commit? || stmt.Rollback? {
        EndTransaction(stmt.Commit?);
        return Done;
      }
      if failed {
        return InFailedTransaction;
      }
      ExecutesExactly(ctx, working, stmt);
      var rows;
      var result := Execute(ctx, working, stmt);
      outcome, rows := result.0, result.1;
      if outcome == Rejected {
        failed := true;
      } else {
        working := rows;
      }
    }

    method EndTransaction(keep: bool)
      modifies this
      ensures Abstract() == Ended(old(Abstract()), keep)
      ensures committed == if keep && !old(failed) then old(working) else old(committed)
      ensures working == committed && !failed && ctx == CLEARED
    {
      if keep && !failed {
        committed := working;
      } else {
        working := committed;
      }
      ctx, failed := CLEARED, false;
    }

    /** Exit commits exactly when no exception is propagating. */
    method Exit(exception: bool)
      modifies this
      ensures Abstract() == Ended(old(Abstract()), !exception)
      ensures committed == if exception || old(failed) then old(committed) else old(working)
      ensures working == committed && !failed && ctx == CLEARED
    {
      EndTransaction(!exception);
    }
  }

  function ScopedContext(organisationId: Uuid, userId: Option<Uuid>, workspaceId: Option<Uuid>): Context {
    Context(Id(organisationId),
            if userId.Some? then Id(userId.value) else Empty,
            if workspaceId.Some? then Id(workspaceId.value) else Empty)
  }

  // ----- noninterference -----

  function Owned(organisationId: Uuid, workspaceId: Uuid): Row -> bool {
    (r: Row) => r.organisationId == organisationId && r.workspaceId == workspaceId
  }

  function Mine(organisationId: Uuid, workspaceId: Uuid, rows: Rows): Rows {
    Filter(Owned(organisationId, workspaceId), rows)
  }

  function Others(organisationId: Uuid, workspaceId: Uuid, rows: Rows): Rows {
    Filter(Not(Owned(organisationId, workspaceId)), rows)
  }

  /** The context is the pair's own, or lets nothing through. */
  ghost predicate Confined(ctx: Context, organisationId: Uuid, workspaceId: Uuid) {
    forall r: Row :: Allowed(ctx, r) ==> Owned(organisationId, workspaceId)(r)
  }

  lemma {:induction false} FilterWithinMine(hit: Row -> bool, org: Uuid, ws: Uuid, rows: Rows)
    requires forall r: Row :: hit(r) ==> Owned(org, ws)(r)
    ensures Filter(hit, rows) == Filter(hit, Mine(org, ws, rows))
  {
    if rows != [] {
      FilterWithinMine(hit, org, ws, rows[1..]);
      FilterSplit(hit, if Owned(org, ws)(rows[0]) then [rows[0]] else [], Mine(org, ws, rows[1..]));
      var rest: Rows := [];
      assert [rows[0]][1..] == rest;
    }
  }

  lemma {:induction false} DeleteWithinMine(hit: Row -> bool, org: Uuid, ws: Uuid, rows: Rows)
    requires forall r: Row :: hit(r) ==> Owned(org, ws)(r)
    ensures Mine(org, ws, Filter(Not(hit), rows)) == Filter(Not(hit), Mine(org, ws, rows))
    ensures Others(org, ws, Filter(Not(hit), rows)) == Others(org, ws, rows)
  {
    if rows != [] {
      DeleteWithinMine(hit, org, ws, rows[1..]);
      var rest: Rows := [];
      assert [rows[0]][1..] == rest;
      var kept := if Not(hit)(rows[0]) then [rows[0]] else [];
      FilterSplit(Owned(org, ws), kept, Filter(Not(hit), rows[1..]));
      FilterSplit(Not(Owned(org, ws)), kept, Filter(Not(hit), rows[1..]));
      FilterSplit(Not(hit), if Owned(org, ws)(rows[0]) then [rows[0]] else [], Mine(org, ws, rows[1..]));
    }
  }

  lemma MapRowsCons(f: Row -> Row, r: Row, rows: Rows)
    ensures MapRows(f, [r] + rows) == [f(r)] + MapRows(f, rows)
  {
    assert ([r] + rows)[1..] == rows;
  }

  lemma {:induction false} RewriteWithinMine(hit: Row -> bool, assign: Row -> Row, org: Uuid, ws: Uuid, rows: Rows)
    requires forall r: Row :: hit(r) ==> Owned(org, ws)(r)
    requires forall r :: r in rows && hit(r) ==> Owned(org, ws)(assign(r))
    ensures Mine(org, ws, MapRows(Rewritten(hit, assign), rows)) == MapRows(Rewritten(hit, assign), Mine(org, ws, rows))
    ensures Others(org, ws, MapRows(Rewritten(hit, assign), rows)) == Others(org, ws, rows)
  {
    if rows != [] {
      var f := Rewritten(hit, assign);
      RewriteWithinMine(hit, assign, org, ws, rows[1..]);
      assert MapRows(f, rows)[1..] == MapRows(f, rows[1..]) && MapRows(f, rows)[0] == f(rows[0]);
      assert rows[0] in rows;
      assert Owned(org, ws)(f(rows[0])) == Owned(org, ws)(rows[0]);
      if Owned(org, ws)(rows[0]) {
        assert Mine(org, ws, rows) == [rows[0]] + Mine(org, ws, rows[1..]);
        MapRowsCons(f, rows[0], Mine(org, ws, rows[1..]));
        assert Mine(org, ws, MapRows(f, rows)) == [f(rows[0])] + Mine(org, ws, MapRows(f, rows[1..]));
      } else {
        assert f(rows[0]) == rows[0];
        assert Mine(org, ws, MapRows(f, rows)) == Mine(org, ws, MapRows(f, rows[1..]));
        assert Mine(org, ws, rows) == Mine(org, ws, rows[1..]);
      }
    }
  }

  lemma UpdateConfined(ctx: Context, rows: Rows, stmt: Statement, org: Uuid, ws: Uuid)
    requires Confined(ctx, org, ws) && stmt.Update?
    ensures Execute(ctx, rows, stmt).0 == Execute(ctx, Mine(org, ws, rows), stmt).0
    ensures Mine(org, ws, Execute(ctx, rows, stmt).1) == Execute(ctx, Mine(org, ws, rows), stmt).1
    ensures Others(org, ws, Execute(ctx, rows, stmt).1) == Others(org, ws, rows)
  {
    var hit, escape := Touches(ctx, stmt.table, stmt.where), Escapes(ctx, stmt.table, stmt.where, stmt.assign);
    FilterWithinMine(hit, org, ws, rows);
    FilterWithinMine(escape, org, ws, rows);
    if Filter(escape, rows) == [] {
      forall r | r in rows && hit(r) ensures Owned(org, ws)(stmt.assign(r)) {
        assert r !in Filter(escape, rows);
      }
      RewriteWithinMine(hit, stmt.assign, org, ws, rows);
    }
  }

  lemma InsertConfined(row: Row, rows: Rows, org: Uuid, ws: Uuid)
    requires Owned(org, ws)(row)
    ensures Mine(org, ws, rows + [row]) == Mine(org, ws, rows) + [row]
    ensures Others(org, ws, rows + [row]) == Others(org, ws, rows)
  {
    FilterSplit(Owned(org, ws), rows, [row]);
    FilterSplit(Not(Owned(org, ws)), rows, [row]);
    var rest: Rows := [];
    assert [row][1..] == rest;
  }

  /** One statement sees and changes only the pair's own rows. */
  lemma StatementConfined(ctx: Context, rows: Rows, stmt: Statement, org: Uuid, ws: Uuid)
    requires Confined(ctx, org, ws) && !stmt.Commit? && !stmt.Rollback?
    ensures Execute(ctx, rows, stmt).0 == Execute(ctx, Mine(org, ws, rows), stmt).0
    ensures Mine(org, ws, Execute(ctx, rows, stmt).1) == Execute(ctx, Mine(org, ws, rows), stmt).1
    ensures Others(org, ws, Execute(ctx, rows, stmt).1) == Others(org, ws, rows)
  {
    match stmt
    case Select(table, where) => FilterWithinMine(Touches(ctx, table, where), org, ws, rows);
    case Insert(row) => if Allowed(ctx, row) { InsertConfined(row, rows, org, ws); }
    case Update(_, _, _) => UpdateConfined(ctx, rows, stmt, org, ws);
    case Delete(table, where) =>
      FilterWithinMine(Touches(ctx, table, where), org, ws, rows);
      DeleteWithinMine(Touches(ctx, table, where), org, ws, rows);
  }

  /** A client chooses its next statement from everything it has been answered so far. */
  type Client = seq<Outcome> -> Option<Statement>

  /** At most `n` statements of a client, and what it was answered. */
  function RunClient(s: State, client: Client, answers: seq<Outcome>, n: nat): (State, seq<Outcome>)
    decreases n
  {
    if n == 0 then (s, answers)
    else
      match client(answers)
      case None => (s, answers)
      case Some(stmt) =>
        var (outcome, s') := Step(s, stmt);
        RunClient(s', client, answers + [outcome], n - 1)
  }

  /** Two sessions that look alike from inside the pair. */
  ghost predicate Alike(s: State, t: State, org: Uuid, ws: Uuid) {
    && s.ctx == t.ctx && Confined(s.ctx, org, ws)
    && s.failed == t.failed
    && Mine(org, ws, s.working) == Mine(org, ws, t.working)
    && Mine(org, ws, s.committed) == Mine(org, ws, t.committed)
  }

  ghost predicate ForeignRowsKept(s: State, s': State, org: Uuid, ws: Uuid) {
    Others(org, ws, s.working) == Others(org, ws, s.committed) ==>
      && Others(org, ws, s'.committed) == Others(org, ws, s.committed)
      && Others(org, ws, s'.working) == Others(org, ws, s'.committed)
  }

  lemma StepConfined(s: State, t: State, stmt: Statement, org: Uuid, ws: Uuid)
    requires Alike(s, t, org, ws)
    ensures Step(s, stmt).0 == Step(t, stmt).0
    ensures Alike(Step(s, stmt).1, Step(t, stmt).1, org, ws)
  {
    if !stmt.Commit? && !stmt.Rollback? {
      StatementConfined(s.ctx, s.working, stmt, org, ws);
      StatementConfined(t.ctx, t.working, stmt, org, ws);
    }
  }

  lemma StepKeepsForeign(s: State, stmt: Statement, org: Uuid, ws: Uuid)
    requires Confined(s.ctx, org, ws)
    ensures Confined(Step(s, stmt).1.ctx, org, ws)
    ensures ForeignRowsKept(s, Step(s, stmt).1, org, ws)
  {
    if !stmt.Commit? && !stmt.Rollback? { StatementConfined(s.ctx, s.working, stmt, org, ws); }
  }

  lemma {:induction false} ClientConfined(s: State, t: State, client: Client, answers: seq<Outcome>, n: nat, org: Uuid, ws: Uuid)
    requires Alike(s, t, org, ws)
    ensures RunClient(s, client, answers, n).1 == RunClient(t, client, answers, n).1
    ensures Alike(RunClient(s, client, answers, n).0, RunClient(t, client, answers, n).0, org, ws)
    decreases n
  {
    if n > 0 && client(answers).Some? {
      var stmt := client(answers).value;
      StepConfined(s, t, stmt, org, ws);
      var outcome := Step(s, stmt).0;
      ClientConfined(Step(s, stmt).1, Step(t, stmt).1, client, answers + [outcome], n - 1, org, ws);
    }
  }

  lemma {:induction false} ClientKeepsForeign(s: State, client: Client, answers: seq<Outcome>, n: nat, org: Uuid, ws: Uuid)
    requires Confined(s.ctx, org, ws)
    ensures ForeignRowsKept(s, RunClient(s, client, answers, n).0, org, ws)
    decreases n
  {
    if n > 0 && client(answers).Some? {
      var stmt := client(answers).value;
      StepKeepsForeign(s, stmt, org, ws);
      ClientKeepsForeign(Step(s, stmt).1, client, answers + [Step(s, stmt).0], n - 1, org, ws);
    }
  }

  /** What a whole scoped session leaves behind. */
  function SessionResult(rows: Rows, ctx: Context, client: Client, n: nat, exception: bool): (Rows, seq<Outcome>) {
    var (s, answers) := RunClient(Begin(ctx, rows), client, [], n);
    (Ended(s, !exception).committed, answers)
  }

  /** Tenant noninterference: two databases that agree on the pair's rows give a session of
      that pair the same answers and stay in agreement on them, and the rows of every other
      pair end unchanged, whatever adaptive program the session runs and however it ends. */
  lemma TenantNoninterference(rows1: Rows, rows2: Rows, org: Uuid, user: Option<Uuid>, ws: Uuid,
                              client: Client, n: nat, exception: bool)
    requires Mine(org, ws, rows1) == Mine(org, ws, rows2)
    ensures var ctx := ScopedContext(org, user, Some(ws));
            var (end1, answers1) := SessionResult(rows1, ctx, client, n, exception);
            var (end2, answers2) := SessionResult(rows2, ctx, client, n, exception);
            && answers1 == answers2
            && Mine(org, ws, end1) == Mine(org, ws, end2)
            && Others(org, ws, end1) == Others(org, ws, rows1)
  {
    var ctx := ScopedContext(org, user, Some(ws));
    ClientConfined(Begin(ctx, rows1), Begin(ctx, rows2), client, [], n, org, ws);
    ClientKeepsForeign(Begin(ctx, rows1), client, [], n, org, ws);
  }

  // ----- fail closed -----

  ghost predicate Closed(ctx: Context) {
    NullIf(ctx.organisation).None? || NullIf(ctx.workspace).None?
  }

  lemma {:induction false} NothingTouched(hit: Row -> bool, assign: Row -> Row, rows: Rows)
    requires forall r: Row :: !hit(r)
    ensures Filter(hit, rows) == [] && Filter(Not(hit), rows) == rows
    ensures MapRows(Rewritten(hit, assign), rows) == rows
  {
    if rows != [] { NothingTouched(hit, assign, rows[1..]); }
  }

  lemma ClosedDenies(ctx: Context, r: Row)
    requires Closed(ctx)
    ensures !Allowed(ctx, r)
  {
  }

  /** Without a workspace every read is empty, every insert is rejected, and updates and
      deletes touch nothing. */
  lemma ClosedContextDeniesAll(ctx: Context, rows: Rows, stmt: Statement)
    requires Closed(ctx) && !stmt.Commit? && !stmt.Rollback?
    ensures Execute(ctx, rows, stmt).1 == rows
    ensures Execute(ctx, rows, stmt).0 == match stmt case Select(_, _) => Found([]) case Insert(_) => Rejected case _ => Affected(0)
  {
    forall r: Row ensures !Allowed(ctx, r) { ClosedDenies(ctx, r); }
    match stmt
    case Select(table, where) => NothingTouched(Touches(ctx, table, where), r => r, rows);
    case Insert(_) =>
    case Update(table, where, assign) =>
      NothingTouched(Touches(ctx, table, where), assign, rows);
      NothingTouched(Escapes(ctx, table, where, assign), assign, rows);
    case Delete(table, where) => NothingTouched(Touches(ctx, table, where), r => r, rows);
  }

  lemma {:induction false} ClosedRun(s: State, client: Client, answers: seq<Outcome>, n: nat)
    requires Closed(s.ctx) && s.working == s.committed
    ensures var s' := RunClient(s, client, answers, n).0;
            Closed(s'.ctx) && s'.working == s'.committed == s.committed
    decreases n
  {
    if n > 0 && client(answers).Some? {
      var stmt := client(answers).value;
      if !stmt.Commit? && !stmt.Rollback? { ClosedContextDeniesAll(s.ctx, s.working, stmt); }
      ClosedRun(Step(s, stmt).1, client, answers + [Step(s, stmt).0], n - 1);
    }
  }

  /** A session without a workspace leaves the whole database as it was. */
  lemma NoWorkspaceChangesNothing(rows: Rows, org: Uuid, user: Option<Uuid>, client: Client, n: nat, exception: bool)
    ensures SessionResult(rows, ScopedContext(org, user, None), client, n, exception).0 == rows
  {
    ClosedRun(Begin(ScopedContext(org, user, None), rows), client, [], n);
  }

  // ----- what a session leaves for the next one -----

  /** A fixed sequence of statements. */
  function RunAll(s: State, stmts: seq<Statement>): State {
    if stmts == [] then s else Step(RunAll(s, stmts[..|stmts| - 1]), stmts[|stmts| - 1]).1
  }

  ghost predicate NothingRejected(s: State, stmts: seq<Statement>) {
    forall i :: 0 <= i < |stmts| ==> Step(RunAll(s, stmts[..i]), stmts[i]).0 != Rejected
  }

  /** The statements neither give up the transaction nor update or delete the row. */
  ghost predicate LeaveAlone(stmts: seq<Statement>, row: Row) {
    forall i :: 0 <= i < |stmts| ==>
      && !stmts[i].Rollback?
      && (stmts[i].Update? || stmts[i].Delete? ==> stmts[i].table != row.table || !stmts[i].where(row))
  }

  lemma StatementLeavesRow(ctx: Context, rows: Rows, stmt: Statement, row: Row)
    requires !stmt.Commit? && !stmt.Rollback? && row in rows
    requires stmt.Update? || stmt.Delete? ==> stmt.table != row.table || !stmt.where(row)
    ensures row in Execute(ctx, rows, stmt).1
  {
    if stmt.Update? {
      var i :| 0 <= i < |rows| && rows[i] == row;
      var f := Rewritten(Touches(ctx, stmt.table, stmt.where), stmt.assign);
      MapRowsAt(f, rows);
      assert MapRows(f, rows)[i] == row;
    }
  }

  lemma FrontNotRejected(s: State, stmts: seq<Statement>)
    requires stmts != [] && NothingRejected(s, stmts)
    ensures NothingRejected(s, stmts[..|stmts| - 1])
    ensures Step(RunAll(s, stmts[..|stmts| - 1]), stmts[|stmts| - 1]).0 != Rejected
  {
    var front := stmts[..|stmts| - 1];
    forall i | 0 <= i < |front| ensures Step(RunAll(s, front[..i]), front[i]).0 != Rejected { assert front[..i] == stmts[..i]; }
  }

  lemma StepKeepsRow(s: State, stmt: Statement, row: Row)
    requires !s.failed && row in s.working && !stmt.Rollback? && Step(s, stmt).0 != Rejected
    requires stmt.Update? || stmt.Delete? ==> stmt.table != row.table || !stmt.where(row)
    ensures !Step(s, stmt).1.failed && row in Step(s, stmt).1.working
  {
    if !stmt.Commit? { StatementLeavesRow(s.ctx, s.working, stmt, row); }
  }

  lemma {:induction false} RowStays(s: State, row: Row, stmts: seq<Statement>)
    requires !s.failed && row in s.working
    requires LeaveAlone(stmts, row) && NothingRejected(s, stmts)
    ensures !RunAll(s, stmts).failed && row in RunAll(s, stmts).working
  {
    if stmts != [] {
      var n := |stmts| - 1;
      FrontNotRejected(s, stmts);
      RowStays(s, row, stmts[..n]);
      StepKeepsRow(RunAll(s, stmts[..n]), stmts[n], row);
    }
  }

  /** A row inserted under its own organisation and workspace, at any point of any session, and
      committed, is found by the next session of that pair: whatever the transaction does
      besides, unless it updates or deletes the row, gives up, or is refused a statement. */
  lemma CommittedRowIsFound(s: State, row: Row, later: seq<Statement>, user: Option<Uuid>, where: Row -> bool)
    requires !s.failed && OwnRow(s.ctx, row) && where(row)
    requires LeaveAlone(later, row) && NothingRejected(Step(s, Insert(row)).1, later)
    ensures Step(s, Insert(row)).0 == Affected(1)
    ensures var end := Step(RunAll(Step(s, Insert(row)).1, later), Commit).1.committed;
            var next := Begin(ScopedContext(row.organisationId, user, Some(row.workspaceId)), end);
            var answer := Step(next, Select(row.table, where)).0;
            row in end && answer.Found? && row in answer.rows
  {
    AllowedIsOwn(s.ctx, row);
    RowStays(Step(s, Insert(row)).1, row, later);
  }

  lemma {:induction false} CommittedUnchanged(s: State, client: Client, answers: seq<Outcome>, n: nat)
    requires forall given :: client(given) != Some(Commit)
    ensures RunClient(s, client, answers, n).0.committed == s.committed
    decreases n
  {
    if n > 0 && client(answers).Some? {
      var stmt := client(answers).value;
      assert stmt != Commit;
      CommittedUnchanged(Step(s, stmt).1, client, answers + [Step(s, stmt).0], n - 1);
    }
  }

  /** A session that does not commit by itself leaves exactly what it sees when it ends, if it
      leaves without an exception and nothing failed, and otherwise the database as it was. */
  lemma SessionIsAllOrNothing(rows: Rows, ctx: Context, client: Client, n: nat, exception: bool)
    requires forall given :: client(given) != Some(Commit)
    ensures var s := RunClient(Begin(ctx, rows), client, [], n).0;
            SessionResult(rows, ctx, client, n, exception).0 == if exception || s.failed then rows else s.working
  {
    CommittedUnchanged(Begin(ctx, rows), client, [], n);
  }
}
