/**
 What every reachable state of the experiment keeps, for any plan, any number of processes and a kill at any
 step: agent runs start at most once per candidate, and once the phase row is written recovery succeeds.
 */
module ExperimentSafety {
  import opened Sequences
  import opened Wrappers
  import opened Effects
  import opened Experiment

  // ---------------------------------------------------------------- what one candidate's values are

  function PartsFor(plan: Plan, id: Id): (parts: seq<Component>)
    ensures |parts| == |KINDS|
  {
    seq(|KINDS|, k requires 0 <= k < |KINDS| => ComponentFor(plan, id, KINDS[k]))
  }

  function MemoryFor(plan: Plan, id: Id): Overlay {
    OverlayFor(plan, id, Memory)
  }

  function WorkspaceFor(plan: Plan, id: Id): Overlay {
    OverlayFor(plan, id, Workspace)
  }

  function RecordFor(plan: Plan, id: Id): Digest {
    MaterializationFor(plan, id, PartsFor(plan, id))
  }

  function TicketFor(plan: Plan, id: Id): Ticket {
    TicketOf(plan, id, PartsFor(plan, id), MemoryFor(plan, id), WorkspaceFor(plan, id))
  }

  lemma OverlaysOfParts(plan: Plan, id: Id)
    ensures OverlayIn(PartsFor(plan, id), Memory) == Some(MemoryFor(plan, id))
    ensures OverlayIn(PartsFor(plan, id), Workspace) == Some(WorkspaceFor(plan, id))
  {
    var parts := PartsFor(plan, id);
    var five := parts[..5];
    var four := five[..4];
    assert parts[5] == ComponentFor(plan, id, Workspace);
    assert five[4] == ComponentFor(plan, id, Session);
    assert four[3] == ComponentFor(plan, id, Memory);
    assert OverlayIn(four, Memory) == Some(MemoryFor(plan, id));
    assert OverlayIn(five, Memory) == OverlayIn(four, Memory);
  }

  // ---------------------------------------------------------------- facts that stay true as the database grows

  predicate Grows(a: Database, b: Database) {
    && Extends(a.journal, b.journal)
    && a.snapshots <= b.snapshots
    && (forall m :: m in a.materializations ==> m in b.materializations && b.materializations[m] == a.materializations[m])
    && a.trials <= b.trials
    && a.results <= b.results
  }

  predicate Has(db: Database, kind: EffectKind, id: Digest) {
    Key(kind, id) in db.journal
  }

  predicate HasDoc(db: Database, kind: EffectKind, id: Digest, doc: Document) {
    Key(kind, id) in db.journal && db.journal[Key(kind, id)] == doc
  }

  predicate OverlayStored(db: Database, overlay: Overlay) {
    HasDoc(db, OverlayRow, OverlayOf(overlay), OverlayDocument(overlay))
  }

  predicate OperationsStored(plan: Plan, db: Database, id: Id, count: nat) {
    forall k :: 0 <= k < count && k < |KINDS| ==> Has(db, OperationRow, OperationFor(plan, id, KINDS[k]))
  }

  /** The candidate's materialization can be recovered. */
  predicate MaterializationStored(plan: Plan, db: Database, id: Id) {
    && RecordFor(plan, id) in db.materializations
    && OverlayStored(db, MemoryFor(plan, id))
    && OverlayStored(db, WorkspaceFor(plan, id))
  }

  predicate MutationsStored(db: Database, t: Ticket) {
    Has(db, MemoryWrite, t.memory) && Has(db, WorkspaceWrite, t.workspace)
  }

  /** Everything a finished candidate leaves behind. */
  predicate RowStored(plan: Plan, db: Database, id: Id, row: ResultRow) {
    && row.candidate == id
    && row.ticket == TicketFor(plan, id)
    && MaterializationStored(plan, db, id)
    && MutationsStored(db, row.ticket)
    && Has(db, RuntimeRow, row.ticket.trial)
    && HasDoc(db, EvaluatorRow, row.ticket.trial, EvaluatorDoc(plan.evaluator, row.score))
    && row.result in db.results
  }

  predicate RowsStored(plan: Plan, db: Database, rows: seq<ResultRow>) {
    && |rows| <= |plan.candidates|
    && forall i :: 0 <= i < |rows| ==> RowStored(plan, db, plan.candidates[i].id, rows[i])
  }

  predicate DispositionsStored(db: Database, rows: seq<ResultRow>, count: nat)
    requires count <= 2 * |rows|
  {
    forall n :: 0 <= n < count ==> HasDoc(db, DispositionRow, DisposedOverlay(rows, n), DispositionDocument(rows, n))
  }

  predicate ReadyForPhase(plan: Plan, db: Database, rows: seq<ResultRow>) {
    && rows != [] && |rows| == |plan.candidates|
    && RowsStored(plan, db, rows)
    && Isolated(rows)
    && DispositionsStored(db, rows, 2 * |rows|)
  }

  /** What a process may rely on, by where it is. */
  predicate PlaceOk(plan: Plan, db: Database, p: Process)
    requires InRange(plan, p.place)
  {
    match p.place
    case Capture => true
    case Materialize(i, parts) =>
      var id := plan.candidates[i].id;
      |parts| <= |KINDS| && parts == PartsFor(plan, id)[..|parts|] && OperationsStored(plan, db, id, |parts|)
    case Finalize(i, parts) =>
      parts == PartsFor(plan, plan.candidates[i].id) && OperationsStored(plan, db, plan.candidates[i].id, |KINDS|)
    case Recheck(i, parts) =>
      parts == PartsFor(plan, plan.candidates[i].id) && MaterializationStored(plan, db, plan.candidates[i].id)
    case BeginTrial(i, parts) =>
      parts == PartsFor(plan, plan.candidates[i].id) && MaterializationStored(plan, db, plan.candidates[i].id)
    case WriteMemory(i, t) => TicketOk(plan, db, i, t)
    case WriteWorkspace(i, t) => TicketOk(plan, db, i, t) && Has(db, MemoryWrite, t.memory)
    case StartRun(i, t) => TicketOk(plan, db, i, t) && MutationsStored(db, t)
    case AwaitRun(i, t) => TicketOk(plan, db, i, t) && MutationsStored(db, t)
    case RecordRuntime(i, t, _) => TicketOk(plan, db, i, t) && MutationsStored(db, t)
    case RecordEvaluator(i, t, _) => TicketOk(plan, db, i, t) && MutationsStored(db, t) && Has(db, RuntimeRow, t.trial)
    case RecordResult(i, t, o) =>
      && TicketOk(plan, db, i, t) && MutationsStored(db, t) && Has(db, RuntimeRow, t.trial)
      && HasDoc(db, EvaluatorRow, t.trial, EvaluatorDoc(plan.evaluator, Score(o)))
    case Verify => true
    case Dispose(n) =>
      p.rows != [] && Isolated(p.rows) && n <= 2 * |p.rows| && DispositionsStored(db, p.rows, n)
    case WritePhase => ReadyForPhase(plan, db, p.rows)
    case Done => ReadyForPhase(plan, db, p.rows)
    case Failed(_) => true
  }

  predicate TicketOk(plan: Plan, db: Database, i: nat, t: Ticket)
    requires i < |plan.candidates|
  {
    var id := plan.candidates[i].id;
    t == TicketFor(plan, id) && MaterializationStored(plan, db, id) && t.trial in db.trials
  }

  /** How many candidates a process has finished, by where it is. */
  function Finished(plan: Plan, place: Place): nat {
    match place
    case Capture => 0
    case Materialize(i, _) => i
    case Finalize(i, _) => i
    case Recheck(i, _) => i
    case BeginTrial(i, _) => i
    case WriteMemory(i, _) => i
    case WriteWorkspace(i, _) => i
    case StartRun(i, _) => i
    case AwaitRun(i, _) => i
    case RecordRuntime(i, _, _) => i
    case RecordEvaluator(i, _, _) => i
    case RecordResult(i, _, _) => i
    case _ => |plan.candidates|
  }

  predicate ProcessOk(plan: Plan, db: Database, p: Process)
    requires InRange(plan, p.place)
  {
    p.place.Failed?
    || (&& |p.rows| == Finished(plan, p.place)
        && RowsStored(plan, db, p.rows)
        && (p.place.Capture? || plan.snapshot in db.snapshots)
        && PlaceOk(plan, db, p))
  }

  // ---------------------------------------------------------------- what the database itself keeps

  /** Operation rows hold what their provider would materialize, and come with their overlay's row. */
  ghost predicate OperationOk(plan: Plan, j: Journal, id: Id, kind: ComponentKind) {
    var op, overlay := OperationKey(OperationFor(plan, id, kind)), OverlayKey(OverlayFor(plan, id, kind));
    && (op in j ==> j[op] == ComponentDoc(ComponentFor(plan, id, kind)))
    && (HasOverlay(kind) ==> (op in j <==> overlay in j))
    && (HasOverlay(kind) && overlay in j ==> j[overlay] == OverlayDocument(OverlayFor(plan, id, kind)))
  }

  ghost predicate JournalOk(plan: Plan, j: Journal) {
    forall id, kind :: OperationOk(plan, j, id, kind)
  }

  /** A record is stored under the fingerprint of its own content. */
  ghost predicate RecordsOk(db: Database) {
    forall m :: m in db.materializations ==> m.Materialization? && m.parts == db.materializations[m]
  }

  /** The phase row lists rows for which everything is stored. */
  predicate PhaseOk(plan: Plan, db: Database) {
    PHASE_KEY in db.journal ==>
      && db.journal[PHASE_KEY].PhaseDoc?
      && db.journal[PHASE_KEY].snapshot == plan.snapshot
      && plan.snapshot in db.snapshots
      && ReadyForPhase(plan, db, db.journal[PHASE_KEY].rows)
  }

  ghost predicate DatabaseOk(plan: Plan, db: Database) {
    JournalOk(plan, db.journal) && RecordsOk(db) && PhaseOk(plan, db)
  }

  // ---------------------------------------------------------------- stability

  lemma RowStable(plan: Plan, a: Database, b: Database, id: Id, row: ResultRow)
    requires Grows(a, b) && RowStored(plan, a, id, row)
    ensures RowStored(plan, b, id, row)
  {
  }

  lemma RowsStable(plan: Plan, a: Database, b: Database, rows: seq<ResultRow>)
    requires Grows(a, b) && RowsStored(plan, a, rows)
    ensures RowsStored(plan, b, rows)
  {
    forall i | 0 <= i < |rows| ensures RowStored(plan, b, plan.candidates[i].id, rows[i]) {
      RowStable(plan, a, b, plan.candidates[i].id, rows[i]);
    }
  }

  lemma DispositionsStable(a: Database, b: Database, rows: seq<ResultRow>, count: nat)
    requires Grows(a, b) && count <= 2 * |rows| && DispositionsStored(a, rows, count)
    ensures DispositionsStored(b, rows, count)
  {
    forall n | 0 <= n < count
      ensures HasDoc(b, DispositionRow, DisposedOverlay(rows, n), DispositionDocument(rows, n))
    {
      assert HasDoc(a, DispositionRow, DisposedOverlay(rows, n), DispositionDocument(rows, n));
    }
  }

  lemma ReadyStable(plan: Plan, a: Database, b: Database, rows: seq<ResultRow>)
    requires Grows(a, b) && ReadyForPhase(plan, a, rows)
    ensures ReadyForPhase(plan, b, rows)
  {
    RowsStable(plan, a, b, rows);
    DispositionsStable(a, b, rows, 2 * |rows|);
  }

  lemma OperationsStable(plan: Plan, a: Database, b: Database, id: Id, count: nat)
    requires Grows(a, b) && OperationsStored(plan, a, id, count)
    ensures OperationsStored(plan, b, id, count)
  {
    forall k | 0 <= k < count && k < |KINDS| ensures Has(b, OperationRow, OperationFor(plan, id, KINDS[k])) {
      assert Has(a, OperationRow, OperationFor(plan, id, KINDS[k]));
    }
  }

  lemma TicketStable(plan: Plan, a: Database, b: Database, i: nat, t: Ticket)
    requires Grows(a, b) && i < |plan.candidates| && TicketOk(plan, a, i, t)
    ensures TicketOk(plan, b, i, t)
  {
  }

  /** What a process relies on stays true whatever others add. */
  lemma ProcessStable(plan: Plan, a: Database, b: Database, p: Process)
    requires Grows(a, b) && InRange(plan, p.place) && ProcessOk(plan, a, p)
    ensures ProcessOk(plan, b, p)
  {
    if !p.place.Failed? {
      RowsStable(plan, a, b, p.rows);
      match p.place
      case Materialize(i, parts) => OperationsStable(plan, a, b, plan.candidates[i].id, |parts|);
      case Finalize(i, parts) => OperationsStable(plan, a, b, plan.candidates[i].id, |KINDS|);
      case WriteMemory(i, t) => TicketStable(plan, a, b, i, t);
      case WriteWorkspace(i, t) => TicketStable(plan, a, b, i, t);
      case StartRun(i, t) => TicketStable(plan, a, b, i, t);
      case AwaitRun(i, t) => TicketStable(plan, a, b, i, t);
      case RecordRuntime(i, t, _) => TicketStable(plan, a, b, i, t);
      case RecordEvaluator(i, t, _) => TicketStable(plan, a, b, i, t);
      case RecordResult(i, t, _) => TicketStable(plan, a, b, i, t);
      case Dispose(n) => DispositionsStable(a, b, p.rows, n);
      case WritePhase => ReadyStable(plan, a, b, p.rows);
      case Done => ReadyStable(plan, a, b, p.rows);
      case _ =>
    }
  }

  // ---------------------------------------------------------------- one step

  lemma StepGrows(plan: Plan, db: Database, p: Process, outcome: RunOutcome)
    requires InRange(plan, p.place)
    ensures Grows(db, Step(plan, db, p, outcome).db)
  {
  }

  lemma MaterializeKeepsJournalOk(plan: Plan, j: Journal, id: Id, kind: ComponentKind)
    requires JournalOk(plan, j)
    ensures var m := MaterializeOnce(j, OperationFor(plan, id, kind), ComponentFor(plan, id, kind));
            && JournalOk(plan, m.journal)
            && m.result == Ok(ComponentFor(plan, id, kind))
            && OperationKey(OperationFor(plan, id, kind)) in m.journal
  {
    var m := MaterializeOnce(j, OperationFor(plan, id, kind), ComponentFor(plan, id, kind));
    assert OperationOk(plan, j, id, kind);
    forall id', kind' ensures OperationOk(plan, m.journal, id', kind') {
      assert OperationOk(plan, j, id', kind');
    }
  }

  lemma OtherKeepsJournalOk(plan: Plan, j: Journal, key: Key, doc: Document)
    requires JournalOk(plan, j) && !key.kind.OverlayRow? && !key.kind.OperationRow?
    ensures JournalOk(plan, j[key := doc])
  {
    var k := j[key := doc];
    forall id, kind ensures OperationOk(plan, k, id, kind) {
      assert OperationOk(plan, j, id, kind);
    }
  }

  /** A step changes the journal by one materialization, by one new row of another kind, or not at all. */
  lemma StepKeepsJournalOk(plan: Plan, db: Database, p: Process, outcome: RunOutcome)
    requires InRange(plan, p.place) && JournalOk(plan, db.journal)
    ensures JournalOk(plan, Step(plan, db, p, outcome).db.journal)
  {
    var j, k := db.journal, Step(plan, db, p, outcome).db.journal;
    if p.place.Materialize? {
      if |p.place.parts| < |KINDS| {
        MaterializeKeepsJournalOk(plan, j, plan.candidates[p.place.i].id, KINDS[|p.place.parts|]);
      }
    } else if k != j {
      var key := StepKey(plan, db, p, outcome);
      OtherKeepsJournalOk(plan, j, key, k[key]);
    }
  }

  /** The row that a step other than a materialization adds. */
  lemma StepKey(plan: Plan, db: Database, p: Process, outcome: RunOutcome) returns (key: Key)
    requires InRange(plan, p.place) && !p.place.Materialize?
    requires Step(plan, db, p, outcome).db.journal != db.journal
    ensures key !in db.journal && !key.kind.OverlayRow? && !key.kind.OperationRow?
    ensures key in Step(plan, db, p, outcome).db.journal
    ensures Step(plan, db, p, outcome).db.journal == db.journal[key := Step(plan, db, p, outcome).db.journal[key]]
    ensures p.place.WritePhase? <==> key == PHASE_KEY
  {
    match p.place
    case WriteMemory(i, t) => key := Key(MemoryWrite, t.memory);
    case WriteWorkspace(i, t) => key := Key(WorkspaceWrite, t.workspace);
    case RecordRuntime(i, t, _) => key := Key(RuntimeRow, t.trial);
    case RecordEvaluator(i, t, _) => key := Key(EvaluatorRow, t.trial);
    case Dispose(n) => key := Key(DispositionRow, DisposedOverlay(p.rows, n));
    case WritePhase => key := PHASE_KEY;
  }

  lemma StepKeepsPhaseOk(plan: Plan, db: Database, p: Process, outcome: RunOutcome)
    requires InRange(plan, p.place) && PhaseOk(plan, db) && ProcessOk(plan, db, p)
    ensures PhaseOk(plan, Step(plan, db, p, outcome).db)
  {
    var next := Step(plan, db, p, outcome).db;
    StepGrows(plan, db, p, outcome);
    if PHASE_KEY in db.journal {
      ReadyStable(plan, db, next, db.journal[PHASE_KEY].rows);
    } else if PHASE_KEY in next.journal && !p.place.Materialize? {
      var key := StepKey(plan, db, p, outcome);
      ReadyStable(plan, db, next, p.rows);
    }
  }

  lemma StepKeepsDatabaseOk(plan: Plan, db: Database, p: Process, outcome: RunOutcome)
    requires InRange(plan, p.place) && DatabaseOk(plan, db) && ProcessOk(plan, db, p)
    ensures DatabaseOk(plan, Step(plan, db, p, outcome).db)
  {
    StepKeepsJournalOk(plan, db, p, outcome);
    StepKeepsPhaseOk(plan, db, p, outcome);
  }

  /** The next component is refused only for the id it is for. */
  predicate Refused(plan: Plan, p: Process)
    requires InRange(plan, p.place) && p.place.Materialize?
  {
    |p.place.parts| < |KINDS| && RefusesId(plan.candidates[p.place.i].id, p.place.parts)
  }

  lemma StepMaterializeOk(plan: Plan, db: Database, p: Process, outcome: RunOutcome)
    requires InRange(plan, p.place) && p.place.Materialize? && DatabaseOk(plan, db) && ProcessOk(plan, db, p)
    ensures ProcessOk(plan, Step(plan, db, p, outcome).db, Step(plan, db, p, outcome).process)
    ensures Step(plan, db, p, outcome).process.place.Failed? <==> Refused(plan, p)
  {
    if !Refused(plan, p) {
      MaterializeMoves(plan, db, p, outcome);
    }
  }

  lemma MaterializeMoves(plan: Plan, db: Database, p: Process, outcome: RunOutcome)
    requires InRange(plan, p.place) && p.place.Materialize? && DatabaseOk(plan, db) && ProcessOk(plan, db, p)
    requires !Refused(plan, p)
    ensures ProcessOk(plan, Step(plan, db, p, outcome).db, Step(plan, db, p, outcome).process)
    ensures !Step(plan, db, p, outcome).process.place.Failed?
  {
    var next := Step(plan, db, p, outcome);
    var i, parts := p.place.i, p.place.parts;
    var id := plan.candidates[i].id;
    var full := PartsFor(plan, id);
    StepGrows(plan, db, p, outcome);
    RowsStable(plan, db, next.db, p.rows);
    if |parts| < |KINDS| {
      var kind := KINDS[|parts|];
      MaterializeKeepsJournalOk(plan, db.journal, id, kind);
      OperationsStable(plan, db, next.db, id, |parts|);
      assert full[..|parts| + 1] == full[..|parts|] + [full[|parts|]];
      assert next.process.place == Materialize(i, parts + [ComponentFor(plan, id, kind)]);
      assert Has(next.db, OperationRow, OperationFor(plan, id, kind));
    } else {
      assert full[..|KINDS|] == full;
    }
  }

  lemma StepFinalizeOk(plan: Plan, db: Database, p: Process, outcome: RunOutcome)
    requires InRange(plan, p.place) && p.place.Finalize? && DatabaseOk(plan, db) && ProcessOk(plan, db, p)
    ensures ProcessOk(plan, Step(plan, db, p, outcome).db, Step(plan, db, p, outcome).process)
  {
    var next := Step(plan, db, p, outcome);
    var id := plan.candidates[p.place.i].id;
    StepGrows(plan, db, p, outcome);
    RowsStable(plan, db, next.db, p.rows);
    assert Has(db, OperationRow, OperationFor(plan, id, KINDS[3])) && Has(db, OperationRow, OperationFor(plan, id, KINDS[5]));
    assert OperationOk(plan, db.journal, id, Memory) && OperationOk(plan, db.journal, id, Workspace);
  }

  /** What was stored is enough for `recover_materialization`. */
  lemma StoredIsRecoverable(plan: Plan, db: Database, id: Id)
    requires RecordsOk(db) && plan.snapshot in db.snapshots && MaterializationStored(plan, db, id)
    ensures Recoverable(db, plan.snapshot, RecordFor(plan, id))
  {
    var parts := PartsFor(plan, id);
    assert db.materializations[RecordFor(plan, id)] == parts;
    forall k | 0 <= k < |parts| && parts[k].overlay.Some?
      ensures Require(db.journal, OverlayKey(parts[k].overlay.value)).Ok?
    {
      assert parts[k] == ComponentFor(plan, id, KINDS[k]);
    }
  }

  lemma StepRecheckOk(plan: Plan, db: Database, p: Process, outcome: RunOutcome)
    requires InRange(plan, p.place) && p.place.Recheck? && DatabaseOk(plan, db) && ProcessOk(plan, db, p)
    ensures ProcessOk(plan, Step(plan, db, p, outcome).db, Step(plan, db, p, outcome).process)
    ensures !Step(plan, db, p, outcome).process.place.Failed?
  {
    StoredIsRecoverable(plan, db, plan.candidates[p.place.i].id);
  }

  lemma StepTrialOk(plan: Plan, db: Database, p: Process, outcome: RunOutcome)
    requires InRange(plan, p.place) && p.place.BeginTrial? && ProcessOk(plan, db, p)
    ensures ProcessOk(plan, Step(plan, db, p, outcome).db, Step(plan, db, p, outcome).process)
    ensures !Step(plan, db, p, outcome).process.place.Failed?
  {
    var next := Step(plan, db, p, outcome);
    StepGrows(plan, db, p, outcome);
    RowsStable(plan, db, next.db, p.rows);
    OverlaysOfParts(plan, plan.candidates[p.place.i].id);
  }

  lemma StepGuardedOk(plan: Plan, db: Database, p: Process, outcome: RunOutcome)
    requires InRange(plan, p.place) && ProcessOk(plan, db, p)
    requires p.place.WriteMemory? || p.place.WriteWorkspace? || p.place.RecordRuntime? || p.place.RecordEvaluator?
    ensures ProcessOk(plan, Step(plan, db, p, outcome).db, Step(plan, db, p, outcome).process)
  {
    var next := Step(plan, db, p, outcome);
    StepGrows(plan, db, p, outcome);
    RowsStable(plan, db, next.db, p.rows);
    TicketStable(plan, db, next.db, p.place.i, p.place.ticket);
  }

  lemma StepResultOk(plan: Plan, db: Database, p: Process, outcome: RunOutcome)
    requires InRange(plan, p.place) && p.place.RecordResult? && ProcessOk(plan, db, p)
    ensures ProcessOk(plan, Step(plan, db, p, outcome).db, Step(plan, db, p, outcome).process)
    ensures !Step(plan, db, p, outcome).process.place.Failed?
  {
    var next := Step(plan, db, p, outcome);
    var i := p.place.i;
    StepGrows(plan, db, p, outcome);
    RowsStable(plan, db, next.db, p.rows);
    TicketStable(plan, db, next.db, i, p.place.ticket);
    var row := RowOf(plan, plan.candidates[i].id, p.place.ticket, p.place.outcome);
    assert RowStored(plan, next.db, plan.candidates[i].id, row);
  }

  lemma StepDisposeOk(plan: Plan, db: Database, p: Process, outcome: RunOutcome)
    requires InRange(plan, p.place) && p.place.Dispose? && ProcessOk(plan, db, p)
    ensures ProcessOk(plan, Step(plan, db, p, outcome).db, Step(plan, db, p, outcome).process)
  {
    var next := Step(plan, db, p, outcome);
    var n := p.place.n;
    StepGrows(plan, db, p, outcome);
    RowsStable(plan, db, next.db, p.rows);
    if n < 2 * |p.rows| && next.process.place == Dispose(n + 1) {
      DispositionAdded(db, next.db, p.rows, n);
    }
  }

  lemma DispositionAdded(a: Database, b: Database, rows: seq<ResultRow>, n: nat)
    requires Grows(a, b) && n < 2 * |rows| && DispositionsStored(a, rows, n)
    requires HasDoc(b, DispositionRow, DisposedOverlay(rows, n), DispositionDocument(rows, n))
    ensures DispositionsStored(b, rows, n + 1)
  {
    DispositionsStable(a, b, rows, n);
  }

  lemma StepOtherOk(plan: Plan, db: Database, p: Process, outcome: RunOutcome)
    requires InRange(plan, p.place) && ProcessOk(plan, db, p)
    requires p.place.Capture? || p.place.StartRun? || p.place.AwaitRun? || p.place.Verify? || p.place.WritePhase?
             || p.place.Done? || p.place.Failed?
    ensures ProcessOk(plan, Step(plan, db, p, outcome).db, Step(plan, db, p, outcome).process)
  {
    var next := Step(plan, db, p, outcome);
    StepGrows(plan, db, p, outcome);
    if !p.place.Failed? {
      RowsStable(plan, db, next.db, p.rows);
      if p.place.WritePhase? {
        ReadyStable(plan, db, next.db, p.rows);
      }
    }
  }

  /** A step keeps what its own process relies on. */
  lemma StepKeepsProcessOk(plan: Plan, db: Database, p: Process, outcome: RunOutcome)
    requires InRange(plan, p.place) && DatabaseOk(plan, db) && ProcessOk(plan, db, p)
    ensures InRange(plan, Step(plan, db, p, outcome).process.place)
    ensures ProcessOk(plan, Step(plan, db, p, outcome).db, Step(plan, db, p, outcome).process)
  {
    StepInRange(plan, db, p, outcome);
    match p.place
    case Materialize(_, _) => StepMaterializeOk(plan, db, p, outcome);
    case Finalize(_, _) => StepFinalizeOk(plan, db, p, outcome);
    case Recheck(_, _) => StepRecheckOk(plan, db, p, outcome);
    case BeginTrial(_, _) => StepTrialOk(plan, db, p, outcome);
    case WriteMemory(_, _) => StepGuardedOk(plan, db, p, outcome);
    case WriteWorkspace(_, _) => StepGuardedOk(plan, db, p, outcome);
    case RecordRuntime(_, _, _) => StepGuardedOk(plan, db, p, outcome);
    case RecordEvaluator(_, _, _) => StepGuardedOk(plan, db, p, outcome);
    case RecordResult(_, _, _) => StepResultOk(plan, db, p, outcome);
    case Dispose(_) => StepDisposeOk(plan, db, p, outcome);
    case _ => StepOtherOk(plan, db, p, outcome);
  }

  // ---------------------------------------------------------------- agent runs

  /** The candidate whose agent a process is about to start. */
  function AboutToRun(plan: Plan, p: Process): Option<Id> {
    if p.place.StartRun? && p.place.i < |plan.candidates| then Some(plan.candidates[p.place.i].id) else None
  }

  /** Only the inserter of a candidate's workspace row can start its run, and it has not done so yet. */
  predicate RunsOk(plan: Plan, s: System) {
    && AllDifferent(s.started)
    && (forall k :: 0 <= k < |s.started| ==> Has(s.db, WorkspaceWrite, TicketFor(plan, s.started[k]).workspace))
    && (forall who :: who in s.processes && AboutToRun(plan, s.processes[who]).Some? ==>
          AboutToRun(plan, s.processes[who]).value !in s.started)
    && (forall a, b :: a in s.processes && b in s.processes && a != b && AboutToRun(plan, s.processes[a]).Some? ==>
          AboutToRun(plan, s.processes[a]) != AboutToRun(plan, s.processes[b]))
  }

  ghost predicate Inv(plan: Plan, s: System) {
    && (forall who :: who in s.processes ==> InRange(plan, s.processes[who].place))
    && DatabaseOk(plan, s.db)
    && (forall who :: who in s.processes ==> ProcessOk(plan, s.db, s.processes[who]))
    && RunsOk(plan, s)
  }

  /** A process that has just got to the start of a run has just inserted the candidate's workspace row. */
  lemma EnteringRun(plan: Plan, db: Database, p: Process, outcome: RunOutcome)
    requires InRange(plan, p.place) && ProcessOk(plan, db, p)
    requires Step(plan, db, p, outcome).process.place.StartRun?
    ensures var t := Step(plan, db, p, outcome).process.place;
            && p.place == WriteWorkspace(t.i, t.ticket)
            && t.i < |plan.candidates|
            && t.ticket == TicketFor(plan, plan.candidates[t.i].id)
            && !Has(db, WorkspaceWrite, t.ticket.workspace)
            && Has(Step(plan, db, p, outcome).db, WorkspaceWrite, t.ticket.workspace)
  {
  }

  /** While a process is about to start a run, the candidate's workspace row is there. */
  lemma AboutToRunHasRow(plan: Plan, db: Database, p: Process)
    requires InRange(plan, p.place) && ProcessOk(plan, db, p) && AboutToRun(plan, p).Some?
    ensures Has(db, WorkspaceWrite, TicketFor(plan, AboutToRun(plan, p).value).workspace)
  {
  }

  /** The started runs after process `p` has left the place it was at. */
  function StartedAfter(plan: Plan, started: seq<Id>, p: Process): seq<Id> {
    match AboutToRun(plan, p)
    case None => started
    case Some(id) => started + [id]
  }

  /** A process that enters a run whose workspace row nobody had. */
  lemma EnteringKeepsRunsOk(plan: Plan, s: System, who: nat, q: Process, db: Database)
    requires RunsOk(plan, s) && who in s.processes && Grows(s.db, db)
    requires AboutToRun(plan, s.processes[who]).None? && AboutToRun(plan, q).Some?
    requires !Has(s.db, WorkspaceWrite, TicketFor(plan, AboutToRun(plan, q).value).workspace)
    requires forall w :: w in s.processes && AboutToRun(plan, s.processes[w]).Some? ==>
               Has(s.db, WorkspaceWrite, TicketFor(plan, AboutToRun(plan, s.processes[w]).value).workspace)
    ensures RunsOk(plan, System(db, s.processes[who := q], s.started))
  {
  }

  /** A process that enters no run, and starts the one it was about to start. */
  lemma LeavingKeepsRunsOk(plan: Plan, s: System, who: nat, q: Process, db: Database)
    requires RunsOk(plan, s) && who in s.processes && Grows(s.db, db)
    requires AboutToRun(plan, q).None?
    requires AboutToRun(plan, s.processes[who]).Some? ==>
               Has(s.db, WorkspaceWrite, TicketFor(plan, AboutToRun(plan, s.processes[who]).value).workspace)
    ensures RunsOk(plan, System(db, s.processes[who := q], StartedAfter(plan, s.started, s.processes[who])))
  {
  }

  lemma AdvanceKeepsRunsOk(plan: Plan, s: System, who: nat, outcome: RunOutcome)
    requires Inv(plan, s) && who in s.processes
    ensures RunsOk(plan, Take(plan, s, Advance(who, outcome)))
  {
    var p := s.processes[who];
    var next := Step(plan, s.db, p, outcome);
    assert Take(plan, s, Advance(who, outcome))
           == System(next.db, s.processes[who := next.process], StartedAfter(plan, s.started, p));
    StepGrows(plan, s.db, p, outcome);
    forall w | w in s.processes && AboutToRun(plan, s.processes[w]).Some?
      ensures Has(s.db, WorkspaceWrite, TicketFor(plan, AboutToRun(plan, s.processes[w]).value).workspace)
    {
      AboutToRunHasRow(plan, s.db, s.processes[w]);
    }
    if AboutToRun(plan, next.process).Some? {
      EnteringRun(plan, s.db, p, outcome);
      EnteringKeepsRunsOk(plan, s, who, next.process, next.db);
    } else {
      LeavingKeepsRunsOk(plan, s, who, next.process, next.db);
    }
  }

  lemma TakeKeepsInv(plan: Plan, s: System, a: Action)
    requires Inv(plan, s)
    ensures Inv(plan, Take(plan, s, a))
  {
    if a.Advance? && a.who in s.processes {
      var p := s.processes[a.who];
      var t := Take(plan, s, a);
      StepKeepsProcessOk(plan, s.db, p, a.outcome);
      StepKeepsDatabaseOk(plan, s.db, p, a.outcome);
      StepGrows(plan, s.db, p, a.outcome);
      AdvanceKeepsRunsOk(plan, s, a.who, a.outcome);
      forall w | w in t.processes ensures ProcessOk(plan, t.db, t.processes[w]) {
        if w != a.who {
          ProcessStable(plan, s.db, t.db, s.processes[w]);
        }
      }
    }
  }

  lemma {:induction false} RunKeepsInv(plan: Plan, actions: seq<Action>)
    ensures Inv(plan, Run(plan, actions))
  {
    if actions != [] {
      RunKeepsInv(plan, actions[..|actions| - 1]);
      TakeKeepsInv(plan, Run(plan, actions[..|actions| - 1]), actions[|actions| - 1]);
    }
  }

  /** The agent is started at most once per candidate, over any number of processes, kills and restarts. */
  lemma RunsStartAtMostOnce(plan: Plan, actions: seq<Action>)
    ensures AllDifferent(Run(plan, actions).started)
  {
    RunKeepsInv(plan, actions);
  }
}
