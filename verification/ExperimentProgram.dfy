/**
 The experiment as it is written: loops over the candidates and the components that call the journal and the
 snapshot store, and the recovery that reads them again.  Each method is proved to do, on the shared objects,
 what one process of `Experiment` does step by step when it is left alone.
 */
module ExperimentProgram {
  import opened Wrappers
  import opened Sequences
  import opened Effects
  import opened Journals
  import opened Experiment
  import opened ExperimentSafety
  import opened ExperimentRecovery
  import opened ExperimentCompletion

  /** The write-once tables of the snapshot store. */
  class SnapshotStore {
    var snapshots: set<Digest>
    var materializations: map<Digest, seq<Component>>
    var trials: set<Digest>
    var results: set<Digest>

    constructor ()
      ensures snapshots == {} && materializations == map[] && trials == {} && results == {}
    {
      snapshots, materializations, trials, results := {}, map[], {}, {};
    }

    method SaveSnapshot(d: Digest)
      modifies this`snapshots
      ensures snapshots == old(snapshots) + {d}
    {
      snapshots := snapshots + {d};
    }

    method SaveMaterialization(d: Digest, parts: seq<Component>)
      modifies this`materializations
      ensures materializations
              == if d in old(materializations) then old(materializations) else old(materializations)[d := parts]
    {
      if d !in materializations {
        materializations := materializations[d := parts];
      }
    }

    method SaveTrial(d: Digest)
      modifies this`trials
      ensures trials == old(trials) + {d}
    {
      trials := trials + {d};
    }

    method SaveResult(d: Digest)
      modifies this`results
      ensures results == old(results) + {d}
    {
      results := results + {d};
    }
  }

  /** The whole database file: both objects together. */
  ghost function DatabaseOf(journal: DemoJournal, store: SnapshotStore): Database
    reads journal, store
  {
    Database(journal.rows, store.snapshots, store.materializations, store.trials, store.results)
  }

  // ---------------------------------------------------------------- one step of `Drive` at each place

  lemma DriveStep(plan: Plan, db: Database, p: Process, outcomes: seq<RunOutcome>)
    requires InRange(plan, p.place) && !Ended(p.place)
    ensures var next := Step(plan, db, p, OutcomeAt(outcomes, p.place));
            InRange(plan, next.process.place) && Drive(plan, db, p, outcomes) == Drive(plan, next.db, next.process, outcomes)
  {
    StepProgresses(plan, db, p, OutcomeAt(outcomes, p.place));
  }

  lemma DriveGuarded(plan: Plan, db: Database, p: Process, outcomes: seq<RunOutcome>)
    requires IsGuarded(p) && InRange(plan, p.place)
    ensures InRange(plan, Onward(p))
    ensures GuardKey(p) in db.journal ==>
              Drive(plan, db, p, outcomes) == Next(db, p.(place := Failed(AppliedTwice(GuardKey(p).kind))))
    ensures GuardKey(p) !in db.journal ==>
              Drive(plan, db, p, outcomes)
              == Drive(plan, db.(journal := db.journal[GuardKey(p) := GuardDocument(plan, p)]), p.(place := Onward(p)), outcomes)
  {
    OnwardIsNext(plan, p);
    StepIsGuarded(plan, db, p, OutcomeAt(outcomes, p.place));
    DriveStep(plan, db, p, outcomes);
  }

  lemma DriveMaterialize(plan: Plan, db: Database, i: nat, parts: seq<Component>, rows: seq<ResultRow>, outcomes: seq<RunOutcome>)
    requires i < |plan.candidates| && |parts| < |KINDS|
    ensures var id, kind := plan.candidates[i].id, KINDS[|parts|];
            var m := MaterializeOnce(db.journal, OperationFor(plan, id, kind), ComponentFor(plan, id, kind));
            Drive(plan, db, Process(Materialize(i, parts), rows), outcomes)
            == if RefusesId(id, parts) then Next(db, Process(Failed(InvalidId(id)), rows))
               else if m.result.Err? then Next(db, Process(Failed(MaterializationFailed(m.result.error)), rows))
               else Drive(plan, db.(journal := m.journal), Process(Materialize(i, parts + [m.result.value]), rows), outcomes)
  {
    DriveStep(plan, db, Process(Materialize(i, parts), rows), outcomes);
  }

  lemma DriveFinalize(plan: Plan, db: Database, i: nat, parts: seq<Component>, rows: seq<ResultRow>, outcomes: seq<RunOutcome>)
    requires i < |plan.candidates| && |parts| == |KINDS|
    ensures var m := MaterializationFor(plan, plan.candidates[i].id, parts);
            var stored := db.(materializations :=
                                if m in db.materializations then db.materializations else db.materializations[m := parts]);
            Drive(plan, db, Process(Materialize(i, parts), rows), outcomes)
            == if Recoverable(stored, plan.snapshot, m)
               then Drive(plan, stored, Process(BeginTrial(i, parts), rows), outcomes)
               else Next(stored, Process(Failed(MissingOverlay), rows))
  {
    var p := Process(Materialize(i, parts), rows);
    DriveStep(plan, db, p, outcomes);
    DriveStep(plan, db, p.(place := Finalize(i, parts)), outcomes);
    var m := MaterializationFor(plan, plan.candidates[i].id, parts);
    var stored := db.(materializations :=
                        if m in db.materializations then db.materializations else db.materializations[m := parts]);
    DriveStep(plan, stored, p.(place := Recheck(i, parts)), outcomes);
  }

  lemma DriveTrial(plan: Plan, db: Database, i: nat, parts: seq<Component>, rows: seq<ResultRow>, outcomes: seq<RunOutcome>)
    requires i < |plan.candidates|
    ensures var id, p := plan.candidates[i].id, Process(BeginTrial(i, parts), rows);
            var memory, workspace := OverlayIn(parts, Memory), OverlayIn(parts, Workspace);
            Drive(plan, db, p, outcomes)
            == if MaterializationFor(plan, id, parts) !in db.materializations || plan.snapshot !in db.snapshots
               then Next(db, Process(Failed(MissingRecord), rows))
               else if memory.None? || workspace.None? then Next(db, Process(Failed(MissingOverlay), rows))
               else
                 var t := TicketOf(plan, id, parts, memory.value, workspace.value);
                 Drive(plan, db.(trials := db.trials + {t.trial}), Process(WriteMemory(i, t), rows), outcomes)
  {
    DriveStep(plan, db, Process(BeginTrial(i, parts), rows), outcomes);
  }

  lemma DriveRun(plan: Plan, db: Database, i: nat, t: Ticket, rows: seq<ResultRow>, outcomes: seq<RunOutcome>)
    requires i < |plan.candidates| && |outcomes| == |plan.candidates|
    ensures Drive(plan, db, Process(StartRun(i, t), rows), outcomes)
            == if outcomes[i].ok then Drive(plan, db, Process(RecordRuntime(i, t, outcomes[i]), rows), outcomes)
               else Next(db, Process(Failed(RuntimeFailed), rows))
  {
    DriveStep(plan, db, Process(StartRun(i, t), rows), outcomes);
    DriveStep(plan, db, Process(AwaitRun(i, t), rows), outcomes);
  }

  lemma DriveResult(plan: Plan, db: Database, i: nat, t: Ticket, o: RunOutcome, rows: seq<ResultRow>, outcomes: seq<RunOutcome>)
    requires i < |plan.candidates|
    ensures InRange(plan, FirstPlace(plan, i + 1))
    ensures var row := RowOf(plan, plan.candidates[i].id, t, o);
            Drive(plan, db, Process(RecordResult(i, t, o), rows), outcomes)
            == if t.trial !in db.trials then Next(db, Process(Failed(MissingRecord), rows))
               else Drive(plan, db.(results := db.results + {row.result}),
                          Process(FirstPlace(plan, i + 1), rows + [row]), outcomes)
  {
    DriveStep(plan, db, Process(RecordResult(i, t, o), rows), outcomes);
  }

  // ---------------------------------------------------------------- one candidate

  /** What is left to do is the same, wherever the process stands. */
  ghost predicate Onwards(plan: Plan, journal: DemoJournal, store: SnapshotStore, p: Process, outcomes: seq<RunOutcome>, target: Next)
    reads journal, store
  {
    InRange(plan, p.place) && Drive(plan, DatabaseOf(journal, store), p, outcomes) == target
  }

  /** `coordinator.materialize`: every component once, the record, and a check that it can be recovered. */
  method MaterializeCandidate(plan: Plan, i: nat, journal: DemoJournal, store: SnapshotStore,
                              ghost rows: seq<ResultRow>, ghost outcomes: seq<RunOutcome>, ghost target: Next)
    returns (r: Result<seq<Component>, Failure>)
    requires i < |plan.candidates|
    requires Onwards(plan, journal, store, Process(Materialize(i, []), rows), outcomes, target)
    modifies journal, store
    ensures r.Ok? ==> Onwards(plan, journal, store, Process(BeginTrial(i, r.value), rows), outcomes, target)
    ensures r.Err? ==> Next(DatabaseOf(journal, store), Process(Failed(r.error), rows)) == target
  {
    var id := plan.candidates[i].id;
    var parts := [];
    for k := 0 to |KINDS|
      invariant |parts| == k
      invariant Onwards(plan, journal, store, Process(Materialize(i, parts), rows), outcomes, target)
    {
      DriveMaterialize(plan, DatabaseOf(journal, store), i, parts, rows, outcomes);
      if RefusesId(id, parts) {
        return Err(InvalidId(id));
      }
      var component := journal.MaterializeOperationOnce(OperationFor(plan, id, KINDS[k]), ComponentFor(plan, id, KINDS[k]));
      if component.Err? {
        return Err(MaterializationFailed(component.error));
      }
      parts := parts + [component.value];
    }
    DriveFinalize(plan, DatabaseOf(journal, store), i, parts, rows, outcomes);
    var m := MaterializationFor(plan, id, parts);
    store.SaveMaterialization(m, parts);
    var found := CanRecover(journal, store, plan.snapshot, m);
    if !found {
      return Err(MissingOverlay);
    }
    return Ok(parts);
  }

  /** `coordinator.recover_materialization`: the record, its snapshot, and one journal lookup per overlay. */
  method CanRecover(journal: DemoJournal, store: SnapshotStore, snapshot: Digest, m: Digest) returns (found: bool)
    ensures found == Recoverable(DatabaseOf(journal, store), snapshot, m)
  {
    if m !in store.materializations || snapshot !in store.snapshots {
      return false;
    }
    var parts := store.materializations[m];
    for k := 0 to |parts|
      invariant OverlaysPresent(journal.rows, parts[..k])
    {
      assert parts[..k + 1] == parts[..k] + [parts[k]];
      if parts[k].overlay.Some? {
        var overlay := journal.Require(OverlayRow, OverlayOf(parts[k].overlay.value));
        if overlay.Err? {
          return false;
        }
      }
    }
    assert parts[..|parts|] == parts;
    return true;
  }

  /** One `record_once` of a candidate, which must be the first of its kind. */
  method RecordFirst(plan: Plan, journal: DemoJournal, store: SnapshotStore, kind: EffectKind, id: Digest, doc: Document,
                     ghost p: Process, ghost outcomes: seq<RunOutcome>, ghost target: Next)
    returns (inserted: bool)
    requires IsGuarded(p) && InRange(plan, p.place) && Key(kind, id) == GuardKey(p) && doc == GuardDocument(plan, p)
    requires Onwards(plan, journal, store, p, outcomes, target)
    modifies journal
    ensures inserted ==> Onwards(plan, journal, store, p.(place := Onward(p)), outcomes, target)
    ensures !inserted ==> Next(DatabaseOf(journal, store), p.(place := Failed(AppliedTwice(kind)))) == target
  {
    DriveGuarded(plan, DatabaseOf(journal, store), p, outcomes);
    inserted := journal.RecordOnce(kind, id, doc);
  }

  /** `_run_candidate` up to the agent run: the trial, and the two mutations that may happen only once. */
  method PrepareCandidate(plan: Plan, i: nat, parts: seq<Component>, journal: DemoJournal, store: SnapshotStore,
                          ghost rows: seq<ResultRow>, ghost outcomes: seq<RunOutcome>, ghost target: Next)
    returns (r: Result<Ticket, Failure>)
    requires i < |plan.candidates|
    requires Onwards(plan, journal, store, Process(BeginTrial(i, parts), rows), outcomes, target)
    modifies journal, store
    ensures r.Ok? ==> Onwards(plan, journal, store, Process(StartRun(i, r.value), rows), outcomes, target)
    ensures r.Err? ==> Next(DatabaseOf(journal, store), Process(Failed(r.error), rows)) == target
  {
    var c := plan.candidates[i];
    DriveTrial(plan, DatabaseOf(journal, store), i, parts, rows, outcomes);
    if MaterializationFor(plan, c.id, parts) !in store.materializations || plan.snapshot !in store.snapshots {
      return Err(MissingRecord);
    }
    var memory, workspace := OverlayIn(parts, Memory), OverlayIn(parts, Workspace);
    if memory.None? || workspace.None? {
      return Err(MissingOverlay);
    }
    var t := TicketOf(plan, c.id, parts, memory.value, workspace.value);
    store.SaveTrial(t.trial);
    var first := RecordFirst(plan, journal, store, MemoryWrite, t.memory, MutationDoc(c.id, c.recallPolicy),
                             Process(WriteMemory(i, t), rows), outcomes, target);
    if !first {
      return Err(AppliedTwice(MemoryWrite));
    }
    first := RecordFirst(plan, journal, store, WorkspaceWrite, t.workspace, MutationDoc(c.id, c.bodyPolicy),
                         Process(WriteWorkspace(i, t), rows), outcomes, target);
    if !first {
      return Err(AppliedTwice(WorkspaceWrite));
    }
    return Ok(t);
  }

  /** `_run_candidate` from the agent run on: what it returned, its score, and the result binding. */
  method EvaluateCandidate(plan: Plan, i: nat, t: Ticket, journal: DemoJournal, store: SnapshotStore, outcome: RunOutcome,
                           ghost rows: seq<ResultRow>, ghost outcomes: seq<RunOutcome>, ghost target: Next)
    returns (r: Result<ResultRow, Failure>)
    requires i < |plan.candidates| && |outcomes| == |plan.candidates| && outcome == outcomes[i]
    requires Onwards(plan, journal, store, Process(StartRun(i, t), rows), outcomes, target)
    modifies journal, store
    ensures r.Ok? ==> Onwards(plan, journal, store, Process(FirstPlace(plan, i + 1), rows + [r.value]), outcomes, target)
    ensures r.Err? ==> Next(DatabaseOf(journal, store), Process(Failed(r.error), rows)) == target
  {
    var id := plan.candidates[i].id;
    DriveRun(plan, DatabaseOf(journal, store), i, t, rows, outcomes);
    if !outcome.ok {
      return Err(RuntimeFailed);
    }
    var first := RecordFirst(plan, journal, store, RuntimeRow, t.trial, RuntimeDoc(Content(outcome.finalText), SessionId(id)),
                             Process(RecordRuntime(i, t, outcome), rows), outcomes, target);
    if !first {
      return Err(AppliedTwice(RuntimeRow));
    }
    first := RecordFirst(plan, journal, store, EvaluatorRow, t.trial, EvaluatorDoc(plan.evaluator, Score(outcome)),
                         Process(RecordEvaluator(i, t, outcome), rows), outcomes, target);
    if !first {
      return Err(AppliedTwice(EvaluatorRow));
    }
    DriveResult(plan, DatabaseOf(journal, store), i, t, outcome, rows, outcomes);
    if t.trial !in store.trials {
      return Err(MissingRecord);
    }
    var row := RowOf(plan, id, t, outcome);
    store.SaveResult(row.result);
    return Ok(row);
  }

  /** The loop over the candidates. */
  method RunCandidates(plan: Plan, journal: DemoJournal, store: SnapshotStore, outcomes: seq<RunOutcome>, ghost target: Next)
    returns (rows: seq<ResultRow>, failure: Option<Failure>)
    requires |outcomes| == |plan.candidates|
    requires Onwards(plan, journal, store, Process(FirstPlace(plan, 0), []), outcomes, target)
    modifies journal, store
    ensures failure.None? ==> |rows| == |plan.candidates| && Onwards(plan, journal, store, Process(Verify, rows), outcomes, target)
    ensures failure.Some? ==> Next(DatabaseOf(journal, store), Process(Failed(failure.value), rows)) == target
  {
    rows := [];
    for i := 0 to |plan.candidates|
      invariant |rows| == i
      invariant Onwards(plan, journal, store, Process(FirstPlace(plan, i), rows), outcomes, target)
    {
      var parts := MaterializeCandidate(plan, i, journal, store, rows, outcomes, target);
      if parts.Err? {
        return rows, Some(parts.error);
      }
      var ticket := PrepareCandidate(plan, i, parts.value, journal, store, rows, outcomes, target);
      if ticket.Err? {
        return rows, Some(ticket.error);
      }
      var row := EvaluateCandidate(plan, i, ticket.value, journal, store, outcomes[i], rows, outcomes, target);
      if row.Err? {
        return rows, Some(row.error);
      }
      rows := rows + [row.value];
    }
    return rows, None;
  }

  // ---------------------------------------------------------------- the checks and the dispositions

  function MemoryOverlays(rows: seq<ResultRow>): seq<Digest> {
    seq(|rows|, k requires 0 <= k < |rows| => rows[k].ticket.memory)
  }

  function WorkspaceOverlays(rows: seq<ResultRow>): seq<Digest> {
    seq(|rows|, k requires 0 <= k < |rows| => rows[k].ticket.workspace)
  }

  /** The isolation check compares the sizes of two sets of overlays with the number of candidates. */
  lemma SizesMeanIsolated(rows: seq<ResultRow>)
    ensures |Elements(MemoryOverlays(rows))| == |rows| && |Elements(WorkspaceOverlays(rows))| == |rows| <==> Isolated(rows)
  {
    var m, w := MemoryOverlays(rows), WorkspaceOverlays(rows);
    SetSize(m);
    SetSize(w);
    assert AllDifferent(m) <==> forall i, j :: 0 <= i < j < |rows| ==> rows[i].ticket.memory != rows[j].ticket.memory by {
      if AllDifferent(m) {
        forall i, j | 0 <= i < j < |rows| ensures rows[i].ticket.memory != rows[j].ticket.memory {
          assert m[i] != m[j];
        }
      }
    }
    assert AllDifferent(w) <==> forall i, j :: 0 <= i < j < |rows| ==> rows[i].ticket.workspace != rows[j].ticket.workspace by {
      if AllDifferent(w) {
        forall i, j | 0 <= i < j < |rows| ensures rows[i].ticket.workspace != rows[j].ticket.workspace {
          assert w[i] != w[j];
        }
      }
    }
  }

  /** `max(rows, key=...)`. */
  method ChooseWinner(rows: seq<ResultRow>) returns (winner: ResultRow)
    requires rows != []
    ensures winner == Winner(rows)
  {
    winner := rows[0];
    assert rows[..1] == [rows[0]];
    for i := 1 to |rows|
      invariant winner == Winner(rows[..i])
    {
      assert rows[..i + 1][..i] == rows[..i];
      if Beats(rows[i], winner) {
        winner := rows[i];
      }
    }
    assert rows[..|rows|] == rows;
  }

  lemma DriveVerify(plan: Plan, db: Database, rows: seq<ResultRow>, outcomes: seq<RunOutcome>)
    ensures Drive(plan, db, Process(Verify, rows), outcomes)
            == if plan.snapshot !in db.snapshots then Next(db, Process(Failed(BaselineChanged), rows))
               else if !Isolated(rows) then Next(db, Process(Failed(NotIsolated), rows))
               else if rows == [] then Next(db, Process(Failed(NoCandidates), rows))
               else Drive(plan, db, Process(Dispose(0), rows), outcomes)
  {
    DriveStep(plan, db, Process(Verify, rows), outcomes);
  }

  lemma DriveDisposed(plan: Plan, db: Database, rows: seq<ResultRow>, n: nat, outcomes: seq<RunOutcome>)
    requires n == 2 * |rows|
    ensures Drive(plan, db, Process(Dispose(n), rows), outcomes) == Drive(plan, db, Process(WritePhase, rows), outcomes)
  {
    DriveStep(plan, db, Process(Dispose(n), rows), outcomes);
  }

  lemma RowDisposition(plan: Plan, rows: seq<ResultRow>, k: nat, second: bool)
    requires k < |rows|
    ensures var n := if second then 2 * k + 1 else 2 * k;
            var p := Process(Dispose(n), rows);
            && IsGuarded(p) && Onward(p) == Dispose(n + 1)
            && GuardKey(p) == Key(DispositionRow, if second then rows[k].ticket.workspace else rows[k].ticket.memory)
            && GuardDocument(plan, p) == DispositionDoc(rows[k].candidate, DispositionOf(rows, rows[k]))
  {
    assert (2 * k) / 2 == k && (2 * k) % 2 == 0 && (2 * k + 1) / 2 == k && (2 * k + 1) % 2 == 1;
  }

  /** One overlay of row `k` gets the row's disposition. */
  method RecordDisposition(plan: Plan, rows: seq<ResultRow>, k: nat, second: bool, d: Disposition,
                           journal: DemoJournal, store: SnapshotStore, ghost n: nat,
                           ghost outcomes: seq<RunOutcome>, ghost target: Next)
    returns (inserted: bool)
    requires k < |rows| && d == DispositionOf(rows, rows[k]) && n == if second then 2 * k + 1 else 2 * k
    requires Onwards(plan, journal, store, Process(Dispose(n), rows), outcomes, target)
    modifies journal
    ensures inserted ==> Onwards(plan, journal, store, Process(Dispose(n + 1), rows), outcomes, target)
    ensures !inserted ==> Next(DatabaseOf(journal, store), Process(Failed(AppliedTwice(DispositionRow)), rows)) == target
  {
    RowDisposition(plan, rows, k, second);
    var overlay := if second then rows[k].ticket.workspace else rows[k].ticket.memory;
    inserted := RecordFirst(plan, journal, store, DispositionRow, overlay, DispositionDoc(rows[k].candidate, d),
                            Process(Dispose(n), rows), outcomes, target);
  }

  /** Both overlays of row `k` get its disposition. */
  method DisposeRow(plan: Plan, rows: seq<ResultRow>, k: nat, winner: ResultRow, journal: DemoJournal, store: SnapshotStore,
                    ghost n: nat, ghost outcomes: seq<RunOutcome>, ghost target: Next)
    returns (d: Disposition, inserted: bool)
    requires k < |rows| && winner == Winner(rows) && n == 2 * k
    requires Onwards(plan, journal, store, Process(Dispose(n), rows), outcomes, target)
    modifies journal
    ensures d == DispositionOf(rows, rows[k])
    ensures inserted ==> Onwards(plan, journal, store, Process(Dispose(n + 2), rows), outcomes, target)
    ensures !inserted ==> Next(DatabaseOf(journal, store), Process(Failed(AppliedTwice(DispositionRow)), rows)) == target
  {
    d := if rows[k].candidate == winner.candidate then RetainedForReview else Quarantined;
    inserted := RecordDisposition(plan, rows, k, false, d, journal, store, n, outcomes, target);
    if inserted {
      inserted := RecordDisposition(plan, rows, k, true, d, journal, store, n + 1, outcomes, target);
    }
  }

  /** The dispositions chosen so far, in the order of the rows. */
  predicate Agree(dispositions: seq<Disposition>, rows: seq<ResultRow>) {
    && |dispositions| <= |rows|
    && forall k :: 0 <= k < |dispositions| ==> dispositions[k] == DispositionOf(rows, rows[k])
  }

  lemma AgreeAppend(dispositions: seq<Disposition>, rows: seq<ResultRow>, d: Disposition)
    requires Agree(dispositions, rows) && |dispositions| < |rows| && d == DispositionOf(rows, rows[|dispositions|])
    ensures Agree(dispositions + [d], rows)
  {
  }

  /** The loop that gives both overlays of every row their disposition. */
  method DisposeOverlays(plan: Plan, rows: seq<ResultRow>, winner: ResultRow, journal: DemoJournal, store: SnapshotStore,
                         ghost outcomes: seq<RunOutcome>, ghost target: Next)
    returns (dispositions: seq<Disposition>, failed: bool)
    requires rows != [] && winner == Winner(rows)
    requires Onwards(plan, journal, store, Process(Dispose(0), rows), outcomes, target)
    modifies journal
    ensures !failed ==> Onwards(plan, journal, store, Process(WritePhase, rows), outcomes, target)
    ensures !failed ==> |dispositions| == |rows| && Agree(dispositions, rows)
    ensures failed ==> Next(DatabaseOf(journal, store), Process(Failed(AppliedTwice(DispositionRow)), rows)) == target
  {
    dispositions := [];
    ghost var n := 0;
    for k := 0 to |rows|
      invariant |dispositions| == k && n == 2 * k
      invariant Agree(dispositions, rows)
      invariant Onwards(plan, journal, store, Process(Dispose(n), rows), outcomes, target)
    {
      var d, inserted := DisposeRow(plan, rows, k, winner, journal, store, n, outcomes, target);
      if !inserted {
        return dispositions, true;
      }
      AgreeAppend(dispositions, rows, d);
      dispositions := dispositions + [d];
      n := n + 2;
    }
    DriveDisposed(plan, DatabaseOf(journal, store), rows, n, outcomes);
    return dispositions, false;
  }

  // ---------------------------------------------------------------- recovery

  /** `recover_reference_experiment`. */
  method RecoverReferenceExperiment(journal: DemoJournal, store: SnapshotStore) returns (r: Result<Report, RecoveryError>)
    ensures r == Recover(DatabaseOf(journal, store))
  {
    var state := journal.Require(PhaseState, Name("reference-experiment"));
    if state.Err? {
      return Err(NoPhaseState(state.error));
    }
    if !state.value.PhaseDoc? {
      return Err(BadPhaseState);
    }
    var rows, snapshot := state.value.rows, state.value.snapshot;
    if snapshot !in store.snapshots {
      return Err(SnapshotLost);
    }
    var materializations, results := [], [];
    for k := 0 to |rows|
      invariant RecoverRows(DatabaseOf(journal, store), snapshot, rows[..k]) == Ok(Report(materializations, results))
    {
      assert rows[..k + 1][..k] == rows[..k];
      var problem := CheckRow(journal, store, snapshot, rows[k]);
      if problem.Some? {
        RecoverRowsFails(DatabaseOf(journal, store), snapshot, rows, k + 1);
        return Err(problem.value);
      }
      materializations := materializations + [rows[k].ticket.materialization];
      results := results + [rows[k].result];
    }
    assert rows[..|rows|] == rows;
    return Ok(Report(materializations, results));
  }

  /** The first problem found is the one that is reported. */
  lemma {:induction false} RecoverRowsFails(db: Database, snapshot: Digest, rows: seq<ResultRow>, k: nat)
    requires k <= |rows| && RecoverRows(db, snapshot, rows[..k]).Err?
    ensures RecoverRows(db, snapshot, rows) == RecoverRows(db, snapshot, rows[..k])
  {
    if k == |rows| {
      assert rows[..k] == rows;
    } else {
      var front := rows[..|rows| - 1];
      assert front[..k] == rows[..k];
      RecoverRowsFails(db, snapshot, front, k);
    }
  }

  method CheckRow(journal: DemoJournal, store: SnapshotStore, snapshot: Digest, row: ResultRow) returns (r: Option<RecoveryError>)
    ensures r == RowError(DatabaseOf(journal, store), snapshot, row)
  {
    var found := CanRecover(journal, store, snapshot, row.ticket.materialization);
    if !found {
      return Some(MaterializationLost(row.ticket.materialization));
    }
    if row.result !in store.results {
      return Some(ResultLost(row.result));
    }
    var keys := CheckedKeys(row);
    for k := 0 to |keys|
      invariant FirstMissing(journal.rows, keys) == FirstMissing(journal.rows, keys[k..])
    {
      var n := journal.Count(keys[k].kind, keys[k].id);
      assert keys[k..][1..] == keys[k + 1..];
      if n != 1 {
        return Some(CountChanged(keys[k]));
      }
    }
    return None;
  }

  // ---------------------------------------------------------------- the whole experiment

  datatype Decision = Decision(dispositions: seq<Disposition>, winner: ResultRow)

  predicate Decides(d: Decision, rows: seq<ResultRow>) {
    && rows != [] && d.winner == Winner(rows)
    && |d.dispositions| == |rows| && Agree(d.dispositions, rows)
  }

  datatype Summary = Summary(
    rows: seq<ResultRow>,
    dispositions: seq<Disposition>,
    winner: ResultRow,
    recovery: Report)

  /** Why there is no summary: the run failed, or the recovery that follows it did. */
  datatype ExperimentError = RunFailed(failure: Failure) | RecoveryFailed(error: RecoveryError)

  /** The checks after the last candidate, the winner, the dispositions and the phase row. */
  method Decide(plan: Plan, rows: seq<ResultRow>, journal: DemoJournal, store: SnapshotStore,
                ghost outcomes: seq<RunOutcome>, ghost target: Next)
    returns (r: Result<Decision, Failure>)
    requires |rows| == |plan.candidates|
    requires Onwards(plan, journal, store, Process(Verify, rows), outcomes, target)
    modifies journal
    ensures r.Ok? ==> Next(DatabaseOf(journal, store), Process(Done, rows)) == target && Decides(r.value, rows)
    ensures r.Err? ==> Next(DatabaseOf(journal, store), Process(Failed(r.error), rows)) == target
  {
    DriveVerify(plan, DatabaseOf(journal, store), rows, outcomes);
    SizesMeanIsolated(rows);
    if plan.snapshot !in store.snapshots {
      return Err(BaselineChanged);
    }
    if |Elements(MemoryOverlays(rows))| != |plan.candidates| || |Elements(WorkspaceOverlays(rows))| != |plan.candidates| {
      return Err(NotIsolated);
    }
    if rows == [] {
      return Err(NoCandidates);
    }
    var winner := ChooseWinner(rows);
    var dispositions, failed := DisposeOverlays(plan, rows, winner, journal, store, outcomes, target);
    if failed {
      return Err(AppliedTwice(DispositionRow));
    }
    var first := RecordFirst(plan, journal, store, PhaseState, Name("reference-experiment"), PhaseDoc(rows, plan.snapshot),
                             Process(WritePhase, rows), outcomes, target);
    if !first {
      return Err(AppliedTwice(PhaseState));
    }
    return Ok(Decision(dispositions, winner));
  }

  /**
   `run_reference_experiment`, with what each agent run returns as a parameter.  It ends in the database and
   at the place where one process, left alone, ends; a completed run hands on the winner, the dispositions
   and the report of the recovery it starts at its end.  On a database that earlier processes have used, that
   recovery never fails.
   */
  method RunReferenceExperiment(plan: Plan, journal: DemoJournal, store: SnapshotStore, outcomes: seq<RunOutcome>)
    returns (r: Result<Summary, ExperimentError>)
    requires |outcomes| == |plan.candidates|
    modifies journal, store
    ensures var end := Drive(plan, old(DatabaseOf(journal, store)), Process(Capture, []), outcomes);
            && end.db == DatabaseOf(journal, store)
            && (r.Err? && r.error.RunFailed? ==> end.process.place == Failed(r.error.failure))
            && (r.Err? && r.error.RecoveryFailed? ==>
                  end.process.place.Done? && Recover(DatabaseOf(journal, store)) == Err(r.error.error))
            && (r.Ok? ==>
                  && end.process == Process(Done, r.value.rows)
                  && Decides(Decision(r.value.dispositions, r.value.winner), r.value.rows)
                  && Recover(DatabaseOf(journal, store)) == Ok(r.value.recovery))
    ensures old(DatabaseOk(plan, DatabaseOf(journal, store))) ==> !(r.Err? && r.error.RecoveryFailed?)
  {
    ghost var before := DatabaseOf(journal, store);
    ghost var target := Drive(plan, before, Process(Capture, []), outcomes);
    DriveStep(plan, before, Process(Capture, []), outcomes);
    store.SaveSnapshot(plan.snapshot);
    var rows, failure := RunCandidates(plan, journal, store, outcomes, target);
    if failure.Some? {
      return Err(RunFailed(failure.value));
    }
    var decision := Decide(plan, rows, journal, store, outcomes, target);
    if decision.Err? {
      return Err(RunFailed(decision.error));
    }
    var recovery := RecoverReferenceExperiment(journal, store);
    if recovery.Err? {
      if DatabaseOk(plan, before) {
        DoneRecovers(plan, before, outcomes);
      }
      return Err(RecoveryFailed(recovery.error));
    }
    return Ok(Summary(rows, decision.value.dispositions, decision.value.winner, recovery.value));
  }
}
