/**
 One process left alone: it runs to its end, and it completes the experiment exactly when no effect of any
 of its candidates is in the database yet.  A run that was killed after its first effect therefore blocks
 every later run of the same plan, and only a database without such effects can be used again.
 */
module ExperimentCompletion {
  import opened Wrappers
  import opened Effects
  import opened Experiment
  import opened ExperimentSafety
  import opened ExperimentRecovery
  import opened ExperimentIsolation

  predicate Ended(place: Place) {
    place.Done? || place.Failed?
  }

  /** An upper bound on the steps a process still takes. */
  function StepsLeft(plan: Plan, p: Process): nat
    requires InRange(plan, p.place)
  {
    var n, rows := |plan.candidates|, 2 * |p.rows|;
    match p.place
    case Capture => 22 * n + rows + 30
    case Materialize(i, parts) => 22 * (n - i) + rows + 24 - (if |parts| <= |KINDS| then |parts| else |KINDS|)
    case Finalize(i, _) => 22 * (n - i) + rows + 17
    case Recheck(i, _) => 22 * (n - i) + rows + 16
    case BeginTrial(i, _) => 22 * (n - i) + rows + 15
    case WriteMemory(i, _) => 22 * (n - i) + rows + 14
    case WriteWorkspace(i, _) => 22 * (n - i) + rows + 13
    case StartRun(i, _) => 22 * (n - i) + rows + 12
    case AwaitRun(i, _) => 22 * (n - i) + rows + 11
    case RecordRuntime(i, _, _) => 22 * (n - i) + rows + 10
    case RecordEvaluator(i, _, _) => 22 * (n - i) + rows + 9
    case RecordResult(i, _, _) => 22 * (n - i) + rows + 8
    case Verify => rows + 4
    case Dispose(d) => if d <= rows then rows - d + 2 else 2
    case WritePhase => 1
    case Done => 0
    case Failed(_) => 0
  }

  /** The steps that move on to another candidate, or within the last phases. */
  lemma StepShrinksAtEnds(plan: Plan, db: Database, p: Process, outcome: RunOutcome)
    requires InRange(plan, p.place)
    requires p.place.Capture? || p.place.Materialize? || p.place.RecordResult? || p.place.Verify? || p.place.Dispose?
    requires InRange(plan, Step(plan, db, p, outcome).process.place)
    ensures StepsLeft(plan, Step(plan, db, p, outcome).process) < StepsLeft(plan, p)
  {
  }

  lemma StepShrinks(plan: Plan, db: Database, p: Process, outcome: RunOutcome)
    requires InRange(plan, p.place) && !Ended(p.place)
    requires InRange(plan, Step(plan, db, p, outcome).process.place)
    ensures StepsLeft(plan, Step(plan, db, p, outcome).process) < StepsLeft(plan, p)
  {
    if p.place.Capture? || p.place.Materialize? || p.place.RecordResult? || p.place.Verify? || p.place.Dispose? {
      StepShrinksAtEnds(plan, db, p, outcome);
    }
  }

  lemma StepProgresses(plan: Plan, db: Database, p: Process, outcome: RunOutcome)
    requires InRange(plan, p.place) && !Ended(p.place)
    ensures InRange(plan, Step(plan, db, p, outcome).process.place)
    ensures StepsLeft(plan, Step(plan, db, p, outcome).process) < StepsLeft(plan, p)
  {
    StepInRange(plan, db, p, outcome);
    StepShrinks(plan, db, p, outcome);
  }

  /** The outcome of the agent run that a place is about. */
  function OutcomeAt(outcomes: seq<RunOutcome>, place: Place): RunOutcome {
    if place.AwaitRun? && place.i < |outcomes| then outcomes[place.i] else RunOutcome(false, "", "")
  }

  /** Let one process run to its end; `outcomes` gives what each candidate's agent run returns. */
  function Drive(plan: Plan, db: Database, p: Process, outcomes: seq<RunOutcome>): (r: Next)
    requires InRange(plan, p.place)
    ensures Ended(r.process.place)
    decreases StepsLeft(plan, p)
  {
    if Ended(p.place) then Next(db, p)
    else
      var next := Step(plan, db, p, OutcomeAt(outcomes, p.place));
      StepProgresses(plan, db, p, OutcomeAt(outcomes, p.place));
      Drive(plan, next.db, next.process, outcomes)
  }

  // ---------------------------------------------------------------- the effects of a run, in order

  /** The `k`-th row that a completing run inserts with `record_once`. */
  function EffectKey(plan: Plan, k: nat): Key
    requires k <= 6 * |plan.candidates|
  {
    var n := |plan.candidates|;
    if k < 4 * n then CandidateKey(TicketFor(plan, plan.candidates[k / 4].id), k % 4)
    else if k < 6 * n then DispositionKey(TicketFor(plan, plan.candidates[(k - 4 * n) / 2].id), (k - 4 * n) % 2)
    else PHASE_KEY
  }

  function CandidateKey(t: Ticket, r: nat): Key
    requires r < 4
  {
    if r == 0 then Key(MemoryWrite, t.memory)
    else if r == 1 then Key(WorkspaceWrite, t.workspace)
    else if r == 2 then Key(RuntimeRow, t.trial)
    else Key(EvaluatorRow, t.trial)
  }

  function DispositionKey(t: Ticket, r: nat): Key
    requires r < 2
  {
    Key(DispositionRow, if r == 0 then t.memory else t.workspace)
  }

  /** How many of those rows a process at this place has inserted. */
  function Inserted(plan: Plan, p: Process): nat
    requires InRange(plan, p.place)
  {
    var n := |plan.candidates|;
    match p.place
    case Capture => 0
    case Materialize(i, _) => 4 * i
    case Finalize(i, _) => 4 * i
    case Recheck(i, _) => 4 * i
    case BeginTrial(i, _) => 4 * i
    case WriteMemory(i, _) => 4 * i
    case WriteWorkspace(i, _) => 4 * i + 1
    case StartRun(i, _) => 4 * i + 2
    case AwaitRun(i, _) => 4 * i + 2
    case RecordRuntime(i, _, _) => 4 * i + 2
    case RecordEvaluator(i, _, _) => 4 * i + 3
    case RecordResult(i, _, _) => 4 * i + 4
    case Verify => 4 * n
    case Dispose(d) => 4 * n + d
    case WritePhase => 6 * n
    case _ => 6 * n + 1
  }

  /** The first candidate whose agent run has not returned yet. */
  function Awaited(plan: Plan, p: Process): nat
    requires InRange(plan, p.place)
  {
    match p.place
    case RecordRuntime(i, _, _) => i + 1
    case RecordEvaluator(i, _, _) => i + 1
    case RecordResult(i, _, _) => i + 1
    case _ => if p.place.Failed? then 0 else Finished(plan, p.place)
  }

  predicate AllAbsent(plan: Plan, j: Journal, from: nat) {
    forall k :: from <= k <= 6 * |plan.candidates| ==> EffectKey(plan, k) !in j
  }

  predicate NoneRepeats(plan: Plan, from: nat) {
    forall k, m :: from <= k < m <= 6 * |plan.candidates| ==> EffectKey(plan, k) != EffectKey(plan, m)
  }

  predicate AllOk(outcomes: seq<RunOutcome>, from: nat) {
    forall i :: from <= i < |outcomes| ==> outcomes[i].ok
  }

  predicate AllValid(plan: Plan) {
    forall i :: 0 <= i < |plan.candidates| ==> ValidId(plan.candidates[i].id)
  }

  /** In a caller's words: one to 250 characters that a reference may have, and no two dots in a row. */
  lemma ValidIdIff(id: Id)
    ensures ValidId(id) <==> 1 <= |id| <= 250 && ReferenceTakes(id)
  {
    var trial := TrialId(id);
    assert |trial| == 6 + |id| && trial[0] == 't';
    if 1 <= |id| && ReferenceTakes(id) {
      assert IsReferenceChar(id[0]) && IsReferenceChar(id[|id| - 1]);
      assert forall k :: 0 <= k < |id| ==> id[k] != '\0';
      assert forall k :: 0 <= k < |trial| ==> if k < 6 then trial[k] == "trial-"[k] else trial[k] == id[k - 6];
      assert trial[|trial| - 1] == id[|id| - 1];
    }
  }

  /** Nothing stands in the way of what the process still has to do. */
  predicate Clear(plan: Plan, db: Database, p: Process, outcomes: seq<RunOutcome>)
    requires InRange(plan, p.place)
  {
    && !p.place.Failed?
    && plan.candidates != []
    && AllValid(plan)
    && AllAbsent(plan, db.journal, Inserted(plan, p))
    && NoneRepeats(plan, Inserted(plan, p))
    && AllOk(outcomes, Awaited(plan, p))
  }

  /** Inserting the next row: what was clear before is clear after, and the other way round. */
  lemma InsertNext(plan: Plan, j: Journal, from: nat, doc: Document)
    requires from <= 6 * |plan.candidates| && EffectKey(plan, from) !in j
    ensures AllAbsent(plan, j, from) && NoneRepeats(plan, from)
            <==> AllAbsent(plan, j[EffectKey(plan, from) := doc], from + 1) && NoneRepeats(plan, from + 1)
  {
    var key := EffectKey(plan, from);
    var k := j[key := doc];
    if AllAbsent(plan, k, from + 1) && NoneRepeats(plan, from + 1) {
      forall m | from <= m <= 6 * |plan.candidates| ensures EffectKey(plan, m) !in j {
        if m > from {
          assert EffectKey(plan, m) !in k;
        }
      }
    }
  }

  /** A guarded step at the next row. */
  lemma GuardedClear(plan: Plan, db: Database, p: Process, doc: Document, onward: Place, outcomes: seq<RunOutcome>)
    requires InRange(plan, p.place) && InRange(plan, onward) && !p.place.Failed? && !onward.Failed?
    requires Inserted(plan, p) <= 6 * |plan.candidates|
    requires Inserted(plan, p.(place := onward)) == Inserted(plan, p) + 1
    requires Awaited(plan, p.(place := onward)) == Awaited(plan, p)
    ensures var next := Guarded(db, p, EffectKey(plan, Inserted(plan, p)), doc, onward);
            Clear(plan, db, p, outcomes) <==> Clear(plan, next.db, next.process, outcomes)
  {
    var from := Inserted(plan, p);
    if EffectKey(plan, from) !in db.journal {
      InsertNext(plan, db.journal, from, doc);
    }
  }

  /** A step that writes no effect row and goes on. */
  lemma SilentClear(plan: Plan, a: Database, b: Database, p: Process, q: Process, outcomes: seq<RunOutcome>)
    requires InRange(plan, p.place) && InRange(plan, q.place) && !p.place.Failed? && !q.place.Failed?
    requires Inserted(plan, p) == Inserted(plan, q) && Awaited(plan, p) == Awaited(plan, q)
    requires forall k :: 0 <= k <= 6 * |plan.candidates| ==> (EffectKey(plan, k) in a.journal <==> EffectKey(plan, k) in b.journal)
    ensures Clear(plan, a, p, outcomes) <==> Clear(plan, b, q, outcomes)
  {
    if AllAbsent(plan, b.journal, Inserted(plan, q)) {
      assert AllAbsent(plan, a.journal, Inserted(plan, p));
    }
    if AllAbsent(plan, a.journal, Inserted(plan, p)) {
      assert AllAbsent(plan, b.journal, Inserted(plan, q));
    }
  }

  lemma EffectKeyKinds(plan: Plan, k: nat)
    requires k <= 6 * |plan.candidates|
    ensures !EffectKey(plan, k).kind.OverlayRow? && !EffectKey(plan, k).kind.OperationRow?
  {
  }

  lemma CandidateKeyAt(plan: Plan, i: nat, r: nat)
    requires i < |plan.candidates| && r < 4
    ensures EffectKey(plan, 4 * i + r) == CandidateKey(TicketFor(plan, plan.candidates[i].id), r)
  {
    assert (4 * i + r) / 4 == i && (4 * i + r) % 4 == r;
  }

  lemma DispositionKeyAt(plan: Plan, i: nat, r: nat)
    requires i < |plan.candidates| && r < 2
    ensures EffectKey(plan, 4 * |plan.candidates| + 2 * i + r) == DispositionKey(TicketFor(plan, plan.candidates[i].id), r)
  {
    var n := |plan.candidates|;
    assert 4 * n + 2 * i + r < 6 * n;
    assert (2 * i + r) / 2 == i && (2 * i + r) % 2 == r;
  }

  // ---------------------------------------------------------------- one step keeps the way clear, both ways

  /** A materialization adds no effect row. */
  lemma MaterializeAddsNoEffect(plan: Plan, j: Journal, op: Digest, component: Component)
    ensures var m := MaterializeOnce(j, op, component).journal;
            forall k :: 0 <= k <= 6 * |plan.candidates| ==> (EffectKey(plan, k) in j <==> EffectKey(plan, k) in m)
  {
    var m := MaterializeOnce(j, op, component).journal;
    forall k | 0 <= k <= 6 * |plan.candidates| ensures EffectKey(plan, k) in j <==> EffectKey(plan, k) in m {
      EffectKeyKinds(plan, k);
    }
  }

  lemma MaterializeClear(plan: Plan, db: Database, p: Process, outcomes: seq<RunOutcome>)
    requires InRange(plan, p.place) && p.place.Materialize? && DatabaseOk(plan, db) && ProcessOk(plan, db, p)
    ensures var next := Step(plan, db, p, OutcomeAt(outcomes, p.place));
            && InRange(plan, next.process.place)
            && (Clear(plan, db, p, outcomes) <==> Clear(plan, next.db, next.process, outcomes))
  {
    var o := OutcomeAt(outcomes, p.place);
    var next := Step(plan, db, p, o);
    StepMaterializeOk(plan, db, p, o);
    StepInRange(plan, db, p, o);
    if Refused(plan, p) {
      assert !ValidId(plan.candidates[p.place.i].id);
    } else {
      if |p.place.parts| < |KINDS| {
        var id, kind := plan.candidates[p.place.i].id, KINDS[|p.place.parts|];
        MaterializeAddsNoEffect(plan, db.journal, OperationFor(plan, id, kind), ComponentFor(plan, id, kind));
      }
      SilentClear(plan, db, next.db, p, next.process, outcomes);
    }
  }

  lemma QuietClear(plan: Plan, db: Database, p: Process, outcomes: seq<RunOutcome>)
    requires InRange(plan, p.place) && DatabaseOk(plan, db) && ProcessOk(plan, db, p)
    requires p.place.Capture? || p.place.Finalize? || p.place.Recheck? || p.place.BeginTrial? || p.place.StartRun?
             || p.place.RecordResult? || (p.place.Dispose? && !IsGuarded(p))
    ensures var next := Step(plan, db, p, OutcomeAt(outcomes, p.place));
            && InRange(plan, next.process.place)
            && (Clear(plan, db, p, outcomes) <==> Clear(plan, next.db, next.process, outcomes))
  {
    var o := OutcomeAt(outcomes, p.place);
    var next := Step(plan, db, p, o);
    StepInRange(plan, db, p, o);
    if p.place.Recheck? {
      StepRecheckOk(plan, db, p, o);
    } else if p.place.BeginTrial? {
      StepTrialOk(plan, db, p, o);
    } else if p.place.RecordResult? {
      StepResultOk(plan, db, p, o);
    }
    assert next.db.journal == db.journal;
    SilentClear(plan, db, next.db, p, next.process, outcomes);
  }

  lemma AwaitClear(plan: Plan, db: Database, p: Process, outcomes: seq<RunOutcome>)
    requires InRange(plan, p.place) && p.place.AwaitRun? && |outcomes| == |plan.candidates|
    ensures var next := Step(plan, db, p, OutcomeAt(outcomes, p.place));
            && InRange(plan, next.process.place)
            && (Clear(plan, db, p, outcomes) <==> Clear(plan, next.db, next.process, outcomes))
  {
    var i := p.place.i;
    assert AllOk(outcomes, i) <==> outcomes[i].ok && AllOk(outcomes, i + 1);
  }

  /** The places whose step is one `record_once`: its key, its document and the next place. */
  predicate IsGuarded(p: Process) {
    || p.place.WriteMemory? || p.place.WriteWorkspace? || p.place.RecordRuntime? || p.place.RecordEvaluator?
    || (p.place.Dispose? && p.place.n < 2 * |p.rows|) || p.place.WritePhase?
  }

  function GuardKey(p: Process): Key
    requires IsGuarded(p)
  {
    match p.place
    case WriteMemory(_, t) => CandidateKey(t, 0)
    case WriteWorkspace(_, t) => CandidateKey(t, 1)
    case RecordRuntime(_, t, _) => CandidateKey(t, 2)
    case RecordEvaluator(_, t, _) => CandidateKey(t, 3)
    case Dispose(d) => Key(DispositionRow, DisposedOverlay(p.rows, d))
    case WritePhase => PHASE_KEY
  }

  function GuardDocument(plan: Plan, p: Process): Document
    requires IsGuarded(p) && InRange(plan, p.place)
  {
    match p.place
    case WriteMemory(i, _) => MutationDoc(plan.candidates[i].id, plan.candidates[i].recallPolicy)
    case WriteWorkspace(i, _) => MutationDoc(plan.candidates[i].id, plan.candidates[i].bodyPolicy)
    case RecordRuntime(i, _, o) => RuntimeDoc(Content(o.finalText), SessionId(plan.candidates[i].id))
    case RecordEvaluator(_, _, o) => EvaluatorDoc(plan.evaluator, Score(o))
    case Dispose(d) => DispositionDocument(p.rows, d)
    case WritePhase => PhaseDoc(p.rows, plan.snapshot)
  }

  function Onward(p: Process): Place
    requires IsGuarded(p)
  {
    match p.place
    case WriteMemory(i, t) => WriteWorkspace(i, t)
    case WriteWorkspace(i, t) => StartRun(i, t)
    case RecordRuntime(i, t, o) => RecordEvaluator(i, t, o)
    case RecordEvaluator(i, t, o) => RecordResult(i, t, o)
    case Dispose(d) => Dispose(d + 1)
    case WritePhase => Done
  }

  lemma StepIsGuarded(plan: Plan, db: Database, p: Process, outcome: RunOutcome)
    requires IsGuarded(p) && InRange(plan, p.place)
    ensures Step(plan, db, p, outcome) == Guarded(db, p, GuardKey(p), GuardDocument(plan, p), Onward(p))
  {
  }

  lemma DisposeKey(plan: Plan, db: Database, rows: seq<ResultRow>, d: nat)
    requires |rows| == |plan.candidates| && RowsStored(plan, db, rows) && d < 2 * |rows|
    ensures EffectKey(plan, 4 * |plan.candidates| + d) == Key(DispositionRow, DisposedOverlay(rows, d))
  {
    var i, r := d / 2, d % 2;
    assert d == 2 * i + r;
    assert RowStored(plan, db, plan.candidates[i].id, rows[i]);
    DispositionKeyAt(plan, i, r);
  }

  predicate WritesForCandidate(p: Process) {
    p.place.WriteMemory? || p.place.WriteWorkspace? || p.place.RecordRuntime? || p.place.RecordEvaluator?
  }

  lemma CandidateGuardIsNext(plan: Plan, p: Process)
    requires WritesForCandidate(p) && InRange(plan, p.place)
    requires p.place.ticket == TicketFor(plan, plan.candidates[p.place.i].id)
    ensures Inserted(plan, p) <= 6 * |plan.candidates|
    ensures GuardKey(p) == EffectKey(plan, Inserted(plan, p))
  {
    var i := p.place.i;
    match p.place
    case WriteMemory(_, _) => CandidateKeyAt(plan, i, 0);
    case WriteWorkspace(_, _) => CandidateKeyAt(plan, i, 1);
    case RecordRuntime(_, _, _) => CandidateKeyAt(plan, i, 2);
    case RecordEvaluator(_, _, _) => CandidateKeyAt(plan, i, 3);
  }

  lemma OnwardIsNext(plan: Plan, p: Process)
    requires IsGuarded(p) && InRange(plan, p.place)
    ensures InRange(plan, Onward(p)) && !Onward(p).Failed?
    ensures Inserted(plan, p.(place := Onward(p))) == Inserted(plan, p) + 1
    ensures Awaited(plan, p.(place := Onward(p))) == Awaited(plan, p)
  {
  }

  lemma TicketIsOwn(plan: Plan, db: Database, p: Process)
    requires WritesForCandidate(p) && InRange(plan, p.place) && ProcessOk(plan, db, p)
    ensures p.place.ticket == TicketFor(plan, plan.candidates[p.place.i].id)
  {
  }

  /** A guarded step writes the next row of the run. */
  lemma GuardIsNext(plan: Plan, db: Database, p: Process)
    requires IsGuarded(p) && InRange(plan, p.place) && ProcessOk(plan, db, p)
    ensures Inserted(plan, p) <= 6 * |plan.candidates|
    ensures GuardKey(p) == EffectKey(plan, Inserted(plan, p))
  {
    if WritesForCandidate(p) {
      TicketIsOwn(plan, db, p);
      CandidateGuardIsNext(plan, p);
    } else if p.place.Dispose? {
      DispositionIsNext(plan, db, p);
    }
  }

  lemma DispositionIsNext(plan: Plan, db: Database, p: Process)
    requires p.place.Dispose? && p.place.n < 2 * |p.rows| && ProcessOk(plan, db, p)
    ensures Inserted(plan, p) <= 6 * |plan.candidates|
    ensures GuardKey(p) == EffectKey(plan, Inserted(plan, p))
  {
    DisposeKey(plan, db, p.rows, p.place.n);
  }

  lemma GuardClear(plan: Plan, db: Database, p: Process, outcomes: seq<RunOutcome>)
    requires IsGuarded(p) && InRange(plan, p.place) && ProcessOk(plan, db, p)
    ensures var next := Guarded(db, p, GuardKey(p), GuardDocument(plan, p), Onward(p));
            && InRange(plan, next.process.place)
            && (Clear(plan, db, p, outcomes) <==> Clear(plan, next.db, next.process, outcomes))
  {
    GuardIsNext(plan, db, p);
    OnwardIsNext(plan, p);
    GuardedClear(plan, db, p, GuardDocument(plan, p), Onward(p), outcomes);
  }

  /** Rows whose disposition keys do not repeat have overlays of their own. */
  lemma NoneRepeatsIsIsolated(plan: Plan, db: Database, rows: seq<ResultRow>)
    requires |rows| == |plan.candidates| && RowsStored(plan, db, rows)
    requires NoneRepeats(plan, 4 * |plan.candidates|)
    ensures Isolated(rows)
  {
    forall i, j | 0 <= i < j < |rows|
      ensures rows[i].ticket.memory != rows[j].ticket.memory && rows[i].ticket.workspace != rows[j].ticket.workspace
    {
      assert RowStored(plan, db, plan.candidates[i].id, rows[i]) && RowStored(plan, db, plan.candidates[j].id, rows[j]);
      DispositionKeyAt(plan, i, 0);
      DispositionKeyAt(plan, j, 0);
      DispositionKeyAt(plan, i, 1);
      DispositionKeyAt(plan, j, 1);
      var n := 4 * |plan.candidates|;
      assert EffectKey(plan, n + 2 * i + 0) != EffectKey(plan, n + 2 * j + 0);
      assert EffectKey(plan, n + 2 * i + 1) != EffectKey(plan, n + 2 * j + 1);
    }
  }

  lemma VerifyClear(plan: Plan, db: Database, p: Process, outcomes: seq<RunOutcome>)
    requires InRange(plan, p.place) && p.place.Verify? && ProcessOk(plan, db, p)
    ensures var next := Step(plan, db, p, OutcomeAt(outcomes, p.place));
            && InRange(plan, next.process.place)
            && (Clear(plan, db, p, outcomes) <==> Clear(plan, next.db, next.process, outcomes))
  {
    var next := Step(plan, db, p, OutcomeAt(outcomes, p.place));
    if Clear(plan, db, p, outcomes) {
      NoneRepeatsIsIsolated(plan, db, p.rows);
    }
    if !next.process.place.Failed? {
      SilentClear(plan, db, next.db, p, next.process, outcomes);
    }
  }

  lemma StepClear(plan: Plan, db: Database, p: Process, outcomes: seq<RunOutcome>)
    requires InRange(plan, p.place) && !Ended(p.place) && DatabaseOk(plan, db) && ProcessOk(plan, db, p)
    requires |outcomes| == |plan.candidates|
    ensures var next := Step(plan, db, p, OutcomeAt(outcomes, p.place));
            && InRange(plan, next.process.place)
            && (Clear(plan, db, p, outcomes) <==> Clear(plan, next.db, next.process, outcomes))
  {
    if IsGuarded(p) {
      StepIsGuarded(plan, db, p, OutcomeAt(outcomes, p.place));
      GuardClear(plan, db, p, outcomes);
    } else {
      match p.place
      case Materialize(_, _) => MaterializeClear(plan, db, p, outcomes);
      case AwaitRun(_, _) => AwaitClear(plan, db, p, outcomes);
      case Verify => VerifyClear(plan, db, p, outcomes);
      case _ => QuietClear(plan, db, p, outcomes);
    }
  }

  predicate ValidBelow(plan: Plan, k: nat) {
    forall i :: 0 <= i < k && i < |plan.candidates| ==> ValidId(plan.candidates[i].id)
  }

  /** The ids that a process got past were taken; memory is the fourth component. */
  predicate IdsTaken(plan: Plan, place: Place)
    requires InRange(plan, place)
  {
    match place
    case Materialize(i, parts) =>
      && ValidBelow(plan, i)
      && (|parts| > 0 ==> RequestTakes(plan.candidates[i].id))
      && (|parts| > 3 ==> ReferenceTakes(plan.candidates[i].id))
    case Capture => true
    case Failed(_) => true
    case Verify => AllValid(plan)
    case Dispose(_) => AllValid(plan)
    case WritePhase => AllValid(plan)
    case Done => AllValid(plan)
    case _ => ValidBelow(plan, place.i + 1)
  }

  lemma MaterializeKeepsTaken(plan: Plan, db: Database, p: Process, outcome: RunOutcome)
    requires InRange(plan, p.place) && p.place.Materialize? && IdsTaken(plan, p.place)
    requires InRange(plan, Step(plan, db, p, outcome).process.place)
    ensures IdsTaken(plan, Step(plan, db, p, outcome).process.place)
  {
  }

  lemma OnwardKeepsTaken(plan: Plan, p: Process)
    requires IsGuarded(p) && InRange(plan, p.place) && IdsTaken(plan, p.place)
    ensures InRange(plan, Onward(p)) && IdsTaken(plan, Onward(p))
  {
  }

  lemma QuietKeepsTaken(plan: Plan, db: Database, p: Process, outcome: RunOutcome)
    requires InRange(plan, p.place) && IdsTaken(plan, p.place) && !IsGuarded(p) && !p.place.Materialize?
    requires InRange(plan, Step(plan, db, p, outcome).process.place)
    ensures IdsTaken(plan, Step(plan, db, p, outcome).process.place)
  {
  }

  lemma StepKeepsTaken(plan: Plan, db: Database, p: Process, outcome: RunOutcome)
    requires InRange(plan, p.place) && IdsTaken(plan, p.place)
    requires InRange(plan, Step(plan, db, p, outcome).process.place)
    ensures IdsTaken(plan, Step(plan, db, p, outcome).process.place)
  {
    if p.place.Materialize? {
      MaterializeKeepsTaken(plan, db, p, outcome);
    } else if IsGuarded(p) {
      StepIsGuarded(plan, db, p, outcome);
      OnwardKeepsTaken(plan, p);
    } else {
      QuietKeepsTaken(plan, db, p, outcome);
    }
  }

  lemma {:induction false} DriveCompletes(plan: Plan, db: Database, p: Process, outcomes: seq<RunOutcome>)
    requires InRange(plan, p.place) && DatabaseOk(plan, db) && ProcessOk(plan, db, p) && IdsTaken(plan, p.place)
    requires |outcomes| == |plan.candidates|
    ensures DatabaseOk(plan, Drive(plan, db, p, outcomes).db)
    ensures Drive(plan, db, p, outcomes).process.place.Done? ==> plan.candidates != []
    ensures Drive(plan, db, p, outcomes).process.place.Done? <==> Clear(plan, db, p, outcomes)
    decreases StepsLeft(plan, p)
  {
    if Ended(p.place) {
      if p.place.Done? {
        assert AllOk(outcomes, |plan.candidates|);
      }
    } else {
      var o := OutcomeAt(outcomes, p.place);
      var next := Step(plan, db, p, o);
      StepProgresses(plan, db, p, o);
      StepKeepsProcessOk(plan, db, p, o);
      StepKeepsDatabaseOk(plan, db, p, o);
      StepClear(plan, db, p, outcomes);
      StepKeepsTaken(plan, db, p, o);
      DriveCompletes(plan, next.db, next.process, outcomes);
    }
  }

  // ---------------------------------------------------------------- in a caller's words

  /** No effect of this candidate is recorded. */
  predicate Untouched(plan: Plan, db: Database, id: Id) {
    var t := TicketFor(plan, id);
    && !Has(db, MemoryWrite, t.memory) && !Has(db, WorkspaceWrite, t.workspace)
    && !Has(db, RuntimeRow, t.trial) && !Has(db, EvaluatorRow, t.trial)
    && !Has(db, DispositionRow, t.memory) && !Has(db, DispositionRow, t.workspace)
  }

  /** What a caller can check before the run. */
  predicate CanComplete(plan: Plan, db: Database, outcomes: seq<RunOutcome>) {
    && plan.candidates != []
    && AllValid(plan)
    && DistinctIds(plan)
    && PHASE_KEY !in db.journal
    && (forall i :: 0 <= i < |plan.candidates| ==> Untouched(plan, db, plan.candidates[i].id))
    && AllOk(outcomes, 0)
  }

  lemma UntouchedIsAbsent(plan: Plan, db: Database)
    ensures AllAbsent(plan, db.journal, 0)
            <==> PHASE_KEY !in db.journal && forall i :: 0 <= i < |plan.candidates| ==> Untouched(plan, db, plan.candidates[i].id)
  {
    var n := |plan.candidates|;
    if AllAbsent(plan, db.journal, 0) {
      assert EffectKey(plan, 6 * n) == PHASE_KEY;
      forall i | 0 <= i < n ensures Untouched(plan, db, plan.candidates[i].id) {
        forall r | 0 <= r < 4 ensures CandidateKey(TicketFor(plan, plan.candidates[i].id), r) !in db.journal {
          CandidateKeyAt(plan, i, r);
        }
        forall r | 0 <= r < 2 ensures DispositionKey(TicketFor(plan, plan.candidates[i].id), r) !in db.journal {
          DispositionKeyAt(plan, i, r);
        }
        TouchedKeys(plan, db, i);
      }
    }
    if PHASE_KEY !in db.journal && forall i :: 0 <= i < n ==> Untouched(plan, db, plan.candidates[i].id) {
      forall k | 0 <= k <= 6 * n ensures EffectKey(plan, k) !in db.journal {
        if k < 4 * n {
          TouchedKeys(plan, db, k / 4);
        } else if k < 6 * n {
          TouchedKeys(plan, db, (k - 4 * n) / 2);
        }
      }
    }
  }

  lemma TouchedKeys(plan: Plan, db: Database, i: nat)
    requires i < |plan.candidates|
    ensures Untouched(plan, db, plan.candidates[i].id)
            <==> (&& (forall r :: 0 <= r < 4 ==> CandidateKey(TicketFor(plan, plan.candidates[i].id), r) !in db.journal)
                  && (forall r :: 0 <= r < 2 ==> DispositionKey(TicketFor(plan, plan.candidates[i].id), r) !in db.journal))
  {
    var t := TicketFor(plan, plan.candidates[i].id);
    assert CandidateKey(t, 0) == Key(MemoryWrite, t.memory) && CandidateKey(t, 1) == Key(WorkspaceWrite, t.workspace);
    assert CandidateKey(t, 2) == Key(RuntimeRow, t.trial) && CandidateKey(t, 3) == Key(EvaluatorRow, t.trial);
    assert DispositionKey(t, 0) == Key(DispositionRow, t.memory) && DispositionKey(t, 1) == Key(DispositionRow, t.workspace);
  }

  /** Each candidate's effect rows are its own. */
  lemma DistinctIdsDoNotRepeat(plan: Plan)
    ensures NoneRepeats(plan, 0) <==> DistinctIds(plan)
  {
    var n := |plan.candidates|;
    if NoneRepeats(plan, 0) {
      forall i, j | 0 <= i < j < n ensures plan.candidates[i].id != plan.candidates[j].id {
        CandidateKeyAt(plan, i, 0);
        CandidateKeyAt(plan, j, 0);
        assert EffectKey(plan, 4 * i + 0) != EffectKey(plan, 4 * j + 0);
      }
    }
    if DistinctIds(plan) {
      forall k, m | 0 <= k < m <= 6 * n ensures EffectKey(plan, k) != EffectKey(plan, m) {
        EffectKeysDiffer(plan, k, m);
      }
    }
  }

  lemma EffectKeysDiffer(plan: Plan, k: nat, m: nat)
    requires DistinctIds(plan) && k < m <= 6 * |plan.candidates|
    ensures EffectKey(plan, k) != EffectKey(plan, m)
  {
    var n := |plan.candidates|;
    if m < 4 * n {
      if k / 4 != m / 4 {
        TicketsDiffer(plan, k / 4, m / 4);
      }
    } else if 4 * n <= k && m < 6 * n {
      if (k - 4 * n) / 2 != (m - 4 * n) / 2 {
        TicketsDiffer(plan, (k - 4 * n) / 2, (m - 4 * n) / 2);
      }
    }
  }

  lemma TicketsDiffer(plan: Plan, i: nat, j: nat)
    requires DistinctIds(plan) && i < |plan.candidates| && j < |plan.candidates| && i != j
    ensures var t, u := TicketFor(plan, plan.candidates[i].id), TicketFor(plan, plan.candidates[j].id);
            && t.memory != u.memory && t.workspace != u.workspace && t.trial != u.trial
            && t.memory != u.workspace && t.workspace != u.memory
  {
    TicketOwner(plan, plan.candidates[i].id);
    TicketOwner(plan, plan.candidates[j].id);
  }

  /**
   A run on a database that earlier processes may have used completes if and only if there is a candidate,
   the ids are valid and distinct, every agent run succeeds, and neither the phase row nor any effect of a
   candidate is recorded.
   */
  lemma RunCompletesIff(plan: Plan, history: seq<Action>, outcomes: seq<RunOutcome>)
    requires |outcomes| == |plan.candidates|
    ensures var db := Run(plan, history).db;
            Drive(plan, db, Process(Capture, []), outcomes).process.place.Done? <==> CanComplete(plan, db, outcomes)
  {
    RunKeepsInv(plan, history);
    var db := Run(plan, history).db;
    DriveCompletes(plan, db, Process(Capture, []), outcomes);
    UntouchedIsAbsent(plan, db);
    DistinctIdsDoNotRepeat(plan);
  }

  // ---------------------------------------------------------------- a run alone is one of the many runs

  lemma RunAppend(plan: Plan, history: seq<Action>, a: Action)
    ensures forall who :: who in Run(plan, history).processes ==> InRange(plan, Run(plan, history).processes[who].place)
    ensures Run(plan, history + [a]) == Take(plan, Run(plan, history), a)
  {
    assert (history + [a])[..|history + [a]| - 1] == history;
  }

  /** Letting one process run to its end is one of the ways the whole system can go on. */
  lemma {:induction false} DriveIsRun(plan: Plan, history: seq<Action>, who: nat, outcomes: seq<RunOutcome>)
    returns (more: seq<Action>)
    requires who in Run(plan, history).processes
    ensures InRange(plan, Run(plan, history).processes[who].place)
    ensures var s := Run(plan, history);
            var end := Drive(plan, s.db, s.processes[who], outcomes);
            && Run(plan, more).db == end.db
            && who in Run(plan, more).processes && Run(plan, more).processes[who] == end.process
    ensures history <= more
    decreases StepsLeft(plan, Run(plan, history).processes[who])
  {
    var s := Run(plan, history);
    var p := s.processes[who];
    if Ended(p.place) {
      more := history;
    } else {
      var a := Advance(who, OutcomeAt(outcomes, p.place));
      StepProgresses(plan, s.db, p, OutcomeAt(outcomes, p.place));
      RunAppend(plan, history, a);
      more := DriveIsRun(plan, history + [a], who, outcomes);
    }
  }

  /**
   A run that can complete leaves a phase row from which recovery succeeds, at once and after anything that
   other processes do later: one materialization and one result per candidate, the plan's own.
   */
  lemma CompletedRunRecovers(plan: Plan, history: seq<Action>, outcomes: seq<RunOutcome>)
    requires |outcomes| == |plan.candidates|
    requires CanComplete(plan, Run(plan, history).db, outcomes)
    ensures var end := Drive(plan, Run(plan, history).db, Process(Capture, []), outcomes);
            && PHASE_KEY in end.db.journal && end.db.journal[PHASE_KEY].PhaseDoc?
            && |end.db.journal[PHASE_KEY].rows| == |plan.candidates|
            && Recover(end.db) == Ok(FullReport(end.db.journal[PHASE_KEY].rows))
  {
    RunAppend(plan, history, Kill(0));
    var idle := history + [Kill(0)];
    RunAppend(plan, idle, Launch(0));
    var launched := idle + [Launch(0)];
    var more := DriveIsRun(plan, launched, 0, outcomes);
    RunCompletesIff(plan, history, outcomes);
    RunKeepsInv(plan, more);
    DoneHasPhase(plan, Run(plan, history).db, Process(Capture, []), outcomes);
    RecoverySucceeds(plan, more);
  }

  /** Only the insertion of the phase row ends a run successfully. */
  lemma {:induction false} DoneHasPhase(plan: Plan, db: Database, p: Process, outcomes: seq<RunOutcome>)
    requires InRange(plan, p.place) && !p.place.Done?
    requires Drive(plan, db, p, outcomes).process.place.Done?
    ensures PHASE_KEY in Drive(plan, db, p, outcomes).db.journal
    decreases StepsLeft(plan, p)
  {
    if !Ended(p.place) {
      var o := OutcomeAt(outcomes, p.place);
      StepProgresses(plan, db, p, o);
      var next := Step(plan, db, p, o);
      if next.process.place.Done? {
        StepToDone(plan, db, p, o);
      } else {
        DoneHasPhase(plan, next.db, next.process, outcomes);
      }
    }
  }

  lemma StepToDone(plan: Plan, db: Database, p: Process, outcome: RunOutcome)
    requires InRange(plan, p.place) && !p.place.Done? && Step(plan, db, p, outcome).process.place.Done?
    ensures PHASE_KEY in Step(plan, db, p, outcome).db.journal
  {
  }

  /** A run that completed on a database in order can be recovered at once. */
  lemma DoneRecovers(plan: Plan, db: Database, outcomes: seq<RunOutcome>)
    requires DatabaseOk(plan, db) && |outcomes| == |plan.candidates|
    requires Drive(plan, db, Process(Capture, []), outcomes).process.place.Done?
    ensures Recover(Drive(plan, db, Process(Capture, []), outcomes).db).Ok?
  {
    DriveCompletes(plan, db, Process(Capture, []), outcomes);
    DoneHasPhase(plan, db, Process(Capture, []), outcomes);
    PhaseRecovers(plan, Drive(plan, db, Process(Capture, []), outcomes).db);
  }
}
