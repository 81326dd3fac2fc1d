/**
 Candidate isolation: when any number of candidates are stepped in any interleaving on one database, each
 leaves exactly the rows it would leave alone and ends where it would end alone.
 */
module ExperimentIsolation {
  import opened Wrappers
  import opened Effects
  import opened Experiment
  import opened ExperimentSafety

  /** The candidate that a fingerprint's content names. */
  function Owner(d: Digest): Option<Id> {
    match d
    case Scope(_, candidate, _) => Some(candidate)
    case OverlayOf(overlay) => Some(overlay.candidate)
    case Operation(_, _, candidate, _) => Some(candidate)
    case Materialization(candidate, _, _) => Some(candidate)
    case Trial(_, candidate, _, _, _, _) => Some(candidate)
    case Outcome(trial, _, _, _, _) => Owner(trial)
    case _ => None
  }

  /** One candidate's part of a database; the snapshots are shared. */
  function View(db: Database, id: Id): Database {
    Database(map key | key in db.journal && Owner(key.id) == Some(id) :: db.journal[key],
             db.snapshots,
             map m | m in db.materializations && Owner(m) == Some(id) :: db.materializations[m],
             set t | t in db.trials && Owner(t) == Some(id),
             set r | r in db.results && Owner(r) == Some(id))
  }

  /** The candidate whose own steps a place belongs to. */
  function Lane(place: Place): Option<nat> {
    match place
    case Materialize(i, _) => Some(i)
    case Finalize(i, _) => Some(i)
    case Recheck(i, _) => Some(i)
    case BeginTrial(i, _) => Some(i)
    case WriteMemory(i, _) => Some(i)
    case WriteWorkspace(i, _) => Some(i)
    case StartRun(i, _) => Some(i)
    case AwaitRun(i, _) => Some(i)
    case RecordRuntime(i, _, _) => Some(i)
    case RecordEvaluator(i, _, _) => Some(i)
    case RecordResult(i, _, _) => Some(i)
    case _ => None
  }

  /** One database, and one process per candidate that runs that candidate only. */
  datatype Lanes = Lanes(db: Database, processes: seq<Process>)

  datatype Turn = Turn(i: nat, outcome: RunOutcome)

  function LaneStep(plan: Plan, s: Lanes, turn: Turn): (t: Lanes)
    requires |s.processes| == |plan.candidates|
    ensures |t.processes| == |plan.candidates|
  {
    if turn.i < |s.processes| && Lane(s.processes[turn.i].place) == Some(turn.i) then
      var next := Step(plan, s.db, s.processes[turn.i], turn.outcome);
      Lanes(next.db, s.processes[turn.i := next.process])
    else s
  }

  function RunLanes(plan: Plan, s: Lanes, turns: seq<Turn>): (t: Lanes)
    requires |s.processes| == |plan.candidates|
    ensures |t.processes| == |plan.candidates|
    decreases turns
  {
    if turns == [] then s else RunLanes(plan, LaneStep(plan, s, turns[0]), turns[1..])
  }

  /** The turns of one candidate. */
  function Only(turns: seq<Turn>, i: nat): seq<Turn> {
    if turns == [] then []
    else if turns[0].i == i then [turns[0]] + Only(turns[1..], i)
    else Only(turns[1..], i)
  }

  predicate DistinctIds(plan: Plan) {
    forall i, j :: 0 <= i < j < |plan.candidates| ==> plan.candidates[i].id != plan.candidates[j].id
  }

  // ---------------------------------------------------------------- what every lane keeps

  /** A process in a candidate's lane carries only that candidate's values. */
  predicate LaneOk(plan: Plan, p: Process)
    requires InRange(plan, p.place)
  {
    match p.place
    case Materialize(i, parts) => |parts| <= |KINDS| && parts == PartsFor(plan, plan.candidates[i].id)[..|parts|]
    case Finalize(i, parts) => parts == PartsFor(plan, plan.candidates[i].id)
    case Recheck(i, parts) => parts == PartsFor(plan, plan.candidates[i].id)
    case BeginTrial(i, parts) => parts == PartsFor(plan, plan.candidates[i].id)
    case WriteMemory(i, t) => t == TicketFor(plan, plan.candidates[i].id)
    case WriteWorkspace(i, t) => t == TicketFor(plan, plan.candidates[i].id)
    case StartRun(i, t) => t == TicketFor(plan, plan.candidates[i].id)
    case AwaitRun(i, t) => t == TicketFor(plan, plan.candidates[i].id)
    case RecordRuntime(i, t, _) => t == TicketFor(plan, plan.candidates[i].id)
    case RecordEvaluator(i, t, _) => t == TicketFor(plan, plan.candidates[i].id)
    case RecordResult(i, t, _) => t == TicketFor(plan, plan.candidates[i].id)
    case _ => true
  }

  ghost predicate StoreOk(plan: Plan, db: Database) {
    JournalOk(plan, db.journal) && RecordsOk(db)
  }

  ghost predicate LanesOk(plan: Plan, s: Lanes) {
    && |s.processes| == |plan.candidates|
    && StoreOk(plan, s.db)
    && forall i :: 0 <= i < |s.processes| ==> InRange(plan, s.processes[i].place) && LaneOk(plan, s.processes[i])
  }

  lemma StepKeepsStoreOk(plan: Plan, db: Database, p: Process, outcome: RunOutcome)
    requires InRange(plan, p.place) && StoreOk(plan, db)
    ensures StoreOk(plan, Step(plan, db, p, outcome).db)
  {
    StepKeepsJournalOk(plan, db, p, outcome);
  }

  lemma MaterializeKeepsLaneOk(plan: Plan, db: Database, p: Process, outcome: RunOutcome)
    requires InRange(plan, p.place) && p.place.Materialize? && LaneOk(plan, p) && StoreOk(plan, db)
    ensures InRange(plan, Step(plan, db, p, outcome).process.place)
    ensures LaneOk(plan, Step(plan, db, p, outcome).process)
  {
    var id, k := plan.candidates[p.place.i].id, |p.place.parts|;
    var full := PartsFor(plan, id);
    if k < |KINDS| {
      MaterializeKeepsJournalOk(plan, db.journal, id, KINDS[k]);
      assert full[..k + 1] == full[..k] + [full[k]];
    } else {
      assert full[..|KINDS|] == full;
    }
  }

  lemma TrialKeepsLaneOk(plan: Plan, db: Database, p: Process, outcome: RunOutcome)
    requires InRange(plan, p.place) && LaneOk(plan, p) && p.place.BeginTrial?
    ensures InRange(plan, Step(plan, db, p, outcome).process.place) && LaneOk(plan, Step(plan, db, p, outcome).process)
  {
    OverlaysOfParts(plan, plan.candidates[p.place.i].id);
  }

  predicate HoldsTicket(place: Place) {
    || place.WriteMemory? || place.WriteWorkspace? || place.StartRun? || place.AwaitRun?
    || place.RecordRuntime? || place.RecordEvaluator?
  }

  lemma TicketKeepsLaneOk(plan: Plan, db: Database, p: Process, outcome: RunOutcome)
    requires InRange(plan, p.place) && LaneOk(plan, p) && HoldsTicket(p.place)
    requires InRange(plan, Step(plan, db, p, outcome).process.place)
    ensures LaneOk(plan, Step(plan, db, p, outcome).process)
  {
  }

  lemma QuietKeepsLaneOk(plan: Plan, db: Database, p: Process, outcome: RunOutcome)
    requires InRange(plan, p.place) && LaneOk(plan, p)
    requires !p.place.BeginTrial? && !p.place.Materialize? && !HoldsTicket(p.place)
    requires InRange(plan, Step(plan, db, p, outcome).process.place)
    ensures LaneOk(plan, Step(plan, db, p, outcome).process)
  {
  }

  lemma StepKeepsLaneOk(plan: Plan, db: Database, p: Process, outcome: RunOutcome)
    requires InRange(plan, p.place) && LaneOk(plan, p) && StoreOk(plan, db)
    requires InRange(plan, Step(plan, db, p, outcome).process.place)
    ensures LaneOk(plan, Step(plan, db, p, outcome).process)
  {
    if p.place.Materialize? {
      MaterializeKeepsLaneOk(plan, db, p, outcome);
    } else if p.place.BeginTrial? {
      TrialKeepsLaneOk(plan, db, p, outcome);
    } else if HoldsTicket(p.place) {
      TicketKeepsLaneOk(plan, db, p, outcome);
    } else {
      QuietKeepsLaneOk(plan, db, p, outcome);
    }
  }

  lemma LaneStepKeepsOk(plan: Plan, s: Lanes, turn: Turn)
    requires LanesOk(plan, s)
    ensures LanesOk(plan, LaneStep(plan, s, turn))
  {
    if turn.i < |s.processes| && Lane(s.processes[turn.i].place) == Some(turn.i) {
      StepKeepsStoreOk(plan, s.db, s.processes[turn.i], turn.outcome);
      StepInRange(plan, s.db, s.processes[turn.i], turn.outcome);
      StepKeepsLaneOk(plan, s.db, s.processes[turn.i], turn.outcome);
    }
  }

  // ---------------------------------------------------------------- a step and the candidates' views

  predicate SameRows(j: Journal, k: Journal, id: Id) {
    && (forall key :: key in j && Owner(key.id) == Some(id) ==> key in k && k[key] == j[key])
    && (forall key :: key in k && Owner(key.id) == Some(id) ==> key in j)
  }

  predicate SameRecords(m: map<Digest, seq<Component>>, n: map<Digest, seq<Component>>, id: Id) {
    && (forall d :: d in m && Owner(d) == Some(id) ==> d in n && n[d] == m[d])
    && (forall d :: d in n && Owner(d) == Some(id) ==> d in m)
  }

  predicate SameEntries(a: set<Digest>, b: set<Digest>, id: Id) {
    && (forall d :: d in a && Owner(d) == Some(id) ==> d in b)
    && (forall d :: d in b && Owner(d) == Some(id) ==> d in a)
  }

  /** Two databases look the same to a candidate. */
  predicate Same(a: Database, b: Database, id: Id) {
    && SameRows(a.journal, b.journal, id)
    && a.snapshots == b.snapshots
    && SameRecords(a.materializations, b.materializations, id)
    && SameEntries(a.trials, b.trials, id)
    && SameEntries(a.results, b.results, id)
  }

  lemma SameIsEqualViews(a: Database, b: Database, id: Id)
    requires Same(a, b, id)
    ensures View(a, id) == View(b, id)
  {
    assert View(a, id).journal == View(b, id).journal;
    assert View(a, id).materializations == View(b, id).materializations;
  }

  lemma TicketOwner(plan: Plan, id: Id)
    ensures Owner(TicketFor(plan, id).memory) == Some(id) && Owner(TicketFor(plan, id).workspace) == Some(id)
    ensures Owner(TicketFor(plan, id).trial) == Some(id) && Owner(RecordFor(plan, id)) == Some(id)
  {
  }

  lemma GuardedLeavesOthers(db: Database, p: Process, key: Key, doc: Document, onward: Place, other: Id)
    requires Owner(key.id) != Some(other)
    ensures Same(db, Guarded(db, p, key, doc, onward).db, other)
  {
  }

  lemma MaterializeLeavesOthers(plan: Plan, db: Database, id: Id, kind: ComponentKind, other: Id)
    requires id != other
    ensures SameRows(db.journal,
                     MaterializeOnce(db.journal, OperationFor(plan, id, kind), ComponentFor(plan, id, kind)).journal, other)
  {
    var op, overlay := OperationKey(OperationFor(plan, id, kind)), OverlayKey(OverlayFor(plan, id, kind));
    assert Owner(op.id) == Some(id) && Owner(overlay.id) == Some(id);
  }

  lemma TrialLeavesOthers(plan: Plan, db: Database, p: Process, outcome: RunOutcome, other: Id)
    requires InRange(plan, p.place) && LaneOk(plan, p) && p.place.BeginTrial?
    requires plan.candidates[p.place.i].id != other
    ensures Same(db, Step(plan, db, p, outcome).db, other)
  {
    OverlaysOfParts(plan, plan.candidates[p.place.i].id);
  }

  lemma StoreLeavesOthers(plan: Plan, db: Database, p: Process, outcome: RunOutcome, other: Id)
    requires InRange(plan, p.place) && LaneOk(plan, p)
    requires p.place.Finalize? || p.place.RecordResult?
    requires plan.candidates[p.place.i].id != other
    ensures Same(db, Step(plan, db, p, outcome).db, other)
  {
    TicketOwner(plan, plan.candidates[p.place.i].id);
  }

  /** A step in a candidate's lane leaves what every other candidate sees as it was. */
  lemma StepLeavesOthers(plan: Plan, db: Database, p: Process, outcome: RunOutcome, other: Id)
    requires InRange(plan, p.place) && LaneOk(plan, p)
    requires Lane(p.place).Some? && plan.candidates[Lane(p.place).value].id != other
    ensures Same(db, Step(plan, db, p, outcome).db, other)
  {
    var c := plan.candidates[Lane(p.place).value];
    TicketOwner(plan, c.id);
    match p.place
    case Materialize(i, parts) =>
      if |parts| < |KINDS| {
        MaterializeLeavesOthers(plan, db, c.id, KINDS[|parts|], other);
      }
    case Finalize(_, _) => StoreLeavesOthers(plan, db, p, outcome, other);
    case BeginTrial(_, _) => TrialLeavesOthers(plan, db, p, outcome, other);
    case RecordResult(_, _, _) => StoreLeavesOthers(plan, db, p, outcome, other);
    case WriteMemory(i, t) =>
      GuardedLeavesOthers(db, p, Key(MemoryWrite, t.memory), MutationDoc(c.id, c.recallPolicy), WriteWorkspace(i, t), other);
    case WriteWorkspace(i, t) =>
      GuardedLeavesOthers(db, p, Key(WorkspaceWrite, t.workspace), MutationDoc(c.id, c.bodyPolicy), StartRun(i, t), other);
    case RecordRuntime(i, t, o) =>
      GuardedLeavesOthers(db, p, Key(RuntimeRow, t.trial), RuntimeDoc(Content(o.finalText), SessionId(c.id)),
                          RecordEvaluator(i, t, o), other);
    case RecordEvaluator(i, t, o) =>
      GuardedLeavesOthers(db, p, Key(EvaluatorRow, t.trial), EvaluatorDoc(plan.evaluator, Score(o)),
                          RecordResult(i, t, o), other);
    case _ =>
  }

  lemma InsertKeepsSame(j: Journal, k: Journal, key: Key, doc: Document, id: Id)
    requires SameRows(j, k, id)
    ensures SameRows(j[key := doc], k[key := doc], id)
  {
  }

  lemma GuardedDependsOnOwn(a: Database, b: Database, p: Process, key: Key, doc: Document, onward: Place, id: Id)
    requires Same(a, b, id) && Owner(key.id) == Some(id)
    ensures Guarded(a, p, key, doc, onward).process == Guarded(b, p, key, doc, onward).process
    ensures Same(Guarded(a, p, key, doc, onward).db, Guarded(b, p, key, doc, onward).db, id)
  {
    InsertKeepsSame(a.journal, b.journal, key, doc, id);
    assert key in a.journal <==> key in b.journal;
  }

  lemma StoreDependsOnOwn(plan: Plan, a: Database, b: Database, p: Process, outcome: RunOutcome)
    requires InRange(plan, p.place) && LaneOk(plan, p)
    requires p.place.Finalize? || p.place.BeginTrial? || p.place.RecordResult?
    requires Same(a, b, plan.candidates[p.place.i].id)
    ensures Step(plan, a, p, outcome).process == Step(plan, b, p, outcome).process
    ensures Same(Step(plan, a, p, outcome).db, Step(plan, b, p, outcome).db, plan.candidates[p.place.i].id)
  {
    TicketOwner(plan, plan.candidates[p.place.i].id);
  }

  /** A step in a candidate's own lane depends on, and changes, only what that candidate sees. */
  lemma StepDependsOnOwn(plan: Plan, a: Database, b: Database, p: Process, outcome: RunOutcome, id: Id)
    requires InRange(plan, p.place) && LaneOk(plan, p) && StoreOk(plan, a) && StoreOk(plan, b)
    requires Lane(p.place).Some? && plan.candidates[Lane(p.place).value].id == id
    requires Same(a, b, id)
    ensures Step(plan, a, p, outcome).process == Step(plan, b, p, outcome).process
    ensures Same(Step(plan, a, p, outcome).db, Step(plan, b, p, outcome).db, id)
  {
    var c := plan.candidates[Lane(p.place).value];
    TicketOwner(plan, id);
    match p.place
    case Materialize(i, parts) =>
      if |parts| < |KINDS| {
        MaterializeDependsOnOwn(plan, a, b, id, KINDS[|parts|]);
      }
    case Finalize(_, _) => StoreDependsOnOwn(plan, a, b, p, outcome);
    case Recheck(_, _) => RecheckDependsOnOwn(plan, a, b, id);
    case BeginTrial(_, _) => StoreDependsOnOwn(plan, a, b, p, outcome);
    case RecordResult(_, _, _) => StoreDependsOnOwn(plan, a, b, p, outcome);
    case WriteMemory(i, t) =>
      GuardedDependsOnOwn(a, b, p, Key(MemoryWrite, t.memory), MutationDoc(id, c.recallPolicy), WriteWorkspace(i, t), id);
    case WriteWorkspace(i, t) =>
      GuardedDependsOnOwn(a, b, p, Key(WorkspaceWrite, t.workspace), MutationDoc(id, c.bodyPolicy), StartRun(i, t), id);
    case RecordRuntime(i, t, o) =>
      GuardedDependsOnOwn(a, b, p, Key(RuntimeRow, t.trial), RuntimeDoc(Content(o.finalText), SessionId(id)),
                          RecordEvaluator(i, t, o), id);
    case RecordEvaluator(i, t, o) =>
      GuardedDependsOnOwn(a, b, p, Key(EvaluatorRow, t.trial), EvaluatorDoc(plan.evaluator, Score(o)),
                          RecordResult(i, t, o), id);
    case _ =>
  }

  lemma MaterializeDependsOnOwn(plan: Plan, a: Database, b: Database, id: Id, kind: ComponentKind)
    requires SameRows(a.journal, b.journal, id)
    ensures var m, n := MaterializeOnce(a.journal, OperationFor(plan, id, kind), ComponentFor(plan, id, kind)),
                        MaterializeOnce(b.journal, OperationFor(plan, id, kind), ComponentFor(plan, id, kind));
            m.result == n.result && SameRows(m.journal, n.journal, id)
  {
    var op, overlay := OperationKey(OperationFor(plan, id, kind)), OverlayKey(OverlayFor(plan, id, kind));
    assert Owner(op.id) == Some(id) && Owner(overlay.id) == Some(id);
  }

  lemma RecheckDependsOnOwn(plan: Plan, a: Database, b: Database, id: Id)
    requires StoreOk(plan, a) && StoreOk(plan, b) && Same(a, b, id)
    ensures Recoverable(a, plan.snapshot, RecordFor(plan, id)) <==> Recoverable(b, plan.snapshot, RecordFor(plan, id))
  {
    var m, parts := RecordFor(plan, id), PartsFor(plan, id);
    TicketOwner(plan, id);
    if m in a.materializations {
      forall k | 0 <= k < |parts| && parts[k].overlay.Some?
        ensures Require(a.journal, OverlayKey(parts[k].overlay.value)) == Require(b.journal, OverlayKey(parts[k].overlay.value))
      {
        assert parts[k] == ComponentFor(plan, id, KINDS[k]);
        assert Owner(OverlayKey(parts[k].overlay.value).id) == Some(id);
      }
    }
  }

  lemma SameTransitive(a: Database, b: Database, c: Database, id: Id)
    requires Same(a, b, id) && Same(b, c, id)
    ensures Same(a, c, id)
  {
  }

  lemma SameSymmetric(a: Database, b: Database, id: Id)
    requires Same(a, b, id)
    ensures Same(b, a, id)
  {
  }

  // ---------------------------------------------------------------- whole schedules

  /** Skipping another candidate's turn makes no difference to candidate `i`. */
  lemma OtherTurn(plan: Plan, s: Lanes, t: Lanes, turn: Turn, i: nat)
    requires LanesOk(plan, s) && LanesOk(plan, t) && DistinctIds(plan)
    requires i < |plan.candidates| && turn.i != i
    requires Same(s.db, t.db, plan.candidates[i].id) && s.processes[i] == t.processes[i]
    ensures Same(LaneStep(plan, s, turn).db, t.db, plan.candidates[i].id)
    ensures LaneStep(plan, s, turn).processes[i] == t.processes[i]
  {
    var id := plan.candidates[i].id;
    if turn.i < |s.processes| && Lane(s.processes[turn.i].place) == Some(turn.i) {
      StepLeavesOthers(plan, s.db, s.processes[turn.i], turn.outcome, id);
      SameSymmetric(s.db, LaneStep(plan, s, turn).db, id);
      SameTransitive(LaneStep(plan, s, turn).db, s.db, t.db, id);
    }
  }

  lemma OwnTurn(plan: Plan, s: Lanes, t: Lanes, turn: Turn)
    requires LanesOk(plan, s) && LanesOk(plan, t) && turn.i < |plan.candidates|
    requires Same(s.db, t.db, plan.candidates[turn.i].id) && s.processes[turn.i] == t.processes[turn.i]
    ensures Same(LaneStep(plan, s, turn).db, LaneStep(plan, t, turn).db, plan.candidates[turn.i].id)
    ensures LaneStep(plan, s, turn).processes[turn.i] == LaneStep(plan, t, turn).processes[turn.i]
  {
    if Lane(s.processes[turn.i].place) == Some(turn.i) {
      StepDependsOnOwn(plan, s.db, t.db, s.processes[turn.i], turn.outcome, plan.candidates[turn.i].id);
    }
  }

  lemma {:induction false} Interleaving(plan: Plan, s: Lanes, t: Lanes, turns: seq<Turn>, i: nat)
    requires LanesOk(plan, s) && LanesOk(plan, t) && DistinctIds(plan) && i < |plan.candidates|
    requires Same(s.db, t.db, plan.candidates[i].id) && s.processes[i] == t.processes[i]
    ensures Same(RunLanes(plan, s, turns).db, RunLanes(plan, t, Only(turns, i)).db, plan.candidates[i].id)
    ensures RunLanes(plan, s, turns).processes[i] == RunLanes(plan, t, Only(turns, i)).processes[i]
    decreases turns
  {
    if turns != [] {
      LaneStepKeepsOk(plan, s, turns[0]);
      if turns[0].i == i {
        LaneStepKeepsOk(plan, t, turns[0]);
        OwnTurn(plan, s, t, turns[0]);
        Interleaving(plan, LaneStep(plan, s, turns[0]), LaneStep(plan, t, turns[0]), turns[1..], i);
        assert Only(turns, i)[0] == turns[0] && Only(turns, i)[1..] == Only(turns[1..], i);
      } else {
        OtherTurn(plan, s, t, turns[0], i);
        Interleaving(plan, LaneStep(plan, s, turns[0]), t, turns[1..], i);
      }
    }
  }

  /** Every candidate at its first step, on a database that other processes may have used before. */
  function AtStart(plan: Plan, db: Database): Lanes {
    Lanes(db, seq(|plan.candidates|, i requires 0 <= i < |plan.candidates| => Process(Materialize(i, []), [])))
  }

  /**
   For any plan with distinct ids, any reachable database and any interleaving: what a candidate sees at
   the end, and where it is, are what its own turns alone would have led to.
   */
  lemma CandidatesAreIsolated(plan: Plan, history: seq<Action>, turns: seq<Turn>, i: nat)
    requires DistinctIds(plan) && i < |plan.candidates|
    ensures var s := AtStart(plan, Run(plan, history).db);
            && View(RunLanes(plan, s, turns).db, plan.candidates[i].id)
               == View(RunLanes(plan, s, Only(turns, i)).db, plan.candidates[i].id)
            && RunLanes(plan, s, turns).processes[i] == RunLanes(plan, s, Only(turns, i)).processes[i]
  {
    var s := AtStart(plan, Run(plan, history).db);
    RunKeepsInv(plan, history);
    Interleaving(plan, s, s, turns, i);
    SameIsEqualViews(RunLanes(plan, s, turns).db, RunLanes(plan, s, Only(turns, i)).db, plan.candidates[i].id);
  }
}
