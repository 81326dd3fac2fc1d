/**
 The snapshot experiment as processes on one shared database.  A process runs the candidates one after the
 other, one durable operation per step; it may be killed between any two steps, and any number of processes
 may run, one after the other or at the same time.
 */
module Experiment {
  import opened Wrappers
  import opened Effects

  datatype Candidate = Candidate(id: Id, bodyPolicy: string, recallPolicy: string)

  /** What an experiment is about: its snapshot, its evaluator and its candidates, in order. */
  datatype Plan = Plan(snapshot: Digest, evaluator: Digest, candidates: seq<Candidate>)

  /** The journal table and the write-once tables of the snapshot store, all in one database file. */
  datatype Database = Database(
    journal: Journal,
    snapshots: set<Digest>,
    materializations: map<Digest, seq<Component>>,
    trials: set<Digest>,
    results: set<Digest>)

  const EMPTY := Database(map[], {}, map[], {}, {})

  /**
   What one run of the agent gives back; nothing is known about it in advance.  A run that cannot even be set
   up, or that raises, is not `ok`.
   */
  datatype RunOutcome = RunOutcome(ok: bool, finalText: string, evidence: string)

  datatype Failure =
    | MaterializationFailed(error: MaterializeError)
    | InvalidId(id: Id)
    | MissingRecord
    | MissingOverlay
    | AppliedTwice(kind: EffectKind)
    | RuntimeFailed
    | BaselineChanged
    | NotIsolated
    | NoCandidates

  /** Where a process is; `i` is the candidate it works on. */
  datatype Place =
    | Capture
    | Materialize(i: nat, parts: seq<Component>)
    | Finalize(i: nat, parts: seq<Component>)
    | Recheck(i: nat, parts: seq<Component>)
    | BeginTrial(i: nat, parts: seq<Component>)
    | WriteMemory(i: nat, ticket: Ticket)
    | WriteWorkspace(i: nat, ticket: Ticket)
    | StartRun(i: nat, ticket: Ticket)
    | AwaitRun(i: nat, ticket: Ticket)
    | RecordRuntime(i: nat, ticket: Ticket, outcome: RunOutcome)
    | RecordEvaluator(i: nat, ticket: Ticket, outcome: RunOutcome)
    | RecordResult(i: nat, ticket: Ticket, outcome: RunOutcome)
    | Verify
    | Dispose(n: nat)
    | WritePhase
    | Done
    | Failed(failure: Failure)

  datatype Process = Process(place: Place, rows: seq<ResultRow>)

  datatype Next = Next(db: Database, process: Process)

  // ---------------------------------------------------------------- names and fingerprints

  function TrialId(candidate: Id): string {
    "trial-" + candidate
  }

  function SessionId(candidate: Id): string {
    "snapshot-demo-" + candidate
  }

  /** What `str.strip` removes. */
  predicate IsSpace(c: char) {
    || '\t' <= c <= '\r' || '\U{1C}' <= c <= ' ' || c == '\U{85}' || c == '\U{A0}' || c == '\U{1680}'
    || '\U{2000}' <= c <= '\U{200A}' || c == '\U{2028}' || c == '\U{2029}' || c == '\U{202F}'
    || c == '\U{205F}' || c == '\U{3000}'
  }

  /** A text that a snapshot record takes as an identity: not blank, no space around it, no NUL, not too long. */
  predicate IsClean(s: string, limit: nat) {
    0 < |s| <= limit && '\0' !in s && !IsSpace(s[0]) && !IsSpace(s[|s| - 1])
  }

  predicate IsReferenceChar(c: char) {
    'a' <= c <= 'z' || 'A' <= c <= 'Z' || '0' <= c <= '9' || c == ':' || c == '.' || c == '_' || c == '-'
  }

  /** The materialization request takes the candidate's id and its trial's id. */
  predicate RequestTakes(id: Id) {
    IsClean(id, 256) && IsClean(TrialId(id), 256)
  }

  /** The overlay's reference ends with the id, and may not look like a path. */
  predicate ReferenceTakes(id: Id) {
    && (forall k :: 0 <= k < |id| ==> IsReferenceChar(id[k]))
    && (forall k :: 0 <= k < |id| - 1 ==> !(id[k] == '.' && id[k + 1] == '.'))
  }

  predicate ValidId(id: Id) {
    RequestTakes(id) && ReferenceTakes(id)
  }

  predicate HasOverlay(kind: ComponentKind) {
    kind == Memory || kind == Workspace
  }

  function ScopeOf(plan: Plan, candidate: Id): Digest {
    Scope(plan.snapshot, candidate, TrialId(candidate))
  }

  function OverlayFor(plan: Plan, candidate: Id, kind: ComponentKind): Overlay {
    Overlay(kind, Logical(kind), candidate, ScopeOf(plan, candidate))
  }

  function OperationFor(plan: Plan, candidate: Id, kind: ComponentKind): Digest {
    Operation(kind, Logical(kind), candidate, ScopeOf(plan, candidate))
  }

  /** What a provider would materialize: only memory and workspace get an overlay. */
  function ComponentFor(plan: Plan, candidate: Id, kind: ComponentKind): Component {
    Component(kind, Logical(kind),
              if HasOverlay(kind) then Some(OverlayFor(plan, candidate, kind)) else None)
  }

  function MaterializationFor(plan: Plan, candidate: Id, parts: seq<Component>): Digest {
    Materialization(candidate, ScopeOf(plan, candidate), parts)
  }

  /** The overlay that a materialization holds for a kind; a later component of the same kind wins. */
  function OverlayIn(parts: seq<Component>, kind: ComponentKind): Option<Overlay> {
    if parts == [] then None
    else
      var last := parts[|parts| - 1];
      if last.overlay.Some? && last.overlay.value.kind == kind then last.overlay
      else OverlayIn(parts[..|parts| - 1], kind)
  }

  function TicketOf(plan: Plan, candidate: Id, parts: seq<Component>, memory: Overlay, workspace: Overlay): Ticket {
    var m := MaterializationFor(plan, candidate, parts);
    Ticket(m, OverlayOf(memory), OverlayOf(workspace),
           Trial(m, candidate, TrialId(candidate), plan.evaluator, OverlayOf(memory), OverlayOf(workspace)))
  }

  function Score(outcome: RunOutcome): int {
    if outcome.finalText == "BLUE" then 1 else 0
  }

  function ResultOf(plan: Plan, candidate: Id, ticket: Ticket, outcome: RunOutcome): Digest {
    Outcome(ticket.trial, SessionId(candidate), outcome.evidence, plan.evaluator, Score(outcome))
  }

  function RowOf(plan: Plan, candidate: Id, ticket: Ticket, outcome: RunOutcome): ResultRow {
    ResultRow(candidate, ticket, ResultOf(plan, candidate, ticket, outcome), Score(outcome))
  }

  // ---------------------------------------------------------------- the winner and the dispositions

  /** Python's order of strings. */
  predicate Before(a: string, b: string) {
    if b == "" then false
    else if a == "" then true
    else if a[0] != b[0] then a[0] < b[0]
    else Before(a[1..], b[1..])
  }

  /** `(score, candidate_id)` of `a` is greater than that of `b`. */
  predicate Beats(a: ResultRow, b: ResultRow) {
    a.score > b.score || (a.score == b.score && Before(b.candidate, a.candidate))
  }

  /** `max` with that key: the first of the greatest. */
  function Winner(rows: seq<ResultRow>): ResultRow
    requires rows != []
  {
    if |rows| == 1 then rows[0]
    else
      var best := Winner(rows[..|rows| - 1]);
      if Beats(rows[|rows| - 1], best) then rows[|rows| - 1] else best
  }

  function DispositionOf(rows: seq<ResultRow>, row: ResultRow): Disposition
    requires rows != []
  {
    if row.candidate == Winner(rows).candidate then RetainedForReview else Quarantined
  }

  /** The overlay that the `n`-th disposition is for: memory, then workspace, row by row. */
  function DisposedOverlay(rows: seq<ResultRow>, n: nat): Digest
    requires n < 2 * |rows|
  {
    if n % 2 == 0 then rows[n / 2].ticket.memory else rows[n / 2].ticket.workspace
  }

  function DispositionDocument(rows: seq<ResultRow>, n: nat): Document
    requires n < 2 * |rows|
  {
    DispositionDoc(rows[n / 2].candidate, DispositionOf(rows, rows[n / 2]))
  }

  predicate Isolated(rows: seq<ResultRow>) {
    && (forall i, j :: 0 <= i < j < |rows| ==> rows[i].ticket.memory != rows[j].ticket.memory)
    && (forall i, j :: 0 <= i < j < |rows| ==> rows[i].ticket.workspace != rows[j].ticket.workspace)
  }

  const PHASE_KEY := Key(PhaseState, Name("reference-experiment"))

  // ---------------------------------------------------------------- one step of a process

  function At(db: Database, p: Process, place: Place): Next {
    Next(db, p.(place := place))
  }

  /** `record_once`, which must insert its row for the process to go on. */
  function Guarded(db: Database, p: Process, key: Key, doc: Document, onward: Place): Next {
    if key in db.journal then At(db, p, Failed(AppliedTwice(key.kind)))
    else At(db.(journal := db.journal[key := doc]), p, onward)
  }

  function FirstPlace(plan: Plan, i: nat): Place {
    if i < |plan.candidates| then Materialize(i, []) else Verify
  }

  /** The request is made before the first component, and a reference before each overlay. */
  predicate RefusesId(id: Id, parts: seq<Component>)
    requires |parts| < |KINDS|
  {
    (parts == [] && !RequestTakes(id)) || (HasOverlay(KINDS[|parts|]) && !ReferenceTakes(id))
  }

  function StepMaterialize(plan: Plan, db: Database, p: Process, i: nat, parts: seq<Component>): Next
    requires i < |plan.candidates|
  {
    if |parts| >= |KINDS| then At(db, p, Finalize(i, parts))
    else
      var kind, id := KINDS[|parts|], plan.candidates[i].id;
      if RefusesId(id, parts) then At(db, p, Failed(InvalidId(id)))
      else
        var m := MaterializeOnce(db.journal, OperationFor(plan, id, kind), ComponentFor(plan, id, kind));
        match m.result
        case Err(e) => At(db, p, Failed(MaterializationFailed(e)))
        case Ok(component) => At(db.(journal := m.journal), p, Materialize(i, parts + [component]))
  }

  /** `recover_materialization`: the record, its snapshot and the row of every overlay must be there. */
  predicate Recoverable(db: Database, snapshot: Digest, fingerprint: Digest) {
    && fingerprint in db.materializations
    && snapshot in db.snapshots
    && OverlaysPresent(db.journal, db.materializations[fingerprint])
  }

  predicate OverlaysPresent(j: Journal, parts: seq<Component>) {
    forall k :: 0 <= k < |parts| && parts[k].overlay.Some? ==> Require(j, OverlayKey(parts[k].overlay.value)).Ok?
  }

  function StepTrial(plan: Plan, db: Database, p: Process, i: nat, parts: seq<Component>): Next
    requires i < |plan.candidates|
  {
    var id := plan.candidates[i].id;
    if MaterializationFor(plan, id, parts) !in db.materializations || plan.snapshot !in db.snapshots
    then At(db, p, Failed(MissingRecord))
    else
      match (OverlayIn(parts, Memory), OverlayIn(parts, Workspace))
      case (Some(memory), Some(workspace)) =>
        var ticket := TicketOf(plan, id, parts, memory, workspace);
        At(db.(trials := db.trials + {ticket.trial}), p, WriteMemory(i, ticket))
      case _ => At(db, p, Failed(MissingOverlay))
  }

  function StepResult(plan: Plan, db: Database, p: Process, i: nat, ticket: Ticket, outcome: RunOutcome): Next
    requires i < |plan.candidates|
  {
    var row := RowOf(plan, plan.candidates[i].id, ticket, outcome);
    if ticket.trial !in db.trials then At(db, p, Failed(MissingRecord))
    else Next(db.(results := db.results + {row.result}), Process(FirstPlace(plan, i + 1), p.rows + [row]))
  }

  /** The checks after the last candidate, and the choice of the winner. */
  function StepVerify(plan: Plan, db: Database, p: Process): Next {
    if plan.snapshot !in db.snapshots then At(db, p, Failed(BaselineChanged))
    else if !Isolated(p.rows) then At(db, p, Failed(NotIsolated))
    else if p.rows == [] then At(db, p, Failed(NoCandidates))
    else At(db, p, Dispose(0))
  }

  function StepDispose(db: Database, p: Process, n: nat): Next {
    if n < 2 * |p.rows|
    then Guarded(db, p, Key(DispositionRow, DisposedOverlay(p.rows, n)), DispositionDocument(p.rows, n), Dispose(n + 1))
    else At(db, p, WritePhase)
  }

  predicate InRange(plan: Plan, place: Place) {
    match place
    case Materialize(i, _) => i < |plan.candidates|
    case Finalize(i, _) => i < |plan.candidates|
    case Recheck(i, _) => i < |plan.candidates|
    case BeginTrial(i, _) => i < |plan.candidates|
    case WriteMemory(i, _) => i < |plan.candidates|
    case WriteWorkspace(i, _) => i < |plan.candidates|
    case StartRun(i, _) => i < |plan.candidates|
    case AwaitRun(i, _) => i < |plan.candidates|
    case RecordRuntime(i, _, _) => i < |plan.candidates|
    case RecordEvaluator(i, _, _) => i < |plan.candidates|
    case RecordResult(i, _, _) => i < |plan.candidates|
    case _ => true
  }

  /** One step; `outcome` matters only where the agent is run. */
  function Step(plan: Plan, db: Database, p: Process, outcome: RunOutcome): Next
    requires InRange(plan, p.place)
  {
    match p.place
    case Capture => At(db.(snapshots := db.snapshots + {plan.snapshot}), p, FirstPlace(plan, 0))
    case Materialize(i, parts) => StepMaterialize(plan, db, p, i, parts)
    case Finalize(i, parts) =>
      var m := MaterializationFor(plan, plan.candidates[i].id, parts);
      At(db.(materializations := if m in db.materializations then db.materializations else db.materializations[m := parts]),
         p, Recheck(i, parts))
    case Recheck(i, parts) =>
      At(db, p, if Recoverable(db, plan.snapshot, MaterializationFor(plan, plan.candidates[i].id, parts))
                then BeginTrial(i, parts) else Failed(MissingOverlay))
    case BeginTrial(i, parts) => StepTrial(plan, db, p, i, parts)
    case WriteMemory(i, t) =>
      Guarded(db, p, Key(MemoryWrite, t.memory), MutationDoc(plan.candidates[i].id, plan.candidates[i].recallPolicy),
              WriteWorkspace(i, t))
    case WriteWorkspace(i, t) =>
      Guarded(db, p, Key(WorkspaceWrite, t.workspace), MutationDoc(plan.candidates[i].id, plan.candidates[i].bodyPolicy),
              StartRun(i, t))
    case StartRun(i, t) => At(db, p, AwaitRun(i, t))
    case AwaitRun(i, t) => At(db, p, if outcome.ok then RecordRuntime(i, t, outcome) else Failed(RuntimeFailed))
    case RecordRuntime(i, t, o) =>
      Guarded(db, p, Key(RuntimeRow, t.trial), RuntimeDoc(Content(o.finalText), SessionId(plan.candidates[i].id)),
              RecordEvaluator(i, t, o))
    case RecordEvaluator(i, t, o) =>
      Guarded(db, p, Key(EvaluatorRow, t.trial), EvaluatorDoc(plan.evaluator, Score(o)), RecordResult(i, t, o))
    case RecordResult(i, t, o) => StepResult(plan, db, p, i, t, o)
    case Verify => StepVerify(plan, db, p)
    case Dispose(n) => StepDispose(db, p, n)
    case WritePhase => Guarded(db, p, PHASE_KEY, PhaseDoc(p.rows, plan.snapshot), Done)
    case Done => Next(db, p)
    case Failed(_) => Next(db, p)
  }

  // ---------------------------------------------------------------- many processes

  /** `started` lists, in order, the candidates whose agent run was started. */
  datatype System = System(db: Database, processes: map<nat, Process>, started: seq<Id>)

  datatype Action = Launch(who: nat) | Advance(who: nat, outcome: RunOutcome) | Kill(who: nat)

  function Take(plan: Plan, s: System, a: Action): System
    requires forall who :: who in s.processes ==> InRange(plan, s.processes[who].place)
  {
    match a
    case Launch(who) => if who in s.processes then s else s.(processes := s.processes[who := Process(Capture, [])])
    case Kill(who) => s.(processes := s.processes - {who})
    case Advance(who, outcome) =>
      if who !in s.processes then s
      else
        var p := s.processes[who];
        var next := Step(plan, s.db, p, outcome);
        System(next.db, s.processes[who := next.process],
               if p.place.StartRun? then s.started + [plan.candidates[p.place.i].id] else s.started)
  }

  lemma StepInRange(plan: Plan, db: Database, p: Process, outcome: RunOutcome)
    requires InRange(plan, p.place)
    ensures InRange(plan, Step(plan, db, p, outcome).process.place)
  {
  }

  const START := System(EMPTY, map[], [])

  /** Every system that a sequence of launches, steps and kills leads to, from an empty database. */
  function Run(plan: Plan, actions: seq<Action>): (s: System)
    ensures forall who :: who in s.processes ==> InRange(plan, s.processes[who].place)
  {
    if actions == [] then START
    else
      var before := Run(plan, actions[..|actions| - 1]);
      var a := actions[|actions| - 1];
      if a.Advance? && a.who in before.processes then
        StepInRange(plan, before.db, before.processes[a.who], a.outcome);
        Take(plan, before, a)
      else Take(plan, before, a)
  }
}
