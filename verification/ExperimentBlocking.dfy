/**
 A kill after the first effect of a candidate: the rows that keep an effect from happening twice also keep
 every later run of the same plan from completing.
 */
module ExperimentBlocking {
  import opened Wrappers
  import opened Effects
  import opened Experiment
  import opened ExperimentSafety
  import opened ExperimentRecovery
  import opened ExperimentCompletion

  /** The phase row or an effect of one of the candidates is recorded. */
  predicate Touched(plan: Plan, db: Database) {
    PHASE_KEY in db.journal || exists i :: 0 <= i < |plan.candidates| && !Untouched(plan, db, plan.candidates[i].id)
  }

  lemma TouchedStays(plan: Plan, a: Database, b: Database)
    requires Grows(a, b) && Touched(plan, a)
    ensures Touched(plan, b)
  {
    if PHASE_KEY !in a.journal {
      var i :| 0 <= i < |plan.candidates| && !Untouched(plan, a, plan.candidates[i].id);
      assert !Untouched(plan, b, plan.candidates[i].id);
    }
  }

  /** Once an effect is recorded no run of the plan completes any more, whatever happens in between. */
  lemma BlockedForever(plan: Plan, before: seq<Action>, after: seq<Action>, outcomes: seq<RunOutcome>)
    requires |outcomes| == |plan.candidates| && Touched(plan, Run(plan, before).db)
    ensures !Drive(plan, Run(plan, before + after).db, Process(Capture, []), outcomes).process.place.Done?
  {
    RunGrows(plan, before, after);
    TouchedStays(plan, Run(plan, before).db, Run(plan, before + after).db);
    RunCompletesIff(plan, before + after, outcomes);
  }

  // ---------------------------------------------------------------- such a kill exists for every plan that can complete

  /** A step that writes no effect stays before the first one. */
  lemma StillNoEffect(plan: Plan, db: Database, p: Process, outcome: RunOutcome)
    requires InRange(plan, p.place) && plan.candidates != [] && Inserted(plan, p) == 0 && !IsGuarded(p)
    requires InRange(plan, Step(plan, db, p, outcome).process.place) && !Step(plan, db, p, outcome).process.place.Failed?
    ensures Inserted(plan, Step(plan, db, p, outcome).process) == 0 && !Ended(p.place)
  {
  }

  lemma FirstEffectTouches(plan: Plan, db: Database, p: Process, outcome: RunOutcome)
    requires InRange(plan, p.place) && plan.candidates != [] && ProcessOk(plan, db, p)
    requires Inserted(plan, p) == 0 && IsGuarded(p)
    ensures Touched(plan, Step(plan, db, p, outcome).db)
  {
    TicketIsOwn(plan, db, p);
    StepIsGuarded(plan, db, p, outcome);
    var next := Step(plan, db, p, outcome).db;
    assert Key(MemoryWrite, TicketFor(plan, plan.candidates[0].id).memory) in next.journal;
    assert !Untouched(plan, next, plan.candidates[0].id);
  }

  /** A process that nothing stands in the way of gets to its first effect. */
  lemma {:induction false} FirstEffect(plan: Plan, history: seq<Action>, who: nat, outcomes: seq<RunOutcome>)
    returns (more: seq<Action>)
    requires |outcomes| == |plan.candidates| && who in Run(plan, history).processes
    requires var s := Run(plan, history);
             Inserted(plan, s.processes[who]) == 0 && Clear(plan, s.db, s.processes[who], outcomes)
    ensures history <= more && Touched(plan, Run(plan, more).db)
    decreases StepsLeft(plan, Run(plan, history).processes[who])
  {
    var s := Run(plan, history);
    var p := s.processes[who];
    var o := OutcomeAt(outcomes, p.place);
    RunKeepsInv(plan, history);
    RunAppend(plan, history, Advance(who, o));
    more := history + [Advance(who, o)];
    if IsGuarded(p) {
      FirstEffectTouches(plan, s.db, p, o);
    } else {
      StepProgresses(plan, s.db, p, o);
      StepClear(plan, s.db, p, outcomes);
      StillNoEffect(plan, s.db, p, o);
      more := FirstEffect(plan, more, who, outcomes);
    }
  }

  /** From this history on, no run of the plan completes, neither at once nor after anything else. */
  ghost predicate NeverCompletes(plan: Plan, history: seq<Action>) {
    forall after, outcomes :: |outcomes| == |plan.candidates| ==> !Completes(plan, history + after, outcomes)
  }

  predicate EndsInKill(history: seq<Action>) {
    history != [] && history[|history| - 1] == Kill(0)
  }

  predicate Completes(plan: Plan, history: seq<Action>, outcomes: seq<RunOutcome>)
    requires |outcomes| == |plan.candidates|
  {
    Drive(plan, Run(plan, history).db, Process(Capture, []), outcomes).process.place.Done?
  }

  lemma TouchedNeverCompletes(plan: Plan, history: seq<Action>)
    requires Touched(plan, Run(plan, history).db)
    ensures NeverCompletes(plan, history)
  {
    forall after, outcomes: seq<RunOutcome> | |outcomes| == |plan.candidates|
      ensures !Completes(plan, history + after, outcomes)
    {
      BlockedForever(plan, history, after, outcomes);
    }
  }

  /** A process that could complete when it is launched. */
  lemma LaunchIsClear(plan: Plan, history: seq<Action>, outcomes: seq<RunOutcome>) returns (launched: seq<Action>)
    requires |outcomes| == |plan.candidates| && Completes(plan, history, outcomes)
    ensures history <= launched && 0 in Run(plan, launched).processes
    ensures var s := Run(plan, launched);
            Inserted(plan, s.processes[0]) == 0 && Clear(plan, s.db, s.processes[0], outcomes)
  {
    RunAppend(plan, history, Kill(0));
    var idle := history + [Kill(0)];
    RunAppend(plan, idle, Launch(0));
    launched := idle + [Launch(0)];
    RunKeepsInv(plan, history);
    DriveCompletes(plan, Run(plan, history).db, Process(Capture, []), outcomes);
  }

  /**
   Every run that would complete can also be killed at a point after which the plan never completes on this
   database.
   */
  lemma KillBlocks(plan: Plan, history: seq<Action>, outcomes: seq<RunOutcome>) returns (killed: seq<Action>)
    requires |outcomes| == |plan.candidates| && Completes(plan, history, outcomes)
    ensures history <= killed && EndsInKill(killed) && 0 !in Run(plan, killed).processes
    ensures NeverCompletes(plan, killed)
  {
    var launched := LaunchIsClear(plan, history, outcomes);
    var more := FirstEffect(plan, launched, 0, outcomes);
    RunAppend(plan, more, Kill(0));
    killed := more + [Kill(0)];
    TouchedNeverCompletes(plan, killed);
  }

  /** Such a run exists: one candidate with a plain id, on an empty database. */
  lemma OneCandidateIsBlocked(snapshot: Digest, evaluator: Digest) returns (killed: seq<Action>)
    ensures var plan := Plan(snapshot, evaluator, [Candidate("a", "", "")]);
            && Completes(plan, [], [RunOutcome(true, "BLUE", "")])
            && EndsInKill(killed) && NeverCompletes(plan, killed)
  {
    var plan := Plan(snapshot, evaluator, [Candidate("a", "", "")]);
    var outcomes := [RunOutcome(true, "BLUE", "")];
    ValidIdIff("a");
    RunCompletesIff(plan, [], outcomes);
    killed := KillBlocks(plan, [], outcomes);
  }
}
