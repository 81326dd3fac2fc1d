/**
 The log of API reads that a paused page is drained with.  The page counts a read when it is fetched; the
 browser reports the start and the end of the request later, in any order, while the log waits.
 */
module RequestLog {
  import opened Paths
  import opened Sequences
  import opened Wrappers

  datatype Request = Request(verb: string, path: string, waitSeconds: seq<string>)

  predicate IsApi(r: Request) {
    "/api/" <= r.path
  }

  /** The shared follower's declared wait of ten seconds. */
  predicate IsLongPoll(r: Request) {
    r.verb == "GET" && EndsWith(r.path, "/events") && r.waitSeconds == ["10"]
  }

  // ---------------------------------------------------------------- what happens to the reads

  /** A fetch by the page, and the browser's reports about a request, which it knows by a number. */
  datatype Event = Fetch(request: Request) | Start(k: nat, request: Request) | End(k: nat, request: Request)

  /**
   The reads the page has counted, the number of reported starts, the requests that are open, and the
   numbers of all that were reported as started and as ended.
   */
  datatype Log = Log(fetched: seq<Request>, starts: nat, pending: map<nat, Request>, begun: set<nat>, ended: set<nat>)

  /** Requests outside the interface are not looked at. */
  function Occur(l: Log, e: Event): Log {
    if !IsApi(e.request) then l
    else
      match e
      case Fetch(r) => l.(fetched := l.fetched + [r])
      case Start(k, r) => l.(starts := l.starts + 1, pending := l.pending[k := r], begun := l.begun + {k})
      case End(k, _) => l.(pending := l.pending - {k}, ended := l.ended + {k})
  }

  /** The browser reports each counted read, the `k`-th one by that number, and no other request. */
  predicate IsProper(l: Log, e: Event) {
    IsApi(e.request) ==>
      match e
      case Fetch(_) => true
      case Start(k, r) => k < |l.fetched| && l.fetched[k] == r && k !in l.begun
      case End(k, r) => k in l.begun && k !in l.ended && k < |l.fetched| && l.fetched[k] == r
  }

  /** Some open request is not a long poll. */
  predicate Busy(l: Log) {
    exists k :: k in l.pending && !IsLongPoll(l.pending[k])
  }

  /** Where `settle` is; `n` is the number of reads that the page has reported. */
  datatype Place = Away | Sampling | Sampled(n: nat) | Waiting(n: nat) | Flushing(n: nat) | Returned(n: nat)

  datatype Driver = Driver(log: Log, handled: nat, place: Place)

  /** An event, a call of `settle`, one step of it, or its deadline. */
  datatype Action = Happen(e: Event) | Call | Step | Deadline

  function TakeStep(d: Driver): Driver {
    match d.place
    case Away => d
    case Sampling => d.(place := Sampled(|d.log.fetched|))
    case Sampled(n) => d.(place := if n == d.handled then Returned(n) else Waiting(n))
    case Waiting(n) => d.(place := if d.log.starts < n || Busy(d.log) then Waiting(n) else Flushing(n))
    case Flushing(n) => Driver(d.log, n, Sampling)
    case Returned(_) => d
  }

  function Take(d: Driver, a: Action): Driver {
    match a
    case Happen(e) => d.(log := Occur(d.log, e))
    case Call => if d.place.Away? || d.place.Returned? then d.(place := Sampling) else d
    case Step => TakeStep(d)
    case Deadline => if d.place.Waiting? then d.(place := Away) else d
  }

  const EMPTY := Driver(Log([], 0, map[], {}, {}), 0, Away)

  /** Every state that some order of events, calls and steps leads to. */
  function Run(actions: seq<Action>): Driver {
    if actions == [] then EMPTY
    else Take(Run(actions[..|actions| - 1]), actions[|actions| - 1])
  }

  /** Every report of the run was proper when it came. */
  predicate AllProper(actions: seq<Action>) {
    if actions == [] then true
    else
      var front, last := actions[..|actions| - 1], actions[|actions| - 1];
      AllProper(front) && (last.Happen? ==> IsProper(Run(front).log, last.e))
  }

  // ---------------------------------------------------------------- what is kept

  /** The first `n` reads have started, and each has ended or is a long poll. */
  predicate Drained(l: Log, n: nat) {
    n <= |l.fetched| && forall k :: 0 <= k < n ==> k in l.begun && (k in l.ended || IsLongPoll(l.fetched[k]))
  }

  predicate LogOk(l: Log) {
    && l.starts == |l.begun|
    && l.ended <= l.begun
    && l.pending.Keys == l.begun - l.ended
    && (forall k :: k in l.begun ==> k < |l.fetched|)
    && (forall k :: k in l.pending ==> l.pending[k] == l.fetched[k])
  }

  predicate PlaceOk(d: Driver) {
    && d.handled <= |d.log.fetched|
    && (d.handled == |d.log.fetched| ==> Drained(d.log, d.handled))
    && match d.place
       case Away => true
       case Sampling => true
       case Sampled(n) => n <= |d.log.fetched| && (n == d.handled ==> Drained(d.log, n))
       case Waiting(n) => n <= |d.log.fetched|
       case Flushing(n) => n <= |d.log.fetched| && (n == |d.log.fetched| ==> Drained(d.log, n))
       case Returned(n) => Drained(d.log, n)
  }

  predicate Inv(d: Driver) {
    LogOk(d.log) && PlaceOk(d)
  }

  /** As many starts as reads: every read has started. */
  lemma AllBegun(l: Log)
    requires LogOk(l) && l.starts >= |l.fetched|
    ensures forall k :: 0 <= k < |l.fetched| ==> k in l.begun
  {
    var all := Indices(|l.fetched|);
    assert l.begun <= all;
    SubsetOfSameSize(l.begun, all);
  }

  lemma OccurKeepsLogOk(l: Log, e: Event)
    requires LogOk(l) && IsProper(l, e)
    ensures LogOk(Occur(l, e))
  {
  }

  /** What is drained stays drained. */
  lemma OccurKeepsDrained(l: Log, e: Event, n: nat)
    requires Drained(l, n)
    ensures Drained(Occur(l, e), n)
  {
  }

  lemma OccurKeepsInv(d: Driver, e: Event)
    requires Inv(d) && IsProper(d.log, e)
    ensures Inv(Take(d, Happen(e)))
  {
    var l := d.log;
    OccurKeepsLogOk(l, e);
    if Drained(l, d.handled) {
      OccurKeepsDrained(l, e, d.handled);
    }
    match d.place {
      case Sampled(n) => if Drained(l, n) { OccurKeepsDrained(l, e, n); }
      case Flushing(n) => if Drained(l, n) { OccurKeepsDrained(l, e, n); }
      case Returned(n) => OccurKeepsDrained(l, e, n);
      case _ =>
    }
  }

  lemma StepKeepsInv(d: Driver)
    requires Inv(d)
    ensures Inv(TakeStep(d))
  {
    if d.place.Waiting? && d.place.n == |d.log.fetched| && d.log.starts >= d.place.n {
      AllBegun(d.log);
    }
  }

  lemma {:induction false} RunKeepsInv(actions: seq<Action>)
    requires AllProper(actions)
    ensures Inv(Run(actions))
  {
    if actions != [] {
      var d, a := Run(actions[..|actions| - 1]), actions[|actions| - 1];
      RunKeepsInv(actions[..|actions| - 1]);
      match a
      case Happen(e) => OccurKeepsInv(d, e);
      case Step => StepKeepsInv(d);
      case _ =>
    }
  }

  /**
   When `settle` returns, every read that the page had counted has started, and has ended unless it is the
   declared long poll: for every order of fetches, starts, ends and earlier calls in which the browser
   reports nothing but the counted reads.
   */
  lemma SettledMeansDrained(actions: seq<Action>)
    requires AllProper(actions) && Run(actions).place.Returned?
    ensures Drained(Run(actions).log, Run(actions).place.n)
  {
    RunKeepsInv(actions);
  }

  lemma RunExtends(actions: seq<Action>, a: Action)
    ensures Run(actions + [a]) == Take(Run(actions), a)
  {
    assert (actions + [a])[..|actions + [a]| - 1] == actions;
  }

  /**
   A request that the page's `fetch` did not make is counted as a start, too: it can stand in for a counted
   read, and `settle` returns although that read has not even started.
   */
  lemma StrayHidesRead(r: Request) returns (actions: seq<Action>)
    requires IsApi(r)
    ensures var d := Run(actions);
            d.place == Returned(1) && |d.log.fetched| == 1 && !Drained(d.log, 1)
  {
    actions := [];
    var events := [Happen(Fetch(r)), Happen(Start(7, r)), Happen(End(7, r)), Call];
    for k := 0 to |events|
      invariant k == 0 ==> Run(actions) == EMPTY
      invariant k == 1 ==> Run(actions) == Driver(Log([r], 0, map[], {}, {}), 0, Away)
      invariant k == 2 ==> Run(actions) == Driver(Log([r], 1, map[7 := r], {7}, {}), 0, Away)
      invariant k == 3 ==> Run(actions) == Driver(Log([r], 1, map[], {7}, {7}), 0, Away)
      invariant k == 4 ==> Run(actions) == Driver(Log([r], 1, map[], {7}, {7}), 0, Sampling)
    {
      RunExtends(actions, events[k]);
      actions := actions + [events[k]];
      assert map[7 := r] - {7} == map[];
    }
    var log := Log([r], 1, map[], {7}, {7});
    for k := 0 to 6
      invariant Run(actions) == Driver(log, if k < 4 then 0 else 1,
                                       if k == 0 || k == 4 then Sampling else if k == 1 || k == 5 then Sampled(1)
                                       else if k == 2 then Waiting(1) else if k == 3 then Flushing(1) else Returned(1))
    {
      RunExtends(actions, Step);
      actions := actions + [Step];
    }
    assert 0 !in log.begun;
  }

  // ---------------------------------------------------------------- when it returns

  function Steps(d: Driver, count: nat): Driver
    decreases count
  {
    if count == 0 then d else Steps(TakeStep(d), count - 1)
  }

  /** A read that is not drained while the page is quiet is waited for. */
  lemma {:induction false} Stuck(d: Driver, count: nat)
    requires Inv(d) && !Drained(d.log, |d.log.fetched|) && !d.place.Returned?
    requires d.place.Waiting? ==> d.place.n == |d.log.fetched|
    requires d.place.Sampled? ==> d.place.n == |d.log.fetched|
    requires !d.place.Flushing?
    ensures !Steps(d, count).place.Returned?
    decreases count
  {
    if count > 0 {
      StepKeepsInv(d);
      Stuck(TakeStep(d), count - 1);
    }
  }

  lemma DrainedIsFree(l: Log)
    requires LogOk(l) && Drained(l, |l.fetched|)
    ensures l.starts == |l.fetched| && !Busy(l)
  {
    assert l.begun == Indices(|l.fetched|);
  }

  lemma BlockedIsNotDrained(l: Log, n: nat)
    requires LogOk(l) && n <= |l.fetched| && (l.starts < n || Busy(l))
    ensures !Drained(l, |l.fetched|)
  {
    if Drained(l, |l.fetched|) {
      DrainedIsFree(l);
    }
  }

  /**
   Left alone after a call, `settle` returns if and only if all counted reads are drained, and then within
   six steps; otherwise it waits until its deadline.
   */
  lemma ReturnsIffDrained(actions: seq<Action>)
    requires AllProper(actions) && Run(actions).place.Sampling?
    ensures var d := Run(actions);
            && (Drained(d.log, |d.log.fetched|) ==> Steps(d, 6).place == Returned(|d.log.fetched|))
            && (!Drained(d.log, |d.log.fetched|) ==> forall count: nat :: !Steps(d, count).place.Returned?)
  {
    RunKeepsInv(actions);
    var d := Run(actions);
    var n := |d.log.fetched|;
    if Drained(d.log, n) {
      DrainedIsFree(d.log);
      SixSteps(d);
      if n != d.handled {
        assert TakeStep(TakeStep(TakeStep(TakeStep(d)))) == Driver(d.log, n, Sampling);
      }
    } else {
      forall count: nat ensures !Steps(d, count).place.Returned? {
        Stuck(d, count);
      }
    }
  }

  lemma SixSteps(d: Driver)
    ensures Steps(d, 6) == TakeStep(TakeStep(TakeStep(TakeStep(TakeStep(TakeStep(d))))))
  {
    var a, b := TakeStep(d), TakeStep(TakeStep(d));
    var c, e := TakeStep(b), TakeStep(TakeStep(b));
    assert Steps(d, 6) == Steps(a, 5) == Steps(b, 4);
    assert Steps(b, 4) == Steps(c, 3) == Steps(e, 2);
    assert Steps(e, 2) == Steps(TakeStep(e), 1) == Steps(TakeStep(TakeStep(e)), 0);
  }

  // ---------------------------------------------------------------- the log as it is written

  function OccurAll(l: Log, events: seq<Event>): Log {
    if events == [] then l else Occur(OccurAll(l, events[..|events| - 1]), events[|events| - 1])
  }

  predicate EventsProper(l: Log, events: seq<Event>) {
    if events == [] then true
    else
      var front := events[..|events| - 1];
      EventsProper(l, front) && IsProper(OccurAll(l, front), events[|events| - 1])
  }

  /** What happens during each wait is proper when it comes. */
  predicate ScheduleProper(l: Log, schedule: seq<seq<Event>>)
    decreases schedule
  {
    schedule == []
    || (EventsProper(l, schedule[0]) && ScheduleProper(OccurAll(l, schedule[0]), schedule[1..]))
  }

  lemma {:induction false} OccurAllKeepsInv(d: Driver, events: seq<Event>)
    requires Inv(d) && EventsProper(d.log, events)
    ensures Inv(d.(log := OccurAll(d.log, events)))
  {
    if events != [] {
      var front := events[..|events| - 1];
      OccurAllKeepsInv(d, front);
      OccurKeepsInv(d.(log := OccurAll(d.log, front)), events[|events| - 1]);
    }
  }

  /** What happens next, and what is left of the schedule. */
  function Next(schedule: seq<seq<Event>>): seq<Event> {
    if schedule == [] then [] else schedule[0]
  }

  function Later(schedule: seq<seq<Event>>): seq<seq<Event>> {
    if schedule == [] then [] else schedule[1..]
  }

  /** The object that listens to the browser; `fetched`, `begun` and `ended` are what page and browser know. */
  class ApiRequestLog {
    var fetched: seq<Request>
    var started: seq<(string, string)>
    var settled: nat
    var pending: map<nat, Request>
    var handled: nat
    ghost var begun: set<nat>
    ghost var ended: set<nat>

    ghost function Snapshot(): Log
      reads this
    {
      Log(fetched, |started|, pending, begun, ended)
    }

    ghost predicate At(place: Place)
      reads this
    {
      Inv(Driver(Snapshot(), handled, place))
    }

    constructor ()
      ensures At(Away) && Snapshot() == EMPTY.log && handled == 0 && settled == 0
    {
      fetched, started, settled, pending, handled := [], [], 0, map[], 0;
      begun, ended := {}, {};
    }

    /** The page's `fetch`. */
    method RecordFetch(r: Request)
      modifies this`fetched
      ensures Snapshot() == Occur(old(Snapshot()), Fetch(r))
    {
      if IsApi(r) {
        fetched := fetched + [r];
      }
    }

    /** `_record_start`. */
    method RecordStart(k: nat, r: Request)
      modifies this`started, this`pending, this`begun
      ensures Snapshot() == Occur(old(Snapshot()), Start(k, r))
      ensures started == if IsApi(r) then old(started) + [(r.verb, r.path)] else old(started)
    {
      if IsApi(r) {
        started := started + [(r.verb, r.path)];
        pending := pending[k := r];
        begun := begun + {k};
      }
    }

    /** `_record_settled`: the request finished or failed. */
    method RecordSettled(k: nat, r: Request)
      modifies this`settled, this`pending, this`ended
      ensures Snapshot() == Occur(old(Snapshot()), End(k, r))
      ensures settled == if IsApi(r) then old(settled) + 1 else old(settled)
    {
      if IsApi(r) {
        settled := settled + 1;
        pending := pending - {k};
        ended := ended + {k};
      }
    }

    /** What page and browser do during one `await`. */
    method Await(events: seq<Event>)
      modifies this`fetched, this`started, this`settled, this`pending, this`begun, this`ended
      ensures Snapshot() == OccurAll(old(Snapshot()), events)
    {
      for i := 0 to |events|
        invariant Snapshot() == OccurAll(old(Snapshot()), events[..i])
      {
        assert events[..i + 1][..i] == events[..i];
        match events[i] {
          case Fetch(r) => RecordFetch(r);
          case Start(k, r) => RecordStart(k, r);
          case End(k, r) => RecordSettled(k, r);
        }
      }
      assert events[..|events|] == events;
    }

    /** A wait of `settle` at one of its places. */
    method Wait(schedule: seq<seq<Event>>, ghost place: Place)
      requires At(place) && ScheduleProper(Snapshot(), schedule)
      modifies this`fetched, this`started, this`settled, this`pending, this`begun, this`ended
      ensures At(place) && ScheduleProper(Snapshot(), Later(schedule))
      ensures schedule == [] ==> fetched == old(fetched)
    {
      OccurAllKeepsInv(Driver(Snapshot(), handled, place), Next(schedule));
      Await(Next(schedule));
    }

    /** The inner loop: until enough reads have started and nothing but long polls is open. */
    method Drain(n: nat, schedule: seq<seq<Event>>, deadline: nat, now: nat)
      returns (ok: bool, rest: seq<seq<Event>>, time: nat)
      requires At(Waiting(n)) && ScheduleProper(Snapshot(), schedule)
      modifies this`fetched, this`started, this`settled, this`pending, this`begun, this`ended
      ensures |rest| <= |schedule| && ScheduleProper(Snapshot(), rest)
      ensures schedule == [] ==> fetched == old(fetched)
      ensures if ok then At(Flushing(n)) else At(Away) && time >= deadline && !Drained(Snapshot(), |fetched|)
    {
      rest, time := schedule, now;
      while |started| < n || exists k :: k in pending && !IsLongPoll(pending[k])
        invariant At(Waiting(n)) && |rest| <= |schedule| && ScheduleProper(Snapshot(), rest)
        invariant schedule == [] ==> fetched == old(fetched)
        decreases deadline - time
      {
        if time >= deadline {
          BlockedIsNotDrained(Snapshot(), n);
          return false, rest, time;
        }
        Wait(rest, Waiting(n));
        rest, time := Later(rest), time + 1;
      }
      StepKeepsInv(Driver(Snapshot(), handled, Waiting(n)));
      return true, rest, time;
    }

    /** One pass of the outer loop: the page's count, and the reads it counts. */
    method Pass(schedule: seq<seq<Event>>, deadline: nat, now: nat)
      returns (ok: bool, drained: bool, rest: seq<seq<Event>>, time: nat)
      requires At(Sampling) && ScheduleProper(Snapshot(), schedule)
      modifies this
      ensures if schedule == [] then rest == [] else |rest| < |schedule|
      ensures ScheduleProper(Snapshot(), rest)
      ensures ok && drained ==> At(Returned(handled))
      ensures ok && !drained ==> At(Sampling)
      ensures ok && !drained && schedule == [] ==> old(handled) != |old(fetched)| && handled == |fetched|
      ensures !ok ==> At(Away) && time >= deadline && !Drained(Snapshot(), |fetched|)
    {
      var n := |fetched|;
      StepKeepsInv(Driver(Snapshot(), handled, Sampling));
      Wait(schedule, Sampled(n));
      rest, time := Later(schedule), now + 1;
      StepKeepsInv(Driver(Snapshot(), handled, Sampled(n)));
      if n == handled {
        return true, true, rest, time;
      }
      ok, rest, time := Drain(n, rest, deadline, time);
      if !ok {
        return false, false, rest, time;
      }
      Wait(rest, Flushing(n));
      rest, time := Later(rest), time + 1;
      StepKeepsInv(Driver(Snapshot(), handled, Flushing(n)));
      handled := n;
      return true, false, rest, time;
    }

    /**
     `settle`, with what happens during each of its waits as a parameter; time is counted in waits.  If it
     returns, the reads that the page had counted are drained; otherwise its deadline has passed while one
     was not.
     */
    method Settle(schedule: seq<seq<Event>>, deadline: nat) returns (ok: bool)
      requires At(Away) && ScheduleProper(Snapshot(), schedule)
      modifies this
      ensures At(Away)
      ensures ok ==> Drained(Snapshot(), handled)
      ensures !ok ==> !Drained(Snapshot(), |fetched|)
    {
      var rest, time := schedule, 0;
      while true
        invariant At(Sampling) && ScheduleProper(Snapshot(), rest)
        decreases |rest|, if handled == |fetched| then 0 else 1
      {
        var drained;
        ok, drained, rest, time := Pass(rest, deadline, time);
        if !ok || drained {
          return ok;
        }
      }
    }
  }
}
