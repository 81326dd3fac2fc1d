/**
 The two injected observer disconnects: which requests they meet, what they make of the response stream, and
 the gate that keeps a recovery waiting until the browser has asked for its replay.
 */
module Disconnect {
  import opened Paths
  import opened Sequences
  import opened Wrappers
  import EventStream

  // ---------------------------------------------------------------- the response stream

  /** An ASGI message; a body without its fields is an empty, last one. */
  datatype Message = Start(status: nat) | Body(body: string, more: bool) | Other(kind: string)

  /** What one message becomes, and whether the response is over after it. */
  datatype Sent = Sent(messages: seq<Message>, finished: bool)

  function Faulted(fault: nat, finished: bool, m: Message): Sent {
    if finished then Sent([], true)
    else if !m.Body? then Sent([m], false)
    else if fault == 0 then
      if m.body != "" || !m.more then Sent([Body(EventStream.ObserverClose(), false)], true) else Sent([], false)
    else if m.body != "" then Sent([Body(m.body, false)], true)
    else if !m.more then Sent([m], true)
    else Sent([], false)
  }

  function Transform(fault: nat, finished: bool, stream: seq<Message>): seq<Message>
    decreases stream
  {
    if stream == [] then []
    else
      var first := Faulted(fault, finished, stream[0]);
      first.messages + Transform(fault, first.finished, stream[1..])
  }

  /** The bodies of a response: all but the last announce that more will come. */
  predicate WellFormedBodies(bodies: seq<Message>) {
    && bodies != []
    && forall k :: 0 <= k < |bodies| ==> bodies[k].Body? && (bodies[k].more <==> k < |bodies| - 1)
  }

  predicate WellFormed(stream: seq<Message>) {
    stream != [] && stream[0].Start? && WellFormedBodies(stream[1..])
  }

  /** The first chunk with content, or nothing. */
  function FirstChunk(bodies: seq<Message>): string
    requires forall k :: 0 <= k < |bodies| ==> bodies[k].Body?
  {
    if bodies == [] then "" else if bodies[0].body != "" then bodies[0].body else FirstChunk(bodies[1..])
  }

  lemma {:induction false} NothingAfterTheEnd(fault: nat, stream: seq<Message>)
    ensures Transform(fault, true, stream) == []
  {
    if stream != [] {
      NothingAfterTheEnd(fault, stream[1..]);
    }
  }

  lemma RestOfBodies(bodies: seq<Message>)
    requires WellFormedBodies(bodies) && |bodies| > 1
    ensures WellFormedBodies(bodies[1..]) && bodies[0].more
  {
  }

  lemma {:induction false} BodiesBecome(fault: nat, bodies: seq<Message>)
    requires WellFormedBodies(bodies)
    ensures Transform(fault, false, bodies)
            == [Body(if fault == 0 then EventStream.ObserverClose() else FirstChunk(bodies), false)]
  {
    var first := Faulted(fault, false, bodies[0]);
    if first.finished {
      NothingAfterTheEnd(fault, bodies[1..]);
      assert bodies[0].body == "" ==> !bodies[0].more && |bodies| == 1;
    } else {
      RestOfBodies(bodies);
      BodiesBecome(fault, bodies[1..]);
    }
  }

  /**
   An injected fault keeps the start of a well-formed response and gives it one last body: the comment that
   shows no event for the first fault, and the first chunk with content for the second.
   */
  lemma FaultKeepsStart(fault: nat, stream: seq<Message>)
    requires WellFormed(stream)
    ensures Transform(fault, false, stream)
            == [stream[0], Body(if fault == 0 then EventStream.ObserverClose() else FirstChunk(stream[1..]), false)]
    ensures WellFormed(Transform(fault, false, stream))
  {
    BodiesBecome(fault, stream[1..]);
    var out := Transform(fault, false, stream);
    assert out == [stream[0]] + Transform(fault, false, stream[1..]);
    assert out[1..] == [out[1]];
  }

  /** The observer of the first fault sees no event of the application. */
  lemma FirstFaultShowsNothing(stream: seq<Message>)
    requires WellFormed(stream)
    ensures var out := Transform(0, false, stream);
            |out| == 2 && out[1].Body? && EventStream.ReadStream(out[1].body) == []
  {
    FaultKeepsStart(0, stream);
    EventStream.ObserverCloseIsEmpty();
  }

  /** A body can only be the last message, and says that it is the end. */
  predicate EndsWithItsBody(out: seq<Message>) {
    forall k :: 0 <= k < |out| && out[k].Body? ==> k == |out| - 1 && !out[k].more
  }

  lemma PrependOther(m: Message, out: seq<Message>)
    requires EndsWithItsBody(out) && !m.Body?
    ensures EndsWithItsBody([m] + out)
  {
    var all := [m] + out;
    forall k | 0 <= k < |all| && all[k].Body? ensures k == |all| - 1 && !all[k].more {
      assert all[k] == out[k - 1];
    }
  }

  /** Whatever the application sends, and wherever it stops: at most one body goes out, and it is the end. */
  lemma {:induction false} OneBodyAtMost(fault: nat, stream: seq<Message>)
    ensures EndsWithItsBody(Transform(fault, false, stream))
  {
    if stream != [] {
      var first := Faulted(fault, false, stream[0]);
      if first.finished {
        NothingAfterTheEnd(fault, stream[1..]);
      } else {
        OneBodyAtMost(fault, stream[1..]);
        if stream[0].Body? {
          assert first.messages + Transform(fault, false, stream[1..]) == Transform(fault, false, stream[1..]);
        } else {
          PrependOther(stream[0], Transform(fault, false, stream[1..]));
        }
      }
    }
  }

  /** A response that is cut short is a prefix of what the whole one becomes. */
  lemma {:induction false} CutShort(fault: nat, finished: bool, front: seq<Message>, rest: seq<Message>)
    ensures Transform(fault, finished, front) <= Transform(fault, finished, front + rest)
    decreases front
  {
    if front != [] {
      assert (front + rest)[0] == front[0] && (front + rest)[1..] == front[1..] + rest;
      CutShort(fault, Faulted(fault, finished, front[0]).finished, front[1..], rest);
    }
  }

  // ---------------------------------------------------------------- the requests

  /** What the wrapper looks at; the query of the slow session list only delays a request. */
  datatype Scope = Scope(kind: string, verb: string, path: string, mutationId: string, replay: Option<string>)

  datatype Route = Untouched | Replayed(marker: string) | Injected(fault: nat)

  predicate IsPost(s: Scope) {
    s.kind == "http" && s.verb == "POST"
  }

  predicate IsRunPost(s: Scope) {
    IsPost(s) && s.path == "/api/run"
  }

  predicate IsInboxSettle(path: string) {
    OneSegment(path, "/api/inbox/", "/settle")
  }

  predicate IsInitialMutation(s: Scope) {
    IsPost(s) && s.replay.None? && s.mutationId != ""
  }

  /** What the wrapper remembers, and the provider's queue of markers. */
  datatype Seen = Seen(
    initialRunRequests: nat,
    initialMutationIds: seq<string>,
    initialMutationRequests: map<string, nat>,
    inboxSettleRequests: seq<string>,
    replayRequests: seq<(string, string)>,
    queue: seq<string>)

  const NOTHING_SEEN := Seen(0, [], map[], [], [], [])

  function RouteOf(seen: Seen, s: Scope): Route {
    if IsRunPost(s) && s.replay.Some? then Replayed(s.replay.value)
    else if IsRunPost(s) && seen.initialRunRequests < 2 then Injected(seen.initialRunRequests)
    else Untouched
  }

  function Counted(tally: map<string, nat>, path: string): map<string, nat> {
    tally[path := (if path in tally then tally[path] else 0) + 1]
  }

  function Arrive(seen: Seen, s: Scope): Seen {
    var route := RouteOf(seen, s);
    Seen(
      seen.initialRunRequests + (if route.Injected? then 1 else 0),
      seen.initialMutationIds + (if route.Injected? then [s.mutationId] else []),
      if IsInitialMutation(s) then Counted(seen.initialMutationRequests, s.path) else seen.initialMutationRequests,
      seen.inboxSettleRequests + (if IsPost(s) && IsInboxSettle(s.path) then [s.path] else []),
      seen.replayRequests + (if route.Replayed? then [(route.marker, s.mutationId)] else []),
      seen.queue + (if route.Replayed? then [route.marker] else []))
  }

  function SeenAfter(requests: seq<Scope>): Seen {
    if requests == [] then NOTHING_SEEN
    else Arrive(SeenAfter(requests[..|requests| - 1]), requests[|requests| - 1])
  }

  /** How each request of a list is routed. */
  function Routes(requests: seq<Scope>): (routes: seq<Route>)
    ensures |routes| == |requests|
  {
    if requests == [] then []
    else
      var front, last := requests[..|requests| - 1], requests[|requests| - 1];
      Routes(front) + [RouteOf(SeenAfter(front), last)]
  }

  predicate IsFirstRun(s: Scope) {
    IsRunPost(s) && s.replay.None?
  }

  /** The first runs among some requests, in order. */
  function FirstRuns(requests: seq<Scope>): seq<Scope> {
    if requests == [] then []
    else
      var front, last := requests[..|requests| - 1], requests[|requests| - 1];
      FirstRuns(front) + if IsFirstRun(last) then [last] else []
  }

  function MutationIds(runs: seq<Scope>): (ids: seq<string>)
    ensures |ids| == |runs| && forall k :: 0 <= k < |runs| ==> ids[k] == runs[k].mutationId
  {
    seq(|runs|, k requires 0 <= k < |runs| => runs[k].mutationId)
  }

  /** The wrapper counts and remembers the first two runs, and no other request. */
  lemma {:induction false} TwoRunsAreCounted(requests: seq<Scope>)
    ensures var runs := FirstRuns(requests);
            var seen := SeenAfter(requests);
            && seen.initialRunRequests == Least(|runs|, 2)
            && seen.initialMutationIds == MutationIds(runs[..Least(|runs|, 2)])
  {
    if requests == [] {
      assert MutationIds([]) == [];
    } else {
      var front, last := requests[..|requests| - 1], requests[|requests| - 1];
      TwoRunsAreCounted(front);
      var before, runs := FirstRuns(front), FirstRuns(requests);
      if IsFirstRun(last) && |before| < 2 {
        assert runs[..Least(|runs|, 2)] == before[..Least(|before|, 2)] + [last];
        assert MutationIds(before + [last]) == MutationIds(before) + [last.mutationId];
        assert before[..|before|] == before;
      } else {
        assert runs[..Least(|runs|, 2)] == before[..Least(|before|, 2)];
      }
    }
  }

  /** The requests that are altered. */
  function Altered(routes: seq<Route>): set<nat> {
    set k: nat | k < |routes| && routes[k].Injected?
  }

  /**
   Over all requests: a request is altered if and only if it is one of the first two runs without a replay
   marker, the first of them by fault 0 and the second by fault 1.
   */
  lemma {:induction false} OnlyTheFirstTwo(requests: seq<Scope>, k: nat)
    requires k < |requests|
    ensures var before := |FirstRuns(requests[..k])|;
            Routes(requests)[k]
            == if IsRunPost(requests[k]) && requests[k].replay.Some? then Replayed(requests[k].replay.value)
               else if IsFirstRun(requests[k]) && before < 2 then Injected(before)
               else Untouched
  {
    var front, last := requests[..|requests| - 1], requests[|requests| - 1];
    if k == |front| {
      TwoRunsAreCounted(front);
    } else {
      OnlyTheFirstTwo(front, k);
      assert front[..k] == requests[..k];
    }
  }

  lemma AlteredAppend(routes: seq<Route>, r: Route)
    ensures |Altered(routes + [r])| == |Altered(routes)| + if r.Injected? then 1 else 0
  {
    var more := routes + [r];
    assert forall k :: 0 <= k < |routes| ==> more[k] == routes[k];
    assert Altered(more) == if r.Injected? then Altered(routes) + {|routes|} else Altered(routes);
  }

  lemma {:induction false} AlteredAreFew(requests: seq<Scope>)
    ensures |Altered(Routes(requests))| == Least(|FirstRuns(requests)|, 2)
  {
    if requests == [] {
      assert Altered(Routes(requests)) == {};
    } else {
      var front, last := requests[..|requests| - 1], requests[|requests| - 1];
      AlteredAreFew(front);
      TwoRunsAreCounted(front);
      AlteredAppend(Routes(front), RouteOf(SeenAfter(front), last));
    }
  }

  /** How many of some requests are first mutations on a path. */
  function MutationsOn(requests: seq<Scope>, path: string): nat {
    if requests == [] then 0
    else
      var front, last := requests[..|requests| - 1], requests[|requests| - 1];
      MutationsOn(front, path) + if IsInitialMutation(last) && last.path == path then 1 else 0
  }

  /** The tally holds the paths with a first mutation, each with their number. */
  lemma {:induction false} TallyIsExact(requests: seq<Scope>, path: string)
    ensures var tally := SeenAfter(requests).initialMutationRequests;
            && (path in tally <==> MutationsOn(requests, path) > 0)
            && (path in tally ==> tally[path] == MutationsOn(requests, path))
  {
    if requests != [] {
      TallyIsExact(requests[..|requests| - 1], path);
    }
  }

  // ---------------------------------------------------------------- the replay gate

  function Markers(replays: seq<(string, string)>): (markers: seq<string>)
    ensures |markers| == |replays| && forall k :: 0 <= k < |replays| ==> markers[k] == replays[k].0
  {
    seq(|replays|, k requires 0 <= k < |replays| => replays[k].0)
  }

  /** `recorded` lists the markers that recoveries took; `taken` says which one each of them took. */
  datatype Gate = Gate(seen: Seen, recorded: seq<string>, waiting: set<nat>, taken: map<nat, nat>, completed: set<nat>)

  /** A request, and a recovery that starts to wait, takes a marker, gives up or completes. */
  datatype Action = Request(scope: Scope) | Recover(run: nat) | TakeMarker(run: nat) | TimeOut(run: nat) | Complete(run: nat)

  function Take(g: Gate, a: Action): Gate {
    match a
    case Request(s) => g.(seen := Arrive(g.seen, s))
    case Recover(run) => if run in g.taken then g else g.(waiting := g.waiting + {run})
    case TakeMarker(run) =>
      if run !in g.waiting || g.seen.queue == [] then g
      else
        g.(seen := g.seen.(queue := g.seen.queue[1..]),
           recorded := g.recorded + [g.seen.queue[0]],
           waiting := g.waiting - {run},
           taken := g.taken[run := |g.recorded|])
    case TimeOut(run) => g.(waiting := g.waiting - {run})
    case Complete(run) => if run in g.taken then g.(completed := g.completed + {run}) else g
  }

  const CLOSED := Gate(NOTHING_SEEN, [], {}, map[], {})

  /** Every state that some order of requests and recoveries leads to. */
  function Run(actions: seq<Action>): Gate {
    if actions == [] then CLOSED
    else Take(Run(actions[..|actions| - 1]), actions[|actions| - 1])
  }

  predicate GateOk(g: Gate) {
    && g.recorded + g.seen.queue == Markers(g.seen.replayRequests)
    && |g.taken| == |g.recorded|
    && (forall run :: run in g.waiting ==> run !in g.taken)
    && (forall run :: run in g.taken ==> g.taken[run] < |g.recorded|)
    && (forall run, other :: run in g.taken && other in g.taken && g.taken[run] == g.taken[other] ==> run == other)
    && (forall run :: run in g.completed ==> run in g.taken)
  }

  lemma RequestKeepsGate(g: Gate, s: Scope)
    requires GateOk(g)
    ensures GateOk(Take(g, Request(s)))
  {
    var replays, more := g.seen.replayRequests, Arrive(g.seen, s).replayRequests;
    if |more| > |replays| {
      assert Markers(more) == Markers(replays) + [more[|replays|].0];
      assert (g.recorded + g.seen.queue) + [more[|replays|].0] == g.recorded + (g.seen.queue + [more[|replays|].0]);
    } else {
      assert more == replays && Arrive(g.seen, s).queue == g.seen.queue;
    }
  }

  lemma TakeKeepsGate(g: Gate, run: nat)
    requires GateOk(g) && run in g.waiting && g.seen.queue != []
    ensures GateOk(Take(g, TakeMarker(run)))
  {
    var queue := g.seen.queue;
    assert (g.recorded + [queue[0]]) + queue[1..] == g.recorded + queue;
  }

  lemma {:induction false} RunKeepsGate(actions: seq<Action>)
    ensures GateOk(Run(actions))
  {
    if actions != [] {
      var g, a := Run(actions[..|actions| - 1]), actions[|actions| - 1];
      RunKeepsGate(actions[..|actions| - 1]);
      match a
      case Request(s) => RequestKeepsGate(g, s);
      case TakeMarker(run) =>
        if run in g.waiting && g.seen.queue != [] {
          TakeKeepsGate(g, run);
        }
      case _ =>
    }
  }

  /**
   In every order of requests and recoveries: the markers taken, and then the queue, are the markers logged;
   a recovery completes only with a logged marker that no other recovery took, so at most as many recoveries
   have completed as replays were observed.
   */
  lemma RecoveryWaitsForReplay(actions: seq<Action>)
    ensures var g := Run(actions);
            && g.recorded + g.seen.queue == Markers(g.seen.replayRequests)
            && |g.completed| <= |g.recorded| <= |g.seen.replayRequests|
            && (forall run :: run in g.completed ==>
                  && run in g.taken && g.taken[run] < |g.recorded|
                  && g.recorded[g.taken[run]] == g.seen.replayRequests[g.taken[run]].0)
            && (forall run, other :: run in g.completed && other in g.completed && run != other ==>
                  g.taken[run] != g.taken[other])
  {
    RunKeepsGate(actions);
    var g := Run(actions);
    assert g.completed <= g.taken.Keys;
    SubsetIsSmaller(g.completed, g.taken.Keys);
    forall k | 0 <= k < |g.recorded| ensures g.recorded[k] == g.seen.replayRequests[k].0 {
      assert g.recorded[k] == (g.recorded + g.seen.queue)[k];
    }
  }

  /** The final comparison of both lists passes exactly when no marker is left in the queue. */
  lemma MarkersAgreeIffTaken(actions: seq<Action>)
    ensures var g := Run(actions);
            g.recorded == Markers(g.seen.replayRequests) <==> g.seen.queue == []
  {
    RunKeepsGate(actions);
    var g := Run(actions);
    assert |g.recorded + g.seen.queue| == |g.recorded| + |g.seen.queue|;
  }

  // ---------------------------------------------------------------- the objects

  /** The provider's side of the gate. */
  class DashboardContractProvider {
    var queue: seq<string>
    var replayMarkers: seq<string>

    constructor ()
      ensures queue == [] && replayMarkers == []
    {
      queue, replayMarkers := [], [];
    }

    method ReleaseAfterReplay(marker: string)
      modifies this`queue
      ensures queue == old(queue) + [marker]
    {
      queue := queue + [marker];
    }

    /** A recovery takes the next marker and notes it; with none there it goes on waiting. */
    method TakeNext() returns (took: bool)
      modifies this
      ensures took <==> old(queue) != []
      ensures took ==> queue == old(queue)[1..] && replayMarkers == old(replayMarkers) + [old(queue)[0]]
      ensures !took ==> queue == old(queue) && replayMarkers == old(replayMarkers)
    {
      took := |queue| > 0;
      if took {
        replayMarkers := replayMarkers + [queue[0]];
        queue := queue[1..];
      }
    }
  }

  /** `fault_send`: it lets messages through until it has closed the response. */
  class FaultSender {
    const fault: nat
    var finished: bool
    var sent: seq<Message>

    constructor (fault: nat)
      ensures this.fault == fault && !finished && sent == []
    {
      this.fault, finished, sent := fault, false, [];
    }

    method Send(m: Message)
      modifies this
      ensures var out := Faulted(fault, old(finished), m);
              sent == old(sent) + out.messages && finished == out.finished
    {
      if finished {
        return;
      }
      if !m.Body? {
        sent := sent + [m];
        return;
      }
      if fault == 0 {
        if m.body != "" || !m.more {
          finished := true;
          sent := sent + [Body(EventStream.ObserverClose(), false)];
        }
        return;
      }
      if m.body != "" {
        finished := true;
        sent := sent + [Body(m.body, false)];
      } else if !m.more {
        finished := true;
        sent := sent + [m];
      }
    }
  }

  class MutationDisconnectFaults {
    const provider: DashboardContractProvider
    var initialRunRequests: nat
    var initialMutationIds: seq<string>
    var initialMutationRequests: map<string, nat>
    var inboxSettleRequests: seq<string>
    var replayRequests: seq<(string, string)>

    constructor (provider: DashboardContractProvider)
      ensures this.provider == provider && Remembered() == NOTHING_SEEN.(queue := provider.queue)
    {
      this.provider := provider;
      initialRunRequests, initialMutationIds, initialMutationRequests := 0, [], map[];
      inboxSettleRequests, replayRequests := [], [];
    }

    ghost function Remembered(): Seen
      reads this, provider
    {
      Seen(initialRunRequests, initialMutationIds, initialMutationRequests, inboxSettleRequests, replayRequests, provider.queue)
    }

    /** `__call__`; `stream` is what the application sends. */
    method Call(s: Scope, stream: seq<Message>) returns (sent: seq<Message>)
      modifies this, provider
      ensures Remembered() == Arrive(old(Remembered()), s)
      ensures var route := RouteOf(old(Remembered()), s);
              sent == if route.Injected? then Transform(route.fault, false, stream) else stream
      ensures provider.replayMarkers == old(provider.replayMarkers)
    {
      if s.kind == "http" && s.verb == "POST" && IsInboxSettle(s.path) {
        inboxSettleRequests := inboxSettleRequests + [s.path];
      }
      var isRunPost := s.kind == "http" && s.verb == "POST" && s.path == "/api/run";
      if s.kind == "http" && s.verb == "POST" && s.replay.None? && s.mutationId != "" {
        var count := if s.path in initialMutationRequests then initialMutationRequests[s.path] else 0;
        initialMutationRequests := initialMutationRequests[s.path := count + 1];
      }
      if isRunPost && s.replay.Some? {
        replayRequests := replayRequests + [(s.replay.value, s.mutationId)];
        provider.ReleaseAfterReplay(s.replay.value);
        return stream;
      }
      if !(isRunPost && s.replay.None? && initialRunRequests < 2) {
        return stream;
      }
      var fault := initialRunRequests;
      initialRunRequests := initialRunRequests + 1;
      initialMutationIds := initialMutationIds + [s.mutationId];
      var sender := new FaultSender(fault);
      sent := Forward(sender, stream);
    }

    /** The application's messages, one after the other. */
    method Forward(sender: FaultSender, stream: seq<Message>) returns (sent: seq<Message>)
      requires !sender.finished && sender.sent == []
      modifies sender
      ensures sent == Transform(sender.fault, false, stream)
    {
      ghost var whole := Transform(sender.fault, false, stream);
      assert stream[0..] == stream;
      for k := 0 to |stream|
        invariant sender.sent + Transform(sender.fault, sender.finished, stream[k..]) == whole
      {
        assert stream[k..][0] == stream[k] && stream[k..][1..] == stream[k + 1..];
        sender.Send(stream[k]);
      }
      sent := sender.sent;
    }
  }
}
