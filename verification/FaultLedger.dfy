/**
 The ledger of injected faults and the classifier of browser failures.  A fault is tied to one intercepted
 request; every failure that the browser reports is either taken for an injected one or put into exactly one
 bucket, and a test passes only with every fault seen and no bucket of unexpected failures filled.
 */
module FaultLedger {
  import opened Paths
  import opened Sequences
  import opened Wrappers

  /** What the handlers look at; `agent` and `expanded` come from a JSON body, `search` from the query. */
  datatype Request = Request(
    id: nat,
    verb: string,
    url: string,
    path: string,
    search: seq<string>,
    mutationId: Option<string>,
    failure: Option<string>,
    agent: Option<string>,
    expanded: seq<string>)

  datatype Event =
    | Expect(request: Request, status: Option<int>, failure: Option<string>)
    | Failed(request: Request)
    | Responded(request: Request, code: int)
    | Console(isError: bool, text: string, url: Option<string>, path: string)
    | PageError(text: string)

  /** An injected fault; `serial` numbers the registrations. */
  datatype Fault = Fault(
    request: Request,
    serial: nat,
    status: Option<int>,
    failure: Option<string>,
    observed: bool,
    console: bool)

  datatype Bucket =
    | ObserverAborts | QueryAborts | SupersededReads | RequestFailures
    | EditRejections | UsageRejections | QueueRejections | ApiErrors
    | EditConsole | UsageConsole | QueueConsole | ConsoleErrors
    | PageErrors

  // ---------------------------------------------------------------- which bucket

  const ABORTED := "net::ERR_ABORTED"
  const FAILED := "net::ERR_FAILED"
  const RESOURCE := "Failed to load resource: "
  const TEXT_FAILED := RESOURCE + FAILED
  const TEXT_403 := StatusText("403 (Forbidden)")
  const TEXT_409 := StatusText("409 (Conflict)")
  const TEXT_422 := StatusText("422 (Unprocessable Entity)")
  const TEXT_501 := StatusText("501 (Not Implemented)")
  const SLOW_SESSION_QUERY := "dashboard-contract-slow-query"
  const SLOW_USAGE_AGENT := "dashboard-contract-slow-usage-agent"
  const FOCUS_SESSION := "dashboard-workflow-focus"
  const ACTIVE_CHILD := "dashboard-workflow-child-active"
  const FAILED_CHILD := "dashboard-workflow-child-failed"
  const LABELS := "/api/sessions/dashboard-contract-session/labels"

  function StatusText(status: string): string {
    RESOURCE + "the server responded with a status of " + status
  }

  predicate IsAborted(r: Request) {
    r.failure == Some(ABORTED)
  }

  function TopologyPath(session: string): string {
    "/api/sessions/" + session + "/topology"
  }

  predicate IsQueryAbort(r: Request) {
    || (r.verb == "GET" && r.path == "/api/sessions" && r.search == [SLOW_SESSION_QUERY])
    || (r.verb == "POST" && r.path == "/api/usage/rollup" && r.agent == Some(SLOW_USAGE_AGENT))
    || (r.verb == "GET" && (r.path == "/api/evals/runs" || "/api/evals/run-views/" <= r.path))
    || (r.verb == "GET" && ("/api/evals/suite-views" <= r.path || r.path == "/api/evals/corpora" || "/api/evals/corpora/" <= r.path))
    || (r.verb == "POST" && r.path == TopologyPath(FOCUS_SESSION) && ACTIVE_CHILD in r.expanded && FAILED_CHILD !in r.expanded)
  }

  /** A read that the browser cancelled while the page moved on. */
  predicate IsSupersededRead(r: Request) {
    && IsAborted(r) && r.mutationId.None?
    && (|| (r.verb == "GET" && "/api/" <= r.path)
        || (r.verb == "POST" && (r.path == "/api/sessions/summary" || r.path == "/api/usage/rollup"
                                 || ("/api/sessions/" <= r.path && EndsWith(r.path, "/topology")))))
  }

  function FailureBucket(r: Request, observerPaths: set<string>): Bucket {
    if r.verb == "POST" && r.path in observerPaths && IsAborted(r) then ObserverAborts
    else if IsAborted(r) && IsQueryAbort(r) then QueryAborts
    else if IsSupersededRead(r) then SupersededReads
    else RequestFailures
  }

  predicate IsMessages(path: string) {
    OneSegment(path, "/api/sessions/", "/messages")
  }

  /** `None` for a response that is no error of the interface. */
  function ResponseBucket(r: Request, code: int): Option<Bucket> {
    if code == 422 && r.verb == "PATCH" && r.path == LABELS then Some(EditRejections)
    else if code == 501 && r.verb == "POST" && r.path == "/api/usage/rollup" then Some(UsageRejections)
    else if code == 403 && r.verb == "GET" && IsMessages(r.path) then Some(QueueRejections)
    else if Contains(r.url, "/api/") && code >= 400 then Some(ApiErrors)
    else None
  }

  function ConsoleBucket(text: string, path: string): Bucket {
    if text == TEXT_422 then EditConsole
    else if text == TEXT_501 then UsageConsole
    else if text == TEXT_403 && IsMessages(path) then QueueConsole
    else ConsoleErrors
  }

  /** The console message that a fault may silence. */
  function FaultText(f: Fault): Option<string> {
    if f.failure == Some(FAILED) then Some(TEXT_FAILED)
    else if f.status == Some(403) then Some(TEXT_403)
    else if f.status == Some(409) then Some(TEXT_409)
    else if f.status == Some(422) then Some(TEXT_422)
    else None
  }

  // ---------------------------------------------------------------- the ledger

  /** The place of a request in the ledger, or its length. */
  function PlaceOf(faults: seq<Fault>, id: nat): (k: nat)
    ensures k <= |faults|
    ensures k < |faults| ==> faults[k].request.id == id
    ensures forall i :: 0 <= i < k ==> faults[i].request.id != id
  {
    if faults == [] || faults[0].request.id == id then 0 else 1 + PlaceOf(faults[1..], id)
  }

  /** A request that is registered again keeps its place and starts over. */
  function Registered(faults: seq<Fault>, f: Fault): seq<Fault> {
    var k := PlaceOf(faults, f.request.id);
    if k < |faults| then faults[k := f] else faults + [f]
  }

  predicate Fits(f: Fault, status: Option<int>, failure: Option<string>) {
    !f.observed && f.status == status && f.failure == failure
  }

  predicate Silences(f: Fault, text: string, url: Option<string>) {
    !f.console && url == Some(f.request.url) && FaultText(f) == Some(text)
  }

  /** The first fault that silences a message, or the length of the ledger. */
  function Silencer(faults: seq<Fault>, text: string, url: Option<string>): (k: nat)
    ensures k <= |faults|
    ensures k < |faults| ==> Silences(faults[k], text, url)
    ensures forall i :: 0 <= i < k ==> !Silences(faults[i], text, url)
  {
    if faults == [] || Silences(faults[0], text, url) then 0 else 1 + Silencer(faults[1..], text, url)
  }

  /** An event that was taken for an injected fault, with the number of the fault's registration. */
  datatype Match = Match(serial: nat, event: Event)

  /** The ledger, the buckets, and what has happened so far. */
  datatype Page = Page(
    faults: seq<Fault>,
    buckets: map<Bucket, seq<Event>>,
    registrations: seq<Event>,
    consumed: seq<Match>,
    silenced: seq<Match>,
    ignored: seq<Event>)

  const FRESH_PAGE := Page([], map[], [], [], [], [])

  function Listed(buckets: map<Bucket, seq<Event>>, b: Bucket): seq<Event> {
    if b in buckets then buckets[b] else []
  }

  function File(p: Page, b: Bucket, e: Event): Page {
    p.(buckets := p.buckets[b := Listed(p.buckets, b) + [e]])
  }

  function Consumed(p: Page, k: nat, e: Event): Page
    requires k < |p.faults|
  {
    p.(faults := p.faults[k := p.faults[k].(observed := true)], consumed := p.consumed + [Match(p.faults[k].serial, e)])
  }

  function Silenced(p: Page, k: nat, e: Event): Page
    requires k < |p.faults|
  {
    p.(faults := p.faults[k := p.faults[k].(console := true)], silenced := p.silenced + [Match(p.faults[k].serial, e)])
  }

  /** An event about a request with this outcome: an injected fault is consumed, anything else is filed. */
  function Outcome(p: Page, e: Event, id: nat, status: Option<int>, failure: Option<string>, b: Option<Bucket>): Page {
    var k := PlaceOf(p.faults, id);
    if k < |p.faults| && Fits(p.faults[k], status, failure) then
      Consumed(p, k, e)
    else
      match b
      case None => p.(ignored := p.ignored + [e])
      case Some(bucket) => File(p, bucket, e)
  }

  function Handle(p: Page, e: Event, observerPaths: set<string>): Page {
    match e
    case Expect(r, status, failure) =>
      p.(faults := Registered(p.faults, Fault(r, |p.registrations|, status, failure, false, false)),
         registrations := p.registrations + [e])
    case Failed(r) => Outcome(p, e, r.id, None, r.failure, Some(FailureBucket(r, observerPaths)))
    case Responded(r, code) => Outcome(p, e, r.id, Some(code), None, ResponseBucket(r, code))
    case Console(isError, text, url, path) =>
      if !isError then p.(ignored := p.ignored + [e])
      else
        var k := Silencer(p.faults, text, url);
        if k < |p.faults| then
          Silenced(p, k, e)
        else File(p, ConsoleBucket(text, path), e)
    case PageError(_) => File(p, PageErrors, e)
  }

  function HandleAll(events: seq<Event>, observerPaths: set<string>): Page {
    if events == [] then FRESH_PAGE
    else Handle(HandleAll(events[..|events| - 1], observerPaths), events[|events| - 1], observerPaths)
  }

  /** `_require_expected_eval_faults`. */
  predicate AllObserved(p: Page) {
    forall k :: 0 <= k < |p.faults| ==> p.faults[k].observed
  }

  /** `_require_no_browser_failures`. */
  predicate NoFailures(p: Page) {
    Listed(p.buckets, RequestFailures) == [] && Listed(p.buckets, ApiErrors) == []
    && Listed(p.buckets, ConsoleErrors) == [] && Listed(p.buckets, PageErrors) == []
  }

  // ---------------------------------------------------------------- every failure is somewhere, once

  datatype Kind = Registration | Failure | Response | Message | Remark | Crash

  function KindOf(e: Event): Kind {
    match e
    case Expect(_, _, _) => Registration
    case Failed(_) => Failure
    case Responded(_, _) => Response
    case Console(isError, _, _, _) => if isError then Message else Remark
    case PageError(_) => Crash
  }

  function KindOfBucket(b: Bucket): Kind {
    match b
    case ObserverAborts => Failure
    case QueryAborts => Failure
    case SupersededReads => Failure
    case RequestFailures => Failure
    case EditRejections => Response
    case UsageRejections => Response
    case QueueRejections => Response
    case ApiErrors => Response
    case EditConsole => Message
    case UsageConsole => Message
    case QueueConsole => Message
    case ConsoleErrors => Message
    case PageErrors => Crash
  }

  function Count(events: seq<Event>, kind: Kind): nat {
    if events == [] then 0
    else Count(events[..|events| - 1], kind) + if KindOf(events[|events| - 1]) == kind then 1 else 0
  }

  function EventsOf(matches: seq<Match>): (events: seq<Event>)
    ensures |events| == |matches| && forall k :: 0 <= k < |matches| ==> events[k] == matches[k].event
  {
    seq(|matches|, k requires 0 <= k < |matches| => matches[k].event)
  }

  function Size(buckets: map<Bucket, seq<Event>>, b: Bucket): nat {
    |Listed(buckets, b)|
  }

  /** How many events of a kind are in buckets. */
  function Bucketed(buckets: map<Bucket, seq<Event>>, kind: Kind): nat {
    match kind
    case Failure =>
      Size(buckets, ObserverAborts) + Size(buckets, QueryAborts) + Size(buckets, SupersededReads) + Size(buckets, RequestFailures)
    case Response =>
      Size(buckets, EditRejections) + Size(buckets, UsageRejections) + Size(buckets, QueueRejections) + Size(buckets, ApiErrors)
    case Message =>
      Size(buckets, EditConsole) + Size(buckets, UsageConsole) + Size(buckets, QueueConsole) + Size(buckets, ConsoleErrors)
    case Crash => Size(buckets, PageErrors)
    case _ => 0
  }

  /** How many events of a kind were taken for injected faults, ignored or put into a bucket. */
  function Placed(p: Page, kind: Kind): nat {
    Count(EventsOf(p.consumed), kind) + Count(EventsOf(p.silenced), kind) + Count(p.ignored, kind) + Bucketed(p.buckets, kind)
  }

  function One(b: bool): nat {
    if b then 1 else 0
  }

  lemma CountAppend(events: seq<Event>, e: Event, kind: Kind)
    ensures Count(events + [e], kind) == Count(events, kind) + One(KindOf(e) == kind)
  {
    assert (events + [e])[..|events|] == events;
  }

  lemma CountMatch(matches: seq<Match>, m: Match, kind: Kind)
    ensures Count(EventsOf(matches + [m]), kind) == Count(EventsOf(matches), kind) + One(KindOf(m.event) == kind)
  {
    assert EventsOf(matches + [m]) == EventsOf(matches) + [m.event];
    CountAppend(EventsOf(matches), m.event, kind);
  }

  lemma FilingCounts(buckets: map<Bucket, seq<Event>>, b: Bucket, e: Event, kind: Kind)
    ensures Bucketed(buckets[b := Listed(buckets, b) + [e]], kind) == Bucketed(buckets, kind) + One(KindOfBucket(b) == kind)
  {
    var more := buckets[b := Listed(buckets, b) + [e]];
    assert forall c :: Size(more, c) == Size(buckets, c) + One(c == b);
  }

  lemma FileCounts(p: Page, b: Bucket, e: Event, kind: Kind)
    requires KindOfBucket(b) == KindOf(e)
    ensures Placed(File(p, b, e), kind) == Placed(p, kind) + One(KindOf(e) == kind)
  {
    FilingCounts(p.buckets, b, e, kind);
  }

  lemma OutcomeCounts(p: Page, e: Event, id: nat, status: Option<int>, failure: Option<string>, b: Option<Bucket>, kind: Kind)
    requires b.Some? ==> KindOfBucket(b.value) == KindOf(e)
    ensures Placed(Outcome(p, e, id, status, failure, b), kind) == Placed(p, kind) + One(KindOf(e) == kind)
  {
    var k := PlaceOf(p.faults, id);
    if k < |p.faults| && Fits(p.faults[k], status, failure) {
      CountMatch(p.consumed, Match(p.faults[k].serial, e), kind);
    } else if b.None? {
      CountAppend(p.ignored, e, kind);
    } else {
      FileCounts(p, b.value, e, kind);
    }
  }

  lemma FailureBucketKind(r: Request, observerPaths: set<string>)
    ensures KindOfBucket(FailureBucket(r, observerPaths)) == Failure
  {
  }

  lemma ResponseBucketKind(r: Request, code: int)
    ensures ResponseBucket(r, code).Some? ==> KindOfBucket(ResponseBucket(r, code).value) == Response
  {
  }

  lemma ConsoleBucketKind(text: string, path: string)
    ensures KindOfBucket(ConsoleBucket(text, path)) == Message
  {
  }

  lemma ConsoleCounts(p: Page, e: Event, observerPaths: set<string>, kind: Kind)
    requires e.Console?
    ensures Placed(Handle(p, e, observerPaths), kind) == Placed(p, kind) + One(KindOf(e) == kind)
  {
    if !e.isError {
      CountAppend(p.ignored, e, kind);
    } else {
      var k := Silencer(p.faults, e.text, e.url);
      if k < |p.faults| {
        CountMatch(p.silenced, Match(p.faults[k].serial, e), kind);
      } else {
        ConsoleBucketKind(e.text, e.path);
        FileCounts(p, ConsoleBucket(e.text, e.path), e, kind);
      }
    }
  }

  lemma HandleCounts(p: Page, e: Event, observerPaths: set<string>, kind: Kind)
    requires kind != Registration
    ensures Placed(Handle(p, e, observerPaths), kind) == Placed(p, kind) + One(KindOf(e) == kind)
  {
    match e
    case Expect(_, _, _) =>
    case Failed(r) =>
      FailureBucketKind(r, observerPaths);
      OutcomeCounts(p, e, r.id, None, r.failure, Some(FailureBucket(r, observerPaths)), kind);
    case Responded(r, code) =>
      ResponseBucketKind(r, code);
      OutcomeCounts(p, e, r.id, Some(code), None, ResponseBucket(r, code), kind);
    case Console(_, _, _, _) => ConsoleCounts(p, e, observerPaths, kind);
    case PageError(_) => FileCounts(p, PageErrors, e, kind);
  }

  /**
   Nothing that the browser reports is lost or counted twice: for every kind of event, those taken for an
   injected fault, those ignored and those in the buckets of the kind add up to all of them.
   */
  lemma {:induction false} EverythingIsPlaced(events: seq<Event>, observerPaths: set<string>, kind: Kind)
    requires kind != Registration
    ensures Placed(HandleAll(events, observerPaths), kind) == Count(events, kind)
  {
    if events != [] {
      EverythingIsPlaced(events[..|events| - 1], observerPaths, kind);
      HandleCounts(HandleAll(events[..|events| - 1], observerPaths), events[|events| - 1], observerPaths, kind);
    }
  }
}
