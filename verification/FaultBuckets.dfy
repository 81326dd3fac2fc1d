/** What the buckets say about a whole run: which failures are excused, and that none is lost. */
module FaultBuckets {
  import opened FaultLedger
  import opened FaultMatches
  import opened Paths
  import opened Wrappers

  // ---------------------------------------------------------------- what is excused

  /** Only a request that the browser itself cancelled is excused. */
  lemma OnlyAbortsAreExcused(r: Request, observerPaths: set<string>)
    ensures FailureBucket(r, observerPaths) != RequestFailures ==> IsAborted(r)
  {
  }

  predicate IsReadPost(path: string) {
    path == "/api/sessions/summary" || path == "/api/usage/rollup" || ("/api/sessions/" <= path && EndsWith(path, "/topology"))
  }

  lemma UnderApi(head: string, path: string)
    requires "/api/" <= head <= path
    ensures "/api/" <= path
  {
  }

  lemma TopologyIsRead(session: string)
    ensures IsReadPost(TopologyPath(session))
  {
    var head, end := "/api/sessions/" + session, "/topology";
    assert (head + end)[|head|..] == end;
  }

  lemma QueryAbortsAreReads(r: Request)
    requires IsQueryAbort(r)
    ensures (r.verb == "GET" && "/api/" <= r.path) || (r.verb == "POST" && IsReadPost(r.path))
  {
    if r.verb == "POST" {
      TopologyIsRead(FOCUS_SESSION);
    } else if "/api/evals/run-views/" <= r.path {
      UnderApi("/api/evals/run-views/", r.path);
    } else if "/api/evals/suite-views" <= r.path {
      UnderApi("/api/evals/suite-views", r.path);
    } else if "/api/evals/corpora/" <= r.path {
      UnderApi("/api/evals/corpora/", r.path);
    }
  }

  /**
   For a request without a mutation id, the special cases decide only which bucket it goes to: it counts as a
   failure unless it was cancelled and was an observer or a read.
   */
  lemma SpecialCasesOnlySort(r: Request, observerPaths: set<string>)
    requires r.mutationId.None?
    ensures FailureBucket(r, observerPaths) == RequestFailures
            <==> !(IsAborted(r)
                   && ((r.verb == "POST" && (r.path in observerPaths || IsReadPost(r.path)))
                       || (r.verb == "GET" && "/api/" <= r.path)))
  {
    if IsQueryAbort(r) {
      QueryAbortsAreReads(r);
    }
  }

  predicate Harmless(e: Event) {
    || (e.Console? && !e.isError)
    || (e.Responded? && (e.code < 400 || !Contains(e.request.url, "/api/")))
  }

  /** What is ignored is harmless: no failed request, no error message and no error response of the interface. */
  lemma {:induction false} IgnoredIsHarmless(events: seq<Event>, observerPaths: set<string>)
    ensures forall e :: e in HandleAll(events, observerPaths).ignored ==> Harmless(e)
  {
    if events != [] {
      IgnoredIsHarmless(events[..|events| - 1], observerPaths);
      IgnoresHarmless(HandleAll(events[..|events| - 1], observerPaths), events[|events| - 1], observerPaths);
    }
  }

  lemma IgnoresHarmless(p: Page, e: Event, observerPaths: set<string>)
    ensures Handle(p, e, observerPaths).ignored == p.ignored
            || (Handle(p, e, observerPaths).ignored == p.ignored + [e] && Harmless(e))
  {
    if e.Responded? {
      ErrorsHaveABucket(e.request, e.code);
    }
  }

  lemma ErrorsHaveABucket(r: Request, code: int)
    ensures ResponseBucket(r, code).None? ==> code < 400 || !Contains(r.url, "/api/")
  {
  }

  lemma {:induction false} NoneOfKind(events: seq<Event>, kind: Kind)
    requires forall k :: 0 <= k < |events| ==> KindOf(events[k]) != kind
    ensures Count(events, kind) == 0
  {
    if events != [] {
      NoneOfKind(events[..|events| - 1], kind);
    }
  }

  /**
   When the check of the buckets passes: the page had no error of its own, every failed request was injected
   or is in a bucket of expected ones, and every error message was silenced or is in such a bucket.
   */
  lemma CleanRunIsExplained(events: seq<Event>, observerPaths: set<string>)
    requires NoFailures(HandleAll(events, observerPaths))
    ensures var p := HandleAll(events, observerPaths);
            && Count(events, Crash) == 0
            && Count(events, Failure)
               == Count(EventsOf(p.consumed), Failure)
                  + Size(p.buckets, ObserverAborts) + Size(p.buckets, QueryAborts) + Size(p.buckets, SupersededReads)
            && Count(events, Message)
               == |p.silenced| + Size(p.buckets, EditConsole) + Size(p.buckets, UsageConsole) + Size(p.buckets, QueueConsole)
  {
    var p := HandleAll(events, observerPaths);
    EverythingIsPlaced(events, observerPaths, Crash);
    EverythingIsPlaced(events, observerPaths, Failure);
    EverythingIsPlaced(events, observerPaths, Message);
    LedgerKept(events, observerPaths);
    SilencedKinds(p);
    ConsumedKinds(p);
    IgnoredKinds(events, observerPaths);
  }

  /** For every run: each failed request was taken for an injected fault or is in one of its four buckets. */
  lemma FailuresAddUp(events: seq<Event>, observerPaths: set<string>)
    ensures var p := HandleAll(events, observerPaths);
            Count(events, Failure)
            == Count(EventsOf(p.consumed), Failure)
               + Size(p.buckets, ObserverAborts) + Size(p.buckets, QueryAborts) + Size(p.buckets, SupersededReads)
               + Size(p.buckets, RequestFailures)
  {
    var p := HandleAll(events, observerPaths);
    EverythingIsPlaced(events, observerPaths, Failure);
    LedgerKept(events, observerPaths);
    SilencedKinds(p);
    IgnoredKinds(events, observerPaths);
  }

  lemma ConsumedKinds(p: Page)
    requires ConsumedOk(p)
    ensures Count(EventsOf(p.consumed), Crash) == 0 && Count(EventsOf(p.consumed), Message) == 0
  {
    NoneOfKind(EventsOf(p.consumed), Crash);
    NoneOfKind(EventsOf(p.consumed), Message);
  }

  lemma IgnoredKinds(events: seq<Event>, observerPaths: set<string>)
    ensures var ignored := HandleAll(events, observerPaths).ignored;
            Count(ignored, Crash) == 0 && Count(ignored, Failure) == 0 && Count(ignored, Message) == 0
  {
    IgnoredIsHarmless(events, observerPaths);
    var ignored := HandleAll(events, observerPaths).ignored;
    forall k | 0 <= k < |ignored| ensures KindOf(ignored[k]) == Remark || KindOf(ignored[k]) == Response {
      assert ignored[k] in ignored;
    }
    NoneOfKind(ignored, Crash);
    NoneOfKind(ignored, Failure);
    NoneOfKind(ignored, Message);
  }

  lemma {:induction false} AllOfKind(events: seq<Event>, kind: Kind)
    requires forall k :: 0 <= k < |events| ==> KindOf(events[k]) == kind
    ensures Count(events, kind) == |events|
  {
    if events != [] {
      AllOfKind(events[..|events| - 1], kind);
    }
  }

  lemma SilencedKinds(p: Page)
    requires SilencedOk(p)
    ensures var m := EventsOf(p.silenced);
            Count(m, Message) == |m| && Count(m, Crash) == 0 && Count(m, Failure) == 0
  {
    var m := EventsOf(p.silenced);
    assert forall k :: 0 <= k < |m| ==> KindOf(m[k]) == Message;
    AllOfKind(m, Message);
    NoneOfKind(m, Crash);
    NoneOfKind(m, Failure);
  }
}
