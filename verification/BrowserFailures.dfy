/** The ledger and the event handlers as they are written, each proved to do one step of the model. */
module BrowserFailures {
  import opened FaultLedger
  import opened Paths
  import opened Wrappers

  class FailureRecorder {
    const observerPaths: set<string>
    var faults: seq<Fault>
    var buckets: map<Bucket, seq<Event>>
    ghost var registrations: seq<Event>
    ghost var consumed: seq<Match>
    ghost var silenced: seq<Match>
    ghost var ignored: seq<Event>
    var next: nat

    ghost function State(): Page
      reads this
    {
      Page(faults, buckets, registrations, consumed, silenced, ignored)
    }

    ghost predicate Valid()
      reads this
    {
      next == |registrations|
    }

    constructor (observerPaths: set<string>)
      ensures Valid() && State() == FRESH_PAGE && this.observerPaths == observerPaths
    {
      this.observerPaths := observerPaths;
      faults, buckets, next := [], map[], 0;
      registrations, consumed, silenced, ignored := [], [], [], [];
    }

    method Find(id: nat) returns (k: nat)
      ensures k == PlaceOf(faults, id)
    {
      k := 0;
      while k < |faults| && faults[k].request.id != id
        invariant k <= |faults|
        invariant PlaceOf(faults, id) == k + PlaceOf(faults[k..], id)
      {
        assert faults[k..][1..] == faults[k + 1..];
        k := k + 1;
      }
    }

    /** `_expect_eval_fault`. */
    method ExpectFault(request: Request, status: Option<int>, failure: Option<string>)
      requires Valid()
      modifies this
      ensures Valid() && State() == Handle(old(State()), Expect(request, status, failure), observerPaths)
    {
      var k := Find(request.id);
      var f := Fault(request, next, status, failure, false, false);
      faults := if k < |faults| then faults[k := f] else faults + [f];
      next := next + 1;
      registrations := registrations + [Expect(request, status, failure)];
    }

    /** `_consume_eval_fault`. */
    method ConsumeFault(id: nat, status: Option<int>, failure: Option<string>, ghost e: Event) returns (taken: bool)
      requires Valid()
      modifies this`faults, this`consumed
      ensures Valid()
      ensures var k := PlaceOf(old(faults), id);
              && (taken <==> k < |old(faults)| && Fits(old(faults)[k], status, failure))
              && State() == if taken then Consumed(old(State()), k, e) else old(State())
    {
      var k := Find(id);
      if k >= |faults| || faults[k].observed || (faults[k].status, faults[k].failure) != (status, failure) {
        return false;
      }
      consumed := consumed + [Match(faults[k].serial, e)];
      faults := faults[k := faults[k].(observed := true)];
      return true;
    }

    /** `_consume_eval_fault_console`: the first fault with this address and this text. */
    method ConsumeConsole(text: string, url: Option<string>, ghost e: Event) returns (taken: bool)
      requires Valid()
      modifies this`faults, this`silenced
      ensures Valid()
      ensures var k := Silencer(old(faults), text, url);
              && (taken <==> k < |old(faults)|)
              && State() == if taken then Silenced(old(State()), k, e) else old(State())
    {
      var k := 0;
      while k < |faults|
        invariant k <= |faults| && State() == old(State())
        invariant Silencer(faults, text, url) == k + Silencer(faults[k..], text, url)
      {
        assert faults[k..][0] == faults[k] && faults[k..][1..] == faults[k + 1..];
        if !faults[k].console && Some(faults[k].request.url) == url && FaultText(faults[k]) == Some(text) {
          silenced := silenced + [Match(faults[k].serial, e)];
          faults := faults[k := faults[k].(console := true)];
          return true;
        }
        k := k + 1;
      }
      return false;
    }

    method Append(b: Bucket, e: Event)
      requires Valid()
      modifies this`buckets
      ensures Valid() && State() == File(old(State()), b, e)
    {
      buckets := buckets[b := Listed(buckets, b) + [e]];
    }

    /** `record_request_failure`. */
    method RecordRequestFailure(r: Request)
      requires Valid()
      modifies this
      ensures Valid() && State() == Handle(old(State()), Failed(r), observerPaths)
    {
      var taken := ConsumeFault(r.id, None, r.failure, Failed(r));
      if taken {
        return;
      }
      if r.verb == "POST" && r.path in observerPaths && r.failure == Some(ABORTED) {
        Append(ObserverAborts, Failed(r));
      } else if r.failure == Some(ABORTED) && IsQueryAbort(r) {
        Append(QueryAborts, Failed(r));
      } else if IsSupersededRead(r) {
        Append(SupersededReads, Failed(r));
      } else {
        Append(RequestFailures, Failed(r));
      }
    }

    /** `record_response`. */
    method RecordResponse(r: Request, code: int)
      requires Valid()
      modifies this
      ensures Valid() && State() == Handle(old(State()), Responded(r, code), observerPaths)
    {
      var taken := ConsumeFault(r.id, Some(code), None, Responded(r, code));
      if taken {
        return;
      }
      var b := ResponseBucket(r, code);
      if b.Some? {
        Append(b.value, Responded(r, code));
      } else {
        ignored := ignored + [Responded(r, code)];
      }
    }

    /** `record_console`. */
    method RecordConsole(isError: bool, text: string, url: Option<string>, path: string)
      requires Valid()
      modifies this
      ensures Valid() && State() == Handle(old(State()), Console(isError, text, url, path), observerPaths)
    {
      if !isError {
        ignored := ignored + [Console(isError, text, url, path)];
        return;
      }
      var taken := ConsumeConsole(text, url, Console(isError, text, url, path));
      if taken {
        return;
      }
      Append(ConsoleBucket(text, path), Console(isError, text, url, path));
    }

    method RecordPageError(text: string)
      requires Valid()
      modifies this
      ensures Valid() && State() == Handle(old(State()), PageError(text), observerPaths)
    {
      Append(PageErrors, PageError(text));
    }

    /** `_require_expected_eval_faults`: the ledger is emptied by the check, whatever it finds. */
    method RequireExpectedFaults() returns (ok: bool)
      requires Valid()
      modifies this`faults
      ensures Valid() && State() == old(State()).(faults := [])
      ensures ok <==> AllObserved(old(State()))
    {
      var mine := faults;
      faults := [];
      ok := forall k :: 0 <= k < |mine| ==> mine[k].observed;
    }

    /** `_require_no_browser_failures`. */
    method RequireNoFailures() returns (ok: bool)
      ensures ok <==> NoFailures(State())
    {
      ok := Listed(buckets, RequestFailures) == [] && Listed(buckets, ApiErrors) == []
            && Listed(buckets, ConsoleErrors) == [] && Listed(buckets, PageErrors) == [];
    }
  }
}
