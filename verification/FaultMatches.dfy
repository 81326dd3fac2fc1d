/** Injected faults are used once, each by an event of its own, and the final check asks for all of them. */
module FaultMatches {
  import opened FaultLedger
  import opened Sequences
  import opened Wrappers

  function Serials(matches: seq<Match>): (serials: seq<nat>)
    ensures |serials| == |matches| && forall k :: 0 <= k < |matches| ==> serials[k] == matches[k].serial
  {
    seq(|matches|, k requires 0 <= k < |matches| => matches[k].serial)
  }

  /** The event is about the registered request, with the registered outcome. */
  predicate IsOutcome(e: Event, registration: Event)
    requires registration.Expect?
  {
    match e
    case Failed(r) => r.id == registration.request.id && registration.status == None && registration.failure == r.failure
    case Responded(r, code) => r.id == registration.request.id && registration.status == Some(code) && registration.failure == None
    case _ => false
  }

  predicate IsDiagnostic(e: Event, registration: Event)
    requires registration.Expect?
  {
    e.Console? && e.isError && e.url == Some(registration.request.url)
  }

  /** No later registration is for the same request. */
  predicate IsLast(registrations: seq<Event>, k: nat)
    requires forall m :: 0 <= m < |registrations| ==> registrations[m].Expect?
  {
    k < |registrations| && forall m :: k < m < |registrations| ==> registrations[m].request.id != registrations[k].request.id
  }

  predicate AllExpect(registrations: seq<Event>) {
    forall m :: 0 <= m < |registrations| ==> registrations[m].Expect?
  }

  predicate ConsumedOk(p: Page) {
    && AllExpect(p.registrations)
    && AllDifferent(Serials(p.consumed))
    && (forall k :: 0 <= k < |p.consumed| ==>
          p.consumed[k].serial < |p.registrations| && IsOutcome(p.consumed[k].event, p.registrations[p.consumed[k].serial]))
  }

  predicate SilencedOk(p: Page) {
    && AllExpect(p.registrations)
    && AllDifferent(Serials(p.silenced))
    && (forall k :: 0 <= k < |p.silenced| ==>
          p.silenced[k].serial < |p.registrations| && IsDiagnostic(p.silenced[k].event, p.registrations[p.silenced[k].serial]))
  }

  /** An entry stands for the last registration of its request. */
  predicate EntryOk(p: Page, f: Fault) {
    && AllExpect(p.registrations)
    && IsLast(p.registrations, f.serial)
    && p.registrations[f.serial] == Expect(f.request, f.status, f.failure)
    && (f.observed <==> f.serial in Serials(p.consumed))
    && (f.console <==> f.serial in Serials(p.silenced))
  }

  predicate FaultsOk(p: Page) {
    && AllExpect(p.registrations)
    && (forall i :: 0 <= i < |p.faults| ==> EntryOk(p, p.faults[i]))
    && (forall i, k :: 0 <= i < k < |p.faults| ==> p.faults[i].request.id != p.faults[k].request.id)
    && (forall m :: 0 <= m < |p.registrations| ==> PlaceOf(p.faults, p.registrations[m].request.id) < |p.faults|)
  }

  predicate LedgerOk(p: Page) {
    ConsumedOk(p) && SilencedOk(p) && FaultsOk(p)
  }

  lemma SerialsAppend(matches: seq<Match>, m: Match)
    ensures Serials(matches + [m]) == Serials(matches) + [m.serial]
  {
  }

  /** Two entries never stand for the same registration. */
  lemma SerialsDiffer(p: Page, i: nat, k: nat)
    requires FaultsOk(p) && i < |p.faults| && k < |p.faults| && i != k
    ensures p.faults[i].serial != p.faults[k].serial
  {
    assert EntryOk(p, p.faults[i]) && EntryOk(p, p.faults[k]);
  }

  /** A change of the marks only. */
  predicate SameEntries(a: seq<Fault>, b: seq<Fault>) {
    && |a| == |b|
    && forall k :: 0 <= k < |a| ==>
         b[k].request == a[k].request && b[k].serial == a[k].serial && b[k].status == a[k].status && b[k].failure == a[k].failure
  }

  lemma SamePlace(a: seq<Fault>, b: seq<Fault>, id: nat)
    requires SameEntries(a, b) && PlaceOf(a, id) < |a|
    ensures PlaceOf(b, id) < |b|
  {
    assert b[PlaceOf(a, id)].request.id == id;
  }

  lemma MarkedFaultsOk(p: Page, q: Page)
    requires FaultsOk(p) && SameEntries(p.faults, q.faults) && q.registrations == p.registrations
    requires forall i :: 0 <= i < |q.faults| ==> EntryOk(q, q.faults[i])
    ensures FaultsOk(q)
  {
    forall m | 0 <= m < |q.registrations| ensures PlaceOf(q.faults, q.registrations[m].request.id) < |q.faults| {
      SamePlace(p.faults, q.faults, q.registrations[m].request.id);
    }
  }

  lemma ConsumeKeepsMatches(p: Page, k: nat, e: Event)
    requires ConsumedOk(p) && k < |p.faults| && EntryOk(p, p.faults[k]) && !p.faults[k].observed
    requires IsOutcome(e, p.registrations[p.faults[k].serial])
    ensures ConsumedOk(Consumed(p, k, e))
  {
    SerialsAppend(p.consumed, Match(p.faults[k].serial, e));
    ElementsAppend(Serials(p.consumed), p.faults[k].serial);
  }

  lemma SilenceKeepsMatches(p: Page, k: nat, e: Event)
    requires SilencedOk(p) && k < |p.faults| && EntryOk(p, p.faults[k]) && !p.faults[k].console
    requires IsDiagnostic(e, p.registrations[p.faults[k].serial])
    ensures SilencedOk(Silenced(p, k, e))
  {
    SerialsAppend(p.silenced, Match(p.faults[k].serial, e));
    ElementsAppend(Serials(p.silenced), p.faults[k].serial);
  }

  lemma ConsumeKeepsFaults(p: Page, k: nat, e: Event)
    requires FaultsOk(p) && k < |p.faults|
    ensures FaultsOk(Consumed(p, k, e))
  {
    var q := Consumed(p, k, e);
    SerialsAppend(p.consumed, Match(p.faults[k].serial, e));
    forall i | 0 <= i < |q.faults| ensures EntryOk(q, q.faults[i]) {
      assert EntryOk(p, p.faults[i]);
      if i != k {
        SerialsDiffer(p, i, k);
      }
    }
    MarkedFaultsOk(p, q);
  }

  lemma SilenceKeepsFaults(p: Page, k: nat, e: Event)
    requires FaultsOk(p) && k < |p.faults|
    ensures FaultsOk(Silenced(p, k, e))
  {
    var q := Silenced(p, k, e);
    SerialsAppend(p.silenced, Match(p.faults[k].serial, e));
    forall i | 0 <= i < |q.faults| ensures EntryOk(q, q.faults[i]) {
      assert EntryOk(p, p.faults[i]);
      if i != k {
        SerialsDiffer(p, i, k);
      }
    }
    MarkedFaultsOk(p, q);
  }

  /** Neither the ledger nor the matches change. */
  lemma UnchangedLedger(p: Page, q: Page)
    requires LedgerOk(p)
    requires q.faults == p.faults && q.registrations == p.registrations && q.consumed == p.consumed && q.silenced == p.silenced
    ensures LedgerOk(q)
  {
    forall i | 0 <= i < |q.faults| ensures EntryOk(q, q.faults[i]) {
      assert EntryOk(p, p.faults[i]);
    }
  }

  lemma OutcomeKeepsLedger(p: Page, e: Event, id: nat, status: Option<int>, failure: Option<string>, b: Option<Bucket>)
    requires LedgerOk(p)
    requires (e.Failed? && e.request.id == id && status == None && failure == e.request.failure)
             || (e.Responded? && e.request.id == id && status == Some(e.code) && failure == None)
    ensures LedgerOk(Outcome(p, e, id, status, failure, b))
  {
    var k := PlaceOf(p.faults, id);
    if k < |p.faults| && Fits(p.faults[k], status, failure) {
      assert EntryOk(p, p.faults[k]);
      ConsumeKeepsMatches(p, k, e);
      ConsumeKeepsFaults(p, k, e);
      assert SilencedOk(Consumed(p, k, e));
    } else {
      UnchangedLedger(p, Outcome(p, e, id, status, failure, b));
    }
  }

  lemma ConsoleKeepsLedger(p: Page, e: Event, observerPaths: set<string>)
    requires LedgerOk(p) && e.Console?
    ensures LedgerOk(Handle(p, e, observerPaths))
  {
    var k := Silencer(p.faults, e.text, e.url);
    if e.isError && k < |p.faults| {
      assert EntryOk(p, p.faults[k]);
      SilenceKeepsMatches(p, k, e);
      SilenceKeepsFaults(p, k, e);
      assert ConsumedOk(Silenced(p, k, e));
    } else {
      UnchangedLedger(p, Handle(p, e, observerPaths));
    }
  }

  /** An entry for another request is not touched by a registration. */
  lemma OtherEntryKept(p: Page, e: Event, faults: seq<Fault>, f: Fault)
    requires EntryOk(p, f) && e.Expect? && e.request.id != f.request.id
    ensures EntryOk(p.(faults := faults, registrations := p.registrations + [e]), f)
  {
  }

  lemma NewEntryOk(p: Page, e: Event, faults: seq<Fault>)
    requires ConsumedOk(p) && SilencedOk(p) && e.Expect?
    ensures EntryOk(p.(faults := faults, registrations := p.registrations + [e]),
                    Fault(e.request, |p.registrations|, e.status, e.failure, false, false))
  {
  }

  /** After a registration, its request has a place, and no other request has lost its own. */
  lemma RegisteredPlace(faults: seq<Fault>, f: Fault, id: nat)
    requires PlaceOf(faults, id) < |faults| || id == f.request.id
    ensures PlaceOf(Registered(faults, f), id) < |Registered(faults, f)|
  {
    var k, more := PlaceOf(faults, f.request.id), Registered(faults, f);
    if id == f.request.id {
      assert more[k].request.id == id;
    } else {
      assert more[PlaceOf(faults, id)].request.id == id;
    }
  }

  /** Requests still have one place each. */
  lemma RegisteredDistinct(faults: seq<Fault>, f: Fault)
    requires forall i, k :: 0 <= i < k < |faults| ==> faults[i].request.id != faults[k].request.id
    ensures var more := Registered(faults, f);
            forall i, k :: 0 <= i < k < |more| ==> more[i].request.id != more[k].request.id
  {
  }

  lemma ExpectKeepsEntries(p: Page, e: Event, q: Page)
    requires LedgerOk(p) && e.Expect?
    requires q.registrations == p.registrations + [e] && q.consumed == p.consumed && q.silenced == p.silenced
    requires q.faults == Registered(p.faults, Fault(e.request, |p.registrations|, e.status, e.failure, false, false))
    ensures forall i :: 0 <= i < |q.faults| ==> EntryOk(q, q.faults[i])
  {
    NewEntryOk(p, e, q.faults);
    var k := PlaceOf(p.faults, e.request.id);
    forall i | 0 <= i < |q.faults| ensures EntryOk(q, q.faults[i]) {
      if i != k {
        assert EntryOk(p, p.faults[i]) && p.faults[i].request.id != e.request.id;
        OtherEntryKept(p, e, q.faults, p.faults[i]);
        assert EntryOk(p.(faults := q.faults, registrations := p.registrations + [e]), q.faults[i]);
      }
    }
  }

  lemma ExpectKeepsMatches(p: Page, e: Event, q: Page)
    requires ConsumedOk(p) && SilencedOk(p) && e.Expect?
    requires q.registrations == p.registrations + [e] && q.consumed == p.consumed && q.silenced == p.silenced
    ensures ConsumedOk(q) && SilencedOk(q)
  {
  }

  lemma ExpectKeepsLedger(p: Page, e: Event, observerPaths: set<string>)
    requires LedgerOk(p) && e.Expect?
    ensures LedgerOk(Handle(p, e, observerPaths))
  {
    var q := Handle(p, e, observerPaths);
    var f := Fault(e.request, |p.registrations|, e.status, e.failure, false, false);
    ExpectKeepsMatches(p, e, q);
    ExpectKeepsEntries(p, e, q);
    RegisteredDistinct(p.faults, f);
    forall m | 0 <= m < |q.registrations| ensures PlaceOf(q.faults, q.registrations[m].request.id) < |q.faults| {
      RegisteredPlace(p.faults, f, q.registrations[m].request.id);
    }
  }

  lemma {:induction false} LedgerKept(events: seq<Event>, observerPaths: set<string>)
    ensures LedgerOk(HandleAll(events, observerPaths))
  {
    if events != [] {
      var p, e := HandleAll(events[..|events| - 1], observerPaths), events[|events| - 1];
      LedgerKept(events[..|events| - 1], observerPaths);
      match e
      case Expect(_, _, _) => ExpectKeepsLedger(p, e, observerPaths);
      case Failed(r) => OutcomeKeepsLedger(p, e, r.id, None, r.failure, Some(FailureBucket(r, observerPaths)));
      case Responded(r, code) => OutcomeKeepsLedger(p, e, r.id, Some(code), None, ResponseBucket(r, code));
      case Console(_, _, _, _) => ConsoleKeepsLedger(p, e, observerPaths);
      case PageError(_) => UnchangedLedger(p, Handle(p, e, observerPaths));
    }
  }

  /**
   Failures taken for injected faults map one to one into the registrations, each with the request and the
   outcome it was registered for; and so do the silenced console messages, by their address.
   */
  lemma FaultsAreUsedOnce(events: seq<Event>, observerPaths: set<string>)
    ensures var p := HandleAll(events, observerPaths);
            && ConsumedOk(p) && SilencedOk(p)
            && |p.consumed| <= |p.registrations| && |p.silenced| <= |p.registrations|
  {
    LedgerKept(events, observerPaths);
    var p := HandleAll(events, observerPaths);
    DistinctBelow(Serials(p.consumed), |p.registrations|);
    DistinctBelow(Serials(p.silenced), |p.registrations|);
  }

  /** Different numbers below `n`: at most `n` of them, and exactly `n` if and only if none is missing. */
  lemma DistinctBelow(s: seq<nat>, n: nat)
    requires AllDifferent(s) && forall k :: 0 <= k < |s| ==> s[k] < n
    ensures |s| <= n
    ensures |s| == n <==> forall m :: 0 <= m < n ==> m in s
  {
    SetSize(s);
    var all := Indices(n);
    assert Elements(s) <= all;
    assert all == Elements(s) + (all - Elements(s));
    if |s| == n {
      SubsetOfSameSize(Elements(s), all);
      forall m | 0 <= m < n ensures m in s {
        assert m in all;
      }
    }
    if forall m :: 0 <= m < n ==> m in s {
      assert all == Elements(s);
    }
  }

  /** The final check passes if and only if the last registration of every request was observed. */
  lemma FinalCheckIff(events: seq<Event>, observerPaths: set<string>)
    ensures var p := HandleAll(events, observerPaths);
            && AllExpect(p.registrations)
            && (AllObserved(p) <==>
                forall m :: 0 <= m < |p.registrations| && IsLast(p.registrations, m) ==> m in Serials(p.consumed))
  {
    LedgerKept(events, observerPaths);
    var p := HandleAll(events, observerPaths);
    if AllObserved(p) {
      forall m | 0 <= m < |p.registrations| && IsLast(p.registrations, m) ensures m in Serials(p.consumed) {
        var k := PlaceOf(p.faults, p.registrations[m].request.id);
        assert EntryOk(p, p.faults[k]);
        assert p.faults[k].serial == m;
      }
    }
    if forall m :: 0 <= m < |p.registrations| && IsLast(p.registrations, m) ==> m in Serials(p.consumed) {
      forall k | 0 <= k < |p.faults| ensures p.faults[k].observed {
        assert EntryOk(p, p.faults[k]);
      }
    }
  }

  /** With distinct requests: it passes if and only if every injected fault was observed. */
  lemma FinalCheckOfDistinct(events: seq<Event>, observerPaths: set<string>)
    requires var r := HandleAll(events, observerPaths).registrations;
             AllExpect(r) && forall i, k :: 0 <= i < k < |r| ==> r[i].request.id != r[k].request.id
    ensures var p := HandleAll(events, observerPaths);
            AllObserved(p) <==> |p.consumed| == |p.registrations|
  {
    FinalCheckIff(events, observerPaths);
    FaultsAreUsedOnce(events, observerPaths);
    var p := HandleAll(events, observerPaths);
    DistinctBelow(Serials(p.consumed), |p.registrations|);
    assert forall m :: 0 <= m < |p.registrations| ==> IsLast(p.registrations, m);
  }

  /** What a concrete run shows: a fault whose request is registered again is never missed. */
  lemma ReplacedFaultIsForgotten(r: Request, observerPaths: set<string>)
    requires r.failure == Some(FAILED)
    ensures var p := HandleAll([Expect(r, Some(403), None), Expect(r, None, Some(FAILED)), Failed(r)], observerPaths);
            AllObserved(p) && |p.registrations| == 2 && |p.consumed| == 1 && Serials(p.consumed) == [1]
  {
    var a, b, c := Expect(r, Some(403), None), Expect(r, None, Some(FAILED)), Failed(r);
    var one, two := Fault(r, 0, Some(403), None, false, false), Fault(r, 1, None, Some(FAILED), false, false);
    assert [a, b, c][..2] == [a, b] && [a, b][..1] == [a] && [a][..0] == [];
    assert HandleAll([a], observerPaths).faults == [one];
    assert PlaceOf([one], r.id) == 0;
    assert HandleAll([a, b], observerPaths).faults == [two];
    assert PlaceOf([two], r.id) == 0;
  }
}
