/** The page of events that a recovered session serves, and a client that follows it to the end. */
module Pager {
  import opened Sequences
  import opened Wrappers

  datatype Record = Record(sequence: int, id: string)

  datatype Query = Query(descending: bool, limit: int, after: int, before: Option<int>)

  datatype Page = Page(events: seq<Record>, nextSequence: Option<int>, scanThrough: Option<int>, hasMore: bool)

  predicate Increasing(records: seq<Record>) {
    forall i, k :: 0 <= i < k < |records| ==> records[i].sequence < records[k].sequence
  }

  predicate Matches(r: Record, q: Query) {
    r.sequence > q.after && (q.before.Some? ==> r.sequence < q.before.value)
  }

  /** The matching records, in their order. */
  function Matching(records: seq<Record>, q: Query): seq<Record> {
    if records == [] then []
    else
      var front, last := records[..|records| - 1], records[|records| - 1];
      Matching(front, q) + if Matches(last, q) then [last] else []
  }

  function Reversed(s: seq<Record>): (r: seq<Record>)
    ensures |r| == |s| && forall k :: 0 <= k < |s| ==> r[k] == s[|s| - 1 - k]
  {
    seq(|s|, k requires 0 <= k < |s| => s[|s| - 1 - k])
  }

  /** `items[:limit]`, where a negative limit counts from the end. */
  function Limited(s: seq<Record>, limit: int): seq<Record> {
    var end := if limit >= 0 then limit else |s| + limit;
    if end <= 0 then [] else if end <= |s| then s[..end] else s
  }

  function Ordered(records: seq<Record>, q: Query): seq<Record> {
    if q.descending then Reversed(Matching(records, q)) else Matching(records, q)
  }

  function PageOf(records: seq<Record>, last: int, q: Query): Page {
    var matching := Ordered(records, q);
    var events := Limited(matching, q.limit);
    Page(events,
         if events == [] then None else Some(events[|events| - 1].sequence),
         if q.before.None? then Some(last) else None,
         |matching| > q.limit)
  }

  /** The route handler: two filters, a reversal in place and a slice. */
  method ServePage(records: seq<Record>, last: int, q: Query) returns (page: Page)
    ensures page == PageOf(records, last, q)
  {
    var matching: seq<Record> := [];
    for k := 0 to |records|
      invariant matching == Matching(records[..k], q)
    {
      assert records[..k + 1][..k] == records[..k];
      if records[k].sequence > q.after && (q.before.None? || records[k].sequence < q.before.value) {
        matching := matching + [records[k]];
      }
    }
    assert records[..|records|] == records;
    if q.descending {
      matching := Reversed(matching);
    }
    var events := Limited(matching, q.limit);
    page := Page(events,
                 if |events| > 0 then Some(events[|events| - 1].sequence) else None,
                 if q.before.None? then Some(last) else None,
                 |matching| > q.limit);
  }

  // ---------------------------------------------------------------- what the next query matches

  lemma {:induction false} MatchingOrder(records: seq<Record>, q: Query)
    requires Increasing(records)
    ensures Increasing(Matching(records, q))
    ensures forall r :: r in Matching(records, q) ==> r in records && Matches(r, q)
    ensures forall r :: r in records && Matches(r, q) ==> r in Matching(records, q)
  {
    if records != [] {
      var front, last := records[..|records| - 1], records[|records| - 1];
      assert records == front + [last];
      MatchingOrder(front, q);
      assert forall r :: r in front ==> r.sequence < last.sequence;
    }
  }

  lemma {:induction false} NothingMatches(records: seq<Record>, q: Query)
    requires forall r :: r in records ==> !Matches(r, q)
    ensures Matching(records, q) == []
  {
    if records != [] {
      var front, last := records[..|records| - 1], records[|records| - 1];
      assert records == front + [last];
      NothingMatches(front, q);
    }
  }

  lemma DropAppend(s: seq<Record>, t: seq<Record>, j: nat)
    requires j <= |s|
    ensures (s + t)[j..] == s[j..] + t
  {
  }

  /** One more record at the end matches the next query if it matches this one. */
  lemma LastAfter(front: seq<Record>, last: Record, q: Query, j: nat)
    requires Increasing(front + [last]) && 1 <= j <= |Matching(front, q)|
    ensures var next := q.(after := Matching(front, q)[j - 1].sequence);
            Matches(last, next) <==> Matches(last, q)
  {
    assert Increasing(front) by {
      assert forall i :: 0 <= i < |front| ==> front[i] == (front + [last])[i];
    }
    MatchingOrder(front, q);
    var r := Matching(front, q)[j - 1];
    assert r in Matching(front, q) && r in front;
    var i :| 0 <= i < |front| && front[i] == r;
    assert (front + [last])[i] == r && (front + [last])[|front|] == last;
  }

  /** After the first `j` matching records come the others. */
  lemma {:induction false} MatchingAfter(records: seq<Record>, q: Query, j: nat)
    requires Increasing(records) && 1 <= j <= |Matching(records, q)|
    ensures Matching(records, q.(after := Matching(records, q)[j - 1].sequence)) == Matching(records, q)[j..]
  {
    var front, last := records[..|records| - 1], records[|records| - 1];
    assert records == front + [last];
    var m, mf := Matching(records, q), Matching(front, q);
    var next := q.(after := m[j - 1].sequence);
    if j <= |mf| {
      MatchingAfter(front, q, j);
      LastAfter(front, last, q, j);
      DropAppend(mf, if Matches(last, q) then [last] else [], j);
    } else {
      assert m[j - 1] == last;
      NothingMatches(records, next);
    }
  }

  lemma TakeAppend(s: seq<Record>, t: seq<Record>, j: nat)
    requires j <= |s|
    ensures (s + t)[..j] == s[..j]
  {
  }

  /** A record at the end is not before one that matched earlier. */
  lemma LastNotBefore(front: seq<Record>, last: Record, q: Query, j: nat)
    requires Increasing(front + [last]) && j < |Matching(front, q)|
    ensures !Matches(last, q.(before := Some(Matching(front, q)[j].sequence)))
  {
    assert Increasing(front) by {
      assert forall i :: 0 <= i < |front| ==> front[i] == (front + [last])[i];
    }
    MatchingOrder(front, q);
    var r := Matching(front, q)[j];
    assert r in Matching(front, q) && r in front;
    var i :| 0 <= i < |front| && front[i] == r;
    assert (front + [last])[i] == r && (front + [last])[|front|] == last;
  }

  /** Before the last matching records come the first `j`. */
  lemma {:induction false} MatchingBefore(records: seq<Record>, q: Query, j: nat)
    requires Increasing(records) && j < |Matching(records, q)|
    ensures Matching(records, q.(before := Some(Matching(records, q)[j].sequence))) == Matching(records, q)[..j]
  {
    var front, last := records[..|records| - 1], records[|records| - 1];
    assert records == front + [last];
    var mf := Matching(front, q);
    if j < |mf| {
      MatchingBefore(front, q, j);
      LastNotBefore(front, last, q, j);
      TakeAppend(mf, if Matches(last, q) then [last] else [], j);
    } else {
      var next := q.(before := Some(Matching(records, q)[j].sequence));
      assert Matching(records, q)[j] == last;
      assert forall r :: r in front ==> r.sequence < last.sequence;
      SameMatching(front, q, next);
    }
  }

  lemma {:induction false} SameMatching(records: seq<Record>, a: Query, b: Query)
    requires forall r :: r in records ==> (Matches(r, a) <==> Matches(r, b))
    ensures Matching(records, a) == Matching(records, b)
  {
    if records != [] {
      var front, last := records[..|records| - 1], records[|records| - 1];
      assert records == front + [last];
      SameMatching(front, a, b);
    }
  }

  // ---------------------------------------------------------------- a client that follows the pages

  /** The query for the page after one that ends with this sequence. */
  function NextQuery(q: Query, sequence: int): Query {
    if q.descending then q.(before := Some(sequence)) else q.(after := sequence)
  }

  /** The rest of what matches, in the order of the pages. */
  lemma NextOrdered(records: seq<Record>, q: Query, j: nat)
    requires Increasing(records) && 1 <= j <= |Ordered(records, q)|
    ensures Ordered(records, NextQuery(q, Ordered(records, q)[j - 1].sequence)) == Ordered(records, q)[j..]
  {
    var m := Matching(records, q);
    if q.descending {
      MatchingBefore(records, q, |m| - j);
      assert Reversed(m[..|m| - j]) == Reversed(m)[j..];
    } else {
      MatchingAfter(records, q, j);
    }
  }

  /** What a client has seen; `finished` if a page said that there is no more. */
  datatype Walked = Walked(events: seq<Record>, finished: bool)

  lemma PageLength(records: seq<Record>, last: int, q: Query)
    ensures var events := PageOf(records, last, q).events;
            |events| <= |Ordered(records, q)| && events == Ordered(records, q)[..|events|]
  {
  }

  /** Follow `next_sequence` until `has_more` is false, or as long as there is one. */
  function Walk(records: seq<Record>, last: int, q: Query): Walked
    requires Increasing(records)
    decreases |Ordered(records, q)|
  {
    var page := PageOf(records, last, q);
    if !page.hasMore then Walked(page.events, true)
    else if page.nextSequence.None? then Walked(page.events, false)
    else
      PageLength(records, last, q);
      NextOrdered(records, q, |page.events|);
      var rest := Walk(records, last, NextQuery(q, page.nextSequence.value));
      Walked(page.events + rest.events, rest.finished)
  }

  /** A first page of a positive limit: it is everything, or it goes on after as many records as the limit. */
  lemma PositivePage(records: seq<Record>, last: int, q: Query)
    requires Increasing(records) && q.limit >= 1
    ensures var page, all := PageOf(records, last, q), Ordered(records, q);
            if |all| <= q.limit then page.events == all && !page.hasMore
            else
              && page.hasMore && page.events == all[..q.limit]
              && page.nextSequence == Some(all[q.limit - 1].sequence)
              && Ordered(records, NextQuery(q, all[q.limit - 1].sequence)) == all[q.limit..]
  {
    if |Ordered(records, q)| > q.limit {
      NextOrdered(records, q, q.limit);
    }
  }

  lemma {:induction false} PositiveLimitVisitsAll(records: seq<Record>, last: int, q: Query)
    requires Increasing(records) && q.limit >= 1
    ensures Walk(records, last, q) == Walked(Ordered(records, q), true)
    decreases |Ordered(records, q)|
  {
    var all := Ordered(records, q);
    PositivePage(records, last, q);
    if |all| > q.limit {
      PositiveLimitVisitsAll(records, last, NextQuery(q, all[q.limit - 1].sequence));
      assert all == all[..q.limit] + all[q.limit..];
    }
  }

  lemma {:induction false} NegativeLimitNeverEnds(records: seq<Record>, last: int, q: Query)
    requires Increasing(records) && q.limit < 0
    ensures !Walk(records, last, q).finished
    decreases |Ordered(records, q)|
  {
    var page := PageOf(records, last, q);
    if page.nextSequence.Some? {
      PageLength(records, last, q);
      NextOrdered(records, q, |page.events|);
      NegativeLimitNeverEnds(records, last, NextQuery(q, page.nextSequence.value));
    }
  }

  /**
   Following the pages visits every matching record exactly once, in order, and then ends, if and only if the
   limit is at least one, or it is zero and nothing matches.
   */
  lemma WalkVisitsAllIff(records: seq<Record>, last: int, q: Query)
    requires Increasing(records)
    ensures Walk(records, last, q) == Walked(Ordered(records, q), true)
            <==> q.limit >= 1 || (q.limit == 0 && Matching(records, q) == [])
  {
    if q.limit >= 1 {
      PositiveLimitVisitsAll(records, last, q);
    } else if q.limit < 0 {
      NegativeLimitNeverEnds(records, last, q);
    }
  }

  lemma OneMatches(r: Record, q: Query)
    requires Matches(r, q)
    ensures Ordered([r], q) == [r] && Increasing([r])
  {
    assert [r][..0] == [];
    assert Matching([r], q) == [r];
  }

  /** With one record to show: a limit of zero shows nothing and says that there is more. */
  lemma LimitZeroShowsNothing(r: Record, last: int, q: Query)
    requires Matches(r, q) && q.limit == 0
    ensures Increasing([r]) && Walk([r], last, q) == Walked([], false)
  {
    OneMatches(r, q);
  }

  /** And so does a limit below zero. */
  lemma LimitBelowZeroShowsNothing(r: Record, last: int, q: Query)
    requires Matches(r, q) && q.limit < 0
    ensures Increasing([r]) && Walk([r], last, q) == Walked([], false)
  {
    OneMatches(r, q);
  }

  /** The descending walk is the ascending one backwards. */
  lemma DescendingIsReversed(records: seq<Record>, last: int, q: Query)
    requires Increasing(records) && q.limit >= 1
    ensures Walk(records, last, q.(descending := true)).events
            == Reversed(Walk(records, last, q.(descending := false)).events)
  {
    var up, down := q.(descending := false), q.(descending := true);
    PositiveLimitVisitsAll(records, last, up);
    PositiveLimitVisitsAll(records, last, down);
    SameMatching(records, up, down);
  }

  lemma ReversedKeepsAll(s: seq<Record>)
    requires Increasing(s)
    ensures forall r :: r in Reversed(s) <==> r in s
    ensures AllDifferent(Reversed(s)) && AllDifferent(s)
  {
    var t := Reversed(s);
    forall r | r in s ensures r in t {
      var k :| 0 <= k < |s| && s[k] == r;
      assert t[|s| - 1 - k] == r;
    }
    forall i, k | 0 <= i < k < |t| ensures t[i] != t[k] {
      assert s[|s| - 1 - k].sequence < s[|s| - 1 - i].sequence;
    }
  }

  /** What is visited: exactly the matching records, once each. */
  lemma WalkIsExact(records: seq<Record>, last: int, q: Query)
    requires Increasing(records) && q.limit >= 1
    ensures var events := Walk(records, last, q).events;
            && (forall r :: r in events <==> r in records && Matches(r, q))
            && AllDifferent(events)
  {
    PositiveLimitVisitsAll(records, last, q);
    MatchingOrder(records, q);
    ReversedKeepsAll(Matching(records, q));
  }
}
