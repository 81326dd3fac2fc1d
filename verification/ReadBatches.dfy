/**
 The idle polling check: reads are grouped greedily into batches, and the batches must follow an expected
 cadence.  Times are milliseconds of the page's clock.
 */
module ReadBatches {
  import opened Wrappers
  import opened Sequences

  const SPAN := 1000

  function Flatten(batches: seq<seq<int>>): seq<int> {
    if batches == [] then [] else Flatten(batches[..|batches| - 1]) + batches[|batches| - 1]
  }

  /** Nothing in a batch is more than a second later than its first read. */
  predicate Close(batch: seq<int>) {
    batch != [] && forall k :: 0 <= k < |batch| ==> batch[k] - batch[0] <= SPAN
  }

  /** The reads in order, in batches that are as long as they may be. */
  predicate IsBatching(times: seq<int>, batches: seq<seq<int>>) {
    && Flatten(batches) == times
    && (forall i :: 0 <= i < |batches| ==> Close(batches[i]))
    && (forall i :: 0 < i < |batches| ==> batches[i][0] - batches[i - 1][0] > SPAN)
  }

  /** The reads that were there, and one more, in a batch of its own or in the last batch. */
  function Opened(batches: seq<seq<int>>, stamp: int): seq<seq<int>> {
    batches + [[stamp]]
  }

  function Extended(batches: seq<seq<int>>, stamp: int): seq<seq<int>>
    requires batches != []
  {
    batches[..|batches| - 1] + [batches[|batches| - 1] + [stamp]]
  }

  lemma FlattenLast(front: seq<seq<int>>, last: seq<int>)
    ensures Flatten(front + [last]) == Flatten(front) + last
  {
    assert (front + [last])[..|front|] == front;
  }

  lemma FlattenExtended(batches: seq<seq<int>>, stamp: int)
    requires batches != []
    ensures Flatten(Extended(batches, stamp)) == Flatten(batches) + [stamp]
  {
    var front, last := batches[..|batches| - 1], batches[|batches| - 1];
    FlattenLast(front, last + [stamp]);
    assert Flatten(front) + (last + [stamp]) == (Flatten(front) + last) + [stamp];
  }

  predicate Opens(batches: seq<seq<int>>, stamp: int)
    requires forall i :: 0 <= i < |batches| ==> batches[i] != []
  {
    batches == [] || stamp - batches[|batches| - 1][0] > SPAN
  }

  lemma OpenedIsBatching(times: seq<int>, batches: seq<seq<int>>, stamp: int)
    requires IsBatching(times, batches) && Opens(batches, stamp)
    ensures IsBatching(times + [stamp], Opened(batches, stamp))
  {
    FlattenLast(batches, [stamp]);
  }

  lemma ExtendedIsBatching(times: seq<int>, batches: seq<seq<int>>, stamp: int)
    requires IsBatching(times, batches) && !Opens(batches, stamp)
    ensures IsBatching(times + [stamp], Extended(batches, stamp))
  {
    FlattenExtended(batches, stamp);
    var longer := batches[|batches| - 1] + [stamp];
    assert Close(longer) && longer[0] == batches[|batches| - 1][0];
  }

  /** The batches, read by read. */
  function Batches(times: seq<int>): (batches: seq<seq<int>>)
    ensures IsBatching(times, batches)
  {
    if times == [] then []
    else
      var front, stamp := times[..|times| - 1], times[|times| - 1];
      var batches := Batches(front);
      assert times == front + [stamp];
      if Opens(batches, stamp) then
        OpenedIsBatching(front, batches, stamp);
        Opened(batches, stamp)
      else
        ExtendedIsBatching(front, batches, stamp);
        Extended(batches, stamp)
  }

  // ---------------------------------------------------------------- there is one such batching

  /** Without its last read, a batching is still one, and the last read decides how it goes on. */
  lemma WithoutLast(times: seq<int>, batches: seq<seq<int>>) returns (fewer: seq<seq<int>>)
    requires IsBatching(times, batches) && times != []
    ensures IsBatching(times[..|times| - 1], fewer)
    ensures var stamp := times[|times| - 1];
            batches == if Opens(fewer, stamp) then Opened(fewer, stamp) else Extended(fewer, stamp)
  {
    var front, last := batches[..|batches| - 1], batches[|batches| - 1];
    var stamp := times[|times| - 1];
    assert batches == front + [last] && last[|last| - 1] == stamp;
    if |last| == 1 {
      fewer := front;
      assert last == [stamp];
      assert front != [] ==> front[|front| - 1] == batches[|batches| - 2];
    } else {
      var shorter := last[..|last| - 1];
      fewer := front + [shorter];
      FlattenLast(front, shorter);
      assert last == shorter + [stamp] && fewer[..|fewer| - 1] == front;
      assert Flatten(front) + shorter == times[..|times| - 1];
      assert Close(shorter);
    }
  }

  lemma {:induction false} BatchPerRead(batches: seq<seq<int>>)
    requires forall i :: 0 <= i < |batches| ==> Close(batches[i])
    ensures |batches| <= |Flatten(batches)|
  {
    if batches != [] {
      BatchPerRead(batches[..|batches| - 1]);
      assert Close(batches[|batches| - 1]);
    }
  }

  /** The batches are determined by the reads. */
  lemma {:induction false} BatchingIsUnique(times: seq<int>, a: seq<seq<int>>, b: seq<seq<int>>)
    requires IsBatching(times, a) && IsBatching(times, b)
    ensures a == b
    decreases |times|
  {
    if times == [] {
      BatchPerRead(a);
      BatchPerRead(b);
    } else {
      var c := WithoutLast(times, a);
      var d := WithoutLast(times, b);
      BatchingIsUnique(times[..|times| - 1], c, d);
    }
  }

  /** The loop over the reads. */
  method BatchReads(times: seq<int>) returns (batches: seq<seq<int>>)
    ensures IsBatching(times, batches) && batches == Batches(times)
  {
    batches := [];
    for i := 0 to |times|
      invariant IsBatching(times[..i], batches)
    {
      var stamp := times[i];
      assert times[..i + 1] == times[..i] + [stamp];
      if |batches| == 0 || stamp - batches[|batches| - 1][0] > SPAN {
        OpenedIsBatching(times[..i], batches, stamp);
        batches := batches + [[stamp]];
      } else {
        ExtendedIsBatching(times[..i], batches, stamp);
        batches := batches[..|batches| - 1] + [batches[|batches| - 1] + [stamp]];
      }
    }
    assert times[..|times|] == times;
    BatchingIsUnique(times, batches, Batches(times));
  }

  // ---------------------------------------------------------------- and no cover has fewer groups

  predicate Sorted(times: seq<int>) {
    forall i, k :: 0 <= i < k < |times| ==> times[i] <= times[k]
  }

  /** Groups of reads within a second of each other that together hold every read. */
  predicate Covers(groups: seq<seq<int>>, times: seq<int>) {
    && (forall g, i, k :: 0 <= g < |groups| && 0 <= i < |groups[g]| && 0 <= k < |groups[g]| ==> groups[g][i] - groups[g][k] <= SPAN)
    && (forall t :: t in times ==> InSome(groups, t))
  }

  predicate InSome(groups: seq<seq<int>>, t: int) {
    exists g :: 0 <= g < |groups| && t in groups[g]
  }

  function Heads(batches: seq<seq<int>>): (heads: seq<int>)
    requires forall i :: 0 <= i < |batches| ==> batches[i] != []
    ensures |heads| == |batches| && forall i :: 0 <= i < |batches| ==> heads[i] == batches[i][0]
  {
    seq(|batches|, i requires 0 <= i < |batches| => batches[i][0])
  }

  lemma {:induction false} HeadsApart(times: seq<int>, batches: seq<seq<int>>, i: nat, k: nat)
    requires IsBatching(times, batches) && i < k < |batches|
    ensures batches[k][0] - batches[i][0] > SPAN
  {
    if i < k - 1 {
      HeadsApart(times, batches, i, k - 1);
    }
  }

  lemma {:induction false} HeadIsRead(batches: seq<seq<int>>, i: nat, k: nat)
    requires i < |batches| && k < |batches[i]|
    ensures batches[i][k] in Flatten(batches)
  {
    var front := batches[..|batches| - 1];
    if i < |front| {
      HeadIsRead(front, i, k);
      assert front[i] == batches[i];
    }
  }

  lemma Pigeonhole(f: seq<nat>, n: nat)
    requires forall i :: 0 <= i < |f| ==> f[i] < n
    requires AllDifferent(f)
    ensures |f| <= n
  {
    SetSize(f);
    assert Elements(f) <= Indices(n);
    SubsetIsSmaller(Elements(f), Indices(n));
  }

  /** The group that holds the head of a batch. */
  lemma GroupOfHead(times: seq<int>, batches: seq<seq<int>>, groups: seq<seq<int>>, i: nat) returns (g: nat)
    requires IsBatching(times, batches) && Covers(groups, times) && i < |batches|
    ensures g < |groups| && batches[i][0] in groups[g]
  {
    HeadIsRead(batches, i, 0);
    assert InSome(groups, batches[i][0]);
    g :| 0 <= g < |groups| && batches[i][0] in groups[g];
  }

  lemma {:induction false} GroupsOfHeads(times: seq<int>, batches: seq<seq<int>>, groups: seq<seq<int>>, n: nat)
    returns (f: seq<nat>)
    requires IsBatching(times, batches) && Covers(groups, times) && n <= |batches|
    ensures |f| == n && forall i :: 0 <= i < n ==> f[i] < |groups| && batches[i][0] in groups[f[i]]
  {
    if n == 0 {
      f := [];
    } else {
      f := GroupsOfHeads(times, batches, groups, n - 1);
      var g := GroupOfHead(times, batches, groups, n - 1);
      f := f + [g];
    }
  }

  /** No way of covering the reads by groups within a second needs fewer groups than the batches. */
  lemma BatchesAreFewest(times: seq<int>, batches: seq<seq<int>>, groups: seq<seq<int>>)
    requires IsBatching(times, batches) && Covers(groups, times)
    ensures |batches| <= |groups|
  {
    var f := GroupsOfHeads(times, batches, groups, |batches|);
    forall i, k | 0 <= i < k < |f| ensures f[i] != f[k] {
      HeadsApart(times, batches, i, k);
    }
    Pigeonhole(f, |groups|);
  }

  lemma {:induction false} FlattenPosition(batches: seq<seq<int>>, t: int)
    requires t in Flatten(batches)
    ensures InSome(batches, t)
  {
    var front, last := batches[..|batches| - 1], batches[|batches| - 1];
    if t in last {
      assert last == batches[|batches| - 1];
    } else {
      FlattenPosition(front, t);
      var g :| 0 <= g < |front| && t in front[g];
      assert batches[g] == front[g];
    }
  }

  lemma {:induction false} BatchesSorted(batches: seq<seq<int>>, i: nat)
    requires Sorted(Flatten(batches)) && i < |batches|
    ensures Sorted(batches[i])
  {
    var front, last := batches[..|batches| - 1], batches[|batches| - 1];
    var all := Flatten(batches);
    if i < |front| {
      assert Flatten(front) == all[..|Flatten(front)|];
      BatchesSorted(front, i);
    } else {
      assert last == all[|Flatten(front)|..];
    }
  }

  /** Reads in order of time: the batches are such a cover themselves. */
  lemma BatchesCover(times: seq<int>, batches: seq<seq<int>>)
    requires IsBatching(times, batches) && Sorted(times)
    ensures Covers(batches, times)
  {
    forall g, i, k | 0 <= g < |batches| && 0 <= i < |batches[g]| && 0 <= k < |batches[g]|
      ensures batches[g][i] - batches[g][k] <= SPAN
    {
      BatchesSorted(batches, g);
      assert Close(batches[g]) && batches[g][0] <= batches[g][k];
    }
    forall t | t in times ensures InSome(batches, t) {
      FlattenPosition(batches, t);
    }
  }

  // ---------------------------------------------------------------- the cadence

  datatype CheckError = RepeatedRead | ReadCount(gaps: seq<int>) | WrongGap(interval: int, gaps: seq<int>)

  /** The differences of neighbours; none for a list with fewer than two. */
  function Gaps(times: seq<int>): (gaps: seq<int>)
    ensures |gaps| == if times == [] then 0 else |times| - 1
    ensures forall k :: 0 <= k < |gaps| ==> gaps[k] == times[k + 1] - times[k]
  {
    if times == [] then []
    else seq(|times| - 1, k requires 0 <= k < |times| - 1 => times[k + 1] - times[k])
  }

  predicate GapFits(gap: int, interval: int) {
    interval <= gap <= interval + SPAN
  }

  predicate GapsFit(times: seq<int>, expected: seq<int>) {
    && |Gaps(times)| == |expected|
    && forall k :: 0 <= k < |expected| ==> GapFits(Gaps(times)[k], expected[k])
  }

  /** The first gap that does not fit. */
  function FirstMisfit(gaps: seq<int>, expected: seq<int>): (k: nat)
    requires |gaps| == |expected| && exists m :: 0 <= m < |gaps| && !GapFits(gaps[m], expected[m])
    ensures k < |gaps| && !GapFits(gaps[k], expected[k])
    ensures forall m :: 0 <= m < k ==> GapFits(gaps[m], expected[m])
  {
    if !GapFits(gaps[0], expected[0]) then 0 else 1 + FirstMisfit(gaps[1..], expected[1..])
  }

  /** `_require_read_gaps`. */
  method RequireReadGaps(times: seq<int>, expected: seq<int>) returns (r: Result<seq<int>, CheckError>)
    ensures r.Ok? <==> GapsFit(times, expected)
    ensures r.Ok? ==> r.value == Gaps(times)
    ensures r.Err? ==> r.error == if |Gaps(times)| != |expected| then ReadCount(Gaps(times))
                                  else WrongGap(expected[FirstMisfit(Gaps(times), expected)], Gaps(times))
  {
    var gaps := Gaps(times);
    if |gaps| != |expected| {
      return Err(ReadCount(gaps));
    }
    for k := 0 to |gaps|
      invariant forall m :: 0 <= m < k ==> GapFits(gaps[m], expected[m])
    {
      if !GapFits(gaps[k], expected[k]) {
        return Err(WrongGap(expected[k], gaps));
      }
    }
    return Ok(gaps);
  }

  /** `times[start:]`, where a negative start counts from the end. */
  function From(times: seq<int>, start: int): seq<int> {
    var first := if start >= 0 then start else if |times| + start > 0 then |times| + start else 0;
    if first <= |times| then times[first..] else []
  }

  predicate BatchesWithin(batches: seq<seq<int>>, maximum: nat) {
    forall i :: 0 <= i < |batches| ==> |batches[i]| <= maximum
  }

  /** An accepted log: no batch is too long, and the heads follow the cadence. */
  predicate FollowsCadence(times: seq<int>, maximum: nat, expected: seq<int>) {
    BatchesWithin(Batches(times), maximum) && GapsFit(Heads(Batches(times)), expected)
  }

  /** `all(len(batch) <= maximum for batch in batches)`. */
  method AllWithin(batches: seq<seq<int>>, maximum: nat) returns (ok: bool)
    ensures ok <==> BatchesWithin(batches, maximum)
  {
    for i := 0 to |batches|
      invariant forall k :: 0 <= k < i ==> |batches[k]| <= maximum
    {
      if |batches[i]| > maximum {
        return false;
      }
    }
    return true;
  }

  /** The check of one endpoint: `focus` reads were seen when the clock started to move. */
  method CheckIdleReads(times: seq<int>, focus: nat, maximum: nat, expected: seq<int>) returns (r: Result<seq<int>, CheckError>)
    ensures var window := From(times, focus - 1);
            && (r.Ok? <==> FollowsCadence(window, maximum, expected))
            && (r.Ok? ==> r.value == Gaps(Heads(Batches(window))))
            && (r.Err? ==> (r.error.RepeatedRead? <==> !BatchesWithin(Batches(window), maximum)))
  {
    var batches := BatchReads(From(times, focus - 1));
    var small := AllWithin(batches, maximum);
    if !small {
      return Err(RepeatedRead);
    }
    r := RequireReadGaps(Heads(batches), expected);
  }

  function Sum(s: seq<int>): int {
    if s == [] then 0 else Sum(s[..|s| - 1]) + s[|s| - 1]
  }

  lemma {:induction false} FlattenLength(batches: seq<seq<int>>, maximum: nat)
    requires BatchesWithin(batches, maximum)
    ensures |Flatten(batches)| <= maximum * |batches|
  {
    if batches != [] {
      FlattenLength(batches[..|batches| - 1], maximum);
      assert maximum * |batches| == maximum * (|batches| - 1) + maximum;
    }
  }

  lemma {:induction false} Drift(times: seq<int>, expected: seq<int>, k: nat)
    requires GapsFit(times, expected) && k < |times|
    ensures k <= |expected|
    ensures Sum(expected[..k]) <= times[k] - times[0] <= Sum(expected[..k]) + SPAN * k
  {
    if k > 0 {
      Drift(times, expected, k - 1);
      assert GapFits(Gaps(times)[k - 1], expected[k - 1]);
      assert expected[..k][..k - 1] == expected[..k - 1];
    }
  }

  /**
   What an accepted log guarantees: at most `maximum` reads per expected batch, every batch within a second
   per gap of its due time, and every read within a second of its batch.
   */
  lemma AcceptedLogIsBounded(times: seq<int>, batches: seq<seq<int>>, maximum: nat, expected: seq<int>)
    requires IsBatching(times, batches) && BatchesWithin(batches, maximum) && GapsFit(Heads(batches), expected)
    ensures |times| <= maximum * (|expected| + 1)
    ensures |batches| <= |expected| + 1
    ensures forall k, i :: 0 <= k < |batches| && 0 <= i < |batches[k]| ==>
              && batches[k][i] - batches[0][0] <= Sum(expected[..k]) + SPAN * k + SPAN
              && Sum(expected[..k]) <= batches[k][0] - batches[0][0] <= Sum(expected[..k]) + SPAN * k
  {
    FlattenLength(batches, maximum);
    assert maximum * |batches| <= maximum * (|expected| + 1);
    forall k, i | 0 <= k < |batches| && 0 <= i < |batches[k]|
      ensures batches[k][i] - batches[0][0] <= Sum(expected[..k]) + SPAN * k + SPAN
      ensures Sum(expected[..k]) <= batches[k][0] - batches[0][0] <= Sum(expected[..k]) + SPAN * k
    {
      Drift(Heads(batches), expected, k);
      assert Close(batches[k]);
    }
  }

  // ---------------------------------------------------------------- the look-back to the focused read

  /** The reads to check: the last one before the clock moves, if there is one, and all that follow. */
  function Window(times: seq<int>, focus: nat): seq<int> {
    if focus == 0 then times else if focus - 1 <= |times| then times[focus - 1..] else []
  }

  /** The slice of the check is that window if and only if there was a read before, or there is at most one. */
  lemma WindowIff(times: seq<int>, focus: nat)
    ensures From(times, focus - 1) == Window(times, focus) <==> focus >= 1 || |times| <= 1
  {
    if focus == 0 {
      assert |From(times, -1)| == if |times| == 0 then 0 else 1;
    }
  }

  /** With no read before the clock moves only the last read is looked at, and what is accepted is this. */
  lemma NoFocusIff(times: seq<int>, maximum: nat, expected: seq<int>)
    ensures FollowsCadence(From(times, 0 - 1), maximum, expected) <==> expected == [] && (times == [] || maximum >= 1)
  {
    var window := From(times, -1);
    var batches := Batches(window);
    BatchPerRead(batches);
    if times != [] {
      assert window == [times[|times| - 1]];
      OneRead(window[0]);
    }
  }

  lemma OneRead(stamp: int)
    ensures Batches([stamp]) == [[stamp]]
  {
    assert [stamp][..0] == [] && Opened([], stamp) == [[stamp]];
  }

  /** A log in cadence is accepted if and only if a read was seen before the clock moved, or no gap is due. */
  lemma CadenceIff(times: seq<int>, focus: nat, maximum: nat, expected: seq<int>)
    requires FollowsCadence(Window(times, focus), maximum, expected)
    ensures FollowsCadence(From(times, focus - 1), maximum, expected) <==> focus >= 1 || expected == []
  {
    WindowIff(times, focus);
    if focus == 0 {
      NoFocusIff(times, maximum, expected);
      if times != [] {
        BatchPerRead(Batches(times));
        FlattenLength(Batches(times), maximum);
        assert maximum == 0 ==> maximum * |Batches(times)| == 0;
      }
    }
  }

  lemma NextOpens(front: seq<int>, stamp: int)
    requires Opens(Batches(front), stamp)
    ensures Batches(front + [stamp]) == Batches(front) + [[stamp]]
  {
    assert (front + [stamp])[..|front|] == front;
  }

  lemma ThreeApart(a: int, b: int, c: int)
    requires b - a > SPAN && c - b > SPAN
    ensures Batches([a, b, c]) == [[a], [b], [c]]
  {
    OneRead(a);
    NextOpens([a], b);
    assert [a] + [b] == [a, b] && [[a]] + [[b]] == [[a], [b]];
    NextOpens([a, b], c);
    assert [a, b] + [c] == [a, b, c] && [[a], [b]] + [[c]] == [[a], [b], [c]];
  }

  lemma ThreeInCadence(a: int, b: int, c: int, maximum: nat)
    requires b - a > SPAN && c - b > SPAN && maximum >= 1
    ensures FollowsCadence([a, b, c], maximum, [b - a, c - b])
  {
    ThreeApart(a, b, c);
    assert Heads([[a], [b], [c]]) == [a, b, c];
    assert Gaps([a, b, c]) == [b - a, c - b];
  }

  /** Three reads, half a minute apart as they should be, are refused when none was seen before. */
  lemma CadenceRefused()
    ensures FollowsCadence(Window([0, 30_000, 60_000], 0), 2, [30_000, 30_000])
    ensures !FollowsCadence(From([0, 30_000, 60_000], 0 - 1), 2, [30_000, 30_000])
  {
    ThreeInCadence(0, 30_000, 60_000, 2);
    NoFocusIff([0, 30_000, 60_000], 2, [30_000, 30_000]);
  }
}
