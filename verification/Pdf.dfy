/**
 The PDF writer: a header, the objects, a cross-reference table of 20-byte entries that the writer
 computes itself, and a trailer (ISO 32000-1, sections 7.5.4 and 7.5.5).  A byte is written as the
 character with its code.
 */
module Pdf {
  import opened Wrappers
  import opened Decimal
  import opened Sequences

  type Bytes = string

  const HEADER: Bytes := "%PDF-1.4\n"
  const XREF: Bytes := "xref\n0 "
  const FREE_ENTRY: Bytes := "0000000000 65535 f \n"
  const ENTRY_END: Bytes := " 00000 n \n"
  const STARTXREF: Bytes := "startxref\n"
  const EOF_MARK: Bytes := "\n%%EOF\n"

  // ---------------------------------------------------------------- the file that is written

  function Body(objects: seq<Bytes>): Bytes {
    if objects == [] then "" else objects[0] + Body(objects[1..])
  }

  /** Where each object starts when the first one starts at `start`. */
  function Offsets(start: nat, objects: seq<Bytes>): (offsets: seq<nat>)
    ensures |offsets| == |objects|
    decreases objects
  {
    if objects == [] then [] else [start] + Offsets(start + |objects[0]|, objects[1..])
  }

  function Entry(offset: nat): Bytes {
    Padded(offset, 10) + ENTRY_END
  }

  function Entries(offsets: seq<nat>): Bytes {
    if offsets == [] then "" else Entry(offsets[0]) + Entries(offsets[1..])
  }

  function XrefOffset(objects: seq<Bytes>): nat {
    |HEADER| + |Body(objects)|
  }

  function TableHead(size: nat): Bytes {
    XREF + Numeral(size) + "\n"
  }

  function TrailerHead(size: nat): Bytes {
    "trailer\n<< /Size " + Numeral(size) + " /Root 1 0 R >>\n"
  }

  function Tail(size: nat, xref: nat): Bytes {
    TrailerHead(size) + STARTXREF + Numeral(xref) + EOF_MARK
  }

  /** The whole file for a list of objects. */
  function File(objects: seq<Bytes>): Bytes {
    HEADER + Body(objects) + TableHead(|objects| + 1) + FREE_ENTRY
    + Entries(Offsets(|HEADER|, objects)) + Tail(|objects| + 1, XrefOffset(objects))
  }

  lemma {:induction false} BodyAppend(front: seq<Bytes>, item: Bytes)
    ensures Body(front + [item]) == Body(front) + item
  {
    if front == [] {
      assert front + [item] == [item];
    } else {
      assert (front + [item])[1..] == front[1..] + [item];
      BodyAppend(front[1..], item);
      Associate(front[0], Body(front[1..]), item);
    }
  }

  lemma {:induction false} OffsetsAppend(start: nat, front: seq<Bytes>, item: Bytes)
    ensures Offsets(start, front + [item]) == Offsets(start, front) + [start + |Body(front)|]
    decreases front
  {
    if front == [] {
      assert front + [item] == [item];
    } else {
      var next := start + |front[0]|;
      assert (front + [item])[1..] == front[1..] + [item];
      OffsetsAppend(next, front[1..], item);
      assert start + |Body(front)| == next + |Body(front[1..])|;
      Associate([start], Offsets(next, front[1..]), [start + |Body(front)|]);
    }
  }

  lemma {:induction false} EntriesAppend(front: seq<nat>, offset: nat)
    ensures Entries(front + [offset]) == Entries(front) + Entry(offset)
  {
    if front == [] {
      assert front + [offset] == [offset];
    } else {
      assert (front + [offset])[1..] == front[1..] + [offset];
      EntriesAppend(front[1..], offset);
      Associate(Entry(front[0]), Entries(front[1..]), Entry(offset));
    }
  }

  /** The first loop: append every object and note where it starts. */
  method AppendObjects(header: Bytes, objects: seq<Bytes>) returns (output: Bytes, offsets: seq<nat>)
    ensures output == header + Body(objects)
    ensures offsets == [0] + Offsets(|header|, objects)
  {
    output := header;
    offsets := [0];
    for i := 0 to |objects|
      invariant output == header + Body(objects[..i])
      invariant offsets == [0] + Offsets(|header|, objects[..i])
    {
      assert objects[..i + 1] == objects[..i] + [objects[i]];
      BodyAppend(objects[..i], objects[i]);
      OffsetsAppend(|header|, objects[..i], objects[i]);
      offsets := offsets + [|output|];
      output := output + objects[i];
    }
    assert objects[..|objects|] == objects;
  }

  /** The second loop: append one entry for every noted offset. */
  method AppendEntries(before: Bytes, offsets: seq<nat>) returns (output: Bytes)
    ensures output == before + Entries(offsets)
  {
    output := before;
    for i := 0 to |offsets|
      invariant output == before + Entries(offsets[..i])
    {
      var entry := Entry(offsets[i]);
      assert offsets[..i + 1] == offsets[..i] + [offsets[i]];
      EntriesAppend(offsets[..i], offsets[i]);
      Associate(before, Entries(offsets[..i]), entry);
      output := output + entry;
    }
    assert offsets[..|offsets|] == offsets;
  }

  /** The writer: it appends to one growing buffer and notes each object's offset on the way. */
  method WritePdf(objects: seq<Bytes>) returns (output: Bytes)
    ensures output == File(objects)
  {
    var offsets: seq<nat>;
    output, offsets := AppendObjects(HEADER, objects);
    var xref := |output|;
    output := output + TableHead(|offsets|) + FREE_ENTRY;
    output := AppendEntries(output, offsets[1..]);
    output := output + Tail(|offsets|, xref);
  }

  // ---------------------------------------------------------------- a reader

  /** One 20-byte entry of an object in use: ten digits, a space, generation zero, `n`. */
  function ReadEntry(slot: Bytes): Option<nat>
    requires |slot| == 20
  {
    if AllDigits(slot[..10]) && slot[10..] == ENTRY_END then Some(Value(slot[..10])) else None
  }

  function ReadEntries(table: Bytes, count: nat): Option<seq<nat>> {
    if count == 0 then Some([])
    else if |table| < 20 then None
    else
      match ReadEntry(table[..20])
      case None => None
      case Some(offset) =>
        match ReadEntries(table[20..], count - 1)
        case None => None
        case Some(offsets) => Some([offset] + offsets)
  }

  /** The objects at `offsets`; each one reaches to the next, the last one to the table. */
  function ReadObjects(file: Bytes, offsets: seq<nat>, end: nat): Option<seq<Bytes>> {
    if offsets == [] then Some([])
    else
      var stop := if |offsets| == 1 then end else offsets[1];
      if offsets[0] <= stop <= |file| then
        match ReadObjects(file, offsets[1..], end)
        case None => None
        case Some(objects) => Some([file[offsets[0]..stop]] + objects)
      else None
  }

  function TrailingDigits(s: Bytes): (k: nat)
    ensures k <= |s| && AllDigits(s[|s| - k..])
  {
    if s == "" || !IsDigit(s[|s| - 1]) then 0
    else
      var k := 1 + TrailingDigits(s[..|s| - 1]);
      assert s[|s| - k..] == s[..|s| - 1][|s| - k..] + [s[|s| - 1]];
      k
  }

  /** The number after `startxref`, read from the end of the file. */
  function ReadStartXref(file: Bytes): Option<nat> {
    if |file| < |EOF_MARK| || file[|file| - |EOF_MARK|..] != EOF_MARK then None
    else
      var front := file[..|file| - |EOF_MARK|];
      var k := TrailingDigits(front);
      var before := front[..|front| - k];
      if k == 0 || |before| < |STARTXREF| || before[|before| - |STARTXREF|..] != STARTXREF then None
      else Some(Value(front[|front| - k..]))
  }

  /** The in-use entries of the single section `0 count` that starts at `section`. */
  function ReadTable(section: Bytes): Option<seq<nat>> {
    if !StartsWith(section, XREF) then None
    else
      var sized := section[|XREF|..];
      var k := DigitRun(sized);
      if k == 0 || Value(sized[..k]) == 0 || !StartsWith(sized[k..], "\n" + FREE_ENTRY) then None
      else ReadEntries(sized[k..][1 + |FREE_ENTRY|..], Value(sized[..k]) - 1)
  }

  /** Follow `startxref` to the table and the table to the objects. */
  function ReadPdf(file: Bytes): Option<seq<Bytes>> {
    match ReadStartXref(file)
    case None => None
    case Some(xref) =>
      if xref > |file| then None
      else
        match ReadTable(file[xref..])
        case None => None
        case Some(offsets) => ReadObjects(file, offsets, xref)
  }

  // ---------------------------------------------------------------- what the reader recovers

  /** The last object starts below 10^10, the first number ten digits cannot hold. */
  predicate LastObjectFits(objects: seq<Bytes>) {
    objects == [] || |HEADER| + |Body(objects[..|objects| - 1])| < Power10(10)
  }

  predicate AllFit(offsets: seq<nat>) {
    forall i :: 0 <= i < |offsets| ==> offsets[i] < Power10(10)
  }

  lemma ReadEntryBack(offset: nat, rest: Bytes)
    ensures |Entry(offset) + rest| >= 20
    ensures offset < Power10(10) ==> |Entry(offset)| == 20 && ReadEntry(Entry(offset)) == Some(offset)
    ensures offset >= Power10(10) ==> ReadEntry((Entry(offset) + rest)[..20]) == None
  {
    var digits := Padded(offset, 10);
    var entry := Entry(offset);
    PaddedFits(offset, 10);
    ValueOfPadded(offset, 10);
    if offset < Power10(10) {
      assert entry[..10] == digits && entry[10..] == ENTRY_END;
    } else {
      var slot := (entry + rest)[..20];
      assert slot[10] == digits[10];
      assert slot[10..][0] == slot[10];
    }
  }

  lemma AllFitTail(offsets: seq<nat>)
    requires offsets != []
    ensures AllFit(offsets) <==> offsets[0] < Power10(10) && AllFit(offsets[1..])
  {
    if AllFit(offsets) {
      assert forall i :: 0 <= i < |offsets| - 1 ==> offsets[1..][i] == offsets[i + 1];
    }
    if AllFit(offsets[1..]) {
      assert forall i :: 1 <= i < |offsets| ==> offsets[i] == offsets[1..][i - 1];
    }
  }

  /** Reading the table gives the offsets when they all fit, and fails at the first that does not. */
  lemma {:induction false} ReadEntriesBack(offsets: seq<nat>, rest: Bytes)
    ensures ReadEntries(Entries(offsets) + rest, |offsets|)
            == if AllFit(offsets) then Some(offsets) else None
  {
    if offsets != [] {
      var others := Entries(offsets[1..]) + rest;
      assert Entries(offsets) + rest == Entry(offsets[0]) + others;
      AllFitTail(offsets);
      ReadEntriesBack(offsets[1..], rest);
      ReadEntriesStep(offsets[0], others, |offsets| - 1);
      assert offsets == [offsets[0]] + offsets[1..];
    }
  }

  lemma ReadEntriesStep(offset: nat, others: Bytes, count: nat)
    ensures ReadEntries(Entry(offset) + others, count + 1)
            == if offset >= Power10(10) then None
               else match ReadEntries(others, count) case None => None case Some(more) => Some([offset] + more)
  {
    var table := Entry(offset) + others;
    ReadEntryBack(offset, others);
    if offset < Power10(10) {
      assert table[..20] == Entry(offset) && table[20..] == others;
    }
  }

  lemma {:induction false} ReadObjectsBack(front: Bytes, objects: seq<Bytes>, rest: Bytes)
    ensures ReadObjects(front + Body(objects) + rest, Offsets(|front|, objects), |front + Body(objects)|)
            == Some(objects)
    decreases objects
  {
    if objects != [] {
      var file := front + Body(objects) + rest;
      var first := objects[0];
      var offsets := Offsets(|front|, objects);
      assert file == (front + first) + Body(objects[1..]) + rest;
      assert |front + Body(objects)| == |(front + first) + Body(objects[1..])|;
      ReadObjectsBack(front + first, objects[1..], rest);
      assert offsets[1..] == Offsets(|front + first|, objects[1..]);
      if |objects| > 1 {
        assert offsets[1] == |front| + |first|;
      } else {
        assert Body(objects[1..]) == "";
      }
      assert file[|front|..|front| + |first|] == first;
      assert objects == [first] + objects[1..];
    }
  }

  lemma {:induction false} TrailingDigitsBack(front: Bytes, digits: Bytes)
    requires front != "" && !IsDigit(front[|front| - 1]) && AllDigits(digits)
    ensures TrailingDigits(front + digits) == |digits|
  {
    var s := front + digits;
    if digits == "" {
      assert s == front;
    } else {
      assert s[..|s| - 1] == front + digits[..|digits| - 1];
      TrailingDigitsBack(front, digits[..|digits| - 1]);
    }
  }

  lemma ReadStartXrefBack(front: Bytes, xref: nat)
    ensures ReadStartXref(front + STARTXREF + Numeral(xref) + EOF_MARK) == Some(xref)
  {
    var digits := Numeral(xref);
    var file := front + STARTXREF + digits + EOF_MARK;
    var head := front + STARTXREF;
    assert file[|file| - |EOF_MARK|..] == EOF_MARK;
    assert file[..|file| - |EOF_MARK|] == head + digits;
    TrailingDigitsBack(head, digits);
    assert (head + digits)[|head|..] == digits && (head + digits)[..|head|] == head;
    assert head[|head| - |STARTXREF|..] == STARTXREF;
    ValueOfNumeral(xref);
  }

  lemma ReadTableBack(count: nat, table: Bytes)
    ensures ReadTable(TableHead(count + 1) + FREE_ENTRY + table) == ReadEntries(table, count)
  {
    SectionParts(XREF, Numeral(count + 1), "\n", FREE_ENTRY, table);
    DigitRunOfPrefix(Numeral(count + 1), ("\n" + FREE_ENTRY) + table);
    ValueOfNumeral(count + 1);
  }

  lemma SectionParts(head: Bytes, digits: Bytes, newline: Bytes, free: Bytes, table: Bytes)
    requires newline != ""
    ensures var section, lined := head + digits + newline + free + table, (newline + free) + table;
            && section[..|head|] == head && section[|head|..] == digits + lined
            && (digits + lined)[..|digits|] == digits && (digits + lined)[|digits|..] == lined
            && lined[..|newline + free|] == newline + free && lined[|newline + free|..] == table
            && lined[0] == newline[0]
  {
  }

  /** The offsets increase, so they all fit exactly when the last one does. */
  lemma {:induction false} OffsetsFit(start: nat, objects: seq<Bytes>)
    requires objects != []
    ensures AllFit(Offsets(start, objects)) <==> start + |Body(objects[..|objects| - 1])| < Power10(10)
    decreases objects
  {
    var offsets := Offsets(start, objects);
    var others := objects[1..];
    AllFitTail(offsets);
    assert offsets[0] == start && offsets[1..] == Offsets(start + |objects[0]|, others);
    if |objects| == 1 {
      assert objects[..0] == [];
    } else {
      OffsetsFit(start + |objects[0]|, others);
      var front := objects[..|objects| - 1];
      assert front[0] == objects[0] && front[1..] == others[..|others| - 1];
    }
  }

  /**
   For every object list: following `startxref`, then the table, then each offset, recovers exactly the
   objects that were written, if and only if the last object starts below 10^10; otherwise one entry is
   longer than 20 bytes and the table cannot be read.
   */
  lemma ReadPdfRecovers(objects: seq<Bytes>)
    ensures ReadPdf(File(objects)) == if LastObjectFits(objects) then Some(objects) else None
  {
    var offsets := Offsets(|HEADER|, objects);
    var xref := XrefOffset(objects);
    var size := |objects| + 1;
    var front := HEADER + Body(objects);
    var table := Entries(offsets) + Tail(size, xref);
    FileParts(front, TableHead(size), FREE_ENTRY, Entries(offsets), TrailerHead(size), STARTXREF, Numeral(xref), EOF_MARK);
    ReadStartXrefBack(front + TableHead(size) + FREE_ENTRY + Entries(offsets) + TrailerHead(size), xref);
    ReadTableBack(|objects|, table);
    ReadEntriesBack(offsets, Tail(size, xref));
    if objects != [] {
      OffsetsFit(|HEADER|, objects);
    }
    ReadObjectsBack(HEADER, objects, TableHead(size) + FREE_ENTRY + table);
  }

  /** An object of 10^10 bytes: the one after it has no ten-digit offset, and the file cannot be read. */
  lemma HugeObjectIsLost(huge: Bytes, last: Bytes)
    requires |huge| >= Power10(10)
    ensures ReadPdf(File([huge, last])) == None
  {
    assert [huge, last][..1] == [huge] && [huge][1..] == [];
    assert Body([huge]) == huge;
    ReadPdfRecovers([huge, last]);
  }

  /** Such an object exists. */
  function Huge(): (huge: Bytes)
    ensures |huge| == Power10(10)
  {
    seq(Power10(10), _ => ' ')
  }

  /** The same file read as body plus section, and as everything plus the `startxref` lines. */
  lemma FileParts(front: Bytes, head: Bytes, free: Bytes, entries: Bytes, trailer: Bytes, start: Bytes, xref: Bytes, eof: Bytes)
    ensures var file := front + head + free + entries + (trailer + start + xref + eof);
            && file == front + (head + free + (entries + (trailer + start + xref + eof)))
            && file == (front + head + free + entries + trailer) + start + xref + eof
            && file[|front|..] == head + free + (entries + (trailer + start + xref + eof))
  {
  }
}
