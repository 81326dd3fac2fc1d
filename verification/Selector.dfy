/**
 The eval view selector: a `[kind, value]` document in unpadded URL-safe Base64, used as the last segment
 of a page's path, and the reader that takes it back out of the path.
 */
module Selector {
  import opened Sequences
  import opened Wrappers
  import opened Json
  import opened JsonRoundTrip
  import opened Base64Url

  datatype SelectorError = BadBase64(error: DecodeError) | BadText | BadJson | NotAPair | WrongKind

  /** The bytes of an ASCII text, and the text of ASCII bytes. */
  function AsciiBytes(s: string): (bytes: seq<Byte>)
    requires Printable(s)
  {
    seq(|s|, i requires 0 <= i < |s| => s[i] as int)
  }

  function AsciiText(bytes: seq<Byte>): Option<string> {
    if forall i :: 0 <= i < |bytes| ==> bytes[i] < 128
    then Some(seq(|bytes|, i requires 0 <= i < |bytes| => bytes[i] as char))
    else None
  }

  function EvalViewSelector(kind: Text, value: Json): string {
    var document := Encode(Arr([Str(kind), value]));
    EncodePrintable(Arr([Str(kind), value]));
    StripPadding(Encode64(AsciiBytes(document)))
  }

  /** The text after the last `/` of a path. */
  function LastSegment(path: string): string {
    if exists i :: 0 <= i < |path| && path[i] == '/' then
      LastSegment(path[1..])
    else path
  }

  /** `json.loads(base64.urlsafe_b64decode(selector + padding))`. */
  function SelectedDocument(selector: string): Result<Json, SelectorError> {
    match Decode64(Repadded(selector))
    case Err(e) => Err(BadBase64(e))
    case Ok(bytes) =>
      match AsciiText(bytes)
      case None => Err(BadText)
      case Some(text) =>
        match Decode(text)
        case None => Err(BadJson)
        case Some(v) => Ok(v)
  }

  /** `kind, identity = value`: an array of two, but also a string or an object of two, unpacks. */
  function Unpacked(v: Json): Option<(Json, Json)> {
    match v
    case Arr(items) => if |items| == 2 then Some((items[0], items[1])) else None
    case Str(s) => if |s| == 2 then Some((Str([s[0]]), Str([s[1]]))) else None
    case Obj(members) => if |members| == 2 then Some((Str(members[0].key), Str(members[1].key))) else None
    case _ => None
  }

  /** The identity of the native run a page's path selects. */
  function SelectedEvalRun(path: string): Result<Json, SelectorError> {
    match SelectedDocument(LastSegment(path))
    case Err(e) => Err(e)
    case Ok(v) =>
      match Unpacked(v)
      case None => Err(NotAPair)
      case Some((kind, identity)) => if kind == Str(RunKind()) then Ok(identity) else Err(WrongKind)
  }

  function RunKind(): Text {
    ['r' as int, 'u' as int, 'n' as int]
  }

  // ----------------------------------------------------------------

  lemma AsciiRoundTrip(s: string)
    requires Printable(s)
    ensures AsciiText(AsciiBytes(s)) == Some(s)
  {
    var bytes := AsciiBytes(s);
    assert forall i :: 0 <= i < |bytes| ==> bytes[i] < 128;
    assert AsciiText(bytes).value == s;
  }

  /** For every kind and value: the selector is one plain path segment and reads back as `Reread` says. */
  lemma SelectorReads(kind: Text, value: Json)
    ensures InAlphabet(EvalViewSelector(kind, value))
    ensures SelectedDocument(EvalViewSelector(kind, value)) == Ok(Arr([Str(Joined(kind)), Reread(value)]))
  {
    var v := Arr([Str(kind), value]);
    EncodePrintable(v);
    StrippedRoundTrip(AsciiBytes(Encode(v)));
    AsciiRoundTrip(Encode(v));
    DecodeEncode(v);
    RereadPair(kind, value);
  }

  lemma RereadPair(kind: Text, value: Json)
    ensures Reread(Arr([Str(kind), value])) == Arr([Str(Joined(kind)), Reread(value)])
  {
    RereadItemsAt([Str(kind), value]);
    assert RereadItems([Str(kind), value]) == [Str(Joined(kind)), Reread(value)];
  }

  /**
   The round trip of the selector: it gives back exactly the kind and the value that were encoded if and
   only if no string or key in them has a high surrogate directly before a low one.
   */
  lemma SelectorRoundTrip(kind: Text, value: Json)
    requires IsValue(value)
    ensures SelectedDocument(EvalViewSelector(kind, value)) == Ok(Arr([Str(kind), value]))
            <==> NoSplitPair(kind) && WellPaired(value)
  {
    SelectorReads(kind, value);
    JoinedSame(kind);
    RereadSame(value);
    assert [Str(Joined(kind)), Reread(value)] == [Str(kind), value]
           <==> Joined(kind) == kind && Reread(value) == value by {
      var a, b := [Str(Joined(kind)), Reread(value)], [Str(kind), value];
      if a == b {
        assert a[0] == b[0] && a[1] == b[1];
      }
    }
  }

  lemma {:induction false} LastSegmentOf(front: string, segment: string)
    requires forall i :: 0 <= i < |segment| ==> segment[i] != '/'
    ensures LastSegment(front + "/" + segment) == segment
  {
    var path := front + "/" + segment;
    assert path[|front|] == '/';
    if front == "" {
      assert path[1..] == segment;
    } else {
      assert path[1..] == front[1..] + "/" + segment;
      LastSegmentOf(front[1..], segment);
    }
  }

  /** Below any path, a selected run gives its identity back, and a selector of another kind is refused. */
  lemma SelectedRunReads(front: string, kind: Text, value: Json)
    ensures SelectedEvalRun(front + "/" + EvalViewSelector(kind, value))
            == if kind == RunKind() then Ok(Reread(value)) else Err(WrongKind)
  {
    SelectorReads(kind, value);
    if Joined(kind) == RunKind() {
      JoinedToPlain(kind);
    } else if kind == RunKind() {
      JoinedSame(kind);
    }
    LastSegmentOf(front, EvalViewSelector(kind, value));
  }
}
