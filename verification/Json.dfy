/**
 JSON documents as Python's `json.dumps(value, separators=(",", ":"))` writes them (ASCII only: other
 characters are escaped) and as `json.loads` reads them (RFC 8259, with Python's treatment of `\u`
 escapes).  A Python `str` is a sequence of code points and may hold unpaired surrogates.
 */
module Json {
  import opened Sequences
  import opened Wrappers
  import opened Decimal

  type CodePoint = c: int | 0 <= c < 0x11_0000
  type Text = seq<CodePoint>

  datatype Json =
    | Null
    | Bool(b: bool)
    | Int(n: int)
    | Str(s: Text)
    | Arr(items: seq<Json>)
    | Obj(members: seq<Member>)

  /** One key and its value; a Python `dict` keeps its members in insertion order. */
  datatype Member = Member(key: Text, value: Json)

  // ---------------------------------------------------------------- strings, written

  predicate IsHigh(c: int) {
    0xD800 <= c < 0xDC00
  }

  predicate IsLow(c: int) {
    0xDC00 <= c < 0xE000
  }

  /** The code point a high and a low surrogate stand for together. */
  function Combine(high: int, low: int): CodePoint
    requires IsHigh(high) && IsLow(low)
  {
    0x1_0000 + (high - 0xD800) * 0x400 + (low - 0xDC00)
  }

  function HexChar(d: nat): (c: char)
    requires d < 16
    ensures HexValue(c) == Some(d)
    ensures IsPlain(c)
  {
    if d < 10 then DigitChar(d) else ('a' as int + (d - 10)) as char
  }

  function HexValue(c: char): (d: Option<nat>)
    ensures d.Some? ==> d.value < 16
  {
    if '0' <= c <= '9' then Some(c as int - '0' as int)
    else if 'a' <= c <= 'f' then Some(c as int - 'a' as int + 10)
    else if 'A' <= c <= 'F' then Some(c as int - 'A' as int + 10)
    else None
  }

  /** Characters that stand for themselves inside a JSON string. */
  predicate IsPlain(c: char) {
    ' ' <= c <= '~' && c != '"' && c != '\\'
  }

  function Hex4(n: nat): (s: string)
    requires n < 0x1_0000
    ensures |s| == 4
  {
    [HexChar(n / 0x1000), HexChar(n / 0x100 % 16), HexChar(n / 16 % 16), HexChar(n % 16)]
  }

  function UEscape(n: nat): (s: string)
    requires n < 0x1_0000
    ensures |s| == 6
  {
    "\\u" + Hex4(n)
  }

  /** The four ways a character is spelled inside a string. */
  datatype Spelling = Plain(p: char) | Short(letter: char) | Code(n: nat) | Pair(high: nat, low: nat)

  function SpellingOf(c: CodePoint): (r: Spelling)
    ensures r.Plain? ==> IsPlain(r.p) && r.p as int == c
    ensures r.Short? ==> ShortEscape(r.letter) == Some(c)
    ensures r.Code? ==> r.n == c < 0x1_0000
    ensures r.Pair? ==> IsHigh(r.high) && IsLow(r.low) && Combine(r.high, r.low) == c
  {
    if c == '"' as int then Short('"')
    else if c == '\\' as int then Short('\\')
    else if c == 10 then Short('n')
    else if c == 13 then Short('r')
    else if c == 9 then Short('t')
    else if c == 12 then Short('f')
    else if c == 8 then Short('b')
    else if ' ' as int <= c <= '~' as int then Plain(c as char)
    else if c < 0x1_0000 then Code(c)
    else Pair(0xD800 + (c - 0x1_0000) / 0x400, 0xDC00 + (c - 0x1_0000) % 0x400)
  }

  function Escape(c: CodePoint): (s: string)
    ensures s != "" && s[0] != '"'
  {
    match SpellingOf(c)
    case Plain(p) => [p]
    case Short(letter) => ['\\', letter]
    case Code(n) => UEscape(n)
    case Pair(high, low) => UEscape(high) + UEscape(low)
  }

  function EscapeAll(t: Text): string {
    if t == [] then "" else Escape(t[0]) + EscapeAll(t[1..])
  }

  function Quoted(t: Text): string {
    "\"" + EscapeAll(t) + "\""
  }

  // ---------------------------------------------------------------- documents, written

  function IntText(n: int): string {
    if n < 0 then "-" + Numeral(-n) else Numeral(n)
  }

  function Encode(v: Json): string
    decreases v, 0
  {
    match v
    case Null => "null"
    case Bool(b) => if b then "true" else "false"
    case Int(n) => IntText(n)
    case Str(s) => Quoted(s)
    case Arr(items) => "[" + (if items == [] then "" else Encode(items[0]) + EncodeMoreItems(items[1..])) + "]"
    case Obj(members) =>
      "{" + (if members == [] then "" else EncodeMember(members[0]) + EncodeMoreMembers(members[1..])) + "}"
  }

  function EncodeMoreItems(items: seq<Json>): string
    decreases items, 0
  {
    if items == [] then "" else "," + Encode(items[0]) + EncodeMoreItems(items[1..])
  }

  function EncodeMember(m: Member): string
    decreases m, 1
  {
    Quoted(m.key) + ":" + Encode(m.value)
  }

  function EncodeMoreMembers(members: seq<Member>): string
    decreases members, 0
  {
    if members == [] then "" else "," + EncodeMember(members[0]) + EncodeMoreMembers(members[1..])
  }

  // ---------------------------------------------------------------- strings, read

  /** What follows `\u`: four hexadecimal digits. */
  function ReadHex4(s: string): Option<nat> {
    if |s| < 4 then None
    else
      match (HexValue(s[0]), HexValue(s[1]), HexValue(s[2]), HexValue(s[3]))
      case (Some(a), Some(b), Some(c), Some(d)) => Some(((a * 16 + b) * 16 + c) * 16 + d)
      case _ => None
  }

  /** A one-character escape such as `\n`. */
  function ShortEscape(c: char): Option<CodePoint> {
    if c == '"' || c == '\\' || c == '/' then Some(c as int)
    else if c == 'b' then Some(8)
    else if c == 'f' then Some(12)
    else if c == 'n' then Some(10)
    else if c == 'r' then Some(13)
    else if c == 't' then Some(9)
    else None
  }

  /** One character of a string's content and how many characters of the document spell it. */
  datatype Token = Token(c: CodePoint, length: nat)

  function FirstToken(s: string): (t: Option<Token>)
    requires s != ""
    ensures t.Some? ==> 1 <= t.value.length <= |s|
  {
    if s[0] < ' ' then None
    else if s[0] != '\\' then Some(Token(s[0] as int, 1))
    else if |s| < 2 then None
    else if s[1] != 'u' then
      match ShortEscape(s[1])
      case None => None
      case Some(c) => Some(Token(c, 2))
    else UToken(s)
  }

  /** A `\u` escape; a high surrogate takes a following escaped low surrogate with it. */
  function UToken(s: string): (t: Option<Token>)
    requires |s| >= 2
    ensures t.Some? ==> 1 <= t.value.length <= |s|
  {
    match ReadHex4(s[2..])
    case None => None
    case Some(n) =>
      var after := s[6..];
      if IsHigh(n) && |after| >= 2 && after[0] == '\\' && after[1] == 'u' then
        match ReadHex4(after[2..])
        case None => None
        case Some(m) => Some(if IsLow(m) then Token(Combine(n, m), 12) else Token(n, 6))
      else Some(Token(n, 6))
  }

  datatype Scanned = Scanned(text: Text, rest: string)

  /** The rest of a string after its opening quote: its characters, and what follows the closing quote. */
  function Scan(s: string): (r: Option<Scanned>)
    ensures r.Some? ==> |r.value.rest| < |s|
  {
    if s == "" then None
    else if s[0] == '"' then Some(Scanned([], s[1..]))
    else
      match FirstToken(s)
      case None => None
      case Some(Token(c, length)) =>
        match Scan(s[length..])
        case None => None
        case Some(Scanned(text, rest)) => Some(Scanned([c] + text, rest))
  }

  // ---------------------------------------------------------------- documents, read

  function SkipSpace(s: string): (r: string)
    ensures |r| <= |s|
  {
    if s != "" && (s[0] == ' ' || s[0] == '\t' || s[0] == '\n' || s[0] == '\r') then SkipSpace(s[1..]) else s
  }

  datatype Parsed<+T> = Parsed(value: T, rest: string)

  /** An integer without leading zeros; a fraction or an exponent is not read. */
  function ParseNat(s: string): (r: Option<Parsed<nat>>)
    ensures r.Some? ==> |r.value.rest| < |s|
  {
    var k := if s != "" && s[0] == '0' then 1 else DigitRun(s);
    if k == 0 then None
    else
      assert AllDigits(s[..k]);
      Some(Parsed(Value(s[..k]), s[k..]))
  }

  function ParseScalar(s: string): (r: Option<Parsed<Json>>)
    requires s != ""
    ensures r.Some? ==> |r.value.rest| < |s|
  {
    if s[0] == 'n' then if StartsWith(s, "null") then Some(Parsed(Null, s[4..])) else None
    else if s[0] == 't' then if StartsWith(s, "true") then Some(Parsed(Bool(true), s[4..])) else None
    else if s[0] == 'f' then if StartsWith(s, "false") then Some(Parsed(Bool(false), s[5..])) else None
    else if s[0] == '-' then
      match ParseNat(s[1..])
      case None => None
      case Some(Parsed(n, rest)) => Some(Parsed(Int(0 - n), rest))
    else
      match ParseNat(s)
      case None => None
      case Some(Parsed(n, rest)) => Some(Parsed(Int(n), rest))
  }

  function ParseValue(s: string): (r: Option<Parsed<Json>>)
    ensures r.Some? ==> |r.value.rest| < |s|
    decreases |s|, 1
  {
    if s == "" then None
    else if s[0] == '"' then
      match Scan(s[1..])
      case None => None
      case Some(Scanned(text, rest)) => Some(Parsed(Str(text), rest))
    else if s[0] == '[' then
      var inner := SkipSpace(s[1..]);
      if StartsWith(inner, "]") then Some(Parsed(Arr([]), inner[1..]))
      else
        match ParseItems(inner)
        case None => None
        case Some(Parsed(items, rest)) => Some(Parsed(Arr(items), rest))
    else if s[0] == '{' then
      var inner := SkipSpace(s[1..]);
      if StartsWith(inner, "}") then Some(Parsed(Obj([]), inner[1..]))
      else
        match ParseMembers(inner)
        case None => None
        case Some(Parsed(members, rest)) => Some(Parsed(Obj(Dict(members)), rest))
    else ParseScalar(s)
  }

  /** One or more values with commas between them, then the closing bracket. */
  function ParseItems(s: string): (r: Option<Parsed<seq<Json>>>)
    ensures r.Some? ==> |r.value.rest| < |s|
    decreases |s|, 2
  {
    match ParseValue(s)
    case None => None
    case Some(Parsed(v, after)) =>
      var next := SkipSpace(after);
      if StartsWith(next, "]") then Some(Parsed([v], next[1..]))
      else if StartsWith(next, ",") then
        match ParseItems(SkipSpace(next[1..]))
        case None => None
        case Some(Parsed(items, rest)) => Some(Parsed([v] + items, rest))
      else None
  }

  function ParseMember(s: string): (r: Option<Parsed<Member>>)
    ensures r.Some? ==> |r.value.rest| < |s|
    decreases |s|, 0
  {
    if s == "" || s[0] != '"' then None
    else
      match Scan(s[1..])
      case None => None
      case Some(Scanned(key, afterKey)) =>
        var colon := SkipSpace(afterKey);
        if !StartsWith(colon, ":") then None
        else
          match ParseValue(SkipSpace(colon[1..]))
          case None => None
          case Some(Parsed(v, rest)) => Some(Parsed(Member(key, v), rest))
  }

  function ParseMembers(s: string): (r: Option<Parsed<seq<Member>>>)
    ensures r.Some? ==> |r.value.rest| < |s|
    decreases |s|, 1
  {
    match ParseMember(s)
    case None => None
    case Some(Parsed(m, after)) =>
      var next := SkipSpace(after);
      if StartsWith(next, "}") then Some(Parsed([m], next[1..]))
      else if StartsWith(next, ",") then
        match ParseMembers(SkipSpace(next[1..]))
        case None => None
        case Some(Parsed(members, rest)) => Some(Parsed([m] + members, rest))
      else None
  }

  /** A whole document: one value with nothing but white space around it. */
  function Decode(s: string): Option<Json> {
    match ParseValue(SkipSpace(s))
    case None => None
    case Some(Parsed(v, rest)) => if SkipSpace(rest) == "" then Some(v) else None
  }

  /** A dict built from pairs in order: a later value for the same key replaces the earlier one in place. */
  function Dict(pairs: seq<Member>): (members: seq<Member>)
    ensures |members| <= |pairs|
    ensures DistinctKeys(members)
  {
    if pairs == [] then [] else Put(Dict(pairs[..|pairs| - 1]), pairs[|pairs| - 1])
  }

  function Put(members: seq<Member>, m: Member): (r: seq<Member>)
    requires DistinctKeys(members)
    ensures DistinctKeys(r)
    ensures |members| <= |r| <= |members| + 1
    ensures |r| == |members| <==> exists i :: 0 <= i < |members| && members[i].key == m.key
  {
    if exists i :: 0 <= i < |members| && members[i].key == m.key then
      var i :| 0 <= i < |members| && members[i].key == m.key;
      members[i := m]
    else members + [m]
  }

  predicate DistinctKeys(members: seq<Member>) {
    forall i, j :: 0 <= i < j < |members| ==> members[i].key != members[j].key
  }
}
