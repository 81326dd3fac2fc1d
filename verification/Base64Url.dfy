/**
 Base64 with the URL-safe alphabet (RFC 4648, sections 3.2 and 5), written without its padding and read
 by the lenient decoder of Python's `base64.urlsafe_b64decode`.
 */
module Base64Url {
  import opened Wrappers
  import opened Sequences

  // ---------------------------------------------------------------- written

  function SextetChar(n: nat): (c: char)
    requires n < 64
    ensures c != '=' && c < 128 as char && SextetOf(c) == Some(n)
    ensures c != '/' && c != '+'
  {
    if n < 26 then ('A' as int + n) as char
    else if n < 52 then ('a' as int + (n - 26)) as char
    else if n < 62 then ('0' as int + (n - 52)) as char
    else if n == 62 then '-'
    else '_'
  }

  /** The four characters of a full group. */
  function Group(a: Byte, b: Byte, c: Byte): string {
    [SextetChar(a / 4), SextetChar(a % 4 * 16 + b / 16), SextetChar(b % 16 * 4 + c / 64), SextetChar(c % 64)]
  }

  /** Full groups of three bytes, then two or three characters for what remains. */
  function Unpadded(bytes: seq<Byte>): string {
    if bytes == [] then ""
    else if |bytes| == 1 then [SextetChar(bytes[0] / 4), SextetChar(bytes[0] % 4 * 16)]
    else if |bytes| == 2 then
      [SextetChar(bytes[0] / 4), SextetChar(bytes[0] % 4 * 16 + bytes[1] / 16), SextetChar(bytes[1] % 16 * 4)]
    else Group(bytes[0], bytes[1], bytes[2]) + Unpadded(bytes[3..])
  }

  function Padding(k: nat): (s: string)
    ensures |s| == k
    ensures forall i :: 0 <= i < k ==> s[i] == '='
  {
    seq(k, _ => '=')
  }

  /** `base64.urlsafe_b64encode`. */
  function Encode64(bytes: seq<Byte>): string {
    Unpadded(bytes) + Padding((0 - |bytes|) % 3)
  }

  /** `str.rstrip("=")`. */
  function StripPadding(s: string): string {
    if s != "" && s[|s| - 1] == '=' then StripPadding(s[..|s| - 1]) else s
  }

  // ---------------------------------------------------------------- read

  /** The value of a character in either Base64 alphabet. */
  function SextetOf(c: char): (n: Option<nat>)
    ensures n.Some? ==> n.value < 64
  {
    if 'A' <= c <= 'Z' then Some(c as int - 'A' as int)
    else if 'a' <= c <= 'z' then Some(c as int - 'a' as int + 26)
    else if '0' <= c <= '9' then Some(c as int - '0' as int + 52)
    else if c == '-' || c == '+' then Some(62)
    else if c == '_' || c == '/' then Some(63)
    else None
  }

  datatype DecodeError = NotAscii | BadLength | BadPadding

  function Emit(b: Byte, rest: Result<seq<Byte>, DecodeError>): Result<seq<Byte>, DecodeError> {
    match rest
    case Ok(bytes) => Ok([b] + bytes)
    case Err(e) => Err(e)
  }

  /**
   The decoder's loop, from a state in which `pos` characters of a group were read, `left` holds their
   bits that were not yet emitted and `pads` padding characters were seen.  Characters outside the
   alphabets are skipped, and a complete padding ends the input.
   */
  function Absorb(s: string, pos: nat, left: nat, pads: nat): Result<seq<Byte>, DecodeError>
    requires pos < 4
    requires left < (if pos == 1 then 64 else if pos == 2 then 16 else if pos == 3 then 4 else 1)
  {
    if s == "" then
      if pos == 0 then Ok([]) else if pos == 1 then Err(BadLength) else Err(BadPadding)
    else if s[0] == '=' then
      if pos >= 2 && pos + pads + 1 >= 4 then Ok([])
      else Absorb(s[1..], pos, left, if pos >= 2 then pads + 1 else pads)
    else
      match SextetOf(s[0])
      case None => Absorb(s[1..], pos, left, pads)
      case Some(v) =>
        if pos == 0 then Absorb(s[1..], 1, v, 0)
        else if pos == 1 then Emit(left * 4 + v / 16, Absorb(s[1..], 2, v % 16, 0))
        else if pos == 2 then Emit(left * 16 + v / 4, Absorb(s[1..], 3, v % 4, 0))
        else Emit(left * 64 + v, Absorb(s[1..], 0, 0, 0))
  }

  /** `base64.urlsafe_b64decode` of a string. */
  function Decode64(s: string): Result<seq<Byte>, DecodeError> {
    if exists i :: 0 <= i < |s| && s[i] >= 128 as char then Err(NotAscii) else Absorb(s, 0, 0, 0)
  }

  /** The padding a reader adds back: `"=" * (-len(selector) % 4)`. */
  function Repadded(s: string): string {
    s + Padding((0 - |s|) % 4)
  }

  // ---------------------------------------------------------------- the round trip

  predicate InAlphabet(s: string) {
    forall i :: 0 <= i < |s| ==> s[i] != '=' && s[i] != '/' && s[i] < 128 as char && SextetOf(s[i]).Some?
  }

  lemma {:induction false} UnpaddedShape(bytes: seq<Byte>)
    ensures InAlphabet(Unpadded(bytes))
    ensures |Unpadded(bytes)| == (4 * |bytes| + 2) / 3
  {
    if |bytes| >= 3 {
      UnpaddedShape(bytes[3..]);
    }
  }

  lemma AbsorbGroup(a: Byte, b: Byte, c: Byte, rest: string)
    ensures Absorb(Group(a, b, c) + rest, 0, 0, 0) == Emit(a, Emit(b, Emit(c, Absorb(rest, 0, 0, 0))))
  {
    var s := Group(a, b, c) + rest;
    var s1, s2, s3 := s[1..], s[2..], s[3..];
    assert s1[1..] == s2 && s2[1..] == s3 && s3[1..] == rest;
    assert Absorb(s3, 3, c / 64, 0) == Emit(c, Absorb(rest, 0, 0, 0));
    assert Absorb(s2, 2, b / 16, 0) == Emit(b, Absorb(s3, 3, c / 64, 0));
    assert Absorb(s1, 1, a / 4, 0) == Emit(a, Absorb(s2, 2, b / 16, 0));
  }

  lemma {:induction false} DecodeEncode64(bytes: seq<Byte>)
    ensures Absorb(Encode64(bytes), 0, 0, 0) == Ok(bytes)
  {
    if |bytes| == 1 {
      AbsorbOne(bytes[0]);
      assert bytes == [bytes[0]];
    } else if |bytes| == 2 {
      AbsorbTwo(bytes[0], bytes[1]);
      assert bytes == [bytes[0], bytes[1]];
    } else if |bytes| >= 3 {
      var group, tail := Group(bytes[0], bytes[1], bytes[2]), Encode64(bytes[3..]);
      EncodeGroup(bytes);
      DecodeEncode64(bytes[3..]);
      AbsorbGroup(bytes[0], bytes[1], bytes[2], tail);
      assert bytes == [bytes[0]] + ([bytes[1]] + ([bytes[2]] + bytes[3..]));
    }
  }

  lemma EncodeGroup(bytes: seq<Byte>)
    requires |bytes| >= 3
    ensures Encode64(bytes) == Group(bytes[0], bytes[1], bytes[2]) + Encode64(bytes[3..])
  {
    assert Padding((0 - |bytes|) % 3) == Padding((0 - |bytes[3..]|) % 3);
    Associate(Group(bytes[0], bytes[1], bytes[2]), Unpadded(bytes[3..]), Padding((0 - |bytes|) % 3));
  }

  lemma AbsorbOne(b: Byte)
    ensures Absorb(Encode64([b]), 0, 0, 0) == Ok([b])
  {
    var s := Encode64([b]);
    assert s == [SextetChar(b / 4), SextetChar(b % 4 * 16), '=', '='];
    assert s[1..][1..] == ['=', '='] && s[1..][1..][1..] == ['='];
    assert Absorb(['='], 2, 0, 1) == Ok([]);
    assert Absorb(['=', '='], 2, 0, 0) == Ok([]);
    assert Absorb(s[1..], 1, b / 4, 0) == Emit(b, Absorb(['=', '='], 2, 0, 0));
    assert Absorb(s, 0, 0, 0) == Absorb(s[1..], 1, b / 4, 0);
    assert [b] + [] == [b];
  }

  lemma AbsorbTwo(a: Byte, b: Byte)
    ensures Absorb(Encode64([a, b]), 0, 0, 0) == Ok([a, b])
  {
    var s := Encode64([a, b]);
    var s2 := [SextetChar(b % 16 * 4), '='];
    var s1 := [SextetChar(a % 4 * 16 + b / 16)] + s2;
    assert s == [SextetChar(a / 4)] + s1;
    assert s[1..] == s1 && s1[1..] == s2 && s2[1..] == ['='];
    assert Absorb(['='], 3, 0, 0) == Ok([]);
    assert Absorb(s2, 2, b / 16, 0) == Emit(b, Absorb(['='], 3, 0, 0));
    assert Absorb(s1, 1, a / 4, 0) == Emit(a, Absorb(s2, 2, b / 16, 0));
    assert Absorb(s, 0, 0, 0) == Absorb(s1, 1, a / 4, 0);
    assert [a] + ([b] + []) == [a, b];
  }

  lemma {:induction false} StripPaddingOf(s: string, k: nat)
    requires InAlphabet(s)
    ensures StripPadding(s + Padding(k)) == s
  {
    if k == 0 {
      assert s + Padding(0) == s;
    } else {
      assert (s + Padding(k))[..|s| + k - 1] == s + Padding(k - 1);
      StripPaddingOf(s, k - 1);
    }
  }

  /** `rstrip` removes the padding and nothing else. */
  lemma StripEncoded(bytes: seq<Byte>)
    ensures StripPadding(Encode64(bytes)) == Unpadded(bytes)
  {
    UnpaddedShape(bytes);
    StripPaddingOf(Unpadded(bytes), (0 - |bytes|) % 3);
  }

  /** The padding that the length alone asks for is the padding that was there. */
  lemma RepadEncoded(bytes: seq<Byte>)
    ensures Repadded(Unpadded(bytes)) == Encode64(bytes)
  {
    UnpaddedShape(bytes);
    PaddingLength(|bytes|);
  }

  lemma PaddingLength(n: nat)
    ensures (0 - (4 * n + 2) / 3) % 4 == (0 - n) % 3
  {
    var q, r := n / 3, n % 3;
    assert n == 3 * q + r;
    assert (4 * n + 2) / 3 == 4 * q + (4 * r + 2) / 3;
  }

  lemma DecodeAscii(bytes: seq<Byte>)
    ensures Decode64(Encode64(bytes)) == Ok(bytes)
  {
    UnpaddedShape(bytes);
    PaddedAscii(Unpadded(bytes), (0 - |bytes|) % 3);
    DecodeEncode64(bytes);
  }

  lemma PaddedAscii(s: string, k: nat)
    requires InAlphabet(s)
    ensures forall i :: 0 <= i < |s + Padding(k)| ==> (s + Padding(k))[i] < 128 as char
  {
  }

  /** What `rstrip` removed is exactly what the reader adds back, and every byte is read back. */
  lemma StrippedRoundTrip(bytes: seq<Byte>)
    ensures InAlphabet(StripPadding(Encode64(bytes)))
    ensures Repadded(StripPadding(Encode64(bytes))) == Encode64(bytes)
    ensures Decode64(Repadded(StripPadding(Encode64(bytes)))) == Ok(bytes)
  {
    UnpaddedShape(bytes);
    StripEncoded(bytes);
    RepadEncoded(bytes);
    DecodeAscii(bytes);
  }
}
