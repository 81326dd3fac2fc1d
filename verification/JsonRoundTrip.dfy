/**
 What `json.loads` makes of a document that `json.dumps` wrote, for every value: the same value, except
 that a high surrogate directly followed by a low one is read back as the single code point they encode.
 */
module JsonRoundTrip {
  import opened Wrappers
  import opened Decimal
  import opened Json
  import opened Sequences

  /** Every high surrogate directly followed by a low one replaced by the code point they encode. */
  function Joined(t: Text): (r: Text)
    ensures |r| <= |t|
  {
    if t == [] then []
    else if |t| >= 2 && IsHigh(t[0]) && IsLow(t[1]) then [Combine(t[0], t[1])] + Joined(t[2..])
    else [t[0]] + Joined(t[1..])
  }

  /** No high surrogate is directly followed by a low one. */
  predicate NoSplitPair(t: Text) {
    forall i :: 0 <= i < |t| - 1 ==> !(IsHigh(t[i]) && IsLow(t[i + 1]))
  }

  /** The value that is read back. */
  function Reread(v: Json): Json
    decreases v, 0
  {
    match v
    case Str(s) => Str(Joined(s))
    case Arr(items) => Arr(RereadItems(items))
    case Obj(members) => Obj(Dict(RereadMembers(members)))
    case _ => v
  }

  function RereadItems(items: seq<Json>): (r: seq<Json>)
    ensures |r| == |items|
    decreases items, 0
  {
    if items == [] then [] else [Reread(items[0])] + RereadItems(items[1..])
  }

  function RereadMember(m: Member): Member
    decreases m, 1
  {
    Member(Joined(m.key), Reread(m.value))
  }

  function RereadMembers(members: seq<Member>): (r: seq<Member>)
    ensures |r| == |members|
    decreases members, 0
  {
    if members == [] then [] else [RereadMember(members[0])] + RereadMembers(members[1..])
  }

  // ---------------------------------------------------------------- strings

  lemma ReadHex4Back(n: nat, rest: string)
    requires n < 0x1_0000
    ensures ReadHex4(Hex4(n) + rest) == Some(n)
  {
    var s := Hex4(n) + rest;
    assert s[0] == HexChar(n / 0x1000) && s[1] == HexChar(n / 0x100 % 16);
    assert s[2] == HexChar(n / 16 % 16) && s[3] == HexChar(n % 16);
    assert n / 0x1000 * 16 + n / 0x100 % 16 == n / 0x100;
    assert n / 0x100 * 16 + n / 16 % 16 == n / 16;
  }

  /** How a `\u` escape is taken apart. */
  lemma UEscapeParts(n: nat, after: string)
    requires n < 0x1_0000
    ensures var s := UEscape(n) + after;
            && |s| >= 6 && s[0] == '\\' && s[1] == 'u' && ReadHex4(s[2..]) == Some(n) && s[6..] == after
  {
    var s := UEscape(n) + after;
    assert s[2..] == Hex4(n) + after;
    ReadHex4Back(n, after);
  }

  /** One `\u` escape is one token, unless it is a high surrogate and a low one can follow. */
  lemma UTokenBack(n: nat, after: string)
    requires n < 0x1_0000
    requires !IsHigh(n) || after == "" || after[0] != '\\' || (|after| >= 2 && after[1] != 'u')
    ensures FirstToken(UEscape(n) + after) == Some(Token(n, 6))
  {
    UEscapeParts(n, after);
  }

  lemma UTokenPairBack(n: nat, m: nat, after: string)
    requires IsHigh(n) && m < 0x1_0000
    ensures FirstToken(UEscape(n) + (UEscape(m) + after))
            == Some(if IsLow(m) then Token(Combine(n, m), 12) else Token(n, 6))
  {
    UEscapeParts(n, UEscape(m) + after);
    UEscapeParts(m, after);
  }

  lemma TokenShortBack(c: CodePoint, after: string)
    requires SpellingOf(c).Plain? || SpellingOf(c).Short?
    ensures FirstToken(Escape(c) + after) == Some(Token(c, |Escape(c)|))
  {
    var e := Escape(c);
    var s := e + after;
    assert s[0] == e[0];
    if SpellingOf(c).Short? {
      assert s[1] == e[1] == SpellingOf(c).letter;
    }
  }

  lemma TokenBack(c: CodePoint, after: string)
    requires !IsHigh(c)
    ensures FirstToken(Escape(c) + after) == Some(Token(c, |Escape(c)|))
  {
    match SpellingOf(c)
    case Plain(_) => TokenShortBack(c, after);
    case Short(_) => TokenShortBack(c, after);
    case Code(n) => UTokenBack(n, after);
    case Pair(high, low) =>
      Associate(UEscape(high), UEscape(low), after);
      UTokenPairBack(high, low, after);
  }

  /** What an escaped character that is not a low surrogate starts with: never a low surrogate's escape. */
  lemma EscapeStart(d: CodePoint, others: string) returns (m: nat, tail: string)
    requires !IsLow(d)
    ensures m < 0x1_0000 && !IsLow(m)
    ensures var after := Escape(d) + others;
            || after[0] != '\\'
            || (|after| >= 2 && after[1] != 'u')
            || after == UEscape(m) + tail
  {
    m, tail := 0, "";
    match SpellingOf(d)
    case Plain(p) =>
    case Short(letter) =>
    case Code(n) => m, tail := n, others;
    case Pair(high, low) =>
      m, tail := high, UEscape(low) + others;
      Associate(UEscape(high), UEscape(low), others);
  }

  /** A high surrogate is read alone when the next character is the closing quote or not a low surrogate. */
  lemma TokenHighBack(c: CodePoint, d: CodePoint, others: string)
    requires IsHigh(c) && !IsLow(d)
    ensures FirstToken(UEscape(c) + (Escape(d) + others)) == Some(Token(c, 6))
  {
    var m, tail := EscapeStart(d, others);
    var after := Escape(d) + others;
    if after == UEscape(m) + tail {
      UTokenPairBack(c, m, tail);
    } else {
      UTokenBack(c, after);
    }
  }

  /** One step of `Scan` when the first token is known. */
  lemma ScanStep(spelled: string, c: CodePoint, after: string, text: Text, rest: string)
    requires spelled != "" && spelled[0] != '"'
    requires FirstToken(spelled + after) == Some(Token(c, |spelled|))
    requires Scan(after) == Some(Scanned(text, rest))
    ensures Scan(spelled + after) == Some(Scanned([c] + text, rest))
  {
    assert (spelled + after)[|spelled|..] == after;
  }

  lemma EscapeOfSurrogate(c: CodePoint)
    requires IsHigh(c) || IsLow(c)
    ensures Escape(c) == UEscape(c)
  {
  }

  lemma EscapeTwo(t: Text)
    requires |t| >= 2 && IsHigh(t[0]) && IsLow(t[1])
    ensures EscapeAll(t) == UEscape(t[0]) + (UEscape(t[1]) + EscapeAll(t[2..]))
  {
    EscapeOfSurrogate(t[0]);
    EscapeOfSurrogate(t[1]);
    assert t[1..][0] == t[1] && t[1..][1..] == t[2..];
    assert EscapeAll(t[1..]) == Escape(t[1]) + EscapeAll(t[2..]);
  }

  lemma ScanPairStep(t: Text, end: string, text: Text, rest: string)
    requires |t| >= 2 && IsHigh(t[0]) && IsLow(t[1])
    requires Scan(EscapeAll(t[2..]) + end) == Some(Scanned(text, rest))
    ensures Scan(EscapeAll(t) + end) == Some(Scanned([Combine(t[0], t[1])] + text, rest))
  {
    var tail := EscapeAll(t[2..]);
    var first, second := UEscape(t[0]), UEscape(t[1]);
    EscapeTwo(t);
    Regroup(first, second, tail, end);
    UTokenPairBack(t[0], t[1], tail + end);
    ScanStep(first + second, Combine(t[0], t[1]), tail + end, text, rest);
  }

  lemma Regroup(a: string, b: string, c: string, d: string)
    ensures a + (b + c) + d == a + (b + (c + d)) == (a + b) + (c + d)
  {
  }

  /** The first token of an escaped text whose first two characters do not make a pair. */
  lemma TokenFront(c: CodePoint, next: Text, end: string)
    requires next == [] || !(IsHigh(c) && IsLow(next[0]))
    requires end != "" && end[0] == '"'
    ensures FirstToken(Escape(c) + (EscapeAll(next) + end)) == Some(Token(c, |Escape(c)|))
  {
    if !IsHigh(c) {
      TokenBack(c, EscapeAll(next) + end);
    } else {
      EscapeOfSurrogate(c);
      TokenFrontHigh(c, next, end);
    }
  }

  lemma TokenFrontHigh(c: CodePoint, next: Text, end: string)
    requires IsHigh(c) && (next == [] || !IsLow(next[0]))
    requires end != "" && end[0] == '"'
    ensures FirstToken(UEscape(c) + (EscapeAll(next) + end)) == Some(Token(c, 6))
  {
    if next == [] {
      assert EscapeAll(next) + end == end;
      UTokenBack(c, end);
    } else {
      Associate(Escape(next[0]), EscapeAll(next[1..]), end);
      TokenHighBack(c, next[0], EscapeAll(next[1..]) + end);
    }
  }

  lemma ScanOneStep(t: Text, end: string, text: Text, rest: string)
    requires t != [] && !(|t| >= 2 && IsHigh(t[0]) && IsLow(t[1]))
    requires end != "" && end[0] == '"'
    requires Scan(EscapeAll(t[1..]) + end) == Some(Scanned(text, rest))
    ensures Scan(EscapeAll(t) + end) == Some(Scanned([t[0]] + text, rest))
  {
    Associate(Escape(t[0]), EscapeAll(t[1..]), end);
    TokenFront(t[0], t[1..], end);
    ScanStep(Escape(t[0]), t[0], EscapeAll(t[1..]) + end, text, rest);
  }

  lemma {:induction false} ScanBack(t: Text, rest: string)
    ensures Scan(EscapeAll(t) + ("\"" + rest)) == Some(Scanned(Joined(t), rest))
    decreases |t|
  {
    var end := "\"" + rest;
    if t == [] {
      assert EscapeAll(t) + end == end && end[1..] == rest;
    } else if |t| >= 2 && IsHigh(t[0]) && IsLow(t[1]) {
      ScanBack(t[2..], rest);
      ScanPairStep(t, end, Joined(t[2..]), rest);
    } else {
      ScanBack(t[1..], rest);
      ScanOneStep(t, end, Joined(t[1..]), rest);
    }
  }

  /** Joining changes a text exactly when it holds a split pair. */
  lemma {:induction false} JoinedSame(t: Text)
    ensures Joined(t) == t <==> NoSplitPair(t)
    ensures |Joined(t)| == |t| <==> NoSplitPair(t)
    decreases |t|
  {
    if t == [] {
    } else if |t| >= 2 && IsHigh(t[0]) && IsLow(t[1]) {
      assert |Joined(t)| < |t|;
    } else {
      JoinedSame(t[1..]);
      assert Joined(t)[1..] == Joined(t[1..]);
      NoSplitPairTail(t);
    }
  }

  /** A joined pair leaves a code point that no surrogate has. */
  lemma {:induction false} JoinedToPlain(t: Text)
    requires forall k :: 0 <= k < |Joined(t)| ==> Joined(t)[k] < 0x1_0000
    ensures Joined(t) == t
    decreases |t|
  {
    if t != [] {
      assert Joined(t)[0] < 0x1_0000;
      forall k | 0 <= k < |Joined(t[1..])| ensures Joined(t[1..])[k] < 0x1_0000 {
        assert Joined(t)[1..] == Joined(t[1..]);
        assert Joined(t)[k + 1] == Joined(t[1..])[k];
      }
      JoinedToPlain(t[1..]);
    }
  }

  lemma NoSplitPairTail(t: Text)
    requires t != [] && !(|t| >= 2 && IsHigh(t[0]) && IsLow(t[1]))
    ensures NoSplitPair(t) <==> NoSplitPair(t[1..])
  {
    var u := t[1..];
    if NoSplitPair(u) {
      forall i | 0 <= i < |t| - 1 ensures !(IsHigh(t[i]) && IsLow(t[i + 1])) {
        if i > 0 {
          assert u[i - 1] == t[i] && u[i - 1 + 1] == t[i + 1];
        }
      }
    }
    if NoSplitPair(t) {
      forall i | 0 <= i < |u| - 1 ensures !(IsHigh(u[i]) && IsLow(u[i + 1])) {
        assert u[i] == t[i + 1] && u[i + 1] == t[i + 1 + 1];
      }
    }
  }

  // ---------------------------------------------------------------- documents

  predicate IsSpace(c: char) {
    c == ' ' || c == '\t' || c == '\n' || c == '\r'
  }

  /** No value starts with white space, a closing bracket or a comma. */
  lemma FirstChar(v: Json)
    ensures Encode(v) != ""
    ensures !IsSpace(Encode(v)[0]) && Encode(v)[0] != ']' && Encode(v)[0] != '}'
    ensures Encode(v)[0] in "ntf-\"[{" || IsDigit(Encode(v)[0])
  {
    if v.Int? && v.n >= 0 {
      assert IsDigit(Numeral(v.n)[0]);
    }
  }

  lemma ParseNatBack(n: nat, rest: string)
    requires rest == "" || !IsDigit(rest[0])
    ensures ParseNat(Numeral(n) + rest) == Some(Parsed(n, rest))
  {
    var digits := Numeral(n);
    var s := digits + rest;
    assert s[0] == digits[0];
    DigitRunOfPrefix(digits, rest);
    ValueOfNumeral(n);
    assert s[..|digits|] == digits && s[|digits|..] == rest;
  }

  lemma ScalarValue(s: string)
    requires s != "" && s[0] != '"' && s[0] != '[' && s[0] != '{'
    ensures ParseValue(s) == ParseScalar(s)
  {
  }

  lemma ScalarNat(s: string, n: nat, rest: string)
    requires s != "" && IsDigit(s[0])
    requires ParseNat(s) == Some(Parsed(n, rest))
    ensures ParseScalar(s) == Some(Parsed(Int(n), rest))
  {
  }

  lemma ScalarMinus(s: string, n: nat, rest: string)
    requires ParseNat(s) == Some(Parsed(n, rest))
    ensures ParseScalar("-" + s) == Some(Parsed(Int(0 - n), rest))
  {
    assert ("-" + s)[1..] == s;
  }

  lemma ParseIntBack(n: int, rest: string)
    requires rest == "" || !IsDigit(rest[0])
    ensures ParseValue(IntText(n) + rest) == Some(Parsed(Int(n), rest))
  {
    var size: nat := if n < 0 then -n else n;
    var digits := Numeral(size);
    ParseNatBack(size, rest);
    if n < 0 {
      ScalarMinus(digits + rest, size, rest);
      Associate("-", digits, rest);
      ScalarValue("-" + (digits + rest));
    } else {
      assert (digits + rest)[0] == digits[0];
      ScalarNat(digits + rest, size, rest);
      ScalarValue(digits + rest);
    }
  }

  lemma ParseStrBack(t: Text, rest: string)
    ensures ParseValue(Quoted(t) + rest) == Some(Parsed(Str(Joined(t)), rest))
  {
    var s := Quoted(t) + rest;
    assert s[1..] == EscapeAll(t) + ("\"" + rest);
    ScanBack(t, rest);
  }

  lemma ParseWordBack(v: Json, rest: string)
    requires v.Null? || v.Bool?
    ensures ParseValue(Encode(v) + rest) == Some(Parsed(v, rest))
  {
    var word := Encode(v);
    var s := word + rest;
    assert s[0] == word[0];
    assert s[..|word|] == word && s[|word|..] == rest;
  }

  /** Every document is read back as `Reread` says, whatever follows it. */
  lemma {:induction false} ParseBack(v: Json, rest: string)
    requires rest == "" || !IsDigit(rest[0])
    ensures ParseValue(Encode(v) + rest) == Some(Parsed(Reread(v), rest))
    decreases v, 1
  {
    match v
    case Null => ParseWordBack(v, rest);
    case Bool(_) => ParseWordBack(v, rest);
    case Int(n) => ParseIntBack(n, rest);
    case Str(t) => ParseStrBack(t, rest);
    case Arr(items) => ParseArrBack(items, rest);
    case Obj(members) => ParseObjBack(members, rest);
  }

  /** A text that cannot be mistaken for white space or for the end of an array or an object. */
  predicate StartsPlainly(s: string) {
    s != "" && !IsSpace(s[0]) && s[0] != ']' && s[0] != '}'
  }

  lemma ParseArrStep(inner: string, items: seq<Json>, rest: string)
    requires StartsPlainly(inner) && ParseItems(inner) == Some(Parsed(items, rest))
    ensures ParseValue("[" + inner) == Some(Parsed(Arr(items), rest))
  {
    assert ("[" + inner)[1..] == inner;
  }

  lemma ParseObjStep(inner: string, members: seq<Member>, rest: string)
    requires StartsPlainly(inner) && ParseMembers(inner) == Some(Parsed(members, rest))
    ensures ParseValue("{" + inner) == Some(Parsed(Obj(Dict(members)), rest))
  {
    assert ("{" + inner)[1..] == inner;
  }

  lemma ParseEmptyStep(rest: string)
    ensures ParseValue("[]" + rest) == Some(Parsed(Arr([]), rest))
    ensures ParseValue("{}" + rest) == Some(Parsed(Obj([]), rest))
  {
    var a, o := "]" + rest, "}" + rest;
    assert ("[]" + rest)[1..] == a && a[1..] == rest && a[..1] == "]";
    assert ("{}" + rest)[1..] == o && o[1..] == rest && o[..1] == "}";
  }

  lemma ParseLastItem(s: string, v: Json, rest: string)
    requires ParseValue(s) == Some(Parsed(v, "]" + rest))
    ensures ParseItems(s) == Some(Parsed([v], rest))
  {
    var after := "]" + rest;
    assert after[..1] == "]" && after[1..] == rest;
  }

  lemma ParseNextItem(s: string, v: Json, next: string, items: seq<Json>, rest: string)
    requires ParseValue(s) == Some(Parsed(v, "," + next))
    requires StartsPlainly(next) && ParseItems(next) == Some(Parsed(items, rest))
    ensures ParseItems(s) == Some(Parsed([v] + items, rest))
  {
    var after := "," + next;
    assert after[..1] == "," && after[1..] == next;
  }

  lemma ParseLastMember(s: string, m: Member, rest: string)
    requires ParseMember(s) == Some(Parsed(m, "}" + rest))
    ensures ParseMembers(s) == Some(Parsed([m], rest))
  {
    var after := "}" + rest;
    assert after[..1] == "}" && after[1..] == rest;
  }

  lemma ParseNextMember(s: string, m: Member, next: string, members: seq<Member>, rest: string)
    requires ParseMember(s) == Some(Parsed(m, "," + next))
    requires StartsPlainly(next) && ParseMembers(next) == Some(Parsed(members, rest))
    ensures ParseMembers(s) == Some(Parsed([m] + members, rest))
  {
    var after := "," + next;
    assert after[..1] == "," && after[1..] == next;
  }

  lemma ParseMemberStep(s: string, key: Text, value: string, v: Json, rest: string)
    requires s != "" && s[0] == '"' && Scan(s[1..]) == Some(Scanned(key, ":" + value))
    requires StartsPlainly(value) && ParseValue(value) == Some(Parsed(v, rest))
    ensures ParseMember(s) == Some(Parsed(Member(key, v), rest))
  {
    var colon := ":" + value;
    assert colon[..1] == ":" && colon[1..] == value;
  }

  lemma {:induction false} ParseArrBack(items: seq<Json>, rest: string)
    ensures ParseValue(Encode(Arr(items)) + rest) == Some(Parsed(Arr(RereadItems(items)), rest))
    decreases items, 1
  {
    var s := Encode(Arr(items)) + rest;
    if items == [] {
      assert s == "[]" + rest;
      ParseEmptyStep(rest);
    } else {
      var inner := Encode(items[0]) + (EncodeMoreItems(items[1..]) + "]" + rest);
      assert s == "[" + inner;
      FirstChar(items[0]);
      assert inner[0] == Encode(items[0])[0];
      ParseItemsBack(items, rest);
      ParseArrStep(inner, RereadItems(items), rest);
    }
  }

  lemma {:induction false} ParseItemsBack(items: seq<Json>, rest: string)
    requires items != []
    ensures ParseItems(Encode(items[0]) + (EncodeMoreItems(items[1..]) + "]" + rest))
            == Some(Parsed(RereadItems(items), rest))
    decreases items, 0
  {
    var more := items[1..];
    var after := EncodeMoreItems(more) + "]" + rest;
    var v := Reread(items[0]);
    assert RereadItems(items) == [v] + RereadItems(more);
    if more == [] {
      assert after == "]" + rest;
      ParseBack(items[0], after);
      ParseLastItem(Encode(items[0]) + after, v, rest);
      assert RereadItems(items) == [v];
    } else {
      var next := Encode(more[0]) + (EncodeMoreItems(more[1..]) + "]" + rest);
      assert after == "," + next;
      ParseBack(items[0], after);
      FirstChar(more[0]);
      assert next[0] == Encode(more[0])[0];
      ParseItemsBack(more, rest);
      ParseNextItem(Encode(items[0]) + after, v, next, RereadItems(more), rest);
    }
  }

  lemma {:induction false} ParseObjBack(members: seq<Member>, rest: string)
    ensures ParseValue(Encode(Obj(members)) + rest) == Some(Parsed(Obj(Dict(RereadMembers(members))), rest))
    decreases members, 1
  {
    var s := Encode(Obj(members)) + rest;
    if members == [] {
      assert s == "{}" + rest;
      ParseEmptyStep(rest);
    } else {
      var inner := EncodeMember(members[0]) + (EncodeMoreMembers(members[1..]) + "}" + rest);
      assert s == "{" + inner;
      MemberStart(members[0]);
      assert inner[0] == EncodeMember(members[0])[0];
      ParseMembersBack(members, rest);
      ParseObjStep(inner, RereadMembers(members), rest);
    }
  }

  lemma MemberStart(m: Member)
    ensures EncodeMember(m) != "" && EncodeMember(m)[0] == '"'
  {
  }

  lemma MemberText(key: string, value: string, rest: string)
    ensures var s := "\"" + key + "\"" + ":" + value + rest;
            s[0] == '"' && s[1..] == key + ("\"" + (":" + (value + rest)))
  {
  }

  lemma {:induction false} ParseMemberBack(m: Member, rest: string)
    requires rest == "" || !IsDigit(rest[0])
    ensures ParseMember(EncodeMember(m) + rest) == Some(Parsed(RereadMember(m), rest))
    decreases m, 2
  {
    var value := Encode(m.value) + rest;
    MemberText(EscapeAll(m.key), Encode(m.value), rest);
    ScanBack(m.key, ":" + value);
    FirstChar(m.value);
    assert value[0] == Encode(m.value)[0];
    ParseBack(m.value, rest);
    ParseMemberStep(EncodeMember(m) + rest, Joined(m.key), value, Reread(m.value), rest);
  }

  lemma {:induction false} ParseMembersBack(members: seq<Member>, rest: string)
    requires members != []
    ensures ParseMembers(EncodeMember(members[0]) + (EncodeMoreMembers(members[1..]) + "}" + rest))
            == Some(Parsed(RereadMembers(members), rest))
    decreases members, 0
  {
    var more := members[1..];
    var after := EncodeMoreMembers(more) + "}" + rest;
    var m := RereadMember(members[0]);
    assert RereadMembers(members) == [m] + RereadMembers(more);
    if more == [] {
      assert after == "}" + rest;
      ParseMemberBack(members[0], after);
      ParseLastMember(EncodeMember(members[0]) + after, m, rest);
      assert RereadMembers(members) == [m];
    } else {
      var next := EncodeMember(more[0]) + (EncodeMoreMembers(more[1..]) + "}" + rest);
      assert after == "," + next;
      ParseMemberBack(members[0], after);
      MemberStart(more[0]);
      assert next[0] == EncodeMember(more[0])[0];
      ParseMembersBack(more, rest);
      ParseNextMember(EncodeMember(members[0]) + after, m, next, RereadMembers(more), rest);
    }
  }

  /** The exact round trip: decoding what was encoded gives `Reread`, for every value. */
  lemma DecodeEncode(v: Json)
    ensures Decode(Encode(v)) == Some(Reread(v))
  {
    FirstChar(v);
    assert Encode(v) + "" == Encode(v);
    ParseBack(v, "");
  }

  // ---------------------------------------------------------------- when nothing changes

  /** Every string and key in the value, at any depth, is free of split surrogate pairs. */
  predicate WellPaired(v: Json)
    decreases v, 0
  {
    match v
    case Str(s) => NoSplitPair(s)
    case Arr(items) => forall i :: 0 <= i < |items| ==> WellPaired(items[i])
    case Obj(members) => forall i :: 0 <= i < |members| ==> NoSplitPair(members[i].key) && WellPaired(members[i].value)
    case _ => true
  }

  /** A Python value: the keys of every dict in it are distinct. */
  predicate IsValue(v: Json)
    decreases v, 0
  {
    match v
    case Arr(items) => forall i :: 0 <= i < |items| ==> IsValue(items[i])
    case Obj(members) => DistinctKeys(members) && forall i :: 0 <= i < |members| ==> IsValue(members[i].value)
    case _ => true
  }

  lemma {:induction false} RereadItemsAt(items: seq<Json>)
    ensures forall i :: 0 <= i < |items| ==> RereadItems(items)[i] == Reread(items[i])
  {
    if items != [] {
      RereadItemsAt(items[1..]);
    }
  }

  lemma {:induction false} RereadMembersAt(members: seq<Member>)
    ensures forall i :: 0 <= i < |members| ==> RereadMembers(members)[i] == RereadMember(members[i])
  {
    if members != [] {
      RereadMembersAt(members[1..]);
    }
  }

  /** A dict keeps every pair exactly when the keys are distinct. */
  lemma {:induction false} DictKeepsAll(pairs: seq<Member>)
    ensures |Dict(pairs)| == |pairs| ==> Dict(pairs) == pairs
    ensures DistinctKeys(pairs) ==> Dict(pairs) == pairs
  {
    if pairs != [] {
      var front := pairs[..|pairs| - 1];
      DictKeepsAll(front);
      assert pairs == front + [pairs[|pairs| - 1]];
      if DistinctKeys(pairs) {
        assert forall i :: 0 <= i < |front| ==> front[i] == pairs[i];
      }
    }
  }

  lemma {:induction false} RereadSame(v: Json)
    requires IsValue(v)
    ensures Reread(v) == v <==> WellPaired(v)
    decreases v
  {
    match v
    case Str(s) => JoinedSame(s);
    case Arr(items) =>
      RereadItemsAt(items);
      forall i | 0 <= i < |items| ensures Reread(items[i]) == items[i] <==> WellPaired(items[i]) {
        RereadSame(items[i]);
      }
    case Obj(members) =>
      RereadMembersSame(members);
    case _ =>
  }

  lemma {:induction false} RereadMembersSame(members: seq<Member>)
    requires IsValue(Obj(members))
    ensures Reread(Obj(members)) == Obj(members) <==> WellPaired(Obj(members))
    decreases members
  {
    var reread := RereadMembers(members);
    RereadMembersAt(members);
    forall i | 0 <= i < |members|
      ensures reread[i] == members[i] <==> NoSplitPair(members[i].key) && WellPaired(members[i].value)
    {
      JoinedSame(members[i].key);
      RereadSame(members[i].value);
    }
    DictKeepsAll(reread);
    if WellPaired(Obj(members)) {
      assert reread == members;
    }
    if Dict(reread) == members {
      assert reread == members;
    }
  }

  /** A value survives the round trip if and only if no string or key in it holds a split surrogate pair. */
  lemma RoundTrip(v: Json)
    requires IsValue(v)
    ensures Decode(Encode(v)) == Some(v) <==> WellPaired(v)
  {
    DecodeEncode(v);
    RereadSame(v);
  }

  /** A value that does not survive: one string of two code points comes back as a string of one. */
  lemma SplitPairIsJoined()
    ensures Decode(Encode(Str([0xD834, 0xDD20]))) == Some(Str([0x1_D120]))
  {
    var t: Text := [0xD834, 0xDD20];
    DecodeEncode(Str(t));
    assert t[2..] == [];
    assert Joined(t) == [Combine(0xD834, 0xDD20)];
  }

  // ---------------------------------------------------------------- every document is printable ASCII

  predicate Printable(s: string) {
    forall i :: 0 <= i < |s| ==> ' ' <= s[i] <= '~'
  }

  lemma PrintableConcat(a: string, b: string)
    requires Printable(a) && Printable(b)
    ensures Printable(a + b)
  {
  }

  lemma EscapePrintable(c: CodePoint)
    ensures Printable(Escape(c))
  {
    match SpellingOf(c)
    case Code(n) => UEscapePrintable(n);
    case Pair(high, low) =>
      UEscapePrintable(high);
      UEscapePrintable(low);
    case Short(letter) => assert Printable(['\\', letter]);
    case Plain(p) => assert Printable([p]);
  }

  lemma UEscapePrintable(n: nat)
    requires n < 0x1_0000
    ensures Printable(UEscape(n))
  {
    assert Printable(Hex4(n));
  }

  lemma {:induction false} EscapeAllPrintable(t: Text)
    ensures Printable(EscapeAll(t))
  {
    if t != [] {
      EscapeAllPrintable(t[1..]);
      EscapePrintable(t[0]);
      PrintableConcat(Escape(t[0]), EscapeAll(t[1..]));
    }
  }

  lemma {:induction false} EncodePrintable(v: Json)
    ensures Printable(Encode(v))
    decreases v, 1
  {
    match v
    case Str(t) => EscapeAllPrintable(t);
    case Arr(items) => ArrPrintable(items);
    case Obj(members) => ObjPrintable(members);
    case _ =>
  }

  lemma {:induction false} ArrPrintable(items: seq<Json>)
    ensures Printable(Encode(Arr(items)))
    decreases items, 1
  {
    if items != [] {
      EncodePrintable(items[0]);
      MoreItemsPrintable(items[1..]);
      PrintableConcat(Encode(items[0]), EncodeMoreItems(items[1..]));
    }
  }

  lemma {:induction false} ObjPrintable(members: seq<Member>)
    ensures Printable(Encode(Obj(members)))
    decreases members, 1
  {
    if members != [] {
      MemberPrintable(members[0]);
      MoreMembersPrintable(members[1..]);
      PrintableConcat(EncodeMember(members[0]), EncodeMoreMembers(members[1..]));
    }
  }

  lemma {:induction false} MoreItemsPrintable(items: seq<Json>)
    ensures Printable(EncodeMoreItems(items))
    decreases items, 0
  {
    if items != [] {
      EncodePrintable(items[0]);
      MoreItemsPrintable(items[1..]);
    }
  }

  lemma {:induction false} MemberPrintable(m: Member)
    ensures Printable(EncodeMember(m))
    decreases m, 2
  {
    EscapeAllPrintable(m.key);
    EncodePrintable(m.value);
  }

  lemma {:induction false} MoreMembersPrintable(members: seq<Member>)
    ensures Printable(EncodeMoreMembers(members))
    decreases members, 0
  {
    if members != [] {
      MemberPrintable(members[0]);
      MoreMembersPrintable(members[1..]);
    }
  }
}
