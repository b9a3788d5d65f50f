/**
 The flat JSON objects of strings that events travel in: json.dumps with compact separators and
 ASCII output, and the part of json.loads that reads such objects (RFC 8259 sections 4 and 7).
 */
module Json {
  import opened Wrappers

  const QUOTE := '\"'
  const BACKSLASH := '\\'

  // ---- Writing ----

  function HexDigit(n: nat): char
    requires n < 16
  {
    "0123456789abcdef"[n]
  }

  // The last `digits` hexadecimal digits of n.
  function Hex(n: nat, digits: nat): (s: string)
    ensures |s| == digits
  {
    if digits == 0 then "" else Hex(n / 16, digits - 1) + [HexDigit(n % 16)]
  }

  function Pow16(digits: nat): nat { if digits == 0 then 1 else 16 * Pow16(digits - 1) }

  function EscapeUnit(n: nat): string { "\\u" + Hex(n, 4) }

  // The two UTF-16 surrogates of a character outside the basic plane, and back.
  function HighHalf(c: char): nat
    requires c as int >= 0x10000
  {
    0xD800 + (c as int - 0x10000) / 0x400
  }

  function LowHalf(c: char): nat
    requires c as int >= 0x10000
  {
    0xDC00 + (c as int - 0x10000) % 0x400
  }

  function Combine(hi: nat, lo: nat): char
    requires 0xD800 <= hi < 0xDC00 && 0xDC00 <= lo < 0xE000
  {
    (0x10000 + (hi - 0xD800) * 0x400 + (lo - 0xDC00)) as char
  }

  function EncodeChar(c: char): string {
    if c == QUOTE then "\\\""
    else if c == BACKSLASH then "\\\\"
    else if c == '\n' then "\\n"
    else if c == '\r' then "\\r"
    else if c == '\t' then "\\t"
    else if c == '\U{000C}' then "\\f"
    else if c == '\U{0008}' then "\\b"
    else if ' ' <= c <= '~' then [c]
    else if c as int < 0x10000 then EscapeUnit(c as int)
    else EscapeUnit(HighHalf(c)) + EscapeUnit(LowHalf(c))
  }

  function EncodeString(s: string): string {
    if s == "" then "" else EncodeChar(s[0]) + EncodeString(s[1..])
  }

  function EncodeMember(k: string, v: string): string {
    [QUOTE] + EncodeString(k) + "\":\"" + EncodeString(v) + [QUOTE]
  }

  function EncodeMembers(members: seq<(string, string)>): string
    requires members != []
  {
    if |members| == 1 then EncodeMember(members[0].0, members[0].1) + "}"
    else EncodeMember(members[0].0, members[0].1) + "," + EncodeMembers(members[1..])
  }

  function Dumps(members: seq<(string, string)>): string {
    if members == [] then "{}" else "{" + EncodeMembers(members)
  }

  // ---- Reading ----

  function HexValue(c: char): Option<nat> {
    if '0' <= c <= '9' then Some((c - '0') as int)
    else if 'a' <= c <= 'f' then Some(10 + (c - 'a') as int)
    else if 'A' <= c <= 'F' then Some(10 + (c - 'A') as int)
    else None
  }

  function HexNumber(s: string): Option<nat> {
    if s == "" then Some(0)
    else
      match (HexNumber(s[..|s| - 1]), HexValue(s[|s| - 1]))
      case (Some(high), Some(low)) => Some(16 * high + low)
      case _ => None
  }

  // The code unit of the four hexadecimal digits at the start of s.
  function Unit(s: string): Option<nat> {
    if |s| < 4 then None else HexNumber(s[..4])
  }

  function SimpleEscape(c: char): Option<char> {
    if c == QUOTE then Some(QUOTE)
    else if c == BACKSLASH then Some(BACKSLASH)
    else if c == '/' then Some('/')
    else if c == 'b' then Some('\U{0008}')
    else if c == 'f' then Some('\U{000C}')
    else if c == 'n' then Some('\n')
    else if c == 'r' then Some('\r')
    else if c == 't' then Some('\t')
    else None
  }

  // One character at the start of s, and how many input characters it takes.
  function DecodeChar(s: string): (r: Option<(char, nat)>)
    ensures r.Some? ==> 1 <= r.value.1 <= |s|
  {
    if s == "" || s[0] < ' ' then None
    else if s[0] != BACKSLASH then Some((s[0], 1))
    else if |s| < 2 then None
    else if s[1] != 'u' then
      match SimpleEscape(s[1]) case Some(c) => Some((c, 2)) case None => None
    else
      match Unit(s[2..])
      case None => None
      case Some(u) =>
        if u < 0xD800 || (0xE000 <= u < 0x10000) then Some((u as char, 6))
        else if u < 0xDC00 && |s| >= 12 && s[6] == BACKSLASH && s[7] == 'u' then
          match Unit(s[8..])
          case Some(l) =>
            if 0xDC00 <= l < 0xE000 then Some((Combine(u, l), 12)) else None
          case None => None
        else None
  }

  // The characters up to the closing quote, and what follows it.
  function DecodeString(s: string): (r: Option<(string, string)>)
    ensures r.Some? ==> |r.value.1| < |s|
    decreases |s|
  {
    if s == "" then None
    else if s[0] == QUOTE then Some(("", s[1..]))
    else
      match DecodeChar(s)
      case None => None
      case Some((c, n)) =>
        match DecodeString(s[n..])
        case None => None
        case Some((t, rest)) => Some(([c] + t, rest))
  }

  function SkipSpace(s: string): (r: string)
    ensures |r| <= |s|
  {
    if s != "" && s[0] in " \t\n\r" then SkipSpace(s[1..]) else s
  }

  // A name, a colon, a value, and the input from the next delimiter on.
  function ReadMember(s: string): (r: Option<(string, string, string)>)
    ensures r.Some? ==> 0 < |r.value.2| < |s|
  {
    if s == "" || s[0] != QUOTE then None
    else
      match DecodeString(s[1..])
      case None => None
      case Some((k, s1)) =>
        var s2 := SkipSpace(s1);
        if s2 == "" || s2[0] != ':' then None
        else
          match ReadValue(SkipSpace(s2[1..]))
          case None => None
          case Some((v, rest)) => Some((k, v, rest))
  }

  function ReadValue(s: string): (r: Option<(string, string)>)
    ensures r.Some? ==> 0 < |r.value.1| < |s|
  {
    if s == "" || s[0] != QUOTE then None
    else
      match DecodeString(s[1..])
      case None => None
      case Some((v, rest)) => if SkipSpace(rest) == "" then None else Some((v, SkipSpace(rest)))
  }

  // Members up to the closing brace; of repeated names the last one counts.
  function DecodeMembers(s: string, m: map<string, string>): Option<(map<string, string>, string)>
    decreases |s|
  {
    match ReadMember(s)
    case None => None
    case Some((k, v, rest)) =>
      if rest[0] == '}' then Some((m[k := v], rest[1..]))
      else if rest[0] == ',' then DecodeMembers(SkipSpace(rest[1..]), m[k := v])
      else None
  }

  function Loads(s: string): Option<map<string, string>> {
    var s0 := SkipSpace(s);
    if s0 == "" || s0[0] != '{' then None
    else
      var s1 := SkipSpace(s0[1..]);
      if s1 != "" && s1[0] == '}' then
        if SkipSpace(s1[1..]) == "" then Some(map[]) else None
      else
        match DecodeMembers(s1, map[])
        case Some((m, rest)) => if SkipSpace(rest) == "" then Some(m) else None
        case None => None
  }

  // ---- Round trips ----

  lemma HexNumberGrows(front: string, c: char)
    requires HexNumber(front).Some? && HexValue(c).Some?
    ensures HexNumber(front + [c]) == Some(16 * HexNumber(front).value + HexValue(c).value)
  {
    assert (front + [c])[..|front + [c]| - 1] == front;
  }

  lemma {:induction false} HexNumberRoundTrip(n: nat, digits: nat)
    requires n < Pow16(digits)
    ensures HexNumber(Hex(n, digits)) == Some(n)
  {
    if digits > 0 {
      HexNumberRoundTrip(n / 16, digits - 1);
      HexRoundTrip(n % 16);
      HexNumberGrows(Hex(n / 16, digits - 1), HexDigit(n % 16));
    }
  }

  lemma FourDigits()
    ensures Pow16(4) == 0x10000
  {
    assert Pow16(2) == 256;
  }

  lemma UnitOfHex(n: nat, rest: string)
    requires n < 0x10000
    ensures Unit(Hex(n, 4) + rest) == Some(n)
  {
    FourDigits();
    HexNumberRoundTrip(n, 4);
    assert (Hex(n, 4) + rest)[..4] == Hex(n, 4);
  }

  lemma HexRoundTrip(n: nat)
    requires n < 16
    ensures HexValue(HexDigit(n)) == Some(n)
  {
  }

  lemma DecodeUnit(c: char, rest: string)
    requires c as int < 0x10000
    ensures DecodeChar(EscapeUnit(c as int) + rest) == Some((c, 6))
  {
    var s := EscapeUnit(c as int) + rest;
    assert s[2..] == Hex(c as int, 4) + rest;
    UnitOfHex(c as int, rest);
  }

  lemma UnitsApart(hi: nat, lo: nat, rest: string)
    requires hi < 0x10000 && lo < 0x10000
    ensures var s := EscapeUnit(hi) + EscapeUnit(lo) + rest;
            && |s| >= 12 && s[0] == s[6] == BACKSLASH && s[1] == s[7] == 'u'
            && Unit(s[2..]) == Some(hi) && Unit(s[8..]) == Some(lo)
  {
    var s := EscapeUnit(hi) + EscapeUnit(lo) + rest;
    assert s[2..] == Hex(hi, 4) + (EscapeUnit(lo) + rest);
    assert s[8..] == Hex(lo, 4) + rest;
    UnitOfHex(hi, EscapeUnit(lo) + rest);
    UnitOfHex(lo, rest);
  }

  lemma DecodePair(hi: nat, lo: nat, rest: string)
    requires 0xD800 <= hi < 0xDC00 && 0xDC00 <= lo < 0xE000
    ensures DecodeChar(EscapeUnit(hi) + EscapeUnit(lo) + rest) == Some((Combine(hi, lo), 12))
  {
    UnitsApart(hi, lo, rest);
  }

  lemma HalvesCombine(c: char)
    requires c as int >= 0x10000
    ensures 0xD800 <= HighHalf(c) < 0xDC00 && 0xDC00 <= LowHalf(c) < 0xE000
    ensures Combine(HighHalf(c), LowHalf(c)) == c
  {
  }

  predicate IsShort(c: char) { c in "\"\\\n\r\t\U{000C}\U{0008}" }

  lemma ShortRoundTrip(c: char, rest: string)
    requires IsShort(c)
    ensures |EncodeChar(c)| == 2 && EncodeChar(c)[0] == BACKSLASH && DecodeChar(EncodeChar(c) + rest) == Some((c, 2))
  {
    var e := EncodeChar(c);
    assert (e + rest)[0] == e[0] && (e + rest)[1] == e[1];
  }

  lemma PlainRoundTrip(c: char, rest: string)
    requires !IsShort(c) && ' ' <= c <= '~'
    ensures EncodeChar(c) == [c] && DecodeChar([c] + rest) == Some((c, 1))
  {
  }

  // An encoded character is read back alone, whatever follows it.
  lemma CharRoundTrip(c: char, rest: string)
    ensures EncodeChar(c) != "" && EncodeChar(c)[0] != QUOTE
    ensures DecodeChar(EncodeChar(c) + rest) == Some((c, |EncodeChar(c)|))
  {
    if IsShort(c) {
      ShortRoundTrip(c, rest);
    } else if ' ' <= c <= '~' {
      PlainRoundTrip(c, rest);
    } else if c as int < 0x10000 {
      DecodeUnit(c, rest);
    } else {
      HalvesCombine(c);
      DecodePair(HighHalf(c), LowHalf(c), rest);
    }
  }

  lemma DecodeFront(c: char, head: string, tail: string, text: string, rest: string)
    requires head != "" && head[0] != QUOTE && DecodeChar(head + tail) == Some((c, |head|))
    requires DecodeString(tail) == Some((text, rest))
    ensures DecodeString(head + tail) == Some(([c] + text, rest))
  {
    assert (head + tail)[|head|..] == tail && (head + tail)[0] == head[0];
  }

  lemma FourPieces(a: string, b: string, c: string, d: string)
    ensures (a + b) + c + d == a + (b + c + d)
  {
  }

  lemma {:induction false} StringRoundTrip(s: string, rest: string)
    ensures DecodeString(EncodeString(s) + [QUOTE] + rest) == Some((s, rest))
  {
    if s != "" {
      var head, tail := EncodeChar(s[0]), EncodeString(s[1..]) + [QUOTE] + rest;
      FourPieces(head, EncodeString(s[1..]), [QUOTE], rest);
      CharRoundTrip(s[0], tail);
      StringRoundTrip(s[1..], rest);
      DecodeFront(s[0], head, tail, s[1..], rest);
      assert [s[0]] + s[1..] == s;
    }
  }

  function AsMap(m: map<string, string>, members: seq<(string, string)>): map<string, string>
    decreases |members|
  {
    if members == [] then m else AsMap(m[members[0].0 := members[0].1], members[1..])
  }

  function AfterName(v: string, rest: string): string { ":\"" + EncodeString(v) + [QUOTE] + rest }

  lemma MemberText(k: string, v: string, rest: string)
    ensures EncodeMember(k, v) + rest == [QUOTE] + (EncodeString(k) + [QUOTE] + AfterName(v, rest))
  {
    assert "\":\"" == [QUOTE] + ":\"";
    MemberPieces([QUOTE], EncodeString(k), ":\"", EncodeString(v), rest);
  }

  lemma MemberPieces(q: string, k: string, sep: string, v: string, rest: string)
    ensures q + k + (q + sep) + v + q + rest == q + (k + q + (sep + v + q + rest))
  {
  }

  // Reading one member written by EncodeMember leaves exactly what follows it.
  lemma NameRoundTrip(k: string, v: string, rest: string)
    ensures var s := EncodeMember(k, v) + rest;
            s[0] == QUOTE && DecodeString(s[1..]) == Some((k, AfterName(v, rest)))
  {
    MemberText(k, v, rest);
    var t := EncodeString(k) + [QUOTE] + AfterName(v, rest);
    assert ([QUOTE] + t)[1..] == t;
    StringRoundTrip(k, AfterName(v, rest));
  }

  lemma ValueRoundTrip(v: string, rest: string)
    requires rest != "" && rest[0] in "},"
    ensures var after := AfterName(v, rest);
            after[0] == ':' && after[1] == QUOTE && ReadValue(after[1..]) == Some((v, rest))
  {
    var after := AfterName(v, rest);
    assert after[1..][1..] == EncodeString(v) + [QUOTE] + rest;
    StringRoundTrip(v, rest);
  }

  lemma MemberRoundTrip(k: string, v: string, rest: string)
    requires rest != "" && rest[0] in "},"
    ensures ReadMember(EncodeMember(k, v) + rest) == Some((k, v, rest))
  {
    NameRoundTrip(k, v, rest);
    ValueRoundTrip(v, rest);
    assert SkipSpace(AfterName(v, rest)) == AfterName(v, rest);
    assert SkipSpace(AfterName(v, rest)[1..]) == AfterName(v, rest)[1..];
  }

  lemma DecodeLast(k: string, v: string, m: map<string, string>)
    ensures DecodeMembers(EncodeMember(k, v) + "}", m) == Some((m[k := v], ""))
  {
    MemberRoundTrip(k, v, "}");
    assert "}"[1..] == "";
  }

  lemma DecodeMore(k: string, v: string, more: string, m: map<string, string>)
    requires more != "" && more[0] == QUOTE
    ensures DecodeMembers(EncodeMember(k, v) + ("," + more), m) == DecodeMembers(more, m[k := v])
  {
    MemberRoundTrip(k, v, "," + more);
    assert ("," + more)[1..] == more && SkipSpace(more) == more;
  }

  lemma {:induction false} MembersRoundTrip(members: seq<(string, string)>, m: map<string, string>)
    requires members != []
    ensures DecodeMembers(EncodeMembers(members), m) == Some((AsMap(m, members), ""))
    decreases |members|
  {
    var k, v := members[0].0, members[0].1;
    if |members| == 1 {
      DecodeLast(k, v, m);
      assert members[1..] == [];
    } else {
      var more := EncodeMembers(members[1..]);
      assert EncodeMembers(members) == EncodeMember(k, v) + ("," + more);
      DecodeMore(k, v, more, m);
      MembersRoundTrip(members[1..], m[k := v]);
    }
  }

  /** What json.dumps writes for names and strings, json.loads reads back, for any Unicode scalar values. */
  lemma DumpsRoundTrip(members: seq<(string, string)>)
    ensures Loads(Dumps(members)) == Some(AsMap(map[], members))
  {
    if members != [] {
      var s := Dumps(members);
      assert s[1..] == EncodeMembers(members);
      assert EncodeMembers(members)[0] == QUOTE;
      MembersRoundTrip(members, map[]);
    }
  }

  // ---- The form of the text ----

  predicate Printable(c: char) { ' ' <= c <= '~' }

  predicate AllPrintable(s: string) { forall i :: 0 <= i < |s| ==> Printable(s[i]) }

  lemma {:induction false} HexIsPrintable(n: nat, digits: nat)
    ensures AllPrintable(Hex(n, digits)) && ' ' !in Hex(n, digits)
  {
    if digits > 0 {
      HexIsPrintable(n / 16, digits - 1);
    }
  }

  lemma EscapeIsPrintable(n: nat)
    ensures AllPrintable(EscapeUnit(n)) && ' ' !in EscapeUnit(n)
  {
    HexIsPrintable(n, 4);
  }

  lemma CharIsPrintable(c: char)
    ensures AllPrintable(EncodeChar(c)) && (' ' in EncodeChar(c) ==> c == ' ')
  {
    if c as int < 0x10000 {
      EscapeIsPrintable(c as int);
    } else {
      EscapeIsPrintable(HighHalf(c));
      EscapeIsPrintable(LowHalf(c));
    }
  }

  lemma {:induction false} StringIsPrintable(s: string)
    ensures AllPrintable(EncodeString(s)) && (' ' in EncodeString(s) ==> ' ' in s)
  {
    if s != "" {
      CharIsPrintable(s[0]);
      StringIsPrintable(s[1..]);
    }
  }

  predicate Spaceless(members: seq<(string, string)>) {
    forall i :: 0 <= i < |members| ==> ' ' !in members[i].0 && ' ' !in members[i].1
  }

  lemma MemberIsPrintable(k: string, v: string)
    ensures AllPrintable(EncodeMember(k, v)) && (' ' in EncodeMember(k, v) ==> ' ' in k || ' ' in v)
  {
    StringIsPrintable(k);
    StringIsPrintable(v);
  }

  lemma {:induction false} MembersArePrintable(members: seq<(string, string)>)
    requires members != []
    ensures AllPrintable(EncodeMembers(members)) && (Spaceless(members) ==> ' ' !in EncodeMembers(members))
    decreases |members|
  {
    MemberIsPrintable(members[0].0, members[0].1);
    if |members| > 1 {
      MembersArePrintable(members[1..]);
    }
  }

  /** json.dumps writes printable ASCII whatever the strings hold, and no white space but what they hold. */
  lemma DumpsIsCompact(members: seq<(string, string)>)
    ensures AllPrintable(Dumps(members)) && (Spaceless(members) ==> ' ' !in Dumps(members))
  {
    if members != [] {
      MembersArePrintable(members);
    }
  }
}
