/**
 The texts json.loads accepts among flat objects of strings, as a grammar (RFC 8259 sections 2, 4
 and 7), and that the reader accepts exactly those, with exactly the meaning they have.
 */
module JsonGrammar {
  import opened Json
  import opened Wrappers

  predicate IsSpace(c: char) { c == ' ' || c == '\t' || c == '\n' || c == '\r' }

  predicate Spaces(s: string) { forall i :: 0 <= i < |s| ==> IsSpace(s[i]) }

  // The letters of the two-character escapes, and what they stand for.
  predicate Escape(letter: char, c: char) {
    || (letter == '\"' && c as int == 0x22) || (letter == '\\' && c as int == 0x5C)
    || (letter == '/' && c as int == 0x2F)
    || (letter == 'b' && c as int == 0x08) || (letter == 'f' && c as int == 0x0C) || (letter == 'n' && c as int == 0x0A)
    || (letter == 'r' && c as int == 0x0D) || (letter == 't' && c as int == 0x09)
  }

  // Digit number v of the sixteen, in either case.
  predicate IsHexDigit(c: char, v: nat) {
    || (v < 10 && c as int == 0x30 + v)
    || (10 <= v < 16 && (c as int == 0x61 + v - 10 || c as int == 0x41 + v - 10))
  }

  ghost predicate FourDigits(h: string, n: nat) {
    && |h| == 4
    && exists a: nat, b: nat, c: nat, d: nat :: Digits(h, a, b, c, d) && n == Value(a, b, c, d)
  }

  function Value(a: nat, b: nat, c: nat, d: nat): nat { a * 4096 + b * 256 + c * 16 + d }

  predicate Digits(h: string, a: nat, b: nat, c: nat, d: nat)
    requires |h| == 4
  {
    IsHexDigit(h[0], a) && IsHexDigit(h[1], b) && IsHexDigit(h[2], c) && IsHexDigit(h[3], d)
  }

  ghost predicate HexUnit(t: string, n: nat) { |t| == 6 && t[0] == '\\' && t[1] == 'u' && FourDigits(t[2..], n) }

  ghost predicate SurrogatePair(t: string, c: char) {
    && |t| == 12
    && exists hi: nat, lo: nat ::
         && HexUnit(t[..6], hi) && HexUnit(t[6..], lo) && 0xD800 <= hi < 0xDC00 && 0xDC00 <= lo < 0xE000
         && c as int == 0x10000 + (hi - 0xD800) * 0x400 + (lo - 0xDC00)
  }

  // The ways to spell one character inside a string.
  ghost predicate Spells(t: string, c: char) {
    || (|t| == 1 && t[0] == c && c as int >= 0x20 && c != '\"' && c != '\\')
    || (|t| == 2 && t[0] == '\\' && Escape(t[1], c))
    || HexUnit(t, c as int)
    || SurrogatePair(t, c)
  }

  function Join(parts: seq<string>): string { if parts == [] then "" else parts[0] + Join(parts[1..]) }

  ghost predicate SpellsAll(parts: seq<string>, text: string) {
    |parts| == |text| && forall i :: 0 <= i < |parts| ==> Spells(parts[i], text[i])
  }

  // One member as it is written: the white space in it, and the spellings of its name and value.
  datatype Member = Member(lead: string, name: seq<string>, gap: string, space: string, value: seq<string>, end: string)

  function AfterName(x: Member): string { x.gap + (":" + (x.space + ("\"" + (Join(x.value) + ("\"" + x.end))))) }

  function Bare(x: Member): string { "\"" + (Join(x.name) + ("\"" + AfterName(x))) }

  ghost predicate Means(x: Member, k: string, v: string) {
    && Spaces(x.lead) && Spaces(x.gap) && Spaces(x.space) && Spaces(x.end)
    && SpellsAll(x.name, k) && SpellsAll(x.value, v)
  }

  function Members(xs: seq<Member>): string
    requires xs != []
  {
    if |xs| == 1 then xs[0].lead + Bare(xs[0]) else xs[0].lead + Bare(xs[0]) + ("," + Members(xs[1..]))
  }

  ghost predicate MeanAll(xs: seq<Member>, pairs: seq<(string, string)>) {
    |xs| == |pairs| && forall i :: 0 <= i < |xs| ==> Means(xs[i], pairs[i].0, pairs[i].1)
  }

  // A whole text; `inside` is what stands between the braces of an empty object.
  datatype Document = Document(before: string, inside: string, members: seq<Member>, after: string)

  function Text(d: Document): string {
    d.before + ("{" + ((if d.members == [] then d.inside else Members(d.members)) + ("}" + d.after)))
  }

  ghost predicate IsDocument(d: Document, pairs: seq<(string, string)>) {
    Spaces(d.before) && Spaces(d.inside) && Spaces(d.after) && MeanAll(d.members, pairs)
  }

  // ---- White space ----

  lemma {:induction false} SkipOne(s: string)
    ensures SkipSpace(s) == if s != "" && IsSpace(s[0]) then SkipSpace(s[1..]) else s
  {
  }

  lemma {:induction false} SkipsSpaces(w: string, t: string)
    requires Spaces(w) && (t == "" || !IsSpace(t[0]))
    ensures SkipSpace(w + t) == t
  {
    SkipOne(w + t);
    if w == "" {
      assert w + t == t;
    } else {
      SkipsSpaces(w[1..], t);
      assert (w + t)[1..] == w[1..] + t;
    }
  }

  lemma {:induction false} SkippedSpaces(s: string) returns (w: string)
    ensures Spaces(w) && s == w + SkipSpace(s)
    ensures SkipSpace(s) == "" || !IsSpace(SkipSpace(s)[0])
  {
    SkipOne(s);
    if s != "" && IsSpace(s[0]) {
      var rest := SkippedSpaces(s[1..]);
      w := [s[0]] + rest;
      assert s == [s[0]] + s[1..];
      Regroup([s[0]], rest, SkipSpace(s));
    } else {
      w := "";
      assert w + s == s;
    }
  }

  // ---- One character ----

  lemma HexValueMeaning(c: char, v: nat)
    ensures HexValue(c) == Some(v) <==> IsHexDigit(c, v)
  {
  }

  lemma HexNumberOne(front: string, c: char, n: nat, v: nat)
    requires HexNumber(front) == Some(n) && HexValue(c) == Some(v)
    ensures HexNumber(front + [c]) == Some(16 * n + v)
  {
    HexNumberGrows(front, c);
  }

  lemma HexFour(h: string, a: nat, b: nat, c: nat, d: nat)
    requires |h| == 4 && Digits(h, a, b, c, d)
    ensures HexNumber(h) == Some(Value(a, b, c, d))
  {
    HexValueMeaning(h[0], a);
    HexValueMeaning(h[1], b);
    HexValueMeaning(h[2], c);
    HexValueMeaning(h[3], d);
    HexNumberOne("", h[0], 0, a);
    assert "" + [h[0]] == h[..1] && h[..1] + [h[1]] == h[..2] && h[..2] + [h[2]] == h[..3] && h[..3] + [h[3]] == h;
    HexNumberOne(h[..1], h[1], a, b);
    HexNumberOne(h[..2], h[2], a * 16 + b, c);
    HexNumberOne(h[..3], h[3], (a * 16 + b) * 16 + c, d);
  }

  lemma {:induction false} HexNumberDigits(h: string)
    requires HexNumber(h).Some?
    ensures forall i :: 0 <= i < |h| ==> HexValue(h[i]).Some?
  {
    if h != "" {
      HexNumberDigits(h[..|h| - 1]);
    }
  }

  lemma NumberHasDigits(h: string, n: nat)
    requires |h| == 4 && HexNumber(h) == Some(n)
    ensures FourDigits(h, n)
  {
    HexNumberDigits(h);
    var a, b, c, d := HexValue(h[0]).value, HexValue(h[1]).value, HexValue(h[2]).value, HexValue(h[3]).value;
    HexValueMeaning(h[0], a);
    HexValueMeaning(h[1], b);
    HexValueMeaning(h[2], c);
    HexValueMeaning(h[3], d);
    assert Digits(h, a, b, c, d);
    HexFour(h, a, b, c, d);
  }

  lemma DigitsHaveNumber(h: string, n: nat)
    requires FourDigits(h, n)
    ensures HexNumber(h) == Some(n)
  {
    var a: nat, b: nat, c: nat, d: nat :| Digits(h, a, b, c, d) && n == Value(a, b, c, d);
    HexFour(h, a, b, c, d);
  }

  lemma FourDigitsMeaning(h: string, n: nat)
    requires |h| == 4
    ensures HexNumber(h) == Some(n) <==> FourDigits(h, n)
  {
    if HexNumber(h) == Some(n) {
      NumberHasDigits(h, n);
    } else if FourDigits(h, n) {
      DigitsHaveNumber(h, n);
    }
  }

  lemma UnitMeaning(s: string, n: nat)
    requires |s| >= 6 && s[0] == '\\' && s[1] == 'u'
    ensures Unit(s[2..]) == Some(n) <==> HexUnit(s[..6], n)
  {
    assert s[2..][..4] == s[..6][2..];
    FourDigitsMeaning(s[..6][2..], n);
  }

  lemma EscapeMeaning(letter: char, c: char)
    ensures SimpleEscape(letter) == Some(c) <==> Escape(letter, c)
  {
  }

  lemma UnitIsRead(t: string, c: char, rest: string)
    requires HexUnit(t, c as int)
    ensures DecodeChar(t + rest) == Some((c, 6))
  {
    var s := t + rest;
    assert s[..6] == t && s[0] == '\\' && s[1] == 'u';
    UnitMeaning(s, c as int);
  }

  lemma PairIsRead(t: string, c: char, rest: string)
    requires SurrogatePair(t, c)
    ensures DecodeChar(t + rest) == Some((c, 12))
  {
    var hi: nat, lo: nat :|
      && HexUnit(t[..6], hi) && HexUnit(t[6..], lo) && 0xD800 <= hi < 0xDC00 && 0xDC00 <= lo < 0xE000
      && c as int == 0x10000 + (hi - 0xD800) * 0x400 + (lo - 0xDC00);
    TwoUnits(t + rest, t, hi, lo, rest);
    PairIsChar(t + rest, hi, lo, c);
  }

  lemma PairIsChar(s: string, hi: nat, lo: nat, c: char)
    requires |s| >= 12 && s[0] == s[6] == BACKSLASH && s[1] == s[7] == 'u'
    requires Unit(s[2..]) == Some(hi) && Unit(s[8..]) == Some(lo)
    requires 0xD800 <= hi < 0xDC00 && 0xDC00 <= lo < 0xE000
    requires c as int == 0x10000 + (hi - 0xD800) * 0x400 + (lo - 0xDC00)
    ensures DecodeChar(s) == Some((c, 12))
  {
  }

  lemma TwoUnits(s: string, t: string, hi: nat, lo: nat, rest: string)
    requires |t| == 12 && HexUnit(t[..6], hi) && HexUnit(t[6..], lo) && s == t + rest
    ensures |s| >= 12 && s[0] == s[6] == BACKSLASH && s[1] == s[7] == 'u'
    ensures Unit(s[2..]) == Some(hi) && Unit(s[8..]) == Some(lo)
  {
    assert s[..6] == t[..6] && s[0] == t[..6][0] && s[1] == t[..6][1];
    assert s[6..][..6] == t[6..] && s[6] == t[6..][0] && s[7] == t[6..][1];
    UnitMeaning(s, hi);
    UnitMeaning(s[6..], lo);
    assert s[6..][2..] == s[8..];
  }

  // However a character is spelled, it is read back, and no spelling starts with a quote.
  lemma SpelledIsRead(t: string, c: char, rest: string)
    requires Spells(t, c)
    ensures t != "" && t[0] != QUOTE && DecodeChar(t + rest) == Some((c, |t|))
  {
    if HexUnit(t, c as int) {
      UnitIsRead(t, c, rest);
    } else if SurrogatePair(t, c) {
      PairIsRead(t, c, rest);
    } else if |t| == 2 {
      EscapeMeaning(t[1], c);
    }
  }

  // Whatever is read as one character spells it.
  lemma ReadIsSpelled(s: string, c: char, n: nat)
    requires DecodeChar(s) == Some((c, n)) && s[0] != QUOTE
    ensures n <= |s| && Spells(s[..n], c)
  {
    if s[0] == BACKSLASH {
      if s[1] != 'u' {
        EscapeMeaning(s[1], c);
      } else {
        var u := Unit(s[2..]).value;
        UnitMeaning(s, u);
        if n == 12 {
          PairIsSpelled(s, u, c);
        }
      }
    }
  }

  lemma PairIsSpelled(s: string, u: nat, c: char)
    requires |s| >= 12 && HexUnit(s[..6], u) && 0xD800 <= u < 0xDC00 && DecodeChar(s) == Some((c, 12))
    ensures SurrogatePair(s[..12], c)
  {
    assert s[0] == s[..6][0] && s[1] == s[..6][1];
    UnitMeaning(s, u);
    var l := Unit(s[8..]).value;
    assert s[6..][2..] == s[8..];
    UnitMeaning(s[6..], l);
    assert s[..12][..6] == s[..6] && s[..12][6..] == s[6..][..6];
  }

  // ---- One string ----

  lemma {:induction false} BodyIsRead(parts: seq<string>, text: string, rest: string)
    requires SpellsAll(parts, text)
    ensures DecodeString(Join(parts) + ("\"" + rest)) == Some((text, rest))
    decreases |parts|
  {
    if parts != [] {
      RestSpelled(parts, text);
      BodyIsRead(parts[1..], text[1..], rest);
      FirstIsRead(parts[0], text[0], Join(parts[1..]) + ("\"" + rest), text[1..], rest);
      Regroup(parts[0], Join(parts[1..]), "\"" + rest);
      assert text == [text[0]] + text[1..];
    } else {
      assert Join(parts) + ("\"" + rest) == "\"" + rest;
    }
  }

  lemma RestSpelled(parts: seq<string>, text: string)
    requires SpellsAll(parts, text) && parts != []
    ensures Spells(parts[0], text[0]) && SpellsAll(parts[1..], text[1..])
  {
    forall i | 0 <= i < |parts| - 1 ensures Spells(parts[1..][i], text[1..][i]) {
      assert Spells(parts[i + 1], text[i + 1]);
    }
  }

  lemma {:induction false} FirstIsRead(t: string, c: char, tail: string, more: string, rest: string)
    requires Spells(t, c) && DecodeString(tail) == Some((more, rest))
    ensures DecodeString(t + tail) == Some(([c] + more, rest))
  {
    SpelledIsRead(t, c, tail);
    assert (t + tail)[|t|..] == tail && (t + tail)[0] == t[0];
  }

  lemma {:induction false} ReadIsBody(s: string) returns (parts: seq<string>)
    requires DecodeString(s).Some?
    ensures SpellsAll(parts, DecodeString(s).value.0) && s == Join(parts) + ("\"" + DecodeString(s).value.1)
    decreases |s|
  {
    if s[0] == QUOTE {
      parts := [];
      assert s == "\"" + s[1..];
    } else {
      var (c, n) := DecodeChar(s).value;
      ReadIsSpelled(s, c, n);
      var more := ReadIsBody(s[n..]);
      parts := [s[..n]] + more;
      assert parts[1..] == more;
      assert s == s[..n] + s[n..];
      Regroup(s[..n], Join(more), "\"" + DecodeString(s).value.1);
    }
  }

  // ---- One member ----

  lemma {:induction false} QuotedIsRead(parts: seq<string>, text: string, rest: string)
    requires SpellsAll(parts, text)
    ensures var s := "\"" + (Join(parts) + ("\"" + rest)); s[0] == QUOTE && DecodeString(s[1..]) == Some((text, rest))
  {
    var s := "\"" + (Join(parts) + ("\"" + rest));
    BodyIsRead(parts, text, rest);
    assert s[1..] == Join(parts) + ("\"" + rest);
  }

  lemma {:induction false} ValueIsRead(parts: seq<string>, v: string, end: string, rest: string)
    requires SpellsAll(parts, v) && Spaces(end) && rest != "" && !IsSpace(rest[0])
    ensures ReadValue("\"" + (Join(parts) + ("\"" + (end + rest)))) == Some((v, rest))
  {
    QuotedIsRead(parts, v, end + rest);
    SkipsSpaces(end, rest);
  }

  lemma {:induction false} MemberIsRead(x: Member, k: string, v: string, rest: string)
    requires Means(x, k, v) && rest != "" && !IsSpace(rest[0])
    ensures ReadMember(Bare(x) + rest) == Some((k, v, rest))
  {
    var value := "\"" + (Join(x.value) + ("\"" + (x.end + rest)));
    var colon := ":" + (x.space + value);
    BareSplits(x, rest, value, colon);
    QuotedIsRead(x.name, k, x.gap + colon);
    SkipsSpaces(x.gap, colon);
    assert colon[1..] == x.space + value;
    SkipsSpaces(x.space, value);
    ValueIsRead(x.value, v, x.end, rest);
  }

  lemma {:induction false} BareSplits(x: Member, rest: string, value: string, colon: string)
    requires value == "\"" + (Join(x.value) + ("\"" + (x.end + rest))) && colon == ":" + (x.space + value)
    ensures Bare(x) + rest == "\"" + (Join(x.name) + ("\"" + (x.gap + colon)))
  {
    var a := Join(x.value) + ("\"" + x.end);
    Regroup("\"", x.end, rest);
    Regroup(Join(x.value), "\"" + x.end, rest);
    Regroup("\"", a, rest);
    Regroup(x.space, "\"" + a, rest);
    Regroup(":", x.space + ("\"" + a), rest);
    Regroup(x.gap, ":" + (x.space + ("\"" + a)), rest);
    Regroup("\"", AfterName(x), rest);
    Regroup(Join(x.name), "\"" + AfterName(x), rest);
    Regroup("\"", Join(x.name) + ("\"" + AfterName(x)), rest);
  }

  lemma {:induction false} ReadIsMember(s: string) returns (x: Member)
    requires ReadMember(s).Some?
    ensures var (k, v, rest) := ReadMember(s).value;
            && Means(x, k, v) && x.lead == "" && s == Bare(x) + rest && rest != "" && !IsSpace(rest[0])
  {
    var (k, v, rest) := ReadMember(s).value;
    var name := ReadIsBody(s[1..]);
    var s1 := DecodeString(s[1..]).value.1;
    var gap := SkippedSpaces(s1);
    var s2 := SkipSpace(s1);
    var space := SkippedSpaces(s2[1..]);
    var s3 := SkipSpace(s2[1..]);
    var value := ReadIsBody(s3[1..]);
    var s4 := DecodeString(s3[1..]).value.1;
    var end := SkippedSpaces(s4);
    x := Member("", name, gap, space, value, end);
    assert s == "\"" + s[1..] && s2 == ":" + s2[1..] && s3 == "\"" + s3[1..];
    BareSplits(x, rest, s3, s2);
  }

  // ---- The members ----

  lemma {:induction false} MembersAreRead(xs: seq<Member>, pairs: seq<(string, string)>, m: map<string, string>,
                                          rest: string)
    requires xs != [] && MeanAll(xs, pairs)
    ensures DecodeMembers(SkipSpace(Members(xs) + ("}" + rest)), m) == Some((AsMap(m, pairs), rest))
    decreases |xs|
  {
    var x, k, v := xs[0], pairs[0].0, pairs[0].1;
    assert Means(x, k, v);
    if |xs| == 1 {
      LeadSkipped(x, "}" + rest);
      MemberIsRead(x, k, v, "}" + rest);
      assert ("}" + rest)[1..] == rest;
      assert pairs == [pairs[0]] && pairs[1..] == [];
    } else {
      var more := Members(xs[1..]) + ("}" + rest);
      Regroup(x.lead + Bare(x), "," + Members(xs[1..]), "}" + rest);
      Regroup(",", Members(xs[1..]), "}" + rest);
      LeadSkipped(x, "," + more);
      MemberIsRead(x, k, v, "," + more);
      assert ("," + more)[1..] == more;
      assert MeanAll(xs[1..], pairs[1..]);
      MembersAreRead(xs[1..], pairs[1..], m[k := v], rest);
    }
  }

  lemma {:induction false} LeadSkipped(x: Member, rest: string)
    requires Spaces(x.lead)
    ensures SkipSpace((x.lead + Bare(x)) + rest) == Bare(x) + rest
  {
    Regroup(x.lead, Bare(x), rest);
    SkipsSpaces(x.lead, Bare(x) + rest);
  }

  lemma {:induction false} ReadAreMembers(s: string, m: map<string, string>)
    returns (xs: seq<Member>, pairs: seq<(string, string)>)
    requires DecodeMembers(s, m).Some?
    ensures xs != [] && MeanAll(xs, pairs) && xs[0].lead == ""
    ensures var (all, rest) := DecodeMembers(s, m).value; s == Members(xs) + ("}" + rest) && all == AsMap(m, pairs)
    decreases |s|
  {
    var (k, v, rest) := ReadMember(s).value;
    var x := ReadIsMember(s);
    assert x.lead + Bare(x) == Bare(x);
    if rest[0] == '}' {
      xs, pairs := [x], [(k, v)];
      assert rest == "}" + rest[1..];
      assert pairs[1..] == [];
    } else {
      var lead := SkippedSpaces(rest[1..]);
      var others, more := ReadAreMembers(SkipSpace(rest[1..]), m[k := v]);
      var next := [others[0].(lead := lead)] + others[1..];
      xs, pairs := [x] + next, [(k, v)] + more;
      assert xs[1..] == next && pairs[1..] == more;
      LeadPut(others, lead);
      MoreMembers(s, x, rest, next, lead, others, DecodeMembers(s, m).value.1);
      assert MeanAll(xs, pairs);
    }
  }

  // White space put before the first member.
  lemma {:induction false} LeadPut(xs: seq<Member>, lead: string)
    requires xs != [] && xs[0].lead == ""
    ensures Members([xs[0].(lead := lead)] + xs[1..]) == lead + Members(xs)
  {
    var x, y, ys := xs[0], xs[0].(lead := lead), [xs[0].(lead := lead)] + xs[1..];
    assert Bare(y) == Bare(x) && x.lead + Bare(x) == Bare(x);
    assert ys[0] == y && ys[1..] == xs[1..];
    if |xs| > 1 {
      Regroup(lead, Bare(x), "," + Members(xs[1..]));
    }
  }

  lemma {:induction false} MoreMembers(s: string, x: Member, rest: string, next: seq<Member>, lead: string,
                                       others: seq<Member>, end: string)
    requires x.lead == "" && s == Bare(x) + rest && rest != "" && rest[0] == ',' && next != [] && others != []
    requires Members(next) == lead + Members(others)
    requires rest[1..] == lead + (Members(others) + ("}" + end))
    ensures s == Members([x] + next) + ("}" + end)
  {
    var xs := [x] + next;
    assert xs[0] == x && xs[1..] == next && x.lead + Bare(x) == Bare(x);
    Regroup(lead, Members(others), "}" + end);
    Regroup(",", Members(next), "}" + end);
    Regroup(Bare(x), "," + Members(next), "}" + end);
    assert rest == "," + rest[1..];
  }

  // ---- The whole text ----

  lemma {:induction false} DocumentIsRead(d: Document, pairs: seq<(string, string)>)
    requires IsDocument(d, pairs)
    ensures Loads(Text(d)) == Some(AsMap(map[], pairs))
  {
    var inner := (if d.members == [] then d.inside else Members(d.members)) + ("}" + d.after);
    SkipsSpaces(d.before, "{" + inner);
    assert ("{" + inner)[1..] == inner;
    SkipsSpaces(d.after, "");
    assert d.after + "" == d.after;
    if d.members == [] {
      SkipsSpaces(d.inside, "}" + d.after);
      assert ("}" + d.after)[1..] == d.after;
    } else {
      MembersAreRead(d.members, pairs, map[], d.after);
      NoBrace(d.members[0], pairs[0], d.members, d.after);
    }
  }

  // The first member starts with a quote, not with the closing brace.
  lemma {:induction false} NoBrace(x: Member, pair: (string, string), xs: seq<Member>, after: string)
    requires xs != [] && x == xs[0] && Means(x, pair.0, pair.1)
    ensures var s := SkipSpace(Members(xs) + ("}" + after)); s != "" && s[0] == QUOTE
  {
    if |xs| == 1 {
      LeadSkipped(x, "}" + after);
    } else {
      Regroup(x.lead + Bare(x), "," + Members(xs[1..]), "}" + after);
      LeadSkipped(x, ("," + Members(xs[1..])) + ("}" + after));
    }
  }

  lemma {:induction false} EmptyText(s: string, before: string, lead: string, s0: string, s1: string, after: string)
    requires Spaces(before) && Spaces(lead) && Spaces(after)
    requires s == before + s0 && s0 == "{" + (lead + s1) && s1 == "}" + after
    ensures IsDocument(Document(before, lead, [], after), []) && s == Text(Document(before, lead, [], after))
  {
  }

  lemma {:induction false} FullText(s: string, before: string, lead: string, s0: string, s1: string, after: string,
                                    xs: seq<Member>, pairs: seq<(string, string)>)
    requires Spaces(before) && Spaces(lead) && Spaces(after) && xs != [] && MeanAll(xs, pairs) && xs[0].lead == ""
    requires s == before + s0 && s0 == "{" + (lead + s1) && s1 == Members(xs) + ("}" + after)
    ensures var d := Document(before, "", [xs[0].(lead := lead)] + xs[1..], after); IsDocument(d, pairs) && s == Text(d)
  {
    var ys := [xs[0].(lead := lead)] + xs[1..];
    LeadPut(xs, lead);
    Regroup(lead, Members(xs), "}" + after);
    forall i | 0 <= i < |ys| ensures Means(ys[i], pairs[i].0, pairs[i].1) {
      assert Means(xs[i], pairs[i].0, pairs[i].1);
    }
  }

  // Nothing but white space follows.
  lemma {:induction false} AllSpaces(s: string)
    requires SkipSpace(s) == ""
    ensures Spaces(s)
  {
    var w := SkippedSpaces(s);
    assert w + "" == w;
  }

  lemma BehindBrace(s: string, brace: char)
    requires s != "" && s[0] == brace
    ensures s == [brace] + s[1..]
  {
  }

  lemma {:induction false} ReadIsDocument(s: string) returns (d: Document, pairs: seq<(string, string)>)
    requires Loads(s).Some?
    ensures IsDocument(d, pairs) && s == Text(d) && Loads(s) == Some(AsMap(map[], pairs))
  {
    var s0 := SkipSpace(s);
    var s1 := SkipSpace(s0[1..]);
    var before := SkippedSpaces(s);
    var lead := SkippedSpaces(s0[1..]);
    BehindBrace(s0, '{');
    if s1 != "" && s1[0] == '}' {
      d, pairs := Document(before, lead, [], s1[1..]), [];
      AllSpaces(s1[1..]);
      BehindBrace(s1, '}');
      EmptyText(s, before, lead, s0, s1, s1[1..]);
    } else {
      var xs, ps := ReadAreMembers(s1, map[]);
      var rest := DecodeMembers(s1, map[]).value.1;
      AllSpaces(rest);
      d, pairs := Document(before, "", [xs[0].(lead := lead)] + xs[1..], rest), ps;
      FullText(s, before, lead, s0, s1, rest, xs, ps);
    }
  }

  /**
   json.loads gives an object exactly for the texts of the grammar, and the object is what their
   members spell, of repeated names the last.
   */
  lemma {:induction false} LoadsMeaning(s: string, m: map<string, string>)
    ensures Loads(s) == Some(m) <==>
            exists d, pairs :: IsDocument(d, pairs) && s == Text(d) && m == AsMap(map[], pairs)
  {
    if Loads(s) == Some(m) {
      var d, pairs := ReadIsDocument(s);
    }
    if d, pairs :| IsDocument(d, pairs) && s == Text(d) && m == AsMap(map[], pairs) {
      DocumentIsRead(d, pairs);
    }
  }
}
