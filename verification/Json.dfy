/** `json.dumps(value, separators=(",", ":"))` with the default `ensure_ascii`, and
    `json.loads`, over Python strings (sequences of code points, lone surrogates allowed).
    Section 7 of RFC 8259 defines the string escapes. */
module Json {
  import opened Results

  type Code = c: int | 0 <= c < 0x110000
  type Text = seq<Code>

  datatype Member = Member(key: Text, value: Json)

  /** A parsed number with a fraction or an exponent is kept as its text. */
  datatype Json =
    | JNull
    | JBool(b: bool)
    | JInt(n: int)
    | JFloat(text: Text)
    | JStr(s: Text)
    | JArr(elems: seq<Json>)
    | JObj(members: seq<Member>)

  /** Values that `dumps` is given here: no floats. */
  ghost predicate Exact(j: Json) {
    match j
    case JFloat(_) => false
    case JArr(es) => forall e :: e in es ==> Exact(e)
    case JObj(ms) => forall m :: m in ms ==> Exact(m.value)
    case _ => true
  }

  // ---- strings ----

  predicate High(c: int) { 0xD800 <= c < 0xDC00 }
  predicate Low(c: int) { 0xDC00 <= c < 0xE000 }

  function Combine(hi: int, lo: int): Code
    requires High(hi) && Low(lo)
  {
    0x10000 + (hi - 0xD800) * 0x400 + (lo - 0xDC00)
  }

  function HighOf(c: Code): (hi: Code)
    requires c >= 0x10000
    ensures High(hi)
  {
    0xD800 + (c - 0x10000) / 0x400
  }

  function LowOf(c: Code): (lo: Code)
    requires c >= 0x10000
    ensures Low(lo) && Combine(HighOf(c), lo) == c
  {
    0xDC00 + (c - 0x10000) % 0x400
  }

  function Hex(d: nat): Code
    requires d < 16
  {
    if d < 10 then 48 + d else 87 + d
  }

  /** `\uXXXX` for one UTF-16 unit. */
  function UnitEscape(n: nat): (t: Text)
    requires n < 0x10000
    ensures |t| == 6 && t[0] == 92 && t[1] == 117
  {
    var q1 := n / 16;
    var q2 := q1 / 16;
    [92, 117, Hex(q2 / 16), Hex(q2 % 16), Hex(q1 % 16), Hex(n % 16)]
  }

  function UnHex(c: Code): (r: Option<nat>)
    ensures r.Some? ==> r.value < 16
  {
    if 48 <= c <= 57 then Some(c - 48)
    else if 97 <= c <= 102 then Some(c - 87)
    else if 65 <= c <= 70 then Some(c - 55)
    else None
  }

  /** `\uXXXX` at the head of the text. */
  function UnicodeEscape(t: Text): (r: Option<nat>)
    ensures r.Some? ==> r.value < 0x10000 && |t| >= 6 && t[0] == 92 && t[1] == 117
  {
    if |t| < 6 || t[0] != 92 || t[1] != 117 then None
    else match (UnHex(t[2]), UnHex(t[3]), UnHex(t[4]), UnHex(t[5]))
      case (Some(a), Some(b), Some(c), Some(d)) => Some(((a * 16 + b) * 16 + c) * 16 + d)
      case _ => None
  }

  /** Code point that a two-character escape stands for. */
  function ShortEscape(c: Code): Option<Code> {
    if c == 34 || c == 92 || c == 47 then Some(c)
    else if c == 98 then Some(8)
    else if c == 102 then Some(12)
    else if c == 110 then Some(10)
    else if c == 114 then Some(13)
    else if c == 116 then Some(9)
    else None
  }

  function Escape(c: Code): (t: Text)
    ensures |t| > 0
  {
    if c == 34 || c == 92 then [92, c]
    else if c == 8 then [92, 98]
    else if c == 12 then [92, 102]
    else if c == 10 then [92, 110]
    else if c == 13 then [92, 114]
    else if c == 9 then [92, 116]
    else if 32 <= c <= 126 then [c]
    else if c < 0x10000 then UnitEscape(c)
    else UnitEscape(HighOf(c)) + (UnitEscape(LowOf(c)))
  }

  function EscapeAll(s: Text): Text {
    if s == [] then [] else Escape(s[0]) + EscapeAll(s[1..])
  }

  /** String body after the opening quote: its value and the text after the closing quote. */
  function ParseString(t: Text): (r: Option<(Text, Text)>)
    ensures r.Some? ==> |r.value.1| < |t|
  {
    if t == [] then None
    else if t[0] == 34 then Some(([], t[1..]))
    else if t[0] == 92 then
      if |t| >= 2 && ShortEscape(t[1]).Some? then Push(ShortEscape(t[1]).value, ParseString(t[2..]))
      else match UnicodeEscape(t)
        case None => None
        case Some(u) =>
          if High(u) && UnicodeEscape(t[6..]).Some? && Low(UnicodeEscape(t[6..]).value)
          then Push(Combine(u, UnicodeEscape(t[6..]).value), ParseString(t[12..]))
          else Push(u, ParseString(t[6..]))
    else if t[0] < 32 then None
    else Push(t[0], ParseString(t[1..]))
  }

  function Push(c: Code, r: Option<(Text, Text)>): Option<(Text, Text)> {
    match r
    case None => None
    case Some((s, rest)) => Some(([c] + s, rest))
  }

  /** The two-character escapes of section 7 of RFC 8259: the letter and what it stands for. */
  const ESCAPES: seq<(Code, Code)> :=
    [(34, 34), (92, 92), (47, 47), (98, 8), (102, 12), (110, 10), (114, 13), (116, 9)]

  /** Each of them is read, and each but the slash is written. */
  lemma ShortEscapes(i: nat, t: Text)
    requires i < |ESCAPES|
    ensures
      var (letter, c) := ESCAPES[i];
      && ParseString([92, letter] + t) == Push(c, ParseString(t))
      && Escape(c) == if c == 47 then [47] else [92, letter]
  {
    var read := [92, ESCAPES[i].0] + t;
    assert read[2..] == t && read[1] == ESCAPES[i].0;
  }

  /** The body of a string holds no raw control character. */
  lemma {:induction false} ControlRefused(t: Text, i: nat)
    requires ParseString(t).Some? && i < |t| - |ParseString(t).value.1|
    ensures t[i] >= 32
  {
    if t[0] == 92 {
      if ShortEscape(t[1]).Some? {
        if i >= 2 { ControlRefused(t[2..], i - 2); }
      } else if High(UnicodeEscape(t).value) && UnicodeEscape(t[6..]).Some? && Low(UnicodeEscape(t[6..]).value) {
        if i >= 12 { ControlRefused(t[12..], i - 12); } else if i >= 6 { assert t[i] == t[6..][i - 6]; }
      } else if i >= 6 {
        ControlRefused(t[6..], i - 6);
      }
    } else if t[0] != 34 && i >= 1 {
      ControlRefused(t[1..], i - 1);
    }
  }

  /** What a Python string becomes after `loads(dumps(s))`: a high surrogate directly
      followed by a low one is read back as a single code point. */
  function Joined(s: Text): Text {
    if |s| >= 2 && High(s[0]) && Low(s[1]) then [Combine(s[0], s[1])] + Joined(s[2..])
    else if s == [] then []
    else [s[0]] + Joined(s[1..])
  }

  ghost predicate NoSplitPair(s: Text) {
    forall i :: 0 <= i < |s| - 1 ==> !(High(s[i]) && Low(s[i + 1]))
  }

  lemma {:induction false} JoinedShrinks(s: Text)
    ensures |Joined(s)| <= |s|
    ensures !NoSplitPair(s) ==> |Joined(s)| < |s|
  {
    if |s| >= 2 && High(s[0]) && Low(s[1]) {
      JoinedShrinks(s[2..]);
    } else if s != [] {
      JoinedShrinks(s[1..]);
      if !NoSplitPair(s) {
        var i :| 0 <= i < |s| - 1 && High(s[i]) && Low(s[i + 1]);
        assert High(s[1..][i - 1]) && Low(s[1..][i - 1 + 1]);
      }
    }
  }

  /** A string is read back unchanged exactly when it holds no split surrogate pair. */
  lemma {:induction false} JoinedIdentity(s: Text)
    ensures Joined(s) == s <==> NoSplitPair(s)
  {
    JoinedShrinks(s);
    if NoSplitPair(s) && s != [] {
      assert |s| >= 2 ==> !(High(s[0]) && Low(s[0 + 1]));
      assert NoSplitPair(s[1..]) by {
        forall i | 0 <= i < |s[1..]| - 1 ensures !(High(s[1..][i]) && Low(s[1..][i + 1])) {
          assert !(High(s[i + 1]) && Low(s[i + 1 + 1]));
        }
      }
      JoinedIdentity(s[1..]);
    }
  }

  lemma HexRoundTrip(n: nat, tail: Text)
    requires n < 0x10000
    ensures UnicodeEscape(UnitEscape(n) + tail) == Some(n)
    ensures (UnitEscape(n) + tail)[6..] == tail
  {
    var q1 := n / 16;
    var q2 := q1 / 16;
    var t := UnitEscape(n) + tail;
    assert UnHex(t[2]) == Some(q2 / 16) && UnHex(t[3]) == Some(q2 % 16);
    assert UnHex(t[4]) == Some(q1 % 16) && UnHex(t[5]) == Some(n % 16);
  }

  /** The head of an escaped string is a `\u` escape of a low surrogate only for a low
      surrogate. */
  lemma EscapedHead(c: Code, tail: Text)
    ensures UnicodeEscape(Escape(c) + tail).Some? && Low(UnicodeEscape(Escape(c) + tail).value) ==> Low(c)
  {
    var t := Escape(c) + tail;
    if |Escape(c)| <= 2 {
      assert t[0] == Escape(c)[0] && (|Escape(c)| == 2 ==> t[1] == Escape(c)[1]);
    } else if c < 0x10000 {
      HexRoundTrip(c, tail);
    } else {
      assert t == UnitEscape(HighOf(c)) + (UnitEscape(LowOf(c)) + tail);
      HexRoundTrip(HighOf(c), UnitEscape(LowOf(c)) + tail);
    }
  }

  /** One `\u` escape that is not the first half of a pair. */
  lemma ParseUnit(n: nat, tail: Text)
    requires n < 0x10000
    requires High(n) ==> !(UnicodeEscape(tail).Some? && Low(UnicodeEscape(tail).value))
    ensures ParseString(UnitEscape(n) + tail) == Push(n, ParseString(tail))
  {
    HexRoundTrip(n, tail);
  }

  lemma ParseUnitPair(hi: nat, lo: nat, tail: Text)
    requires High(hi) && Low(lo)
    ensures ParseString(UnitEscape(hi) + (UnitEscape(lo) + tail)) == Push(Combine(hi, lo), ParseString(tail))
  {
    var second := UnitEscape(lo) + tail;
    HexRoundTrip(hi, second);
    HexRoundTrip(lo, tail);
    var t := UnitEscape(hi) + second;
    assert t[12..] == t[6..][6..] == tail;
  }

  lemma ParseShort(e: Code, tail: Text)
    requires ShortEscape(e).Some?
    ensures ParseString([92, e] + tail) == Push(ShortEscape(e).value, ParseString(tail))
  {
    assert ([92, e] + tail)[2..] == tail;
  }

  lemma ParseAstral(c: Code, tail: Text)
    requires c >= 0x10000
    ensures ParseString(Escape(c) + tail) == Push(c, ParseString(tail))
  {
    hide ParseString, UnitEscape, UnicodeEscape, ShortEscape, HighOf, Combine, Push;
    var lo := LowOf(c);
    assert Escape(c) + tail == UnitEscape(HighOf(c)) + (UnitEscape(lo) + tail);
    ParseUnitPair(HighOf(c), lo, tail);
  }

  lemma ParseOne(c: Code, tail: Text)
    requires High(c) ==> !(UnicodeEscape(tail).Some? && Low(UnicodeEscape(tail).value))
    ensures ParseString(Escape(c) + tail) == Push(c, ParseString(tail))
  {
    if |Escape(c)| == 2 {
      ParseShort(Escape(c)[1], tail);
    } else if 32 <= c <= 126 {
      assert ([c] + tail)[1..] == tail;
    } else if c < 0x10000 {
      ParseUnit(c, tail);
    } else {
      ParseAstral(c, tail);
    }
  }

  lemma ParsePair(hi: Code, lo: Code, tail: Text)
    requires High(hi) && Low(lo)
    ensures ParseString(Escape(hi) + (Escape(lo) + tail)) == Push(Combine(hi, lo), ParseString(tail))
  {
    hide ParseString, UnitEscape, UnicodeEscape, ShortEscape, Combine, Push;
    ParseUnitPair(hi, lo, tail);
  }

  lemma {:induction false} StringRoundTrip(s: Text, rest: Text)
    ensures ParseString(EscapeAll(s) + [34] + rest) == Some((Joined(s), rest))
  {
    if s == [] {
      assert EscapeAll(s) + [34] + rest == [34] + rest;
    } else {
      hide ParseString;
      var tail := EscapeAll(s[1..]) + [34] + rest;
      assert EscapeAll(s) + [34] + rest == Escape(s[0]) + tail;
      if |s| >= 2 && High(s[0]) && Low(s[1]) {
        var tail2 := EscapeAll(s[2..]) + [34] + rest;
        assert s[1..][1..] == s[2..];
        assert tail == Escape(s[1]) + tail2;
        ParsePair(s[0], s[1], tail2);
        StringRoundTrip(s[2..], rest);
      } else {
        if |s| >= 2 {
          assert s[1..][1..] == s[2..];
          assert tail == Escape(s[1]) + (EscapeAll(s[2..]) + [34] + rest);
          EscapedHead(s[1], EscapeAll(s[2..]) + [34] + rest);
        } else {
          assert tail[0] == 34;
        }
        ParseOne(s[0], tail);
        StringRoundTrip(s[1..], rest);
      }
    }
  }

  // ---- numbers ----

  predicate IsDigit(c: Code) { 48 <= c <= 57 }

  function Digits(n: nat): (t: Text)
    ensures |t| > 0 && forall i :: 0 <= i < |t| ==> IsDigit(t[i])
    ensures n > 0 ==> t[0] != 48
    ensures n == 0 ==> t == [48]
  {
    if n < 10 then [48 + n] else Digits(n / 10) + [48 + n % 10]
  }

  function DigitsValue(t: Text): (v: int)
    requires forall i :: 0 <= i < |t| ==> IsDigit(t[i])
    ensures v >= 0
  {
    if t == [] then 0 else
      assert IsDigit(t[|t| - 1]);
      DigitsValue(t[..|t| - 1]) * 10 + (t[|t| - 1] as int - 48)
  }

  lemma {:induction false} DigitsRoundTrip(n: nat)
    ensures DigitsValue(Digits(n)) == n
  {
    if n < 10 {
      assert Digits(n)[..0] == [];
    } else {
      DigitsRoundTrip(n / 10);
      assert Digits(n)[..|Digits(n)| - 1] == Digits(n / 10);
    }
  }

  function LeadingDigits(t: Text): (k: nat)
    ensures k <= |t| && forall i :: 0 <= i < k ==> IsDigit(t[i])
    ensures k < |t| ==> !IsDigit(t[k])
  {
    if t != [] && IsDigit(t[0]) then
      var k := LeadingDigits(t[1..]);
      assert forall i :: 1 <= i < k + 1 ==> t[i] == t[1..][i - 1];
      k + 1
    else 0
  }

  function FractionLength(t: Text): (k: nat)
    ensures k <= |t|
  {
    if t != [] && t[0] == 46 && LeadingDigits(t[1..]) > 0 then 1 + LeadingDigits(t[1..]) else 0
  }

  /** End of the digits that start at `from`, or 0 when there are none. */
  function DigitsFrom(t: Text, from: nat): (k: nat)
    requires from <= |t|
    ensures k <= |t|
  {
    var k := LeadingDigits(t[from..]);
    if k > 0 then from + k else 0
  }

  function ExponentLength(t: Text): (k: nat)
    ensures k <= |t|
  {
    if t == [] || (t[0] != 101 && t[0] != 69) then 0
    else if |t| > 1 && (t[1] == 43 || t[1] == 45) then DigitsFrom(t, 2)
    else DigitsFrom(t, 1)
  }

  /** Extents of the integer part, the fraction and the exponent of an unsigned number. */
  datatype Span = Span(integer: nat, fraction: nat, exponent: nat)

  function NumberSpan(u: Text): (r: Span)
    ensures r.integer + r.fraction + r.exponent <= |u|
    ensures forall i :: 0 <= i < r.integer ==> IsDigit(u[i])
  {
    var k := LeadingDigits(u);
    var len := if k > 0 && u[0] == 48 then 1 else k;
    var frac := FractionLength(u[len..]);
    Span(len, frac, ExponentLength(u[len + frac..]))
  }

  /** `(-?(?:0|[1-9][0-9]*))(\.[0-9]+)?([eE][-+]?[0-9]+)?` */
  function ParseNumber(t: Text): (r: Option<(Json, Text)>)
    ensures r.Some? ==> |r.value.1| < |t|
  {
    var minus := if t != [] && t[0] == 45 then 1 else 0;
    var u := t[minus..];
    var span := NumberSpan(u);
    if span.integer == 0 then None
    else if span.fraction + span.exponent == 0 then
      var value := DigitsValue(u[..span.integer]);
      Some((JInt(if minus == 1 then 0 - value else value), u[span.integer..]))
    else
      var len := minus + span.integer + span.fraction + span.exponent;
      Some((JFloat(t[..len]), t[len..]))
  }

  predicate NumberEnds(rest: Text) {
    rest == [] || (!IsDigit(rest[0]) && rest[0] != 46 && rest[0] != 101 && rest[0] != 69)
  }

  lemma {:induction false} LeadingDigitsOf(ds: Text, rest: Text)
    requires forall i :: 0 <= i < |ds| ==> IsDigit(ds[i])
    requires rest == [] || !IsDigit(rest[0])
    ensures LeadingDigits(ds + rest) == |ds|
  {
    if ds == [] {
      assert ds + rest == rest;
    } else {
      assert (ds + rest)[1..] == ds[1..] + rest;
      LeadingDigitsOf(ds[1..], rest);
    }
  }

  lemma SpanOfDigits(ds: Text, rest: Text)
    requires |ds| > 0 && (forall i :: 0 <= i < |ds| ==> IsDigit(ds[i])) && (ds[0] == 48 ==> |ds| == 1)
    requires NumberEnds(rest)
    ensures NumberSpan(ds + rest) == Span(|ds|, 0, 0)
  {
    LeadingDigitsOf(ds, rest);
    assert (ds + rest)[|ds|..] == rest == (ds + rest)[|ds| + 0..];
  }

  lemma ParseSigned(t: Text, u: Text, n: nat, minus: bool)
    requires t == if minus then [45] + u else u
    requires u != [] && u[0] != 45 && 0 < n <= |u|
    requires NumberSpan(u) == Span(n, 0, 0)
    ensures forall i :: 0 <= i < n ==> IsDigit(u[..n][i])
    ensures ParseNumber(t) == Some((JInt(if minus then 0 - DigitsValue(u[..n]) else DigitsValue(u[..n])), u[n..]))
  {
    assert t[if minus then 1 else 0..] == u;
  }

  lemma DigitsParse(n: nat, minus: bool, t: Text, rest: Text)
    requires NumberEnds(rest)
    requires t == if minus then [45] + (Digits(n) + rest) else Digits(n) + rest
    ensures ParseNumber(t) == Some((JInt(if minus then 0 - n else n), rest))
  {
    var ds := Digits(n);
    var u := ds + rest;
    SpanOfDigits(ds, rest);
    assert u[0] == ds[0] && u[..|ds|] == ds && u[|ds|..] == rest;
    ParseSigned(t, u, |ds|, minus);
    DigitsRoundTrip(n);
  }

  lemma NumberRoundTrip(n: int, rest: Text)
    requires NumberEnds(rest)
    ensures ParseNumber(PrintInt(n) + rest) == Some((JInt(n), rest))
  {
    if n < 0 {
      assert [45] + Digits(-n) + rest == [45] + (Digits(-n) + rest);
      DigitsParse(-n, true, PrintInt(n) + rest, rest);
    } else {
      DigitsParse(n, false, PrintInt(n) + rest, rest);
    }
  }

  function PrintInt(n: int): Text {
    if n < 0 then [45] + Digits(-n) else Digits(n)
  }

  // ---- values ----

  const NULL: Text := [110, 117, 108, 108]
  const TRUE: Text := [116, 114, 117, 101]
  const FALSE: Text := [102, 97, 108, 115, 101]
  const NAN: Text := [78, 97, 78]
  const INFINITY: Text := [73, 110, 102, 105, 110, 105, 116, 121]

  function Print(j: Json): Text
    decreases j, 0
  {
    match j
    case JNull => NULL
    case JBool(b) => if b then TRUE else FALSE
    case JInt(n) => PrintInt(n)
    case JFloat(t) => t
    case JStr(s) => [34] + EscapeAll(s) + [34]
    case JArr(es) => [91] + PrintElems(es) + [93]
    case JObj(ms) => [123] + PrintMembers(ms) + [125]
  }

  function PrintElems(es: seq<Json>): Text
    decreases es, 0
  {
    if es == [] then []
    else if |es| == 1 then Print(es[0])
    else Print(es[0]) + [44] + PrintElems(es[1..])
  }

  function PrintMembers(ms: seq<Member>): Text
    decreases ms, 0
  {
    if ms == [] then []
    else if |ms| == 1 then PrintMember(ms[0])
    else PrintMember(ms[0]) + [44] + PrintMembers(ms[1..])
  }

  function PrintMember(m: Member): Text
    decreases m, 0
  {
    [34] + EscapeAll(m.key) + [34] + [58] + Print(m.value)
  }

  function SkipSpace(t: Text): (r: Text)
    ensures |r| <= |t|
  {
    if t != [] && (t[0] == 32 || t[0] == 9 || t[0] == 10 || t[0] == 13) then SkipSpace(t[1..]) else t
  }

  function ParseLiteral(t: Text): (r: Option<(Json, Text)>)
    ensures r.Some? ==> |r.value.1| < |t|
    ensures t != [] && IsDigit(t[0]) ==> r == None
    ensures |t| > 1 && t[0] == 45 && IsDigit(t[1]) ==> r == None
  {
    if NULL <= t then Some((JNull, t[|NULL|..]))
    else if TRUE <= t then Some((JBool(true), t[|TRUE|..]))
    else if FALSE <= t then Some((JBool(false), t[|FALSE|..]))
    else if NAN <= t then Some((JFloat(NAN), t[|NAN|..]))
    else if INFINITY <= t then Some((JFloat(INFINITY), t[|INFINITY|..]))
    else if [45] + INFINITY <= t then
      assert t[1] == INFINITY[0] by { assert ([45] + INFINITY)[1] == t[1]; }
      Some((JFloat([45] + INFINITY), t[1 + |INFINITY|..]))
    else None
  }

  lemma LiteralParses(word: Text, rest: Text)
    requires word == NULL || word == TRUE || word == FALSE
    ensures ParseLiteral(word + rest) == Some((if word == NULL then JNull else JBool(word == TRUE), rest))
  {
    assert (word + rest)[|word|..] == rest;
    assert (word + rest)[0] == word[0];
  }

  function ParseValue(t: Text): (r: Option<(Json, Text)>)
    ensures r.Some? ==> |r.value.1| < |t|
    decreases |t|, 0
  {
    if t == [] then None
    else if t[0] == 34 then
      (match ParseString(t[1..])
       case None => None
       case Some((s, rest)) => Some((JStr(s), rest)))
    else if t[0] == 123 then
      var u := SkipSpace(t[1..]);
      if u != [] && u[0] == 125 then Some((JObj([]), u[1..]))
      else
        (match ParseMembers(u)
         case None => None
         case Some((ms, rest)) => Some((JObj(ms), rest)))
    else if t[0] == 91 then
      var u := SkipSpace(t[1..]);
      if u != [] && u[0] == 93 then Some((JArr([]), u[1..]))
      else
        (match ParseElems(u)
         case None => None
         case Some((es, rest)) => Some((JArr(es), rest)))
    else if ParseLiteral(t).Some? then ParseLiteral(t)
    else ParseNumber(t)
  }

  function ParseElems(t: Text): (r: Option<(seq<Json>, Text)>)
    ensures r.Some? ==> |r.value.1| < |t|
    decreases |t|, 1
  {
    match ParseValue(t)
    case None => None
    case Some((v, after)) =>
      var u := SkipSpace(after);
      if u == [] then None
      else if u[0] == 93 then Some(([v], u[1..]))
      else if u[0] != 44 then None
      else
        (match ParseElems(SkipSpace(u[1..]))
         case None => None
         case Some((vs, rest)) => Some(([v] + vs, rest)))
  }

  function ParseMembers(t: Text): (r: Option<(seq<Member>, Text)>)
    ensures r.Some? ==> |r.value.1| < |t|
    decreases |t|, 1
  {
    if t == [] || t[0] != 34 then None
    else
      match ParseString(t[1..])
      case None => None
      case Some((key, afterKey)) =>
        var colon := SkipSpace(afterKey);
        if colon == [] || colon[0] != 58 then None
        else
          match ParseValue(SkipSpace(colon[1..]))
          case None => None
          case Some((v, after)) =>
            var u := SkipSpace(after);
            if u == [] then None
            else if u[0] == 125 then Some(([Member(key, v)], u[1..]))
            else if u[0] != 44 then None
            else
              match ParseMembers(SkipSpace(u[1..]))
              case None => None
              case Some((ms, rest)) => Some(([Member(key, v)] + ms, rest))
  }

  /** `json.loads` */
  function Loads(t: Text): Option<Json> {
    match ParseValue(SkipSpace(t))
    case None => None
    case Some((j, rest)) => if SkipSpace(rest) == [] then Some(j) else None
  }

  /** A value with every string read back. */
  function Normal(j: Json): Json
    decreases j, 0
  {
    match j
    case JStr(s) => JStr(Joined(s))
    case JArr(es) => JArr(NormalElems(es))
    case JObj(ms) => JObj(NormalMembers(ms))
    case _ => j
  }

  function NormalElems(es: seq<Json>): seq<Json>
    decreases es, 0
  {
    if es == [] then [] else [Normal(es[0])] + NormalElems(es[1..])
  }

  function NormalMembers(ms: seq<Member>): seq<Member>
    decreases ms, 0
  {
    if ms == [] then [] else [Member(Joined(ms[0].key), Normal(ms[0].value))] + NormalMembers(ms[1..])
  }

  lemma PrintStarts(j: Json, rest: Text)
    requires Exact(j)
    ensures
      var t := Print(j) + rest;
      t != [] && SkipSpace(t) == t && t[0] != 93 && t[0] != 125
  {
    match j
    case JInt(n) => assert (Print(j) + rest)[0] == Print(j)[0];
    case _ =>
  }

  lemma IntParses(n: int, rest: Text)
    requires NumberEnds(rest)
    ensures ParseValue(PrintInt(n) + rest) == Some((JInt(n), rest))
  {
    var t := PrintInt(n) + rest;
    NumberRoundTrip(n, rest);
    assert t[0] == PrintInt(n)[0];
    if n < 0 {
      assert t[1] == Digits(-n)[0];
    }
  }

  lemma StringParses(s: Text, rest: Text)
    ensures ParseValue([34] + EscapeAll(s) + [34] + rest) == Some((JStr(Joined(s)), rest))
  {
    assert ([34] + EscapeAll(s) + [34] + rest)[1..] == EscapeAll(s) + [34] + rest;
    StringRoundTrip(s, rest);
  }

  /** Every printed value is parsed back, whatever follows it. */
  lemma {:induction false} PrintParses(j: Json, rest: Text)
    requires Exact(j) && NumberEnds(rest)
    ensures ParseValue(Print(j) + rest) == Some((Normal(j), rest))
    decreases j, 1
  {
    match j
    case JNull => LiteralParses(NULL, rest);
    case JBool(b) => LiteralParses(if b then TRUE else FALSE, rest);
    case JInt(n) => IntParses(n, rest);
    case JStr(s) => StringParses(s, rest);
    case JArr(es) => ArrayParses(es, rest);
    case JObj(ms) => ObjectParses(ms, rest);
  }

  lemma {:induction false} ArrayParses(es: seq<Json>, rest: Text)
    requires forall e :: e in es ==> Exact(e)
    ensures ParseValue([91] + PrintElems(es) + [93] + rest) == Some((JArr(NormalElems(es)), rest))
    decreases es, 2
  {
    var u := PrintElems(es) + [93] + rest;
    assert ([91] + PrintElems(es) + [93] + rest)[1..] == u;
    if es == [] {
      assert u == [93] + rest;
    } else {
      ElemsTextIs(es, rest);
      ElemsParse(es, rest);
    }
  }

  lemma {:induction false} ObjectParses(ms: seq<Member>, rest: Text)
    requires forall m :: m in ms ==> Exact(m.value)
    ensures ParseValue([123] + PrintMembers(ms) + [125] + rest) == Some((JObj(NormalMembers(ms)), rest))
    decreases ms, 2
  {
    var u := PrintMembers(ms) + [125] + rest;
    assert ([123] + PrintMembers(ms) + [125] + rest)[1..] == u;
    if ms == [] {
      assert u == [125] + rest;
    } else {
      MembersTextIs(ms, rest);
      MembersParse(ms, rest);
    }
  }

  lemma SplitFirst(first: Text, more: Text, close: Code, rest: Text)
    ensures first + [44] + more + [close] + rest == first + ([44] + (more + [close] + rest))
  {
  }

  lemma ElemsStep(t: Text, v: Json, tail: Text, vs: seq<Json>, rest: Text)
    requires ParseValue(t) == Some((v, [44] + tail))
    requires SkipSpace(tail) == tail && ParseElems(tail) == Some((vs, rest))
    ensures ParseElems(t) == Some(([v] + vs, rest))
  {
    assert ([44] + tail)[1..] == tail;
  }

  ghost function ElemsText(es: seq<Json>, rest: Text): Text
    requires es != []
  {
    Print(es[0]) + if |es| == 1 then [93] + rest else [44] + ElemsText(es[1..], rest)
  }

  lemma {:induction false} ElemsTextIs(es: seq<Json>, rest: Text)
    requires es != []
    ensures PrintElems(es) + [93] + rest == ElemsText(es, rest)
  {
    if |es| == 1 {
      assert Print(es[0]) + [93] + rest == Print(es[0]) + ([93] + rest);
    } else {
      ElemsTextIs(es[1..], rest);
      SplitFirst(Print(es[0]), PrintElems(es[1..]), 93, rest);
    }
  }

  lemma {:induction false} ElemsParse(es: seq<Json>, rest: Text)
    requires es != [] && forall e :: e in es ==> Exact(e)
    ensures
      var t := ElemsText(es, rest);
      && t != [] && SkipSpace(t) == t && t[0] != 93
      && ParseElems(t) == Some((NormalElems(es), rest))
    decreases es, 0
  {
    var t := ElemsText(es, rest);
    if |es| == 1 {
      PrintStarts(es[0], [93] + rest);
      PrintParses(es[0], [93] + rest);
      assert NormalElems(es) == [Normal(es[0])];
    } else {
      var tail := ElemsText(es[1..], rest);
      PrintStarts(es[0], [44] + tail);
      PrintParses(es[0], [44] + tail);
      ElemsParse(es[1..], rest);
      ElemsStep(t, Normal(es[0]), tail, NormalElems(es[1..]), rest);
    }
  }

  /** One `"key":value` and the delimiter that follows it. */
  lemma {:induction false} MemberParses(m: Member, after: Text) returns (colon: Text)
    requires Exact(m.value) && NumberEnds(after)
    ensures
      var t := PrintMember(m) + after;
      && SkipSpace(t) == t && t[0] == 34
      && ParseString(t[1..]) == Some((Joined(m.key), [58] + colon))
      && SkipSpace(colon) == colon && ParseValue(colon) == Some((Normal(m.value), after))
    decreases m, 2
  {
    hide ParseString, ParseValue, Print, EscapeAll, Normal, Joined;
    colon := Print(m.value) + after;
    var t := PrintMember(m) + after;
    assert t[1..] == EscapeAll(m.key) + [34] + ([58] + colon);
    StringRoundTrip(m.key, [58] + colon);
    PrintStarts(m.value, after);
    PrintParses(m.value, after);
  }

  lemma MembersLast(t: Text, key: Text, colon: Text, v: Json, rest: Text)
    requires t != [] && t[0] == 34 && ParseString(t[1..]) == Some((key, [58] + colon))
    requires SkipSpace(colon) == colon && ParseValue(colon) == Some((v, [125] + rest))
    ensures ParseMembers(t) == Some(([Member(key, v)], rest))
  {
    assert ([58] + colon)[1..] == colon && ([125] + rest)[1..] == rest;
  }

  lemma MembersStep(t: Text, key: Text, colon: Text, v: Json, tail: Text, ms: seq<Member>, rest: Text)
    requires t != [] && t[0] == 34 && ParseString(t[1..]) == Some((key, [58] + colon))
    requires SkipSpace(colon) == colon && ParseValue(colon) == Some((v, [44] + tail))
    requires SkipSpace(tail) == tail && ParseMembers(tail) == Some((ms, rest))
    ensures ParseMembers(t) == Some(([Member(key, v)] + ms, rest))
  {
    hide ParseString, ParseValue;
    assert ([58] + colon)[1..] == colon && ([44] + tail)[1..] == tail;
  }

  /** Members, the closing brace and what follows, associated to the right. */
  ghost function MembersText(ms: seq<Member>, rest: Text): Text
    requires ms != []
  {
    PrintMember(ms[0]) + if |ms| == 1 then [125] + rest else [44] + MembersText(ms[1..], rest)
  }

  lemma {:induction false} MembersTextIs(ms: seq<Member>, rest: Text)
    requires ms != []
    ensures PrintMembers(ms) + [125] + rest == MembersText(ms, rest)
  {
    if |ms| == 1 {
      assert PrintMember(ms[0]) + [125] + rest == PrintMember(ms[0]) + ([125] + rest);
    } else {
      MembersTextIs(ms[1..], rest);
      SplitFirst(PrintMember(ms[0]), PrintMembers(ms[1..]), 125, rest);
    }
  }

  lemma {:induction false} MembersParse(ms: seq<Member>, rest: Text)
    requires ms != [] && forall m :: m in ms ==> Exact(m.value)
    ensures
      var t := MembersText(ms, rest);
      && SkipSpace(t) == t && t[0] == 34
      && ParseMembers(t) == Some((NormalMembers(ms), rest))
    decreases ms, 0
  {
    var t := MembersText(ms, rest);
    var key, v := Joined(ms[0].key), Normal(ms[0].value);
    if |ms| == 1 {
      var colon := MemberParses(ms[0], [125] + rest);
      MembersLast(t, key, colon, v, rest);
      assert NormalMembers(ms) == [Member(key, v)];
    } else {
      var tail := MembersText(ms[1..], rest);
      var colon := MemberParses(ms[0], [44] + tail);
      MembersParse(ms[1..], rest);
      MembersStep(t, key, colon, v, tail, NormalMembers(ms[1..]), rest);
    }
  }

  lemma DumpsLoads(j: Json)
    requires Exact(j)
    ensures Loads(Print(j)) == Some(Normal(j))
  {
    assert Print(j) + [] == Print(j);
    PrintStarts(j, []);
    PrintParses(j, []);
  }

  /** Nothing but space, tab, line feed and carriage return. */
  ghost predicate AllSpace(t: Text) {
    forall i :: 0 <= i < |t| ==> t[i] in [32, 9, 10, 13]
  }

  lemma {:induction false} SpaceSkipped(space: Text, t: Text)
    requires AllSpace(space)
    ensures SkipSpace(space + t) == SkipSpace(t)
  {
    if space == [] {
      assert space + t == t;
    } else {
      assert (space + t)[1..] == space[1..] + t && (space + t)[0] == space[0];
      SpaceSkipped(space[1..], t);
    }
  }

  lemma {:induction false} SkippedAll(t: Text)
    ensures SkipSpace(t) == [] <==> AllSpace(t)
  {
    if t != [] {
      SkippedAll(t[1..]);
      assert t == [t[0]] + t[1..];
    }
  }

  /** A printed value is read back between white space, and refused exactly when anything else
      comes after it. */
  lemma {:induction false} TrailingRefused(space: Text, j: Json, rest: Text)
    requires Exact(j) && AllSpace(space) && NumberEnds(rest)
    ensures Loads(space + Print(j) + rest) == if AllSpace(rest) then Some(Normal(j)) else None
  {
    assert space + Print(j) + rest == space + (Print(j) + rest);
    SpaceSkipped(space, Print(j) + rest);
    SkippedAll(rest);
    PrintStarts(j, rest);
    PrintParses(j, rest);
  }

  /** Equal texts come from values that are equal after reading back. */
  lemma PrintInjective(j: Json, j': Json)
    requires Exact(j) && Exact(j') && Print(j) == Print(j')
    ensures Normal(j) == Normal(j')
  {
    DumpsLoads(j);
    DumpsLoads(j');
  }
}
