/** Percent coding (parser.c), after section 2.1 of RFC 3986: escaping into a growing buffer, full
    and selective unescaping. A text is the content of a C string, without its terminator. */
module Percent {

  type byte = x: int | 0 <= x < 256
  type Rules = r: seq<byte> | |r| == 257 witness seq(257, _ => 0)

  /** What `sscanf` leaves for an escape whose two characters are not both hexadecimal digits: the
      code reads a sign, skips white space or reads nothing at all, so any value is possible. */
  type Misread = seq<byte> -> byte

  const PERCENT: byte := 0x25

  function HexDigit(n: int): byte
    requires 0 <= n < 16
  {
    if n < 10 then 48 + n else 87 + n
  }

  predicate IsHex(b: byte) { 48 <= b <= 57 || 65 <= b <= 70 || 97 <= b <= 102 }

  function HexValue(b: byte): (n: int)
    requires IsHex(b)
    ensures 0 <= n < 16
  {
    if b <= 57 then b - 48 else if b <= 70 then b - 55 else b - 87
  }

  /** The output of the format "%%%02x". */
  function Hex(c: byte): (r: seq<byte>)
    ensures |r| == 3
  {
    [PERCENT, HexDigit(c / 16), HexDigit(c % 16)]
  }

  /** `is_escaped_char`: the text has no NUL, so two characters follow when its length is three. */
  predicate IsEscaped(a: seq<byte>) { |a| >= 3 && a[0] == PERCENT }

  function EscapeValue(a: seq<byte>, misread: Misread): byte
    requires IsEscaped(a)
  {
    if IsHex(a[1]) && IsHex(a[2]) then 16 * HexValue(a[1]) + HexValue(a[2]) else misread(a[1..])
  }

  /** `bctbx_get_char`: the first character and the number of bytes it takes. */
  function GetChar(a: seq<byte>, misread: Misread): (r: (byte, nat))
    requires a != []
    ensures 1 <= r.1 <= |a|
  {
    if IsEscaped(a) then (EscapeValue(a, misread), 3) else (a[0], 1)
  }

  /** `bctbx_unescaped_string`, as a function. */
  function Unescaped(t: seq<byte>, misread: Misread): (r: seq<byte>)
    decreases |t|
  {
    if t == [] then []
    else
      var (c, n) := GetChar(t, misread);
      [c] + Unescaped(t[n..], misread)
  }

  // ---------------------------------------------------------------- the characters of an escape

  const LOWER: string := "0123456789abcdef"
  const UPPER: string := "0123456789ABCDEF"

  /** What is written for a byte: '%' and two lower-case digits, the high one first. */
  lemma HexAsText(c: byte)
    ensures |LOWER| == 16 && Hex(c) == ['%' as int, LOWER[c / 16] as int, LOWER[c % 16] as int]
  {
    DigitAsText(c / 16);
    DigitAsText(c % 16);
  }

  lemma DigitAsText(n: int)
    requires 0 <= n < 16
    ensures HexDigit(n) == LOWER[n] as int
    ensures IsHex(LOWER[n] as int) && HexValue(LOWER[n] as int) == n
    ensures IsHex(UPPER[n] as int) && HexValue(UPPER[n] as int) == n
  {
  }

  /** A digit of either case with its value. */
  predicate IsDigit(b: byte, n: int) { 0 <= n < 16 && (b == LOWER[n] as int || b == UPPER[n] as int) }

  lemma OnlyTheseAreHex(b: byte)
    ensures IsHex(b) <==> exists n :: IsDigit(b, n)
  {
    if IsHex(b) {
      DigitAsText(HexValue(b));
      assert IsDigit(b, HexValue(b));
    }
    forall n | IsDigit(b, n) ensures IsHex(b) {
      DigitAsText(n);
    }
  }

  /** What is read: '%' and two digits of either case are one byte; other bytes, and a '%' that fewer
      than two bytes follow, stand for themselves. */
  lemma ReadsEscape(x: byte, h: int, y: byte, l: int, t: seq<byte>, misread: Misread)
    requires IsDigit(x, h) && IsDigit(y, l)
    ensures Unescaped(['%' as int, x, y] + t, misread) == [16 * h + l] + Unescaped(t, misread)
  {
    DigitAsText(h);
    DigitAsText(l);
    var a: seq<byte> := ['%' as int, x, y] + t;
    assert a[3..] == t;
  }

  lemma ReadsOther(b: byte, t: seq<byte>, misread: Misread)
    requires b != '%' as int || |t| < 2
    ensures Unescaped([b] + t, misread) == [b] + Unescaped(t, misread)
  {
    assert ([b] + t)[1..] == t;
  }

  // ---------------------------------------------------------------- coded texts

  /** A character together with the form it is written in. */
  datatype Unit = Unit(c: byte, escaped: bool)

  function Written(u: Unit): (r: seq<byte>)
    ensures |r| == if u.escaped then 3 else 1
  {
    if u.escaped then Hex(u.c) else [u.c]
  }

  function Coded(us: seq<Unit>): seq<byte> {
    if us == [] then [] else Written(us[0]) + Coded(us[1..])
  }

  function Chars(us: seq<Unit>): (r: seq<byte>)
    ensures |r| == |us|
  {
    if us == [] then [] else [us[0].c] + Chars(us[1..])
  }

  /** Whatever is misread, unescaping `t` gives `s`. */
  ghost predicate AlwaysReads(t: seq<byte>, s: seq<byte>) {
    forall misread: Misread :: Unescaped(t, misread) == s
  }

  /** A bare '%' that two or more bytes follow: it will be taken for an escape. */
  predicate LivePercent(u: Unit, rest: seq<Unit>) {
    !u.escaped && u.c == PERCENT && |Coded(rest)| >= 2
  }

  predicate NoLivePercent(us: seq<Unit>) {
    us == [] || (!LivePercent(us[0], us[1..]) && NoLivePercent(us[1..]))
  }

  lemma HexReads(c: byte)
    ensures IsHex(Hex(c)[1]) && IsHex(Hex(c)[2])
    ensures 16 * HexValue(Hex(c)[1]) + HexValue(Hex(c)[2]) == c
    ensures Hex(c)[1] != PERCENT && Hex(c)[2] != PERCENT
  {
  }

  /** Reading starts at a unit boundary: a unit that is not a live '%' is read as itself. */
  lemma ReadsUnit(u: Unit, rest: seq<Unit>, misread: Misread)
    requires !LivePercent(u, rest)
    ensures Unescaped(Written(u) + Coded(rest), misread) == [u.c] + Unescaped(Coded(rest), misread)
  {
    var t := Written(u) + Coded(rest);
    if u.escaped {
      HexReads(u.c);
      assert t[0] == PERCENT && t[1] == Hex(u.c)[1] && t[2] == Hex(u.c)[2];
      assert t[3..] == Coded(rest);
    } else {
      assert t[1..] == Coded(rest);
    }
  }

  lemma ReadsPlainByte(b: byte, t: seq<byte>, misread: Misread)
    requires b != PERCENT
    ensures Unescaped([b] + t, misread) == [b] + Unescaped(t, misread)
  {
    assert ([b] + t)[1..] == t;
  }

  /** The text of the units, one or two bytes off the unit boundary. */
  lemma OffBoundary(us: seq<Unit>)
    requires us != []
    ensures
      var e, rest := Coded(us), Coded(us[1..]);
      && |e| >= 1
      && e[1..] == (if us[0].escaped then [Hex(us[0].c)[1], Hex(us[0].c)[2]] + rest else rest)
      && (us[0].escaped ==> e[2..] == [Hex(us[0].c)[2]] + rest)
      && (!us[0].escaped && |rest| >= 1 ==> e[2..] == rest[1..])
  {
    var u, rest := us[0], Coded(us[1..]);
    if u.escaped {
      DropFromThree(PERCENT, Hex(u.c)[1], Hex(u.c)[2], rest);
    } else {
      DropFromOne(u.c, rest);
    }
  }

  lemma DropFromThree(x: byte, y: byte, z: byte, r: seq<byte>)
    ensures ([x, y, z] + r)[1..] == [y, z] + r
    ensures ([x, y, z] + r)[2..] == [z] + r
  {
  }

  lemma DropFromOne(x: byte, r: seq<byte>)
    ensures ([x] + r)[1..] == r
    ensures |r| >= 1 ==> ([x] + r)[2..] == r[1..]
  {
  }

  /** Whatever is misread, reading never yields more characters than there are units, even when it
      starts two bytes late, and at most one more when it starts one byte late. */
  lemma {:induction false} ReadsAtMost(us: seq<Unit>, misread: Misread)
    ensures |Unescaped(Coded(us), misread)| <= |us|
    ensures |Coded(us)| >= 1 ==> |Unescaped(Coded(us)[1..], misread)| <= |us| + 1
    ensures |Coded(us)| >= 2 ==> |Unescaped(Coded(us)[2..], misread)| <= |us|
  {
    if us != [] {
      var u, rest := us[0], Coded(us[1..]);
      ReadsAtMost(us[1..], misread);
      OffBoundary(us);
      if u.escaped {
        var h, l := Hex(u.c)[1], Hex(u.c)[2];
        HexReads(u.c);
        ReadsUnit(u, us[1..], misread);
        ReadsPlainByte(l, rest, misread);
        ReadsPlainByte(h, [l] + rest, misread);
        assert [h, l] + rest == [h] + ([l] + rest);
      } else if LivePercent(u, us[1..]) {
        LivePercentReads(us, misread);
      } else {
        ReadsUnit(u, us[1..], misread);
      }
    }
  }

  lemma LivePercentReads(us: seq<Unit>, misread: Misread)
    requires us != [] && LivePercent(us[0], us[1..])
    ensures
      var e := Coded(us);
      IsEscaped(e) && Unescaped(e, misread) == [EscapeValue(e, misread)] + Unescaped(Coded(us[1..])[2..], misread)
  {
    var e, rest := Coded(us), Coded(us[1..]);
    assert e == [PERCENT] + rest;
    assert e[3..] == rest[2..];
  }

  /** A live '%' spoils the text, whatever else is in it: for the misreading that yields 0, either
      another character is read there or characters are lost. */
  lemma LivePercentSpoils(us: seq<Unit>)
    requires us != [] && LivePercent(us[0], us[1..])
    ensures Unescaped(Coded(us), _ => 0) != Chars(us)
  {
    var misread: Misread := _ => 0;
    var e, rest := Coded(us), Coded(us[1..]);
    LivePercentReads(us, misread);
    assert e == [PERCENT] + rest;
    if EscapeValue(e, misread) == PERCENT {
      assert IsHex(rest[0]) && IsHex(rest[1]);
      var a, b := us[1], us[2..];
      assert us[1..][1..] == b;
      assert rest == Written(a) + Coded(b);
      assert !a.escaped && |Coded(b)| >= 1 && rest[1] == Coded(b)[0];
      assert b != [] && !b[0].escaped;
      assert rest[2..] == Coded(b)[1..] == Coded(b[1..]) by {
        OffBoundary(b);
        OffBoundary(us[1..]);
      }
      ReadsAtMost(b[1..], misread);
    }
  }

  /** Main result: the units are read back under every misreading exactly when no '%' is live. */
  lemma {:induction false} CodedIsReadBack(us: seq<Unit>)
    ensures AlwaysReads(Coded(us), Chars(us)) <==> NoLivePercent(us)
  {
    if us != [] {
      CodedIsReadBack(us[1..]);
      if LivePercent(us[0], us[1..]) {
        LivePercentSpoils(us);
      } else {
        ReadBackCons(us);
      }
    }
  }

  lemma ReadBackCons(us: seq<Unit>)
    requires us != [] && !LivePercent(us[0], us[1..])
    ensures AlwaysReads(Coded(us), Chars(us)) <==> AlwaysReads(Coded(us[1..]), Chars(us[1..]))
  {
    var rest := us[1..];
    forall misread: Misread
      ensures Unescaped(Coded(us), misread) == Chars(us) <==> Unescaped(Coded(rest), misread) == Chars(rest)
    {
      ReadsUnit(us[0], rest, misread);
      SameTail(us[0].c, Unescaped(Coded(rest), misread), Chars(rest));
    }
    if AlwaysReads(Coded(us), Chars(us)) {
      forall misread: Misread ensures Unescaped(Coded(rest), misread) == Chars(rest) {
        assert Unescaped(Coded(us), misread) == Chars(us);
      }
    }
    if AlwaysReads(Coded(rest), Chars(rest)) {
      forall misread: Misread ensures Unescaped(Coded(us), misread) == Chars(us) {
        assert Unescaped(Coded(rest), misread) == Chars(rest);
      }
    }
  }

  lemma SameTail(c: byte, a: seq<byte>, b: seq<byte>)
    ensures [c] + a == [c] + b <==> a == b
  {
    assert ([c] + a)[1..] == a && ([c] + b)[1..] == b;
  }

  // ---------------------------------------------------------------- escaping

  function EscapeUnits(s: seq<byte>, rules: Rules): (us: seq<Unit>)
    ensures |us| == |s|
  {
    if s == [] then [] else [Unit(s[0], rules[s[0]] != 1)] + EscapeUnits(s[1..], rules)
  }

  /** The specification of `bctbx_escape`. */
  function Escaped(s: seq<byte>, rules: Rules): seq<byte> { Coded(EscapeUnits(s, rules)) }

  /** Escaping goes byte by byte: an exempt byte as it is, any other as an escape. */
  lemma EscapedByByte(c: byte, t: seq<byte>, rules: Rules)
    ensures Escaped([], rules) == []
    ensures Escaped([c] + t, rules) ==
      (if rules[c] == 1 then [c] else ['%' as int, LOWER[c / 16] as int, LOWER[c % 16] as int]) + Escaped(t, rules)
  {
    HexAsText(c);
    EscapedFirst([c] + t, rules);
    assert ([c] + t)[1..] == t;
  }

  lemma EscapedFirst(s: seq<byte>, rules: Rules)
    requires s != []
    ensures Escaped(s, rules) == Written(Unit(s[0], rules[s[0]] != 1)) + Escaped(s[1..], rules)
  {
    assert EscapeUnits(s, rules)[1..] == EscapeUnits(s[1..], rules);
  }

  /** '%' is exempt from escaping and stands where two or more output bytes follow it. */
  predicate ExemptPercentInside(s: seq<byte>, rules: Rules) {
    rules[PERCENT] == 1 &&
    exists i | 0 <= i < |s| - 1 :: s[i] == PERCENT && (i < |s| - 2 || rules[s[i + 1]] != 1)
  }

  lemma {:induction false} EscapeUnitsChars(s: seq<byte>, rules: Rules)
    ensures Chars(EscapeUnits(s, rules)) == s
    ensures |Coded(EscapeUnits(s, rules))| >= |s|
    ensures |Coded(EscapeUnits(s, rules))| >= 2 <==> |s| >= 2 || (|s| == 1 && rules[s[0]] != 1)
  {
    if s != [] {
      EscapeUnitsChars(s[1..], rules);
      assert EscapeUnits(s, rules)[1..] == EscapeUnits(s[1..], rules);
    }
  }

  lemma {:induction false} EscapeUnitsLive(s: seq<byte>, rules: Rules)
    ensures NoLivePercent(EscapeUnits(s, rules)) <==> !ExemptPercentInside(s, rules)
  {
    if s != [] {
      var rest := s[1..];
      EscapeUnitsLive(rest, rules);
      EscapeUnitsChars(rest, rules);
      assert EscapeUnits(s, rules)[1..] == EscapeUnits(rest, rules);
      ExemptPercentCons(s, rules);
    }
  }

  lemma ExemptPercentCons(s: seq<byte>, rules: Rules)
    requires s != []
    ensures ExemptPercentInside(s, rules) <==>
      ExemptPercentInside(s[1..], rules) ||
      (rules[PERCENT] == 1 && s[0] == PERCENT && (|s| > 2 || (|s| == 2 && rules[s[1]] != 1)))
  {
    var t := s[1..];
    if ExemptPercentInside(s, rules) {
      var i :| 0 <= i < |s| - 1 && s[i] == PERCENT && (i < |s| - 2 || rules[s[i + 1]] != 1);
      if i > 0 {
        assert t[i - 1] == PERCENT && (i - 1 < |t| - 2 || rules[t[(i - 1) + 1]] != 1);
      }
    }
    if ExemptPercentInside(t, rules) {
      var i :| 0 <= i < |t| - 1 && t[i] == PERCENT && (i < |t| - 2 || rules[t[i + 1]] != 1);
      assert s[i + 1] == PERCENT && (i + 1 < |s| - 2 || rules[s[(i + 1) + 1]] != 1);
    }
  }

  /** Main result: unescaping undoes escaping for every text, under every rule table and every
      misreading, except when the table exempts '%' and one stands inside the text. */
  lemma EscapeRoundTrip(s: seq<byte>, rules: Rules)
    ensures AlwaysReads(Escaped(s, rules), s) <==> !ExemptPercentInside(s, rules)
  {
    EscapeUnitsChars(s, rules);
    EscapeUnitsLive(s, rules);
    CodedIsReadBack(EscapeUnits(s, rules));
  }

  // ---------------------------------------------------------------- selective unescaping

  /** Every '%' starts a valid escape. */
  predicate WellFormed(t: seq<byte>)
    decreases |t|
  {
    t == [] ||
    (if t[0] == PERCENT then |t| >= 3 && IsHex(t[1]) && IsHex(t[2]) && WellFormed(t[3..])
     else WellFormed(t[1..]))
  }

  /** The units the code writes: a character outside the rules is escaped again exactly when the
      NEXT character of the input is an escape. */
  function SelectUnits(t: seq<byte>, rules: Rules, misread: Misread): (us: seq<Unit>)
    decreases |t|
  {
    if t == [] then []
    else
      var (c, n) := GetChar(t, misread);
      [Unit(c, rules[c] == 0 && IsEscaped(t[n..]))] + SelectUnits(t[n..], rules, misread)
  }

  /** The units the documentation promises: a character outside the rules stays escaped if it was. */
  function PromisedUnits(t: seq<byte>, rules: Rules, misread: Misread): (us: seq<Unit>)
    decreases |t|
  {
    if t == [] then []
    else
      var (c, n) := GetChar(t, misread);
      [Unit(c, rules[c] == 0 && IsEscaped(t))] + PromisedUnits(t[n..], rules, misread)
  }

  /** The specification of `bctbx_unescaped_string_only_chars_in_rules`. */
  function Selected(t: seq<byte>, rules: Rules, misread: Misread): seq<byte> {
    Coded(SelectUnits(t, rules, misread))
  }

  lemma {:induction false} SelectChars(t: seq<byte>, rules: Rules, misread: Misread)
    ensures Chars(SelectUnits(t, rules, misread)) == Unescaped(t, misread)
    ensures Chars(PromisedUnits(t, rules, misread)) == Unescaped(t, misread)
    decreases |t|
  {
    if t != [] {
      var (c, n) := GetChar(t, misread);
      SelectChars(t[n..], rules, misread);
      var us, ps := SelectUnits(t, rules, misread), PromisedUnits(t, rules, misread);
      assert us[1..] == SelectUnits(t[n..], rules, misread);
      assert ps[1..] == PromisedUnits(t[n..], rules, misread);
    }
  }

  lemma {:induction false} PlainCharsAreNotLive(us: seq<Unit>)
    requires PERCENT !in Chars(us)
    ensures NoLivePercent(us)
  {
    if us != [] {
      PlainCharsAreNotLive(us[1..]);
      assert Chars(us)[0] == us[0].c;
    }
  }

  /** At least two characters stand in the text, plain or escaped. */
  predicate TwoChars(t: seq<byte>, misread: Misread) {
    t != [] && GetChar(t, misread).1 < |t|
  }

  /** The condition on the input: a character that reads as '%', with two or more characters behind
      it, is outside the rules and followed by an escape. */
  predicate KeepsPercents(t: seq<byte>, rules: Rules, misread: Misread)
    decreases |t|
  {
    t == [] ||
    var (c, n) := GetChar(t, misread);
    && (c == PERCENT && TwoChars(t[n..], misread) ==> rules[PERCENT] == 0 && IsEscaped(t[n..]))
    && KeepsPercents(t[n..], rules, misread)
  }

  /** The first unit written, by the code and by its promise, and the text behind it. */
  lemma FirstUnit(t: seq<byte>, rules: Rules, misread: Misread)
    requires t != []
    ensures
      var (c, n) := GetChar(t, misread);
      && Selected(t, rules, misread) ==
         Written(Unit(c, rules[c] == 0 && IsEscaped(t[n..]))) + Selected(t[n..], rules, misread)
      && Coded(PromisedUnits(t, rules, misread)) ==
         Written(Unit(c, rules[c] == 0 && IsEscaped(t))) + Coded(PromisedUnits(t[n..], rules, misread))
  {
    var (c, n) := GetChar(t, misread);
    assert SelectUnits(t, rules, misread)[1..] == SelectUnits(t[n..], rules, misread);
    assert PromisedUnits(t, rules, misread)[1..] == PromisedUnits(t[n..], rules, misread);
  }

  lemma SelectedLength(t: seq<byte>, rules: Rules, misread: Misread)
    ensures |Selected(t, rules, misread)| >= 2 <==> TwoChars(t, misread)
  {
    if t != [] {
      var (_, n) := GetChar(t, misread);
      FirstUnit(t, rules, misread);
      if n < |t| { FirstUnit(t[n..], rules, misread); }
    }
  }

  lemma {:induction false} LivePercentsInInput(t: seq<byte>, rules: Rules, misread: Misread)
    ensures NoLivePercent(SelectUnits(t, rules, misread)) <==> KeepsPercents(t, rules, misread)
    decreases |t|
  {
    if t != [] {
      var (c, n) := GetChar(t, misread);
      LivePercentsInInput(t[n..], rules, misread);
      SelectedLength(t[n..], rules, misread);
      assert SelectUnits(t, rules, misread)[1..] == SelectUnits(t[n..], rules, misread);
    }
  }

  /** Main result: selective unescaping preserves the meaning of the text exactly when each '%' in it,
      if two or more characters follow, is outside the rules and followed by an escape. */
  lemma SelectedKeepsMeaning(t: seq<byte>, rules: Rules, misread: Misread)
    ensures AlwaysReads(Selected(t, rules, misread), Unescaped(t, misread)) <==> KeepsPercents(t, rules, misread)
  {
    SelectChars(t, rules, misread);
    CodedIsReadBack(SelectUnits(t, rules, misread));
    LivePercentsInInput(t, rules, misread);
  }

  /** A well-formed text reads the same whatever `sscanf` does with malformed escapes. */
  lemma {:induction false} WellFormedReading(t: seq<byte>, a: Misread, b: Misread)
    requires WellFormed(t)
    ensures Unescaped(t, a) == Unescaped(t, b)
    decreases |t|
  {
    if t != [] {
      WellFormedReading(if t[0] == PERCENT then t[3..] else t[1..], a, b);
    }
  }

  /** In particular, a well-formed text without an encoded '%' keeps its meaning. */
  lemma SelectedKeepsPlainMeaning(t: seq<byte>, rules: Rules, misread: Misread, later: Misread)
    requires WellFormed(t) && PERCENT !in Unescaped(t, misread)
    ensures Unescaped(Selected(t, rules, misread), later) == Unescaped(t, later)
  {
    SelectChars(t, rules, misread);
    PlainCharsAreNotLive(SelectUnits(t, rules, misread));
    LivePercentsInInput(t, rules, misread);
    SelectedKeepsMeaning(t, rules, misread);
    WellFormedReading(t, misread, later);
  }

  /** An encoded '%' can be lost: "%2541" becomes "%41", which reads as "A". */
  lemma EncodedPercentIsLost(rules: Rules, misread: Misread)
    requires rules[PERCENT] == 1
    ensures
      var t := [PERCENT, 50, 53, 52, 49];
      Unescaped(t, misread) == [PERCENT, 52, 49] && Unescaped(Selected(t, rules, misread), misread) == [65]
  {
    var t := [PERCENT, 50, 53, 52, 49];
    assert t[3..] == [52, 49] && [52, 49][1..] == [49];
    assert Unescaped([52, 49], misread) == [52, 49];
    var us := SelectUnits(t, rules, misread);
    assert SelectUnits([49], rules, misread) == [Unit(49, false)];
    assert SelectUnits([52, 49], rules, misread) == [Unit(52, false), Unit(49, false)];
    assert us == [Unit(PERCENT, false), Unit(52, false), Unit(49, false)];
    assert us[1..] == [Unit(52, false), Unit(49, false)] && us[1..][1..] == [Unit(49, false)];
    assert Coded([Unit(49, false)]) == [49];
    assert Coded(us[1..]) == [52, 49];
    assert Coded(us) == [PERCENT, 52, 49];
  }

  /** Each character outside the rules is written as an escape in the input exactly when its
      successor is. */
  predicate FormsRunTogether(t: seq<byte>, rules: Rules, misread: Misread)
    decreases |t|
  {
    t == [] ||
    var (c, n) := GetChar(t, misread);
    && (rules[c] == 0 ==> (IsEscaped(t) <==> IsEscaped(t[n..])))
    && FormsRunTogether(t[n..], rules, misread)
  }

  // Once the promise is two bytes ahead of the code, the code never catches up: it would have to write
  // an escape where the promise's last bytes are a '%' and one more, and no escape ends there.

  lemma Shift(p: seq<byte>, q: seq<byte>, behind: seq<byte>, w: seq<byte>, rest: seq<byte>)
    requires p + (q + behind) == w + rest && |w| <= |p| + |q|
    ensures (p + q)[|w|..] + behind == rest
    ensures forall i | 0 <= i < |w| :: (p + q)[i] == w[i]
  {
    var whole := w + rest;
    assert whole == (p + q) + behind;
    assert whole[|w|..] == rest;
    assert forall i | 0 <= i < |w| :: (p + q)[i] == whole[i];
  }

  lemma ShortText(t: seq<byte>, rules: Rules, misread: Misread)
    requires |t| < 3
    ensures |Selected(t, rules, misread)| == |Coded(PromisedUnits(t, rules, misread))|
  {
    if t != [] {
      FirstUnit(t, rules, misread);
      ShortText(t[1..], rules, misread);
    }
  }

  predicate Ahead(p: seq<byte>) {
    |p| >= 2 && |p| % 2 == 0 && p[|p| - 1] != PERCENT && p[|p| - 2] != PERCENT
  }

  lemma StaysAhead(p: seq<byte>, q: Unit, w: Unit)
    requires Ahead(p) && (q.escaped || q.c != PERCENT)
    requires forall i | 0 <= i < |Written(w)| && i < |p| :: p[i] == Written(w)[i]
    ensures Ahead((p + Written(q))[|Written(w)|..])
  {
    HexReads(q.c);
    assert w.escaped ==> Written(w)[0] == PERCENT;
  }

  lemma {:induction false} NeverCatchesUp(p: seq<byte>, t: seq<byte>, rules: Rules, misread: Misread)
    requires Ahead(p) && rules[PERCENT] == 0
    ensures p + Coded(PromisedUnits(t, rules, misread)) != Selected(t, rules, misread)
    decreases |t|
  {
    var promised := Coded(PromisedUnits(t, rules, misread));
    if |t| < 3 {
      ShortText(t, rules, misread);
    } else if p + promised == Selected(t, rules, misread) {
      var (c, n) := GetChar(t, misread);
      FirstUnit(t, rules, misread);
      var q, w := Unit(c, rules[c] == 0 && IsEscaped(t)), Unit(c, rules[c] == 0 && IsEscaped(t[n..]));
      var behind, rest := Coded(PromisedUnits(t[n..], rules, misread)), Selected(t[n..], rules, misread);
      Shift(p, Written(q), behind, Written(w), rest);
      assert forall i | 0 <= i < |Written(w)| && i < |p| :: p[i] == (p + Written(q))[i];
      StaysAhead(p, q, w);
      NeverCatchesUp((p + Written(q))[|Written(w)|..], t[n..], rules, misread);
      assert false;
    }
  }

  lemma SameWritten(u: Unit, a: seq<byte>, b: seq<byte>)
    ensures Written(u) + a == Written(u) + b <==> a == b
  {
    assert (Written(u) + a)[|Written(u)|..] == a && (Written(u) + b)[|Written(u)|..] == b;
  }

  /** The two forms of one character cannot begin the same text. */
  lemma FormsDiffer(t: seq<byte>, rules: Rules, misread: Misread)
    requires t != []
    requires
      var (c, n) := GetChar(t, misread);
      rules[c] == 0 && IsEscaped(t) != IsEscaped(t[n..])
    ensures Selected(t, rules, misread) != Coded(PromisedUnits(t, rules, misread))
  {
    var (c, n) := GetChar(t, misread);
    FirstUnit(t, rules, misread);
    var behind, rest := Coded(PromisedUnits(t[n..], rules, misread)), Selected(t[n..], rules, misread);
    if c != PERCENT {
      assert Selected(t, rules, misread)[0] != Coded(PromisedUnits(t, rules, misread))[0];
    } else {
      NeverCatchesUp([50, 53], t[n..], rules, misread);
      PercentForms(behind, rest);
    }
  }

  lemma PercentForms(behind: seq<byte>, rest: seq<byte>)
    requires [50, 53] + behind != rest
    ensures Hex(PERCENT) + behind != [PERCENT] + rest
  {
    assert Hex(PERCENT) + behind == [PERCENT] + ([50, 53] + behind);
    SameTail(PERCENT, [50, 53] + behind, rest);
  }

  /** Main result: the code writes what the documentation promises exactly when escaped and plain forms
      run together outside the rules. */
  lemma {:induction false} SelectedAgainstPromise(t: seq<byte>, rules: Rules, misread: Misread)
    ensures Selected(t, rules, misread) == Coded(PromisedUnits(t, rules, misread)) <==> FormsRunTogether(t, rules, misread)
    decreases |t|
  {
    if t != [] {
      var (c, n) := GetChar(t, misread);
      FirstUnit(t, rules, misread);
      SelectedAgainstPromise(t[n..], rules, misread);
      if rules[c] == 0 && IsEscaped(t) != IsEscaped(t[n..]) {
        FormsDiffer(t, rules, misread);
      } else {
        SameWritten(Unit(c, rules[c] == 0 && IsEscaped(t)),
                    Selected(t[n..], rules, misread), Coded(PromisedUnits(t[n..], rules, misread)));
      }
    }
  }
}
