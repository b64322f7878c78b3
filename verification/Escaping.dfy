/** vCard value escaping (belcard_utils.cpp): replacement passes over one buffer, the escape and
    unescape chains built from them, and the trimming reader of a property value. */
module Escaping {
  import opened Options
  import opened Strings

  // ---------------------------------------------------------------- replacement passes

  /** Leftmost, non-overlapping replacement: the meaning of one pass. */
  function Replaced(s: string, what: string, replacement: string): (r: string)
    requires what != ""
    decreases |s|
  {
    if |s| < |what| then s
    else if s[..|what|] == what then replacement + Replaced(s[|what|..], what, replacement)
    else s[..1] + Replaced(s[1..], what, replacement)
  }

  /** A pass that has reached `pos`: finished text on the left, text still to be rewritten on the right. */
  function HalfDone(s: string, pos: nat, what: string, replacement: string): string
    requires pos <= |s| && what != ""
  {
    s[..pos] + Replaced(s[pos..], what, replacement)
  }

  lemma StepOver(s: string, pos: nat, what: string, replacement: string)
    requires what != "" && pos + |what| <= |s| && !OccursAt(s, what, pos)
    ensures HalfDone(s, pos, what, replacement) == HalfDone(s, pos + 1, what, replacement)
  {
    OccursAsSlice(s, what, pos);
    SkippedHead(s[pos..], what, replacement);
    MoveHead(s, pos, Replaced(s[pos + 1..], what, replacement));
  }

  lemma SkippedHead(t: string, what: string, replacement: string)
    requires what != "" && |what| <= |t| && !(what <= t)
    ensures Replaced(t, what, replacement) == t[..1] + Replaced(t[1..], what, replacement)
  {
  }

  lemma MoveHead(s: string, pos: nat, tail: string)
    requires pos < |s|
    ensures s[pos..][1..] == s[pos + 1..]
    ensures s[..pos] + (s[pos..][..1] + tail) == s[..pos + 1] + tail
  {
    assert s[..pos] + s[pos..][..1] == s[..pos + 1];
  }

  /** Moving to the next occurrence, or to the end when there is none, changes nothing. */
  lemma {:induction false} MoveToHit(s: string, pos: nat, what: string, replacement: string)
    requires what != "" && pos <= |s|
    ensures
      match FirstFrom(s, what, pos)
      case Some(hit) => HalfDone(s, pos, what, replacement) == HalfDone(s, hit, what, replacement)
      case None => HalfDone(s, pos, what, replacement) == s
    decreases |s| - pos
  {
    if pos + |what| <= |s| && !OccursAt(s, what, pos) {
      StepOver(s, pos, what, replacement);
      MoveToHit(s, pos + 1, what, replacement);
    }
  }

  /** One edit: the text still to be rewritten shrinks, the outcome stays. */
  lemma EditAtHit(s: string, hit: nat, what: string, replacement: string)
    requires what != "" && OccursAt(s, what, hit)
    ensures
      var edited := s[..hit] + replacement + s[hit + |what|..];
      HalfDone(edited, hit + |replacement|, what, replacement) == HalfDone(s, hit, what, replacement)
  {
    OccursAsSlice(s, what, hit);
    var t, edited := s[hit..], s[..hit] + replacement + s[hit + |what|..];
    assert t[|what|..] == s[hit + |what|..] == edited[hit + |replacement|..];
    assert edited[..hit + |replacement|] == s[..hit] + replacement;
  }

  lemma {:induction false} HitOccurs(s: string, what: string, pos: nat)
    ensures FirstFrom(s, what, pos).Some? ==> OccursAt(s, what, FirstFrom(s, what, pos).value)
  {
    FirstFromIsFirst(s, what, pos);
  }

  /** `std::string::replace` on the occurrence found: the pass moves on to `hit + |replacement|`. */
  method ReplaceAt(s: string, pos: nat, hit: nat, what: string, replacement: string) returns (edited: string)
    requires what != "" && pos <= |s| && FirstFrom(s, what, pos) == Some(hit)
    ensures edited == s[..hit] + replacement + s[hit + |what|..]
    ensures HalfDone(edited, hit + |replacement|, what, replacement) == HalfDone(s, pos, what, replacement)
    ensures |edited| - (hit + |replacement|) < |s| - pos
  {
    MoveToHit(s, pos, what, replacement);
    HitOccurs(s, what, pos);
    EditAtHit(s, hit, what, replacement);
    edited := s[..hit] + replacement + s[hit + |what|..];
  }

  /** `replace_all`: edits the buffer in place from a moving position. Each edit may lengthen the
      buffer, even with text that contains `what`; the part right of the position only shrinks. */
  method ReplaceAll(text: string, what: string, replacement: string) returns (inout: string)
    requires what != ""
    ensures inout == Replaced(text, what, replacement)
  {
    inout := text;
    var pos: nat := 0;
    var hit := Find(inout, what, pos);
    assert HalfDone(inout, pos, what, replacement) == Replaced(text, what, replacement) by {
      assert text[0..] == text;
    }
    while hit.Some?
      invariant pos <= |inout|
      invariant HalfDone(inout, pos, what, replacement) == Replaced(text, what, replacement)
      invariant hit == FirstFrom(inout, what, pos)
      decreases |inout| - pos
    {
      inout := ReplaceAt(inout, pos, hit.value, what, replacement);
      pos := hit.value + |replacement|;
      hit := Find(inout, what, pos);
    }
    MoveToHit(inout, pos, what, replacement);
  }

  // ---------------------------------------------------------------- escaping

  const BACKSLASH: char := '\\'

  predicate Separator(c: char) { c == ',' || c == ';' }

  /** The last "data:" of the text is at its start. */
  predicate IsDataUri(s: string) {
    OccursAt(s, "data:", 0) && forall j: nat | 0 < j <= |s| :: !OccursAt(s, "data:", j)
  }

  /** One character under section 3.4 of RFC 6350. */
  function EscapedChar(c: char): string {
    if c == BACKSLASH || Separator(c) then [BACKSLASH, c] else [c]
  }

  /** The single-scanner meaning of escaping. */
  function EscapedText(s: string): (r: string) {
    if s == "" then "" else EscapedChar(s[0]) + EscapedText(s[1..])
  }

  function Escaped(s: string): string {
    if IsDataUri(s) then s else EscapedText(s)
  }

  /** Escaping goes character by character: a backslash, a comma and a semicolon get a backslash in
      front, everything else stays as it is. */
  lemma EscapedCharacters(c: char)
    ensures EscapedText("\\") == "\\\\" && EscapedText(",") == "\\," && EscapedText(";") == "\\;"
    ensures c !in "\\,;" ==> EscapedText([c]) == [c]
  {
    assert "\\"[1..] == "" && ","[1..] == "" && ";"[1..] == "" && [c][1..] == "";
  }

  lemma {:induction false} EscapedConcat(a: string, b: string)
    ensures EscapedText(a + b) == EscapedText(a) + EscapedText(b)
  {
    if a == "" {
      assert a + b == b;
    } else {
      EscapedConcat(a[1..], b);
      EscapedHead(a + b, a[1..] + b);
      Regroup(EscapedChar(a[0]), EscapedText(a[1..]), EscapedText(b));
    }
  }

  lemma EscapedHead(s: string, tail: string)
    requires Behind(s, 1, tail)
    ensures EscapedText(s) == EscapedChar(s[0]) + EscapedText(tail)
  {
    assert s[1..] == tail;
  }

  lemma Regroup(a: string, b: string, c: string)
    ensures a + (b + c) == (a + b) + c
  {
  }

  /** Only a text that starts with "data:", and has no other "data:", is written as it stands. */
  lemma DataUriByPrefix(s: string)
    ensures IsDataUri(s) <==> "data:" <= s && forall j | 0 < j <= |s| :: !("data:" <= s[j..])
  {
    OccursAsSlice(s, "data:", 0);
    assert s[0..] == s;
    forall j: nat | 0 < j <= |s| ensures OccursAt(s, "data:", j) <==> "data:" <= s[j..] {
      OccursAsSlice(s, "data:", j);
    }
  }

  /** The text with only the characters of `cs` prefixed by a backslash. */
  function Prefixed(s: string, cs: set<char>): (r: string) {
    if s == "" then ""
    else PrefixedChar(s[0], cs) + Prefixed(s[1..], cs)
  }

  function PrefixedChar(x: char, cs: set<char>): string {
    if x in cs then [BACKSLASH, x] else [x]
  }

  /** One pass over a one-character pattern, unfolded at the head. */
  lemma CharPassHead(x: char, t: string, c: char, replacement: string)
    ensures Replaced([x] + t, [c], replacement) ==
            (if x == c then replacement else [x]) + Replaced(t, [c], replacement)
  {
    var s := [x] + t;
    assert s[..1] == [x] && s[1..] == t;
  }

  lemma PrefixedCharPass(x: char, t: string, cs: set<char>, c: char)
    requires c !in cs && c != BACKSLASH
    ensures Replaced(PrefixedChar(x, cs) + t, [c], [BACKSLASH, c]) ==
            PrefixedChar(x, cs + {c}) + Replaced(t, [c], [BACKSLASH, c])
  {
    CharPassHead(x, t, c, [BACKSLASH, c]);
    if x in cs {
      CharPassHead(BACKSLASH, [x] + t, c, [BACKSLASH, c]);
      assert [BACKSLASH, x] + t == [BACKSLASH] + ([x] + t);
    }
  }

  /** A single-character pass prefixes that character on top of the characters already prefixed. */
  lemma {:induction false} PrefixPass(s: string, cs: set<char>, c: char)
    requires c !in cs && c != BACKSLASH
    ensures Replaced(Prefixed(s, cs), [c], [BACKSLASH, c]) == Prefixed(s, cs + {c})
  {
    if s != "" {
      PrefixPass(s[1..], cs, c);
      PrefixedCharPass(s[0], Prefixed(s[1..], cs), cs, c);
    }
  }

  lemma {:induction false} BackslashPass(s: string)
    ensures Replaced(s, "\\", "\\\\") == Prefixed(s, {BACKSLASH})
  {
    if s != "" {
      BackslashPass(s[1..]);
    }
  }

  lemma {:induction false} PrefixedAll(s: string)
    ensures Prefixed(s, {BACKSLASH} + {','} + {';'}) == EscapedText(s)
  {
    if s != "" {
      PrefixedAll(s[1..]);
    }
  }

  /** `belcard_escape_string`: three passes amount to one scanner, unless the text is a data URI. */
  method EscapeString(toEscape: string) returns (result: string)
    ensures result == Escaped(toEscape)
  {
    result := toEscape;
    var last := FindLast(result, "data:");
    if last == Some(0) {
      return;
    }
    assert !IsDataUri(toEscape) by {
      if last.Some? {
        assert OccursAt(toEscape, "data:", last.value) && 0 < last.value <= |toEscape|;
      }
    }
    BackslashPass(toEscape);
    PrefixPass(toEscape, {BACKSLASH}, ',');
    PrefixPass(toEscape, {BACKSLASH} + {','}, ';');
    PrefixedAll(toEscape);
    result := ReplaceAll(result, "\\", "\\\\");
    result := ReplaceAll(result, ",", "\\,");
    result := ReplaceAll(result, ";", "\\;");
  }

  // ---------------------------------------------------------------- unescaping

  function BackslashesMerged(s: string): string { Replaced(s, "\\\\", "\\") }
  function CommasFreed(s: string): string { Replaced(s, "\\,", ",") }
  function SemicolonsFreed(s: string): string { Replaced(s, "\\;", ";") }

  /** Three successive passes, in the order of the code. */
  function Unescaped(s: string): string {
    SemicolonsFreed(CommasFreed(BackslashesMerged(s)))
  }

  /** `belcard_unescape_string`. */
  method UnescapeString(toUnescape: string) returns (result: string)
    ensures result == Unescaped(toUnescape)
  {
    result := toUnescape;
    result := ReplaceAll(result, "\\\\", "\\");
    result := ReplaceAll(result, "\\,", ",");
    result := ReplaceAll(result, "\\;", ";");
  }

  predicate StartsWithSeparator(s: string) { s != "" && Separator(s[0]) }

  /** What the three passes amount to in one left-to-right scan: a backslash (or a merged pair) is
      swallowed exactly when a separator follows it. */
  function Fused(s: string): (r: string)
    decreases |s|
  {
    if s == "" then ""
    else if s[0] != BACKSLASH then [s[0]] + Fused(s[1..])
    else
      var rest := if |s| > 1 && s[1] == BACKSLASH then s[2..] else s[1..];
      if StartsWithSeparator(rest) then Fused(rest) else [BACKSLASH] + Fused(rest)
  }

  /** One pass over a two-character pattern, unfolded at the head. */
  lemma PairPassHead(c: char, t: string, d: char, replacement: string)
    ensures c != BACKSLASH || t == "" || t[0] != d ==>
      Replaced([c] + t, [BACKSLASH, d], replacement) == [c] + Replaced(t, [BACKSLASH, d], replacement)
    ensures c == BACKSLASH && t != "" && t[0] == d ==>
      Replaced([c] + t, [BACKSLASH, d], replacement) == replacement + Replaced(t[1..], [BACKSLASH, d], replacement)
  {
    var s := [c] + t;
    assert s[1..] == t;
    if t != "" {
      assert s[..2] == [c, t[0]];
      assert s[2..] == t[1..];
    }
  }

  /** The later two passes, unfolded at the head. */
  lemma LaterPassesHead(c: char, t: string)
    ensures c != BACKSLASH || !StartsWithSeparator(t) ==>
      SemicolonsFreed(CommasFreed([c] + t)) == [c] + SemicolonsFreed(CommasFreed(t))
    ensures c == BACKSLASH && StartsWithSeparator(t) ==>
      SemicolonsFreed(CommasFreed([c] + t)) == SemicolonsFreed(CommasFreed(t))
  {
    var u := CommasFreed(t);
    PairPassHead(c, t, ',', ",");
    PairPassHead(c, u, ';', ";");
    if t != "" {
      assert t == [t[0]] + t[1..];
      PairPassHead(t[0], t[1..], ',', ",");
      if t[0] == ';' {
        var v := CommasFreed(t[1..]);
        PairPassHead(';', v, ';', ";");
        assert u == [';'] + v && u[1..] == v;
      }
    }
  }

  lemma {:induction false} UnescapedIsFused(s: string)
    ensures Unescaped(s) == Fused(s)
    decreases |s|
  {
    if s != "" {
      assert s == [s[0]] + s[1..];
      PairPassHead(s[0], s[1..], BACKSLASH, "\\");
      var rest := if |s| > 1 && s[0] == BACKSLASH && s[1] == BACKSLASH then s[2..] else s[1..];
      UnescapedIsFused(rest);
      LaterPassesHead(s[0], BackslashesMerged(rest));
      if rest != "" {
        assert rest == [rest[0]] + rest[1..];
        PairPassHead(rest[0], rest[1..], BACKSLASH, "\\");
      }
    }
  }

  // ---------------------------------------------------------------- round trip

  lemma {:induction false} FusedUndoesEscapedText(s: string)
    ensures Fused(EscapedText(s)) == s
  {
    if s != "" {
      FusedUndoesEscapedText(s[1..]);
      var t := EscapedText(s[1..]);
      var e := EscapedText(s);
      assert !StartsWithSeparator(t);
      if s[0] == BACKSLASH {
        assert e[2..] == t;
      } else if Separator(s[0]) {
        assert e[1..] == [s[0]] + t;
        assert e[1..][1..] == t;
      } else {
        assert e[1..] == t;
      }
    }
  }

  /** A two-character sequence that some unescape pass rewrites. */
  predicate HasEscapePair(s: string) {
    exists i | 0 <= i < |s| - 1 :: s[i] == BACKSLASH && (s[i + 1] == BACKSLASH || Separator(s[i + 1]))
  }

  /** Unescaping changes a text exactly when it holds an escape pair, and then shortens it. */
  lemma {:induction false} FusedLength(s: string)
    ensures |Fused(s)| <= |s|
    ensures |Fused(s)| < |s| <==> HasEscapePair(s)
    ensures !HasEscapePair(s) ==> Fused(s) == s
    decreases |s|
  {
    if s != "" {
      var pair := |s| > 1 && s[0] == BACKSLASH && s[1] == BACKSLASH;
      var rest := if pair then s[2..] else s[1..];
      FusedLength(rest);
      if pair || (s[0] == BACKSLASH && StartsWithSeparator(rest)) {
        assert s[0] == BACKSLASH && (s[0 + 1] == BACKSLASH || Separator(s[0 + 1]));
      } else {
        PairsOfTail(s);
      }
    }
  }

  lemma PairsOfTail(s: string)
    requires s != ""
    requires |s| > 1 && s[0] == BACKSLASH ==> s[1] != BACKSLASH && !Separator(s[1])
    ensures HasEscapePair(s) <==> HasEscapePair(s[1..])
  {
    var t := s[1..];
    if HasEscapePair(s) {
      var i :| 0 <= i < |s| - 1 && s[i] == BACKSLASH && (s[i + 1] == BACKSLASH || Separator(s[i + 1]));
      assert t[i - 1] == BACKSLASH && (t[(i - 1) + 1] == BACKSLASH || Separator(t[(i - 1) + 1]));
    }
    if HasEscapePair(t) {
      var i :| 0 <= i < |t| - 1 && t[i] == BACKSLASH && (t[i + 1] == BACKSLASH || Separator(t[i + 1]));
      assert s[i + 1] == BACKSLASH && (s[(i + 1) + 1] == BACKSLASH || Separator(s[(i + 1) + 1]));
    }
  }

  /** Main result: unescaping undoes escaping for every text, except for a data URI (written
      unescaped) that contains an escape pair. */
  lemma RoundTrip(s: string)
    ensures Unescaped(Escaped(s)) == s <==> !(IsDataUri(s) && HasEscapePair(s))
  {
    UnescapedIsFused(Escaped(s));
    if IsDataUri(s) {
      FusedLength(s);
    } else {
      FusedUndoesEscapedText(s);
    }
  }

  /** The failing family is not empty: a data URI ending in two backslashes loses one. */
  lemma RoundTripFails()
    ensures Unescaped(Escaped("data:\\\\")) != "data:\\\\"
  {
    var s := "data:\\\\";
    assert s[..5] == "data:" && s[0..5] == s[..5];
    assert IsDataUri(s) by {
      forall j: nat | 0 < j <= |s| ensures !OccursAt(s, "data:", j) {
        if j + 5 <= |s| {
          assert s[j..j + 5][0] == s[j];
        }
      }
    }
    assert s[5] == BACKSLASH && s[5 + 1] == BACKSLASH;
    RoundTrip(s);
  }

  // ---------------------------------------------------------------- agreement with one scanner

  /** Unescaping as section 3.4 of RFC 6350 reads: one scan, an escape pair stands for its second
      character. */
  function Scanned(s: string): (r: string)
    decreases |s|
  {
    if s == "" then ""
    else if s[0] == BACKSLASH && |s| > 1 && (s[1] == BACKSLASH || Separator(s[1])) then [s[1]] + Scanned(s[2..])
    else [s[0]] + Scanned(s[1..])
  }

  /** The number of consecutive backslashes just before position i. */
  function RunBefore(s: string, i: nat): (n: nat)
    requires i <= |s|
    ensures n <= i && forall j | i - n <= j < i :: s[j] == BACKSLASH
    ensures n < i ==> s[i - n - 1] != BACKSLASH
  {
    if i == 0 || s[i - 1] != BACKSLASH then 0 else 1 + RunBefore(s, i - 1)
  }

  /** A bare separator right after an escaped backslash: a separator behind a non-zero even run. */
  predicate SeparatorAfterEvenRun(s: string, i: nat) {
    i < |s| && Separator(s[i]) && RunBefore(s, i) > 0 && RunBefore(s, i) % 2 == 0
  }

  predicate HasSeparatorAfterEvenRun(s: string) {
    exists i: nat | i < |s| :: SeparatorAfterEvenRun(s, i)
  }

  /** A run behind a prefix is the run in the rest, prolonged by the prefix if it reaches its end. */
  lemma {:induction false} RunBehind(s: string, k: nat, t: string, i: nat)
    requires Behind(s, k, t) && i <= |t|
    ensures RunBefore(s, k + i) == RunBefore(t, i) + (if RunBefore(t, i) == i then RunBefore(s, k) else 0)
    decreases i
  {
    if i > 0 {
      assert s[k + (i - 1)] == t[i - 1];
      if t[i - 1] == BACKSLASH {
        RunBehind(s, k, t, i - 1);
      }
    }
  }

  lemma {:induction false} ScannedAgainstFused(s: string)
    ensures |Fused(s)| <= |Scanned(s)|
    ensures |Fused(s)| < |Scanned(s)| <==> HasSeparatorAfterEvenRun(s)
    ensures !HasSeparatorAfterEvenRun(s) ==> Fused(s) == Scanned(s)
    decreases |s|
  {
    if s == "" {
    } else if s[0] == BACKSLASH && |s| > 1 && s[1] == BACKSLASH {
      ScannedAgainstFused(s[2..]);
      EvenRunsOfTail(s, 2);
      if |s| > 2 && Separator(s[2]) {
        assert RunBefore(s, 1) == 1 && RunBefore(s, 2) == 2;
        assert SeparatorAfterEvenRun(s, 2);
      }
    } else {
      ScannedAgainstFused(s[1..]);
      EvenRunsOfTail(s, 1);
      if s[0] == BACKSLASH && |s| > 1 && Separator(s[1]) {
        assert Fused(s[1..]) == [s[1]] + Fused(s[1..][1..]);
        assert Scanned(s[1..]) == [s[1]] + Scanned(s[1..][1..]);
        assert s[1..][1..] == s[2..];
      }
    }
  }

  /** Dropping the first token of the scanner keeps every offending separator behind it. */
  lemma EvenRunBehindToken(s: string, k: nat, i: nat)
    requires FirstToken(s, k) && k < i < |s|
    ensures SeparatorAfterEvenRun(s, i) <==> SeparatorAfterEvenRun(s[k..], i - k)
  {
    RunBehind(s, k, s[k..], i - k);
    assert RunBefore(s, k) == if k == 2 then 2 else if s[0] == BACKSLASH then 1 else 0 by {
      assert RunBefore(s, 1) == if s[0] == BACKSLASH then 1 else 0;
    }
  }

  /** A pair of backslashes, or one character not starting such a pair. */
  predicate FirstToken(s: string, k: nat) {
    if |s| > 1 && s[0] == BACKSLASH && s[1] == BACKSLASH then k == 2 else s != "" && k == 1
  }

  lemma EvenRunsOfTail(s: string, k: nat)
    requires FirstToken(s, k)
    ensures HasSeparatorAfterEvenRun(s) <==>
      HasSeparatorAfterEvenRun(s[k..]) || (k == 2 && |s| > 2 && Separator(s[2]))
  {
    var t := s[k..];
    EvenRunNearToken(s, k);
    if HasSeparatorAfterEvenRun(s) && !SeparatorAfterEvenRun(s, k) {
      var i: nat :| i < |s| && SeparatorAfterEvenRun(s, i);
      EvenRunBehindToken(s, k, i);
      assert SeparatorAfterEvenRun(t, i - k);
    }
    if HasSeparatorAfterEvenRun(t) {
      var i: nat :| i < |t| && SeparatorAfterEvenRun(t, i);
      EvenRunBehindToken(s, k, i + k);
      assert SeparatorAfterEvenRun(s, i + k);
    }
  }

  /** Within and right behind the first token, only a separator behind a leading pair offends. */
  lemma EvenRunNearToken(s: string, k: nat)
    requires FirstToken(s, k)
    ensures forall i: nat | i < k :: !SeparatorAfterEvenRun(s, i)
    ensures SeparatorAfterEvenRun(s, k) <==> k == 2 && |s| > 2 && Separator(s[2])
    ensures k < |s| ==> !SeparatorAfterEvenRun(s[k..], 0)
  {
    assert RunBefore(s, 1) == if s[0] == BACKSLASH then 1 else 0;
    assert k == 2 ==> RunBefore(s, 2) == 2;
  }

  /** Main result: the chained passes read a text as one scanner would exactly when no separator
      stands behind a non-zero even run of backslashes; otherwise they lose characters. */
  lemma UnescapedAgainstScanner(s: string)
    ensures Unescaped(s) == Scanned(s) <==> !HasSeparatorAfterEvenRun(s)
    ensures HasSeparatorAfterEvenRun(s) ==> |Unescaped(s)| < |Scanned(s)|
  {
    UnescapedIsFused(s);
    ScannedAgainstFused(s);
  }

  // ---------------------------------------------------------------- reading a property value

  /** `isspace` in the C locale. */
  predicate IsSpace(c: char) {
    c == ' ' || c == '\t' || c == '\n' || c == '\U{0B}' || c == '\U{0C}' || c == '\r'
  }

  predicate IsTrimmed(s: string) {
    s != "" ==> !IsSpace(s[0]) && !IsSpace(s[|s| - 1])
  }

  /** The text without the white space around it. */
  function Trimmed(s: string): (t: string)
    ensures IsTrimmed(t)
    decreases |s|
  {
    if s != "" && IsSpace(s[0]) then Trimmed(s[1..])
    else if s != "" && IsSpace(s[|s| - 1]) then Trimmed(s[..|s| - 1])
    else s
  }

  /** The white space of the C locale: blank, and the five control characters from tab on. */
  lemma SpacesAre(c: char)
    ensures IsSpace(c) <==> c as int == 32 || 9 <= c as int <= 13
  {
  }

  predicate AllSpace(s: string) { forall i | 0 <= i < |s| :: IsSpace(s[i]) }

  /** `mid` is the text between the leading and the trailing white space. */
  ghost predicate IsTrimOf(mid: string, s: string) {
    IsTrimmed(mid) && exists left: string, right: string :: Surrounds(left, mid, right, s)
  }

  predicate Surrounds(left: string, mid: string, right: string, s: string) {
    s == left + mid + right && AllSpace(left) && AllSpace(right)
  }

  /** Trimming removes white space at the two ends, and nothing else. */
  lemma {:induction false} TrimmedIsMiddle(s: string)
    ensures IsTrimOf(Trimmed(s), s)
    decreases |s|
  {
    if s != "" && IsSpace(s[0]) {
      TrimmedIsMiddle(s[1..]);
      var left: string, right: string :| Surrounds(left, Trimmed(s[1..]), right, s[1..]);
      assert Surrounds([s[0]] + left, Trimmed(s), right, s);
    } else if s != "" && IsSpace(s[|s| - 1]) {
      TrimmedIsMiddle(s[..|s| - 1]);
      var left: string, right: string :| Surrounds(left, Trimmed(s[..|s| - 1]), right, s[..|s| - 1]);
      assert Surrounds(left, Trimmed(s), right + [s[|s| - 1]], s);
    } else {
      assert Surrounds("", s, "", s);
    }
  }

  /** There is only one such middle, so this fixes what trimming yields. */
  lemma {:induction false} MiddleIsTrimmed(mid: string, s: string)
    requires IsTrimOf(mid, s)
    ensures mid == Trimmed(s)
    decreases |s|
  {
    var left: string, right: string :| Surrounds(left, mid, right, s);
    if left != "" {
      assert s[0] == left[0];
      assert Surrounds(left[1..], mid, right, s[1..]);
      MiddleIsTrimmed(mid, s[1..]);
    } else if right != "" {
      assert s[|s| - 1] == right[|right| - 1];
      if mid == "" {
        AllSpaceTrimmed(s);
      } else {
        assert s[0] == mid[0];
        assert Surrounds("", mid, right[..|right| - 1], s[..|s| - 1]);
        MiddleIsTrimmed(mid, s[..|s| - 1]);
      }
    } else {
      assert s == mid;
    }
  }

  lemma {:induction false} AllSpaceTrimmed(s: string)
    requires AllSpace(s)
    ensures Trimmed(s) == ""
    decreases |s|
  {
    if s != "" { AllSpaceTrimmed(s[1..]); }
  }

  /** What reading a text stores: trimmed, then unescaped. */
  function Stored(value: string): string { Unescaped(Trimmed(value)) }

  /** `BelCardProperty::setValue`. */
  method SetValue(value: string) returns (stored: string)
    ensures stored == Stored(value)
    ensures exists mid: string :: IsTrimOf(mid, value) && stored == Unescaped(mid)
  {
    var s := value;
    while s != "" && IsSpace(s[0])
      invariant Trimmed(s) == Trimmed(value)
      decreases |s|
    {
      s := s[1..];
    }
    while s != "" && IsSpace(s[|s| - 1])
      invariant Trimmed(s) == Trimmed(value)
      invariant s != "" ==> !IsSpace(s[0])
      decreases |s|
    {
      s := s[..|s| - 1];
    }
    TrimmedIsMiddle(value);
    stored := UnescapeString(s);
  }

  lemma {:induction false} FusedEnds(s: string)
    requires s != ""
    ensures Fused(s) != "" && Fused(s)[|Fused(s)| - 1] == s[|s| - 1]
    ensures s[0] != BACKSLASH ==> Fused(s)[0] == s[0]
    ensures s[0] == BACKSLASH ==> Fused(s)[0] == BACKSLASH || Separator(Fused(s)[0])
    decreases |s|
  {
    var rest := if |s| > 1 && s[0] == BACKSLASH && s[1] == BACKSLASH then s[2..] else s[1..];
    if rest != "" {
      FusedEnds(rest);
    }
  }

  lemma {:induction false} EscapedTextEnds(s: string)
    requires s != ""
    ensures EscapedText(s) != "" && EscapedText(s)[|EscapedText(s)| - 1] == s[|s| - 1]
    ensures EscapedText(s)[0] == s[0] || EscapedText(s)[0] == BACKSLASH
  {
    if |s| > 1 {
      EscapedTextEnds(s[1..]);
    }
  }

  lemma StoredIsTrimmed(value: string)
    ensures IsTrimmed(Stored(value))
  {
    var t := Trimmed(value);
    UnescapedIsFused(t);
    if t != "" {
      FusedEnds(t);
    }
  }

  lemma EscapedStaysTrimmed(s: string)
    requires IsTrimmed(s)
    ensures IsTrimmed(Escaped(s))
  {
    if s != "" {
      EscapedTextEnds(s);
    }
  }

  lemma TrimmedIsKept(s: string)
    requires IsTrimmed(s)
    ensures Trimmed(s) == s
  {
  }

  /** Main result: whatever text was read, writing the stored value and reading it again stores the
      same value and writes the same text, except for a stored data URI with an escape pair. */
  lemma ReadWriteReachesNormalForm(value: string)
    ensures
      var stored := Stored(value);
      var again := Stored(Escaped(stored));
      && (again == stored <==> !(IsDataUri(stored) && HasEscapePair(stored)))
      && (Escaped(again) == Escaped(stored) <==> !(IsDataUri(stored) && HasEscapePair(stored)))
  {
    var stored := Stored(value);
    StoredIsTrimmed(value);
    EscapedStaysTrimmed(stored);
    TrimmedIsKept(Escaped(stored));
    RoundTrip(stored);
    if IsDataUri(stored) && HasEscapePair(stored) {
      UnescapedIsFused(stored);
      FusedLength(stored);
      DataPrefixKept(stored);
    }
  }

  predicate Plain(w: string) {
    forall i | 0 <= i < |w| :: w[i] != BACKSLASH && !Separator(w[i])
  }

  lemma {:induction false} PlainPrefixOf(s: string, w: string)
    requires Plain(w) && w <= Fused(s)
    ensures w <= s
  {
    if w != "" {
      assert w[0] == Fused(s)[0];
      if s[0] == BACKSLASH {
        FusedEnds(s);
        assert false;
      }
      assert w == [w[0]] + w[1..];
      PlainPrefixOf(s[1..], w[1..]);
    }
  }

  lemma {:induction false} PlainPrefixKept(s: string, w: string)
    requires Plain(w) && w <= s
    ensures w <= Fused(s)
  {
    if w != "" {
      assert w == [w[0]] + w[1..] && w[0] == s[0];
      PlainPrefixKept(s[1..], w[1..]);
    }
  }

  /** A plain word of the unescaped text stands in the text itself, no further left. */
  lemma {:induction false} PlainWordOf(s: string, w: string, j: nat) returns (i: nat)
    requires Plain(w) && w != "" && OccursAt(Fused(s), w, j)
    ensures j <= i <= |s| && OccursAt(s, w, i)
    decreases |s|
  {
    if j == 0 {
      PlainPrefixOf(s, w);
      i := 0;
    } else {
      var k := if |s| > 1 && s[0] == BACKSLASH && s[1] == BACKSLASH then 2 else 1;
      var emitted := FusedStep(s, k, w, j);
      var i' := PlainWordOf(s[k..], w, j - emitted);
      OccursInSuffix(s, w, k, i');
      i := k + i';
    }
  }

  /** One token emits at most one character, and the word moves left by as many. */
  lemma FusedStep(s: string, k: nat, w: string, j: nat) returns (emitted: nat)
    requires FirstToken(s, k) && 0 < j && OccursAt(Fused(s), w, j)
    ensures emitted <= 1 && OccursAt(Fused(s[k..]), w, j - emitted)
  {
    if s[0] == BACKSLASH && StartsWithSeparator(s[k..]) {
      emitted := 0;
    } else {
      emitted := 1;
      assert Fused(s)[1..] == Fused(s[k..]);
      OccursInSuffix(Fused(s), w, 1, j - 1);
    }
  }

  /** Unescaping a data URI leaves a data URI, so it is again written as it stands. */
  lemma DataPrefixKept(s: string)
    requires IsDataUri(s)
    ensures IsDataUri(Fused(s))
  {
    var f := Fused(s);
    OccursAsSlice(s, "data:", 0);
    assert s[0..] == s;
    PlainPrefixKept(s, "data:");
    OccursAsSlice(f, "data:", 0);
    assert f[0..] == f;
    forall j: nat | 0 < j <= |f| ensures !OccursAt(f, "data:", j) {
      if OccursAt(f, "data:", j) {
        var i := PlainWordOf(s, "data:", j);
        assert false;
      }
    }
  }
}
