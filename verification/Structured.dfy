/** The structured N and ADR values of a vCard (belcard_identification.cpp, belcard_addressing.cpp):
    escaped components joined by semicolons, and their recovery by splitting. */
module Structured {
  import opened Strings
  import opened Escaping

  // ---------------------------------------------------------------- splitting

  /** A semicolon behind an even run of backslashes, none included: a component boundary. */
  predicate Boundary(s: string, i: nat) {
    i < |s| && s[i] == ';' && RunBefore(s, i) % 2 == 0
  }

  function FirstBoundary(s: string, from: nat := 0): (p: nat)
    requires from <= |s|
    ensures from <= p <= |s|
    ensures p < |s| ==> Boundary(s, p)
    ensures forall i: nat | from <= i < p :: !Boundary(s, i)
    decreases |s| - from
  {
    if from == |s| || Boundary(s, from) then from else FirstBoundary(s, from + 1)
  }

  function Split(s: string): (pieces: seq<string>)
    ensures pieces != []
    decreases |s|
  {
    var p := FirstBoundary(s);
    if p == |s| then [s] else [s[..p]] + Split(s[p + 1..])
  }

  function Joined(pieces: seq<string>): (s: string)
    requires pieces != []
  {
    if |pieces| == 1 then pieces[0] else pieces[0] + ";" + Joined(pieces[1..])
  }

  function AllEscaped(components: seq<string>): (r: seq<string>)
    ensures |r| == |components|
  {
    seq(|components|, i requires 0 <= i < |components| => Escaped(components[i]))
  }

  function AllUnescaped(pieces: seq<string>): (r: seq<string>)
    ensures |r| == |pieces|
  {
    seq(|pieces|, i requires 0 <= i < |pieces| => Unescaped(pieces[i]))
  }

  /** What serialization writes for the components, and what reading makes of such a text. */
  function Encoded(components: seq<string>): string
    requires components != []
  {
    Joined(AllEscaped(components))
  }

  function Decoded(s: string): seq<string> {
    AllUnescaped(Split(s))
  }

  // ---------------------------------------------------------------- first piece

  lemma {:induction false} RunOfPrefix(a: string, b: string, i: nat)
    requires i <= |a|
    ensures RunBefore(a + b, i) == RunBefore(a, i)
  {
    if i > 0 && a[i - 1] == BACKSLASH {
      RunOfPrefix(a, b, i - 1);
    }
  }

  /** A text that can stand before a boundary without moving it. */
  ghost predicate Closed(a: string) {
    (forall i: nat | i < |a| :: !Boundary(a, i)) && RunBefore(a, |a|) % 2 == 0
  }

  lemma SplitAfterClosed(a: string, b: string)
    requires Closed(a)
    ensures Split(a + ";" + b) == [a] + Split(b)
  {
    var s := a + ";" + b;
    assert s == a + (";" + b);
    forall i: nat | i <= |a| ensures Boundary(s, i) <==> i == |a| {
      RunOfPrefix(a, ";" + b, i);
      if i < |a| {
        assert !Boundary(a, i);
      }
    }
    var p := FirstBoundary(s);
    assert Boundary(s, |a|);
    assert p == |a|;
    assert s[..p] == a && s[p + 1..] == b;
  }

  lemma {:induction false} EscapedTextIsClosed(s: string)
    ensures Closed(EscapedText(s))
  {
    if s != "" {
      EscapedTextIsClosed(s[1..]);
      ClosedBehindUnit(s[0], EscapedText(s[1..]));
    }
  }

  lemma ClosedBehindUnit(c: char, t: string)
    requires Closed(t)
    ensures Closed(EscapedChar(c) + t)
  {
    var unit := EscapedChar(c);
    assert Behind(unit + t, |unit|, t);
    UnitHasNoBoundary(unit + t, c);
    ClosedBehind(unit + t, |unit|, t);
  }

  lemma UnitHasNoBoundary(e: string, c: char)
    requires OccursAt(e, EscapedChar(c), 0)
    ensures RunBefore(e, |EscapedChar(c)|) % 2 == 0
    ensures forall i: nat | i < |EscapedChar(c)| :: !Boundary(e, i)
  {
    var unit := EscapedChar(c);
    assert e[0 + 0] == unit[0];
    assert RunBefore(e, 1) == if unit[0] == BACKSLASH then 1 else 0;
    if |unit| == 2 {
      assert e[0 + 1] == unit[1];
      assert !Boundary(e, 1);
    }
  }

  lemma ClosedBehind(e: string, k: nat, t: string)
    requires Closed(t) && Behind(e, k, t) && RunBefore(e, k) % 2 == 0
    requires forall i: nat | i < k :: !Boundary(e, i)
    ensures Closed(e)
  {
    forall i: nat | k <= i < |e| ensures !Boundary(e, i) {
      BoundaryBehind(e, k, t, i - k);
    }
    EvenRunAtEnd(e, k, t);
  }

  lemma EvenRunAtEnd(e: string, k: nat, t: string)
    requires Behind(e, k, t) && RunBefore(e, k) % 2 == 0 && RunBefore(t, |t|) % 2 == 0
    ensures RunBefore(e, |e|) % 2 == 0
  {
    RunBehind(e, k, t, |t|);
  }

  lemma BoundaryBehind(e: string, k: nat, t: string, i: nat)
    requires Behind(e, k, t) && RunBefore(e, k) % 2 == 0 && i < |t|
    ensures Boundary(e, k + i) <==> Boundary(t, i)
  {
    RunBehind(e, k, t, i);
    assert e[k + i] == t[i];
  }

  // ---------------------------------------------------------------- counting semicolons

  function Semicolons(s: string): nat {
    if s == "" then 0 else (if s[0] == ';' then 1 else 0) + Semicolons(s[1..])
  }

  lemma {:induction false} SemicolonsOfConcat(a: string, b: string)
    ensures Semicolons(a + b) == Semicolons(a) + Semicolons(b)
  {
    if a == "" {
      assert a + b == b;
    } else {
      assert (a + b)[1..] == a[1..] + b;
      SemicolonsOfConcat(a[1..], b);
    }
  }

  /** Unescaping neither adds nor removes semicolons. */
  lemma {:induction false} SemicolonsKept(s: string)
    ensures Semicolons(Fused(s)) == Semicolons(s)
    decreases |s|
  {
    if s != "" {
      var pair := |s| > 1 && s[0] == BACKSLASH && s[1] == BACKSLASH;
      var rest := if pair then s[2..] else s[1..];
      SemicolonsKept(rest);
      if pair {
        assert s[1..][1..] == rest;
      }
    }
  }

  lemma {:induction false} SemicolonInside(s: string, i: nat)
    requires i < |s| && s[i] == ';'
    ensures Semicolons(s[..i]) < Semicolons(s)
  {
    SemicolonsOfConcat(s[..i], s[i..]);
    assert s == s[..i] + s[i..];
  }

  // ---------------------------------------------------------------- recovery

  /** A component that survives writing and splitting; `last` when nothing follows it. */
  predicate Recoverable(c: string, last: bool) {
    IsDataUri(c) ==> !HasEscapePair(c) && ';' !in c && (last || c[|c| - 1] != BACKSLASH)
  }

  predicate AllRecoverable(components: seq<string>) {
    forall i | 0 <= i < |components| :: Recoverable(components[i], i == |components| - 1)
  }

  lemma NoPairAt(c: string, i: nat)
    requires !HasEscapePair(c) && i + 1 < |c|
    ensures c[i] == BACKSLASH ==> c[i + 1] != BACKSLASH && !Separator(c[i + 1])
  {
  }

  /** Without escape pairs every run of backslashes is at most one long and never before a semicolon. */
  lemma RunsWithoutPairs(c: string, i: nat)
    requires !HasEscapePair(c) && i <= |c|
    ensures RunBefore(c, i) == if i > 0 && c[i - 1] == BACKSLASH then 1 else 0
    ensures i < |c| && c[i] == ';' ==> RunBefore(c, i) == 0
  {
    if i > 1 {
      NoPairAt(c, i - 2);
    }
    if 0 < i < |c| {
      NoPairAt(c, i - 1);
    }
  }

  lemma RecoverableIsClosed(c: string)
    requires Recoverable(c, false)
    ensures Closed(Escaped(c)) && Unescaped(Escaped(c)) == c
  {
    RoundTrip(c);
    if IsDataUri(c) {
      RunsWithoutPairs(c, |c|);
    } else {
      EscapedTextIsClosed(c);
    }
  }

  /** A closed text whose semicolons are all escaped, or that ends in a backslash, has an escape pair. */
  lemma ClosedHasPair(c: string)
    requires Closed(c) && c != ""
    requires ';' in c || c[|c| - 1] == BACKSLASH
    ensures HasEscapePair(c)
  {
    if !HasEscapePair(c) {
      RunsWithoutPairs(c, |c|);
      if ';' in c {
        var i: nat :| i < |c| && c[i] == ';';
        RunsWithoutPairs(c, i);
        assert Boundary(c, i);
      }
    }
  }

  /** An unrecoverable component before a separator: the first piece read back differs from it. */
  lemma FirstPieceDiffers(c: string, b: string)
    requires !Recoverable(c, false)
    ensures Unescaped(Split(Escaped(c) + ";" + b)[0]) != c
  {
    var s := c + ";" + b;
    var p := FirstBoundary(s);
    var piece := s[..p];
    assert Split(s)[0] == piece;
    UnescapedIsFused(piece);
    SemicolonsKept(piece);
    assert s == c + (";" + b);
    if p < |c| {
      assert piece == c[..p];
      SemicolonInside(c, p);
    } else if p > |c| {
      SemicolonInside(piece, |c|);
      assert piece[..|c|] == c;
    } else {
      assert piece == c;
      forall i: nat | i < |c| ensures !Boundary(c, i) {
        RunOfPrefix(c, ";" + b, i);
        assert !Boundary(s, i);
      }
      RunOfPrefix(c, ";" + b, |c|);
      if !HasEscapePair(c) {
        ClosedHasPair(c);
      }
      FusedLength(c);
    }
  }

  /** The last component is read back exactly when it is recoverable. */
  lemma LastPiece(c: string)
    ensures Decoded(Escaped(c)) == [c] <==> Recoverable(c, true)
  {
    var e := Escaped(c);
    RoundTrip(c);
    if !IsDataUri(c) {
      EscapedTextIsClosed(c);
      assert FirstBoundary(e) == |e|;
      assert Split(e) == [e];
    } else if FirstBoundary(c) < |c| {
      assert |Split(c)| >= 2;
      assert ';' in c;
    } else {
      assert Split(c) == [c];
      assert Decoded(c) == [Unescaped(c)];
      if ';' in c && !HasEscapePair(c) {
        var i: nat :| i < |c| && c[i] == ';';
        RunsWithoutPairs(c, i);
        assert Boundary(c, i);
      }
    }
  }

  /** Main result: any number of components is recovered by splitting and unescaping exactly when
      each of them is recoverable. In particular components that are not data URIs always are. */
  lemma {:induction false} DecodedEncoded(components: seq<string>)
    requires components != []
    ensures Decoded(Encoded(components)) == components <==> AllRecoverable(components)
    decreases |components|
  {
    var c := components[0];
    if |components| == 1 {
      LastPiece(c);
      assert components == [c];
    } else {
      var rest := components[1..];
      DecodedEncoded(rest);
      EncodedCons(components);
      RecoverableCons(components);
      if Recoverable(c, false) {
        DecodedBehindRecoverable(c, Encoded(rest));
        ConsEquality(c, Decoded(Encoded(rest)), components);
      } else {
        FirstPieceDiffers(c, Encoded(rest));
        assert Decoded(Encoded(components))[0] != components[0];
      }
    }
  }

  lemma EncodedCons(components: seq<string>)
    requires |components| > 1
    ensures Encoded(components) == Escaped(components[0]) + ";" + Encoded(components[1..])
  {
    assert AllEscaped(components)[1..] == AllEscaped(components[1..]);
  }

  lemma RecoverableCons(components: seq<string>)
    requires |components| > 1
    ensures AllRecoverable(components) <==> Recoverable(components[0], false) && AllRecoverable(components[1..])
  {
    var rest := components[1..];
    if AllRecoverable(rest) && Recoverable(components[0], false) {
      forall i | 0 <= i < |components| ensures Recoverable(components[i], i == |components| - 1) {
        if i > 0 {
          assert Recoverable(rest[i - 1], i - 1 == |rest| - 1);
        }
      }
    }
    if AllRecoverable(components) {
      forall i | 0 <= i < |rest| ensures Recoverable(rest[i], i == |rest| - 1) {
        assert Recoverable(components[i + 1], i + 1 == |components| - 1);
      }
    }
  }

  lemma DecodedBehindRecoverable(c: string, b: string)
    requires Recoverable(c, false)
    ensures Decoded(Escaped(c) + ";" + b) == [c] + Decoded(b)
  {
    RecoverableIsClosed(c);
    SplitAfterClosed(Escaped(c), b);
  }

  lemma ConsEquality(c: string, tail: seq<string>, whole: seq<string>)
    requires whole != [] && whole[0] == c
    ensures [c] + tail == whole <==> tail == whole[1..]
  {
    assert ([c] + tail)[1..] == tail;
    assert whole == [whole[0]] + whole[1..];
  }

  // ---------------------------------------------------------------- the N property

  /** The line before the value: group, name and rendered parameters. */
  function Header(group: string, name: string, params: seq<string>): string {
    (if |group| > 0 then group + "." else "") + name + ParamList(params)
  }

  function ParamList(params: seq<string>): string {
    if params == [] then "" else ";" + params[0] + ParamList(params[1..])
  }

  lemma Glue(a: string, p: string, tail: string)
    ensures a + (";" + p + tail) == (a + ";" + p) + tail == a + ";" + (p + tail)
  {
  }

  method WriteHeader(group: string, name: string, params: seq<string>) returns (output: string)
    ensures output == Header(group, name, params)
  {
    output := if |group| > 0 then group + "." else "";
    output := output + name;
    ghost var todo := params;
    for i := 0 to |params|
      invariant todo == params[i..] && output + ParamList(todo) == Header(group, name, params)
    {
      Glue(output, params[i], ParamList(todo[1..]));
      output := output + ";" + params[i];
      todo := todo[1..];
    }
    assert output + "" == output;
  }

  // ---------------------------------------------------------------- reading a header back

  /** The pieces of a text between semicolons. */
  function Fields(s: string): seq<string>
    decreases |s|
  {
    var i := IndexOf(s, ';', 0);
    if i == |s| then [s] else [s[..i]] + Fields(s[i + 1..])
  }

  lemma FieldsBehind(a: string, b: string)
    requires ';' !in a
    ensures Fields(a + ";" + b) == [a] + Fields(b)
  {
    var s := a + ";" + b;
    var i := IndexOf(s, ';', 0);
    assert s[|a|] == ';' && forall k | 0 <= k < |a| :: s[k] == a[k];
    assert i == |a|;
    assert s[..i] == a && s[i + 1..] == b;
  }

  lemma FieldsOfOne(a: string)
    requires ';' !in a
    ensures Fields(a) == [a]
  {
    assert IndexOf(a, ';', 0) == |a|;
  }

  lemma {:induction false} FieldsOfParams(a: string, params: seq<string>)
    requires ';' !in a && forall p | p in params :: ';' !in p
    ensures Fields(a + ParamList(params)) == [a] + params
    decreases |params|
  {
    if params == [] {
      assert a + "" == a;
      FieldsOfOne(a);
    } else {
      FieldsStep(a, params[0], ParamList(params[1..]));
      FieldsOfParams(params[0], params[1..]);
      assert [params[0]] + params[1..] == params;
    }
  }

  lemma FieldsStep(a: string, p: string, tail: string)
    requires ';' !in a
    ensures Fields(a + (";" + p + tail)) == [a] + Fields(p + tail)
  {
    Glue(a, p, tail);
    FieldsBehind(a, p + tail);
  }

  /** The group before the first dot, if there is one, and the name behind it. */
  function GroupAndName(s: string): (string, string) {
    var dot := IndexOf(s, '.', 0);
    if dot == |s| then ("", s) else (s[..dot], s[dot + 1..])
  }

  lemma DotSeparates(group: string, name: string)
    requires '.' !in group && '.' !in name
    ensures GroupAndName((if |group| > 0 then group + "." else "") + name) == (group, name)
  {
    var s := (if |group| > 0 then group + "." else "") + name;
    if group == "" {
      assert s == name && IndexOf(s, '.', 0) == |s|;
    } else {
      assert s[|group|] == '.' && forall k | 0 <= k < |group| :: s[k] == group[k];
      assert IndexOf(s, '.', 0) == |group|;
      assert s[..|group|] == group && s[|group| + 1..] == name;
    }
  }

  /** Group, name and parameters are read back from a header by splitting at semicolons and at the dot. */
  lemma HeaderReadsBack(group: string, name: string, params: seq<string>)
    requires ';' !in group && '.' !in group && ';' !in name && '.' !in name
    requires forall p | p in params :: ';' !in p
    ensures
      var fields := Fields(Header(group, name, params));
      fields != [] && GroupAndName(fields[0]) == (group, name) && fields[1..] == params
  {
    var first := (if |group| > 0 then group + "." else "") + name;
    FieldsOfParams(first, params);
    DotSeparates(group, name);
  }

  lemma JoinedCons(c: string, rest: seq<string>)
    requires rest != []
    ensures Joined([c] + rest) == c + ";" + Joined(rest)
  {
    assert ([c] + rest)[1..] == rest;
  }

  lemma JoinedFive(a: string, b: string, c: string, d: string, e: string)
    ensures Joined([a, b, c, d, e]) == a + ";" + (b + ";" + (c + ";" + (d + ";" + e)))
  {
    JoinedCons(d, [e]);
    JoinedCons(c, [d, e]);
    JoinedCons(b, [c, d, e]);
    JoinedCons(a, [b, c, d, e]);
    assert [d] + [e] == [d, e] && [c] + [d, e] == [c, d, e] && [b] + [c, d, e] == [b, c, d, e];
    assert [a] + [b, c, d, e] == [a, b, c, d, e];
  }

  lemma JoinedSeven(a: string, b: string, c: string, d: string, e: string, f: string, g: string)
    ensures Joined([a, b, c, d, e, f, g]) ==
            a + ";" + (b + ";" + (c + ";" + (d + ";" + (e + ";" + (f + ";" + g)))))
  {
    JoinedFive(c, d, e, f, g);
    JoinedCons(b, [c, d, e, f, g]);
    JoinedCons(a, [b, c, d, e, f, g]);
    assert [b] + [c, d, e, f, g] == [b, c, d, e, f, g];
    assert [a] + [b, c, d, e, f, g] == [a, b, c, d, e, f, g];
  }

  class Name {
    var group: string
    var params: seq<string>
    var familyName: string
    var givenName: string
    var additionalName: string
    var prefixes: string
    var suffixes: string

    constructor ()
      ensures group == "" && params == [] && Components() == ["", "", "", "", ""]
    {
      group, params := "", [];
      familyName, givenName, additionalName, prefixes, suffixes := "", "", "", "", "";
    }

    ghost function Components(): seq<string>
      reads this
    {
      [familyName, givenName, additionalName, prefixes, suffixes]
    }

    method SetFamilyName(value: string)
      modifies `familyName
      ensures familyName == Unescaped(value)
    {
      familyName := UnescapeString(value);
    }

    method SetGivenName(value: string)
      modifies `givenName
      ensures givenName == Unescaped(value)
    {
      givenName := UnescapeString(value);
    }

    method SetAdditionalName(value: string)
      modifies `additionalName
      ensures additionalName == Unescaped(value)
    {
      additionalName := UnescapeString(value);
    }

    method SetPrefixes(value: string)
      modifies `prefixes
      ensures prefixes == Unescaped(value)
    {
      prefixes := UnescapeString(value);
    }

    method SetSuffixes(value: string)
      modifies `suffixes
      ensures suffixes == Unescaped(value)
    {
      suffixes := UnescapeString(value);
    }

    /** The pieces of an N value through the five setters, in the order of section 6.2.2 of RFC 6350. */
    method Collect(pieces: seq<string>)
      requires |pieces| == 5
      modifies this
      ensures Components() == AllUnescaped(pieces)
      ensures familyName == Unescaped(pieces[0]) && givenName == Unescaped(pieces[1])
      ensures additionalName == Unescaped(pieces[2]) && prefixes == Unescaped(pieces[3]) && suffixes == Unescaped(pieces[4])
      ensures group == old(group) && params == old(params)
    {
      SetFamilyName(pieces[0]);
      SetGivenName(pieces[1]);
      SetAdditionalName(pieces[2]);
      SetPrefixes(pieces[3]);
      SetSuffixes(pieces[4]);
      assert AllUnescaped(pieces) == Components();
    }

    method Serialize() returns (line: string)
      ensures line == Header(group, "N", params) + ":" + Encoded(Components()) + "\r\n"
      ensures Encoded(Components()) ==
        Escaped(familyName) + ";" + (Escaped(givenName) + ";" + (Escaped(additionalName) + ";" +
          (Escaped(prefixes) + ";" + Escaped(suffixes))))
    {
      var header := WriteHeader(group, "N", params);
      var c0 := EscapeString(familyName);
      var c1 := EscapeString(givenName);
      var c2 := EscapeString(additionalName);
      var c3 := EscapeString(prefixes);
      var c4 := EscapeString(suffixes);
      assert AllEscaped(Components()) == [c0, c1, c2, c3, c4];
      JoinedFive(c0, c1, c2, c3, c4);
      line := header + ":" + Joined([c0, c1, c2, c3, c4]) + "\r\n";
    }
  }

  // ---------------------------------------------------------------- the ADR property, version 4

  lemma AllUnescapedSeven(p: seq<string>)
    requires |p| == 7
    ensures AllUnescaped(p) == [Unescaped(p[0]), Unescaped(p[1]), Unescaped(p[2]), Unescaped(p[3]),
                                Unescaped(p[4]), Unescaped(p[5]), Unescaped(p[6])]
  {
  }

  class Address {
    var group: string
    var params: seq<string>
    var poBox: string
    var extendedAddress: string
    var street: string
    var locality: string
    var region: string
    var postalCode: string
    var country: string

    constructor ()
      ensures group == "" && params == [] && Components() == ["", "", "", "", "", "", ""]
    {
      group, params := "", [];
      poBox, extendedAddress, street, locality, region, postalCode, country := "", "", "", "", "", "", "";
    }

    ghost function Components(): seq<string>
      reads this
    {
      [poBox, extendedAddress, street, locality, region, postalCode, country]
    }

    method SetPostOfficeBox(value: string)
      modifies `poBox
      ensures poBox == Unescaped(value)
    {
      poBox := UnescapeString(value);
    }

    method SetExtendedAddress(value: string)
      modifies `extendedAddress
      ensures extendedAddress == Unescaped(value)
    {
      extendedAddress := UnescapeString(value);
    }

    method SetStreet(value: string)
      modifies `street
      ensures street == Unescaped(value)
    {
      street := UnescapeString(value);
    }

    method SetLocality(value: string)
      modifies `locality
      ensures locality == Unescaped(value)
    {
      locality := UnescapeString(value);
    }

    method SetRegion(value: string)
      modifies `region
      ensures region == Unescaped(value)
    {
      region := UnescapeString(value);
    }

    method SetPostalCode(value: string)
      modifies `postalCode
      ensures postalCode == Unescaped(value)
    {
      postalCode := UnescapeString(value);
    }

    method SetCountry(value: string)
      modifies `country
      ensures country == Unescaped(value)
    {
      country := UnescapeString(value);
    }

    /** The pieces of an ADR value through the seven setters, in the order of section 6.3.1 of RFC 6350. */
    method Collect(pieces: seq<string>)
      requires |pieces| == 7
      modifies this
      ensures Components() == AllUnescaped(pieces)
      ensures poBox == Unescaped(pieces[0]) && extendedAddress == Unescaped(pieces[1]) && street == Unescaped(pieces[2])
      ensures locality == Unescaped(pieces[3]) && region == Unescaped(pieces[4])
      ensures postalCode == Unescaped(pieces[5]) && country == Unescaped(pieces[6])
      ensures group == old(group) && params == old(params)
    {
      SetPostOfficeBox(pieces[0]);
      SetExtendedAddress(pieces[1]);
      SetStreet(pieces[2]);
      SetLocality(pieces[3]);
      SetRegion(pieces[4]);
      SetPostalCode(pieces[5]);
      SetCountry(pieces[6]);
      AllUnescapedSeven(pieces);
    }

    method Serialize() returns (line: string)
      ensures line == Header(group, "ADR", params) + ":" + Encoded(Components()) + "\r\n"
      ensures Encoded(Components()) ==
        Escaped(poBox) + ";" + (Escaped(extendedAddress) + ";" + (Escaped(street) + ";" +
          (Escaped(locality) + ";" + (Escaped(region) + ";" + (Escaped(postalCode) + ";" + Escaped(country))))))
    {
      var header := WriteHeader(group, "ADR", params);
      var c0 := EscapeString(poBox);
      var c1 := EscapeString(extendedAddress);
      var c2 := EscapeString(street);
      var c3 := EscapeString(locality);
      var c4 := EscapeString(region);
      var c5 := EscapeString(postalCode);
      var c6 := EscapeString(country);
      assert AllEscaped(Components()) == [c0, c1, c2, c3, c4, c5, c6];
      JoinedSeven(c0, c1, c2, c3, c4, c5, c6);
      line := header + ":" + Joined([c0, c1, c2, c3, c4, c5, c6]) + "\r\n";
    }
  }
}
