/** Parameter strings such as "profile=0;level=10" (param_string.c): the skip-ahead search for the
    last binding of a name, and the copy of its value into a caller's buffer.
    A string is the content of a C string, without its terminator. */
module ParamString {
  import opened Options
  import opened Strings

  /** The characters that may stand before a parameter name. */
  predicate Gap(c: char) { c == ';' || c == ' ' }

  /** `name` is bound at `i`: at the start or behind a gap, and followed by '='. */
  predicate BindsAt(s: string, name: string, i: nat) {
    OccursAt(s, name, i) && i + |name| < |s| && s[i + |name|] == '=' && (i == 0 || Gap(s[i - 1]))
  }

  /** A name behind another text is bound exactly behind a semicolon or a blank. */
  lemma BindingBehind(front: string, c: char, name: string, rest: string)
    ensures BindsAt(front + [c] + name + "=" + rest, name, |front| + 1) <==> c == ';' || c == ' '
  {
    var s := front + [c] + name + "=" + rest;
    assert s[|front|] == c && s[|front| + 1 + |name|] == '=';
    assert forall k | 0 <= k < |name| :: s[|front| + 1 + k] == name[k];
  }

  ghost predicate NoBindings(s: string, name: string, lo: nat, hi: nat) {
    forall j: nat | lo <= j < hi :: !BindsAt(s, name, j)
  }

  /** The specification of the lookup: `r` is the last binding, if there is one. */
  ghost predicate IsLastBinding(s: string, name: string, r: Option<nat>) {
    match r
    case Some(i) => BindsAt(s, name, i) && NoBindings(s, name, i + 1, |s|)
    case None => NoBindings(s, name, 0, |s|)
  }

  // ---------------------------------------------------------------- the search

  /** The test of one occurrence. A search resumed at `start` takes `start` for the beginning of the text. */
  predicate Accepts(s: string, start: nat, name: string, i: nat) {
    OccursAt(s, name, i) && i + |name| < |s| && s[i + |name|] == '=' && (i == start || (i > 0 && Gap(s[i - 1])))
  }

  /** `find_param_occurence_of`: a rejected occurrence is skipped as a whole. */
  function Searched(s: string, start: nat, pos: nat, name: string): (r: Option<nat>)
    requires name != ""
    ensures r.Some? ==> pos <= r.value && r.value + |name| < |s| && s[r.value + |name|] == '='
    decreases |s| - pos
  {
    match FirstFrom(s, name, pos)
    case None => None
    case Some(i) => if Accepts(s, start, name, i) then Some(i) else Searched(s, start, i + |name|, name)
  }

  /** `find_last_param_occurence_of`: each search resumes right behind the name found before. */
  function LastSearched(s: string, start: nat, name: string): (r: Option<nat>)
    requires name != ""
    ensures r.Some? ==> start <= r.value && r.value + |name| < |s| && s[r.value + |name|] == '='
    decreases |s| - start
  {
    match Searched(s, start, start, name)
    case None => None
    case Some(i) =>
      var later := LastSearched(s, i + |name|, name);
      if later.Some? then later else Some(i)
  }

  method FindParam(fmtp: string, start: nat, param: string) returns (found: Option<nat>)
    requires param != ""
    ensures found == Searched(fmtp, start, start, param)
  {
    var pos: nat := start;
    while true
      invariant Searched(fmtp, start, pos, param) == Searched(fmtp, start, start, param)
      decreases |fmtp| - pos
    {
      var hit := Find(fmtp, param, pos);
      FirstFromIsFirst(fmtp, param, pos);
      if hit.None? {
        return None;
      }
      pos := hit.value;
      var bound := pos + |param| < |fmtp| && fmtp[pos + |param|] == '=';
      if pos == start {
        if bound { return Some(pos); }
      } else if pos > 0 && Gap(fmtp[pos - 1]) && bound {
        return Some(pos);
      }
      pos := pos + |param|;
    }
  }

  method FindLastParam(fmtp: string, param: string) returns (lastpos: Option<nat>)
    requires param != ""
    ensures lastpos == LastSearched(fmtp, 0, param)
  {
    lastpos := None;
    var pos: nat := 0;
    while true
      invariant LastSearched(fmtp, 0, param) ==
        if LastSearched(fmtp, pos, param).Some? then LastSearched(fmtp, pos, param) else lastpos
      decreases |fmtp| - pos
    {
      var found := FindParam(fmtp, pos, param);
      if found.None? {
        return;
      }
      lastpos := found;
      pos := found.value + |param|;
    }
  }

  // ---------------------------------------------------------------- when the search is exact

  /** A name the search handles: it does not overlap itself behind one of its own gaps, and if it
      starts with '=' it ends with a gap. Every name without gaps and '=' qualifies. */
  predicate Searchable(name: string) {
    name != ""
    && (name[0] == '=' ==> Gap(name[|name| - 1]))
    && forall d: nat | d < |name| :: !SelfOverlap(name, d)
  }

  /** Shifted by `d`, the name agrees with itself, and a gap stands before the shifted copy. */
  predicate SelfOverlap(name: string, d: nat) {
    0 < d < |name| && Gap(name[d - 1]) && forall k | 0 <= k < |name| - d :: name[d + k] == name[k]
  }

  /** Skipping a whole occurrence passes over no binding. */
  lemma NoBindingInside(s: string, name: string, i: nat)
    requires Searchable(name) && OccursAt(s, name, i)
    ensures NoBindings(s, name, i + 1, i + |name|)
  {
    forall q: nat | i + 1 <= q < i + |name| && BindsAt(s, name, q) ensures false {
      OverlapIsBorder(s, name, i, q);
    }
  }

  lemma OverlapIsBorder(s: string, name: string, i: nat, q: nat)
    requires OccursAt(s, name, i) && OccursAt(s, name, q) && i < q < i + |name|
    ensures Gap(s[q - 1]) ==> SelfOverlap(name, q - i)
  {
    var d := q - i;
    assert s[i + (d - 1)] == name[d - 1];
    forall k | 0 <= k < |name| - d ensures name[d + k] == name[k] {
      assert s[i + (d + k)] == name[d + k] && s[q + k] == name[k];
    }
  }

  lemma NoBindingBeforeHit(s: string, name: string, pos: nat)
    ensures NoBindings(s, name, pos, if FirstFrom(s, name, pos).Some? then FirstFrom(s, name, pos).value else |s|)
  {
    FirstFromIsFirst(s, name, pos);
  }

  /** A place where a search may begin: the start of the text, or the '=' behind an occurrence. */
  predicate Resumable(s: string, start: nat, name: string) {
    start == 0 || (start >= |name| && OccursAt(s, name, start - |name|) && start < |s| && s[start] == '=')
  }

  lemma AcceptsIsBinding(s: string, start: nat, name: string, i: nat)
    requires Searchable(name) && Resumable(s, start, name) && start <= i
    ensures Accepts(s, start, name, i) <==> BindsAt(s, name, i)
  {
    if Accepts(s, start, name, i) && i == start > 0 {
      assert name[0] == s[start];
      assert name[|name| - 1] == s[start - 1];
    }
  }

  /** One turn of the search: the hit is judged rightly and nothing around it is overlooked. */
  lemma OneHit(s: string, start: nat, pos: nat, name: string, i: nat)
    requires Searchable(name) && Resumable(s, start, name) && start <= pos && FirstFrom(s, name, pos) == Some(i)
    ensures Accepts(s, start, name, i) <==> BindsAt(s, name, i)
    ensures NoBindings(s, name, pos, i) && NoBindings(s, name, i + 1, i + |name|)
    ensures BindsAt(s, name, i) ==> Resumable(s, i + |name|, name)
  {
    FirstFromIsFirst(s, name, pos);
    AcceptsIsBinding(s, start, name, i);
    NoBindingInside(s, name, i);
    NoBindingBeforeHit(s, name, pos);
  }

  lemma JoinNoBindings(s: string, name: string, lo: nat, i: nat, hi: nat)
    requires NoBindings(s, name, lo, i) && NoBindings(s, name, i + 1, hi) && !BindsAt(s, name, i)
    ensures NoBindings(s, name, lo, hi)
  {
  }

  ghost predicate IsFirstBinding(s: string, name: string, pos: nat, r: Option<nat>) {
    match r
    case Some(i) => pos <= i && BindsAt(s, name, i) && NoBindings(s, name, pos, i)
    case None => NoBindings(s, name, pos, |s|)
  }

  lemma FirstBindingAfterSkip(s: string, name: string, pos: nat, mid: nat, r: Option<nat>)
    requires pos <= mid && NoBindings(s, name, pos, mid) && IsFirstBinding(s, name, mid, r)
    ensures IsFirstBinding(s, name, pos, r)
  {
  }

  lemma {:induction false} SearchedIsFirstBinding(s: string, start: nat, pos: nat, name: string)
    requires Searchable(name) && Resumable(s, start, name) && start <= pos
    ensures IsFirstBinding(s, name, pos, Searched(s, start, pos, name))
    decreases |s| - pos
  {
    match FirstFrom(s, name, pos)
    case None =>
      NoBindingBeforeHit(s, name, pos);
    case Some(i) =>
      OneHit(s, start, pos, name, i);
      if !Accepts(s, start, name, i) {
        SearchedIsFirstBinding(s, start, i + |name|, name);
        JoinNoBindings(s, name, pos, i, i + |name|);
        FirstBindingAfterSkip(s, name, pos, i + |name|, Searched(s, start, i + |name|, name));
      }
  }

  /** `r` is the last binding at or behind `start`. */
  ghost predicate IsLastBindingFrom(s: string, name: string, start: nat, r: Option<nat>) {
    match r
    case Some(i) => BindsAt(s, name, i) && NoBindings(s, name, i + 1, |s|)
    case None => NoBindings(s, name, start, |s|)
  }

  lemma BehindFoundBinding(s: string, name: string, i: nat)
    requires Searchable(name) && BindsAt(s, name, i)
    ensures Resumable(s, i + |name|, name)
    ensures NoBindings(s, name, i + |name|, |s|) ==> NoBindings(s, name, i + 1, |s|)
  {
    NoBindingInside(s, name, i);
  }

  lemma {:induction false} LastSearchedIsLastBinding(s: string, start: nat, name: string)
    requires Searchable(name) && Resumable(s, start, name)
    ensures IsLastBindingFrom(s, name, start, LastSearched(s, start, name))
    decreases |s| - start
  {
    SearchedIsFirstBinding(s, start, start, name);
    var found := Searched(s, start, start, name);
    if found.Some? {
      var next := found.value + |name|;
      BehindFoundBinding(s, name, found.value);
      LastSearchedIsLastBinding(s, next, name);
      LastOfTwo(s, name, start, found.value, LastSearched(s, next, name));
    }
  }

  lemma LastOfTwo(s: string, name: string, start: nat, i: nat, later: Option<nat>)
    requires Searchable(name) && BindsAt(s, name, i) && IsLastBindingFrom(s, name, i + |name|, later)
    ensures IsLastBindingFrom(s, name, start, if later.Some? then later else Some(i))
  {
    BehindFoundBinding(s, name, i);
  }

  /** Any result of a search that began at the front is the first occurrence or lies behind it. */
  lemma ResultsBehindFirstHit(s: string, name: string)
    requires name != "" && OccursAt(s, name, 0)
    ensures
      match LastSearched(s, 0, name)
      case Some(i) => i == 0 || |name| <= i
      case None => true
  {
    assert FirstFrom(s, name, 0) == Some(0);
  }

  /** A name that overlaps itself behind a gap: the search misses the second of two overlapping bindings. */
  lemma OverlapIsMissed(name: string, d: nat) returns (s: string)
    requires SelfOverlap(name, d)
    ensures !IsLastBinding(s, name, LastSearched(s, 0, name))
  {
    s := name[..d] + name + "=";
    var n := |name|;
    forall k | 0 <= k < n ensures s[0 + k] == name[k] {
      assert k >= d ==> name[d + (k - d)] == name[k - d];
    }
    assert BindsAt(s, name, d);
    ResultsBehindFirstHit(s, name);
  }

  /** A name between '=' and a non-gap: a resumed search takes a continuation for a binding. */
  lemma ContinuationIsTaken(name: string) returns (s: string)
    requires name != "" && name[0] == '=' && !Gap(name[|name| - 1])
    ensures !IsLastBinding(s, name, LastSearched(s, 0, name))
  {
    s := name + name + "=";
    TwiceFound(s, name);
    assert s[|name| - 1] == name[|name| - 1];
  }

  /** A doubled name before '=' is found at its second occurrence. */
  lemma TwiceFound(s: string, name: string)
    requires name != "" && name[0] == '=' && s == name + name + "="
    ensures LastSearched(s, 0, name) == Some(|name|)
  {
    var n := |name|;
    assert OccursAt(s, name, 0) && s[n] == '=';
    assert OccursAt(s, name, n) && s[2 * n] == '=';
    SearchedAtOnce(s, 0, name);
    SearchedAtOnce(s, n, name);
    assert LastSearched(s, 2 * n, name).None?;
  }

  lemma SearchedAtOnce(s: string, start: nat, name: string)
    requires name != "" && OccursAt(s, name, start) && start + |name| < |s| && s[start + |name|] == '='
    ensures Searched(s, start, start, name) == Some(start)
  {
    assert FirstFrom(s, name, start) == Some(start);
  }

  /** Main result: the skip-ahead search returns the last binding in every text exactly for the
      searchable names. */
  lemma SearchIsExact(name: string)
    requires name != ""
    ensures (forall s: string :: IsLastBinding(s, name, LastSearched(s, 0, name))) <==> Searchable(name)
  {
    if Searchable(name) {
      forall s: string ensures IsLastBinding(s, name, LastSearched(s, 0, name)) {
        LastSearchedIsLastBinding(s, 0, name);
      }
    } else if name[0] == '=' && !Gap(name[|name| - 1]) {
      var s := ContinuationIsTaken(name);
    } else {
      var d: nat :| d < |name| && SelfOverlap(name, d);
      var s := OverlapIsMissed(name, d);
    }
  }

  // ---------------------------------------------------------------- the value

  /** The text from the first '=' behind `pos` up to the next ';' or the end. */
  function ValueBehind(s: string, pos: nat): string
    requires pos <= |s| && IndexOf(s, '=', pos) < |s|
  {
    var equal := IndexOf(s, '=', pos);
    s[equal + 1..IndexOf(s, ';', equal + 1)]
  }

  /** What the lookup finds, before truncation. */
  function Value(s: string, name: string): Option<string>
    requires name != ""
  {
    match LastSearched(s, 0, name)
    case None => None
    case Some(pos) => Some(ValueBehind(s, pos))
  }

  function Truncated(v: string, capacity: nat): (r: string)
    ensures |r| == (if |v| <= capacity then |v| else capacity) && forall i | 0 <= i < |r| :: r[i] == v[i]
  {
    if |v| <= capacity then v else v[..capacity]
  }

  /** The value stands behind the first '=' from the binding on, which is the one behind the name unless
      the name has one itself; it reaches to the next ';' or to the end, blanks included. */
  lemma ValueShape(s: string, name: string)
    requires name != "" && LastSearched(s, 0, name).Some?
    ensures
      var i := LastSearched(s, 0, name).value;
      var e := IndexOf(s, '=', i);
      var v := Value(s, name).value;
      && Value(s, name).Some? && OccursAt(s, name, i) && ('=' !in name ==> e == i + |name|)
      && OccursAt(s, v, e + 1) && ';' !in v && (e + 1 + |v| < |s| ==> s[e + 1 + |v|] == ';')
  {
    var i := LastSearched(s, 0, name).value;
    var e := IndexOf(s, '=', i);
    SliceUpTo(s, e + 1, IndexOf(s, ';', e + 1), ';');
    LastSearchedOccurs(s, 0, name);
    if '=' !in name { EqualBehindName(s, name, i); }
  }

  lemma {:induction false} SearchedOccurs(s: string, start: nat, pos: nat, name: string)
    requires name != ""
    ensures Searched(s, start, pos, name).Some? ==> OccursAt(s, name, Searched(s, start, pos, name).value)
    decreases |s| - pos
  {
    var hit := FirstFrom(s, name, pos);
    if hit.Some? && !Accepts(s, start, name, hit.value) { SearchedOccurs(s, start, hit.value + |name|, name); }
  }

  lemma {:induction false} LastSearchedOccurs(s: string, start: nat, name: string)
    requires name != ""
    ensures LastSearched(s, start, name).Some? ==> OccursAt(s, name, LastSearched(s, start, name).value)
    decreases |s| - start
  {
    SearchedOccurs(s, start, start, name);
    var found := Searched(s, start, start, name);
    if found.Some? { LastSearchedOccurs(s, found.value + |name|, name); }
  }

  lemma SliceUpTo(s: string, from: nat, end: nat, c: char)
    requires from <= end <= |s| && forall i | from <= i < end :: s[i] != c
    ensures OccursAt(s, s[from..end], from) && c !in s[from..end] && |s[from..end]| == end - from
  {
    var v := s[from..end];
    assert forall k | 0 <= k < |v| :: v[k] == s[from + k];
  }

  lemma EqualBehindName(s: string, name: string, i: nat)
    requires OccursAt(s, name, i) && '=' !in name && i + |name| < |s| && s[i + |name|] == '='
    ensures IndexOf(s, '=', i) == i + |name|
  {
    forall k | i <= k < i + |name| ensures s[k] != '=' {
      assert s[i + (k - i)] == name[k - i];
    }
  }

  lemma TruncatedSlice(s: string, from: nat, end: nat, capacity: nat)
    requires from <= end <= |s|
    ensures Truncated(s[from..end], capacity) == s[from..from + (if capacity < end - from then capacity else end - from)]
  {
    if capacity < end - from {
      assert s[from..end][..capacity] == s[from..from + capacity];
    }
  }

  /** The buffer holds `v` followed by terminators only. */
  ghost predicate Holds(result: array<char>, v: string)
    reads result
  {
    |v| < result.Length && result[..|v|] == v && forall i | |v| <= i < result.Length :: result[i] == '\0'
  }

  /** `memset` to zero, then `strncpy` of the text and its terminator. */
  method CopyInto(result: array<char>, v: string)
    requires |v| < result.Length
    modifies result
    ensures Holds(result, v)
  {
    for i := 0 to result.Length
      invariant forall k | 0 <= k < i :: result[k] == '\0'
    {
      result[i] := '\0';
    }
    for i := 0 to |v|
      invariant forall k | 0 <= k < i :: result[k] == v[k]
      invariant forall k | i <= k < result.Length :: result[k] == '\0'
    {
      result[i] := v[i];
    }
  }

  /** `bctbx_param_string_get_value`; `result` is the caller's buffer, one place of it for the terminator. */
  method GetValue(paramString: string, name: string, result: array<char>) returns (found: bool)
    requires name != "" && result.Length >= 1
    modifies result
    ensures found <==> Value(paramString, name).Some?
    ensures Holds(result, if found then Truncated(Value(paramString, name).value, result.Length - 1) else "")
  {
    var pos := FindLastParam(paramString, name);
    found := pos.Some?;
    var copied := "";
    if found {
      copied := CutValue(paramString, pos.value, result.Length - 1);
    }
    CopyInto(result, copied);
  }

  /** The text behind the '=' and before the next ';', cut to the capacity. */
  method CutValue(paramString: string, pos: nat, capacity: nat) returns (copied: string)
    requires pos <= |paramString| && IndexOf(paramString, '=', pos) < |paramString|
    ensures copied == Truncated(ValueBehind(paramString, pos), capacity)
  {
    var equal := IndexOf(paramString, '=', pos);
    var end := IndexOf(paramString, ';', equal + 1);
    var length := if capacity < end - (equal + 1) then capacity else end - (equal + 1);
    copied := paramString[equal + 1..equal + 1 + length];
    TruncatedSlice(paramString, equal + 1, end, capacity);
  }

  // ---------------------------------------------------------------- rendered lists

  predicate Word(s: string) { forall i | 0 <= i < |s| :: !Gap(s[i]) && s[i] != '=' }
  predicate Unbroken(s: string) { forall i | 0 <= i < |s| :: !Gap(s[i]) }

  predicate RenderableList(bindings: seq<(string, string)>) {
    forall i | 0 <= i < |bindings| :: Word(bindings[i].0) && Unbroken(bindings[i].1)
  }

  function Rendered(bindings: seq<(string, string)>): string {
    if bindings == [] then ""
    else
      var entry := bindings[0].0 + "=" + bindings[0].1;
      if |bindings| == 1 then entry else entry + ";" + Rendered(bindings[1..])
  }

  /** The value of the last binding of `name` in the list. */
  function Lookup(bindings: seq<(string, string)>, name: string): Option<string> {
    if bindings == [] then None
    else
      var later := Lookup(bindings[1..], name);
      if later.Some? then later
      else if bindings[0].0 == name then Some(bindings[0].1) else None
  }

  lemma WordIsSearchable(name: string)
    requires Word(name) && name != ""
    ensures Searchable(name)
  {
  }

  /** The text starts with "key=value", ended by ';' or by the end of the text. */
  predicate StartsWithEntry(s: string, key: string, value: string) {
    var end := |key| + 1 + |value|;
    && end <= |s|
    && OccursAt(s, key, 0) && s[|key|] == '=' && OccursAt(s, value, |key| + 1)
    && (end < |s| ==> s[end] == ';')
  }

  /** Within the first entry a name is bound only at its start, and only if it is the key. */
  lemma BindingInEntry(s: string, key: string, value: string, name: string, i: nat)
    requires StartsWithEntry(s, key, value) && Word(key) && Unbroken(value) && Word(name) && name != ""
    requires i <= |key| + 1 + |value|
    ensures BindsAt(s, name, i) <==> i == 0 && key == name
  {
    if i > 0 {
      EntryIsUnbroken(s, key, value, i - 1);
    } else {
      FirstEqual(s, key, 0);
      if BindsAt(s, name, 0) {
        FirstEqual(s, name, 0);
        assert forall k | 0 <= k < |name| :: key[k] == s[0 + k] == name[k];
        assert key == name;
      }
    }
  }

  lemma EntryIsUnbroken(s: string, key: string, value: string, i: nat)
    requires StartsWithEntry(s, key, value) && Word(key) && Unbroken(value) && i < |key| + 1 + |value|
    ensures !Gap(s[i])
  {
    if i < |key| {
      assert s[0 + i] == key[i];
    } else if i > |key| {
      assert s[(|key| + 1) + (i - |key| - 1)] == value[i - |key| - 1];
    }
  }

  lemma {:induction false} FirstEqual(s: string, word: string, i: nat)
    requires Word(word) && OccursAt(s, word, 0) && |word| < |s| && s[|word|] == '=' && i <= |word|
    ensures IndexOf(s, '=', i) == |word|
    decreases |word| - i
  {
    if i < |word| {
      assert s[0 + i] == word[i];
      FirstEqual(s, word, i + 1);
    }
  }

  lemma {:induction false} EndOfValue(s: string, key: string, value: string, i: nat)
    requires StartsWithEntry(s, key, value) && Word(key) && Unbroken(value) && i <= |key| + 1 + |value|
    ensures IndexOf(s, ';', i) == |key| + 1 + |value|
    decreases |key| + 1 + |value| - i
  {
    if i < |key| + 1 + |value| {
      EntryIsUnbroken(s, key, value, i);
      EndOfValue(s, key, value, i + 1);
    }
  }

  lemma ValueInEntry(s: string, key: string, value: string)
    requires StartsWithEntry(s, key, value) && Word(key) && Unbroken(value)
    ensures IndexOf(s, '=', 0) < |s| && ValueBehind(s, 0) == value
  {
    FirstEqual(s, key, 0);
    EndOfValue(s, key, value, |key| + 1);
    var v := s[|key| + 1..|key| + 1 + |value|];
    assert forall k | 0 <= k < |value| :: v[k] == s[(|key| + 1) + k] == value[k];
    assert v == value;
  }

  /** Behind a gap, bindings are those of the rest of the text. */
  lemma ShiftedBinding(s: string, k: nat, rest: string, name: string, i: nat)
    requires Behind(s, k, rest) && k > 0 && s[k - 1] == ';'
    ensures BindsAt(s, name, k + i) <==> BindsAt(rest, name, i)
  {
    OccursBehind(s, k, rest, name, i);
    assert i + |name| < |rest| ==> s[k + (i + |name|)] == rest[i + |name|];
    assert 0 < i <= |rest| ==> s[k + (i - 1)] == rest[i - 1];
  }

  lemma ShiftedBindings(s: string, k: nat, rest: string, name: string, lo: nat)
    requires Behind(s, k, rest) && k > 0 && s[k - 1] == ';' && NoBindings(rest, name, lo, |rest|)
    ensures NoBindings(s, name, k + lo, |s|)
  {
    forall j: nat | k + lo <= j < |s| ensures !BindsAt(s, name, j) {
      ShiftedBinding(s, k, rest, name, j - k);
    }
  }

  lemma {:induction false} ShiftedIndex(s: string, k: nat, rest: string, c: char, i: nat)
    requires Behind(s, k, rest) && i <= |rest|
    ensures IndexOf(s, c, k + i) == k + IndexOf(rest, c, i)
    decreases |rest| - i
  {
    if i < |rest| {
      assert s[k + i] == rest[i];
      if rest[i] != c {
        ShiftedIndex(s, k, rest, c, i + 1);
      }
    }
  }

  lemma ShiftedValue(s: string, k: nat, rest: string, i: nat)
    requires Behind(s, k, rest) && i <= |rest| && IndexOf(rest, '=', i) < |rest|
    ensures IndexOf(s, '=', k + i) < |s| && ValueBehind(s, k + i) == ValueBehind(rest, i)
  {
    ShiftedIndex(s, k, rest, '=', i);
    var e := IndexOf(rest, '=', i) + 1;
    ShiftedIndex(s, k, rest, ';', e);
    SameSlice(s, k, rest, e, IndexOf(rest, ';', e));
  }

  lemma SameSlice(s: string, k: nat, rest: string, lo: nat, hi: nat)
    requires Behind(s, k, rest) && lo <= hi <= |rest|
    ensures s[k + lo..k + hi] == rest[lo..hi]
  {
    var a, b := s[k + lo..k + hi], rest[lo..hi];
    forall j | 0 <= j < hi - lo ensures a[j] == b[j] {
      assert s[k + (lo + j)] == rest[lo + j];
    }
  }

  /** The shape of a rendered list: its first entry, then the rendering of the others. */
  predicate Renders(s: string, bindings: seq<(string, string)>)
    decreases |bindings|
  {
    if bindings == [] then s == ""
    else
      var end := |bindings[0].0| + 1 + |bindings[0].1|;
      && StartsWithEntry(s, bindings[0].0, bindings[0].1)
      && (|bindings| == 1 ==> |s| == end)
      && (|bindings| > 1 ==> end < |s| && Renders(s[end + 1..], bindings[1..]))
  }

  lemma {:induction false} RenderedShape(bindings: seq<(string, string)>)
    ensures Renders(Rendered(bindings), bindings)
    decreases |bindings|
  {
    if bindings != [] {
      var s, key, value := Rendered(bindings), bindings[0].0, bindings[0].1;
      if |bindings| > 1 {
        RenderedShape(bindings[1..]);
        ConcatShape(key, value, ";" + Rendered(bindings[1..]));
        assert s == key + "=" + value + (";" + Rendered(bindings[1..]));
        assert s[|key| + 1 + |value| + 1..] == Rendered(bindings[1..]);
      } else {
        ConcatShape(key, value, "");
        assert s == key + "=" + value + "";
      }
    }
  }

  lemma ConcatShape(key: string, value: string, tail: string)
    requires tail == "" || tail[0] == ';'
    ensures
      var s := key + "=" + value + tail;
      StartsWithEntry(s, key, value) && Behind(s, |key| + 1 + |value|, tail)
  {
  }

  /** A binding behind the first entry decides the lookup. */
  lemma LaterEntry(s: string, k: nat, rest: string, name: string, i: nat) returns (r: Option<nat>)
    requires Behind(s, k, rest) && k > 0 && s[k - 1] == ';'
    requires IsLastBinding(rest, name, Some(i)) && i <= |rest| && IndexOf(rest, '=', i) < |rest|
    ensures r == Some(k + i) && IsLastBinding(s, name, r)
    ensures IndexOf(s, '=', k + i) < |s| && ValueBehind(s, k + i) == ValueBehind(rest, i)
  {
    ShiftedBindings(s, k, rest, name, i + 1);
    ShiftedBinding(s, k, rest, name, i);
    ShiftedValue(s, k, rest, i);
    r := Some(k + i);
  }

  /** No binding behind the first entry: the lookup is decided by that entry. */
  lemma LastEntry(s: string, key: string, value: string, name: string) returns (r: Option<nat>)
    requires StartsWithEntry(s, key, value) && Word(key) && Unbroken(value) && Word(name) && name != ""
    requires NoBindings(s, name, |key| + 1 + |value| + 1, |s|)
    ensures r == if key == name then Some(0) else None
    ensures IsLastBinding(s, name, r)
    ensures IndexOf(s, '=', 0) < |s| && ValueBehind(s, 0) == value
  {
    forall i: nat | i <= |key| + 1 + |value| ensures BindsAt(s, name, i) <==> i == 0 && key == name {
      BindingInEntry(s, key, value, name, i);
    }
    ValueInEntry(s, key, value);
    r := if key == name then Some(0) else None;
  }

  /** `r` is the last binding of `name` in `s`, and its value is `v`. */
  ghost predicate Finds(s: string, name: string, r: Option<nat>, v: Option<string>) {
    && IsLastBinding(s, name, r)
    && match r
       case None => v.None?
       case Some(i) => i <= |s| && IndexOf(s, '=', i) < |s| && v == Some(ValueBehind(s, i))
  }

  lemma {:induction false} RenderedBinding(s: string, bindings: seq<(string, string)>, name: string) returns (r: Option<nat>)
    requires Renders(s, bindings) && RenderableList(bindings) && Word(name) && name != ""
    ensures Finds(s, name, r, Lookup(bindings, name))
    decreases |bindings|
  {
    if bindings == [] {
      r := None;
    } else if |bindings| == 1 {
      r := LastEntry(s, bindings[0].0, bindings[0].1, name);
    } else {
      var k := |bindings[0].0| + 1 + |bindings[0].1| + 1;
      var r' := RenderedBinding(s[k..], bindings[1..], name);
      r := FirstEntry(s, bindings[0].0, bindings[0].1, s[k..], name, r', Lookup(bindings[1..], name));
    }
  }

  /** The lookup in an entry followed by a text: what the text binds, else what the entry binds. */
  lemma FirstEntry(s: string, key: string, value: string, rest: string, name: string,
                   r': Option<nat>, v': Option<string>) returns (r: Option<nat>)
    requires StartsWithEntry(s, key, value) && Word(key) && Unbroken(value) && Word(name) && name != ""
    requires |key| + 1 + |value| < |s| && Behind(s, |key| + 1 + |value| + 1, rest) && Finds(rest, name, r', v')
    ensures Finds(s, name, r, if v'.Some? then v' else if key == name then Some(value) else None)
  {
    var k := |key| + 1 + |value| + 1;
    if r'.Some? {
      r := LaterEntry(s, k, rest, name, r'.value);
    } else {
      ShiftedBindings(s, k, rest, name, 0);
      r := LastEntry(s, key, value, name);
    }
  }

  /** Main result: looking a name up in a rendered list gives the value of its last binding. */
  lemma LookupInRenderedList(bindings: seq<(string, string)>, name: string)
    requires RenderableList(bindings) && Word(name) && name != ""
    ensures Value(Rendered(bindings), name) == Lookup(bindings, name)
  {
    var s := Rendered(bindings);
    RenderedShape(bindings);
    var r := RenderedBinding(s, bindings, name);
    WordIsSearchable(name);
    LastSearchedIsLastBinding(s, 0, name);
    LastBindingIsUnique(s, name, r, LastSearched(s, 0, name));
  }

  lemma LastBindingIsUnique(s: string, name: string, a: Option<nat>, b: Option<nat>)
    requires IsLastBinding(s, name, a) && IsLastBinding(s, name, b)
    ensures a == b
  {
    if a.Some? && b.Some? {
      assert a.value <= b.value <= a.value;
    }
  }
}
