/** Substring search over byte strings: the behaviour of `std::string::find` and `strstr`
    for a non-empty needle, shared by the vCard codec and the parameter-string search. */
module Strings {
  import opened Options

  predicate OccursAt(s: string, what: string, i: nat) {
    i + |what| <= |s| && forall k | 0 <= k < |what| :: s[i + k] == what[k]
  }

  lemma OccursAsSlice(s: string, what: string, i: nat)
    requires i <= |s|
    ensures OccursAt(s, what, i) <==> what <= s[i..]
  {
    if what <= s[i..] {
      assert forall k | 0 <= k < |what| :: s[i + k] == s[i..][k] == what[k];
    }
  }

  /** `hit` is the leftmost occurrence of `what` at or after `pos`, if there is one. */
  ghost predicate IsFirstFrom(s: string, what: string, pos: nat, hit: Option<nat>) {
    match hit
    case Some(i) => pos <= i && OccursAt(s, what, i) && forall j: nat :: pos <= j < i ==> !OccursAt(s, what, j)
    case None => forall j: nat :: pos <= j ==> !OccursAt(s, what, j)
  }

  /** `std::string::find` and `strstr`: the leftmost occurrence from a position on. */
  function FirstFrom(s: string, what: string, pos: nat): (r: Option<nat>)
    ensures r.Some? ==> pos <= r.value <= |s| - |what|
    decreases |s| - pos
  {
    if pos + |what| > |s| then None
    else if OccursAt(s, what, pos) then Some(pos)
    else FirstFrom(s, what, pos + 1)
  }

  lemma {:induction false} FirstFromIsFirst(s: string, what: string, pos: nat)
    ensures IsFirstFrom(s, what, pos, FirstFrom(s, what, pos))
    decreases |s| - pos
  {
    if pos + |what| <= |s| && !OccursAt(s, what, pos) {
      FirstFromIsFirst(s, what, pos + 1);
    }
  }

  method Find(s: string, what: string, pos: nat) returns (r: Option<nat>)
    ensures r == FirstFrom(s, what, pos)
  {
    var i := pos;
    while i + |what| <= |s|
      invariant FirstFrom(s, what, i) == FirstFrom(s, what, pos)
    {
      if OccursAt(s, what, i) {
        return Some(i);
      }
      i := i + 1;
    }
    return None;
  }

  /** The rightmost occurrence of `what`: `std::string::rfind`. */
  method FindLast(s: string, what: string) returns (r: Option<nat>)
    ensures r.Some? ==> OccursAt(s, what, r.value) && forall j: nat :: r.value < j ==> !OccursAt(s, what, j)
    ensures r.None? ==> forall j: nat :: !OccursAt(s, what, j)
  {
    var i := |s| + 1;
    while i > 0
      invariant 0 <= i <= |s| + 1
      invariant forall j: nat :: i <= j ==> !OccursAt(s, what, j)
    {
      i := i - 1;
      if OccursAt(s, what, i) {
        return Some(i);
      }
    }
    return None;
  }

  /** `t` is what stands in `s` from position `k` on. */
  predicate Behind(s: string, k: nat, t: string) {
    |s| == k + |t| && forall j | 0 <= j < |t| :: s[k + j] == t[j]
  }

  /** An occurrence survives dropping a prefix, shifted by its length. */
  lemma OccursBehind(s: string, k: nat, t: string, what: string, i: nat)
    requires Behind(s, k, t)
    ensures OccursAt(t, what, i) <==> OccursAt(s, what, k + i)
  {
    if i + |what| <= |t| {
      assert forall j | 0 <= j < |what| :: t[i + j] == what[j] <==> s[k + (i + j)] == what[j];
    }
  }

  lemma OccursInSuffix(s: string, what: string, k: nat, i: nat)
    requires k <= |s|
    ensures OccursAt(s[k..], what, i) <==> OccursAt(s, what, k + i)
  {
    OccursBehind(s, k, s[k..], what, i);
  }

  /** `strchr` from a position: the first index holding `c`, or the end of the text. */
  function IndexOf(s: string, c: char, pos: nat): (p: nat)
    requires pos <= |s|
    ensures pos <= p <= |s|
    ensures p < |s| ==> s[p] == c
    ensures forall i | pos <= i < p :: s[i] != c
    decreases |s| - pos
  {
    if pos == |s| || s[pos] == c then pos else IndexOf(s, c, pos + 1)
  }
}
