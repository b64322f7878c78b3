/** Stable sorting under a strict weak order: the behaviour of `std::list::sort` and of insertion
    behind equals, shared by the suite table and the property lists of a card. */
module StableSort {

  type Before<!T> = (T, T) -> bool

  ghost predicate StrictWeakOrder<T(!new)>(before: Before<T>) {
    && (forall x :: !before(x, x))
    && (forall x, y, z :: before(x, y) && before(y, z) ==> before(x, z))
    && (forall x, y, z :: before(x, y) ==> before(x, z) || before(z, y))
  }

  predicate Peer<T>(before: Before<T>, x: T, y: T) { !before(x, y) && !before(y, x) }

  predicate Sorted<T>(s: seq<T>, before: Before<T>) {
    forall i, j | 0 <= i < j < |s| :: !before(s[j], s[i])
  }

  function Filter<T>(s: seq<T>, keep: T -> bool): (r: seq<T>) {
    if s == [] then [] else (if keep(s[0]) then [s[0]] else []) + Filter(s[1..], keep)
  }

  /** The elements ranked with `x`, in their order. */
  function Peers<T>(s: seq<T>, x: T, before: Before<T>): seq<T> { Filter(s, y => Peer(before, x, y)) }

  ghost predicate SamePeers<T(!new)>(a: seq<T>, b: seq<T>, before: Before<T>) {
    forall x :: Peers(a, x, before) == Peers(b, x, before)
  }

  /** The specification: ordered, and every rank keeps its elements in their original order. */
  ghost predicate IsStableSortOf<T(!new)>(r: seq<T>, s: seq<T>, before: Before<T>) {
    Sorted(r, before) && SamePeers(r, s, before)
  }

  /** Insertion in front of the first element that belongs behind `x`. */
  function Insert<T>(s: seq<T>, x: T, before: Before<T>): (r: seq<T>) {
    if s == [] then [x]
    else if before(x, s[0]) then [x] + s
    else [s[0]] + Insert(s[1..], x, before)
  }

  function InsertAll<T>(sorted: seq<T>, s: seq<T>, before: Before<T>): seq<T>
    decreases |s|
  {
    if s == [] then sorted else InsertAll(Insert(sorted, s[0], before), s[1..], before)
  }

  /** Insertion of the elements one after the other. */
  function Sort<T>(s: seq<T>, before: Before<T>): (r: seq<T>) { InsertAll([], s, before) }

  lemma {:induction false} InsertAppended<T>(sorted: seq<T>, s: seq<T>, x: T, before: Before<T>)
    ensures InsertAll(sorted, s + [x], before) == Insert(InsertAll(sorted, s, before), x, before)
    decreases |s|
  {
    if s == [] {
      assert (s + [x])[1..] == [];
    } else {
      assert (s + [x])[1..] == s[1..] + [x];
      InsertAppended(Insert(sorted, s[0], before), s[1..], x, before);
    }
  }

  lemma SortExtended<T>(s: seq<T>, x: T, before: Before<T>)
    ensures Sort(s + [x], before) == Insert(Sort(s, before), x, before)
  {
    InsertAppended([], s, x, before);
  }

  lemma {:induction false} InsertIsPermutation<T>(s: seq<T>, x: T, before: Before<T>)
    ensures multiset(Insert(s, x, before)) == multiset(s) + multiset{x}
  {
    if s != [] {
      InsertIsPermutation(s[1..], x, before);
      assert s == [s[0]] + s[1..];
    }
  }

  lemma {:induction false} InsertAllIsPermutation<T>(sorted: seq<T>, s: seq<T>, before: Before<T>)
    ensures multiset(InsertAll(sorted, s, before)) == multiset(sorted) + multiset(s)
    decreases |s|
  {
    if s != [] {
      InsertIsPermutation(sorted, s[0], before);
      InsertAllIsPermutation(Insert(sorted, s[0], before), s[1..], before);
      assert s == [s[0]] + s[1..];
    }
  }

  lemma SortIsPermutation<T>(s: seq<T>, before: Before<T>)
    ensures multiset(Sort(s, before)) == multiset(s)
  {
    InsertAllIsPermutation([], s, before);
  }

  // ---------------------------------------------------------------- filters

  lemma {:induction false} FilterMembers<T>(s: seq<T>, keep: T -> bool)
    ensures forall x | x in Filter(s, keep) :: x in s && keep(x)
    ensures forall x | x in s && keep(x) :: x in Filter(s, keep)
  {
    if s != [] {
      FilterMembers(s[1..], keep);
    }
  }

  lemma {:induction false} FilterConcat<T>(a: seq<T>, b: seq<T>, keep: T -> bool)
    ensures Filter(a + b, keep) == Filter(a, keep) + Filter(b, keep)
  {
    if a == [] {
      assert a + b == b;
    } else {
      var head := if keep(a[0]) then [a[0]] else [];
      FilterConcat(a[1..], b, keep);
      ConsConcat(a, b);
      FilterHead(a[0], a[1..] + b, keep);
      Regroup(head, Filter(a[1..], keep), Filter(b, keep));
    }
  }

  lemma ConsConcat<T>(a: seq<T>, b: seq<T>)
    requires a != []
    ensures a + b == [a[0]] + (a[1..] + b)
  {
  }

  lemma Regroup<T>(a: seq<T>, b: seq<T>, c: seq<T>)
    ensures a + (b + c) == (a + b) + c
  {
  }

  lemma FilterHead<T>(x: T, t: seq<T>, keep: T -> bool)
    ensures Filter([x] + t, keep) == (if keep(x) then [x] else []) + Filter(t, keep)
  {
    assert ([x] + t)[1..] == t;
  }

  lemma PeersConcat<T>(a: seq<T>, b: seq<T>, x: T, before: Before<T>)
    ensures Peers(a + b, x, before) == Peers(a, x, before) + Peers(b, x, before)
  {
    FilterConcat(a, b, y => Peer(before, x, y));
  }

  lemma {:induction false} FilterCommutes<T>(s: seq<T>, f: T -> bool, g: T -> bool)
    ensures Filter(Filter(s, f), g) == Filter(Filter(s, g), f)
  {
    if s != [] {
      var x, t := s[0], s[1..];
      FilterCommutes(t, f, g);
      FilterConcat(if f(x) then [x] else [], Filter(t, f), g);
      FilterConcat(if g(x) then [x] else [], Filter(t, g), f);
    }
  }

  lemma {:induction false} FilterAll<T>(s: seq<T>, keep: T -> bool)
    requires forall x | x in s :: keep(x)
    ensures Filter(s, keep) == s
  {
    if s != [] {
      FilterAll(s[1..], keep);
    }
  }

  lemma {:induction false} FilterNone<T>(s: seq<T>, keep: T -> bool)
    requires forall x | x in s :: !keep(x)
    ensures Filter(s, keep) == []
  {
    if s != [] {
      FilterNone(s[1..], keep);
    }
  }

  lemma {:induction false} FilterSorted<T>(s: seq<T>, keep: T -> bool, before: Before<T>)
    requires Sorted(s, before)
    ensures Sorted(Filter(s, keep), before)
  {
    if s != [] {
      var t := s[1..];
      FilterSorted(t, keep, before);
      var r := Filter(t, keep);
      FilterMembers(t, keep);
      forall y | y in r ensures !before(y, s[0]) {
        var k :| 0 <= k < |t| && t[k] == y;
        assert s[k + 1] == y;
      }
    }
  }

  // ---------------------------------------------------------------- insertion

  lemma {:induction false} InsertSorted<T(!new)>(s: seq<T>, x: T, before: Before<T>)
    requires StrictWeakOrder(before) && Sorted(s, before)
    ensures Sorted(Insert(s, x, before), before)
  {
    if s != [] {
      if before(x, s[0]) {
        BehindHead(s, x, before);
      } else {
        InsertSorted(s[1..], x, before);
        var r := Insert(s[1..], x, before);
        InsertIsPermutation(s[1..], x, before);
        forall e | e in r ensures !before(e, s[0]) {
          assert e in multiset(r);
        }
      }
    }
  }

  lemma BehindHead<T(!new)>(s: seq<T>, x: T, before: Before<T>)
    requires StrictWeakOrder(before) && Sorted(s, before) && s != [] && before(x, s[0])
    ensures forall k | 0 <= k < |s| :: before(x, s[k])
  {
    forall k | 0 <= k < |s| ensures before(x, s[k]) {
      assert k > 0 ==> !before(s[k], s[0]);
    }
  }

  lemma {:induction false} InsertKeepsPeers<T(!new)>(s: seq<T>, x: T, y: T, before: Before<T>)
    requires StrictWeakOrder(before) && Sorted(s, before)
    ensures Peers(Insert(s, x, before), y, before) == Peers(s + [x], y, before)
    decreases |s|
  {
    if s == [] {
      assert s + [x] == [x];
    } else if before(x, s[0]) {
      BehindHead(s, x, before);
      SwapWithHigher(s, x, y, before);
    } else {
      var t := s[1..];
      InsertKeepsPeers(t, x, y, before);
      assert s + [x] == [s[0]] + (t + [x]);
      PeersConcat([s[0]], Insert(t, x, before), y, before);
      PeersConcat([s[0]], t + [x], y, before);
    }
  }

  lemma InsertIsStable<T(!new)>(s: seq<T>, x: T, before: Before<T>)
    requires StrictWeakOrder(before) && Sorted(s, before)
    ensures IsStableSortOf(Insert(s, x, before), s + [x], before)
  {
    InsertSorted(s, x, before);
    forall y ensures Peers(Insert(s, x, before), y, before) == Peers(s + [x], y, before) {
      InsertKeepsPeers(s, x, y, before);
    }
  }

  /** An element ranked before all others can stand on either side of them. */
  lemma SwapWithHigher<T(!new)>(s: seq<T>, x: T, y: T, before: Before<T>)
    requires StrictWeakOrder(before) && forall k | 0 <= k < |s| :: before(x, s[k])
    ensures Peers([x] + s, y, before) == Peers(s + [x], y, before)
  {
    var keep := z => Peer(before, y, z);
    FilterConcat([x], s, keep);
    FilterConcat(s, [x], keep);
    if Peer(before, y, x) {
      FilterNone(s, keep);
    }
  }

  lemma {:induction false} SortIsStable<T(!new)>(s: seq<T>, before: Before<T>)
    requires StrictWeakOrder(before)
    ensures IsStableSortOf(Sort(s, before), s, before)
  {
    if s != [] {
      var t, x := s[..|s| - 1], s[|s| - 1];
      assert s == t + [x];
      SortIsStable(t, before);
      SortExtended(t, x, before);
      InsertIsStable(Sort(t, before), x, before);
      SamePeersAppended(Sort(t, before), t, x, before);
      SamePeersTrans(Sort(s, before), Sort(t, before) + [x], s, before);
    }
  }

  lemma SamePeersAppended<T(!new)>(a: seq<T>, b: seq<T>, x: T, before: Before<T>)
    requires SamePeers(a, b, before)
    ensures SamePeers(a + [x], b + [x], before)
  {
    forall y ensures Peers(a + [x], y, before) == Peers(b + [x], y, before) {
      PeersConcat(a, [x], y, before);
      PeersConcat(b, [x], y, before);
      assert Peers(a, y, before) == Peers(b, y, before);
    }
  }

  lemma SamePeersTrans<T(!new)>(a: seq<T>, b: seq<T>, c: seq<T>, before: Before<T>)
    requires SamePeers(a, b, before) && SamePeers(b, c, before)
    ensures SamePeers(a, c, before)
  {
    forall y ensures Peers(a, y, before) == Peers(c, y, before) {
      assert Peers(a, y, before) == Peers(b, y, before) == Peers(c, y, before);
    }
  }

  // ---------------------------------------------------------------- uniqueness

  lemma PeersHead<T>(s: seq<T>, x: T, before: Before<T>)
    requires s != [] && Peer(before, x, s[0])
    ensures Peers(s, x, before) == [s[0]] + Peers(s[1..], x, before)
  {
  }

  lemma PeersAreMembers<T>(s: seq<T>, x: T, before: Before<T>)
    ensures forall y | y in Peers(s, x, before) :: y in s
  {
    FilterMembers(s, y => Peer(before, x, y));
  }

  /** Two stable sorts of the same list start alike. */
  lemma SameHead<T(!new)>(a: seq<T>, b: seq<T>, before: Before<T>)
    requires StrictWeakOrder(before) && Sorted(a, before) && Sorted(b, before)
    requires SamePeers(a, b, before)
    requires a != []
    ensures b != [] && a[0] == b[0]
  {
    var x := a[0];
    PeersHead(a, x, before);
    PeersAreMembers(b, x, before);
    assert x in Peers(b, x, before);
    var y := b[0];
    PeersHead(b, y, before);
    PeersAreMembers(a, y, before);
    assert y in Peers(a, y, before);
    assert !before(x, y) by {
      var k :| 0 <= k < |b| && b[k] == x;
    }
    assert !before(y, x) by {
      var k :| 0 <= k < |a| && a[k] == y;
    }
    PeersHead(b, x, before);
    assert Peers(a, x, before)[0] == Peers(b, x, before)[0];
  }

  lemma {:induction false} StableSortIsUnique<T(!new)>(a: seq<T>, b: seq<T>, before: Before<T>)
    requires StrictWeakOrder(before) && Sorted(a, before) && Sorted(b, before)
    requires SamePeers(a, b, before)
    ensures a == b
  {
    if a != [] {
      SameHead(a, b, before);
      forall x ensures Peers(a[1..], x, before) == Peers(b[1..], x, before) {
        assert Peers(a, x, before) == Peers(b, x, before);
        SameRest(Peers(a[1..], x, before), Peers(b[1..], x, before), if Peer(before, x, a[0]) then [a[0]] else []);
      }
      StableSortIsUnique(a[1..], b[1..], before);
    } else if b != [] {
      SameHead(b, a, before);
    }
  }

  lemma SameRest<T>(a: seq<T>, b: seq<T>, head: seq<T>)
    requires head + a == head + b
    ensures a == b
  {
    assert (head + a)[|head|..] == a && (head + b)[|head|..] == b;
  }

  /** Main result: any list that is ordered and keeps equals in place is the one `Sort` computes. */
  lemma AnyStableSortIsSort<T(!new)>(r: seq<T>, s: seq<T>, before: Before<T>)
    requires StrictWeakOrder(before) && IsStableSortOf(r, s, before)
    ensures r == Sort(s, before)
  {
    SortIsStable(s, before);
    assert SamePeers(r, Sort(s, before), before) by {
      forall x ensures Peers(r, x, before) == Peers(Sort(s, before), x, before) {
        assert Peers(r, x, before) == Peers(s, x, before) == Peers(Sort(s, before), x, before);
      }
    }
    StableSortIsUnique(r, Sort(s, before), before);
  }

  /** Sorting a list that is already sorted but for its last element. */
  lemma SortAppended<T(!new)>(s: seq<T>, x: T, before: Before<T>)
    requires StrictWeakOrder(before)
    ensures Sort(Sort(s, before) + [x], before) == Sort(s + [x], before)
  {
    SortIsStable(s, before);
    AnyStableSortIsSort(Sort(s, before), Sort(s, before), before);
    SortExtended(Sort(s, before), x, before);
    SortExtended(s, x, before);
  }

  /** Dropping elements before or after sorting is the same. */
  lemma SortFiltered<T(!new)>(s: seq<T>, keep: T -> bool, before: Before<T>)
    requires StrictWeakOrder(before)
    ensures Filter(Sort(s, before), keep) == Sort(Filter(s, keep), before)
  {
    SortIsStable(s, before);
    var r := Filter(Sort(s, before), keep);
    FilterSorted(Sort(s, before), keep, before);
    forall x ensures Peers(r, x, before) == Peers(Filter(s, keep), x, before) {
      FilterCommutes(Sort(s, before), keep, y => Peer(before, x, y));
      FilterCommutes(s, keep, y => Peer(before, x, y));
      assert Peers(Sort(s, before), x, before) == Peers(s, x, before);
    }
    AnyStableSortIsSort(r, Filter(s, keep), before);
  }
}
