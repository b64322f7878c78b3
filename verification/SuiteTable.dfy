/** The table of test suites (tester.c): a growing array kept in descending average time. */
module SuiteTable {
  import opened StableSort

  datatype Suite = Suite(name: string, averageTime: int)

  /** The table's order: slower suites first, equals in the order they were added. */
  predicate SlowerFirst(a: Suite, b: Suite) { a.averageTime > b.averageTime }

  lemma SlowerFirstIsOrder()
    ensures StrictWeakOrder(SlowerFirst)
  {
  }

  /** `r` is `s` with `x` put in at `p` and the rest moved one place up. */
  predicate PutIn<T(==)>(r: seq<T>, s: seq<T>, x: T, p: nat) {
    && |r| == |s| + 1 && p <= |s| && r[p] == x
    && (forall k | 0 <= k < p :: r[k] == s[k])
    && (forall k | p < k <= |s| :: r[k] == s[k - 1])
  }

  /** Insertion opens a gap in front of the first suite that belongs behind. */
  lemma {:induction false} InsertPutsIn<T>(s: seq<T>, x: T, before: Before<T>, p: nat)
    requires p <= |s| && (p < |s| ==> before(x, s[p])) && forall k | 0 <= k < p :: !before(x, s[k])
    ensures PutIn(Insert(s, x, before), s, x, p)
    decreases p
  {
    if p == 0 {
      assert Insert(s, x, before) == [x] + s;
      PutInFront(s, x);
    } else {
      assert !before(x, s[0]);
      InsertPutsIn(s[1..], x, before, p - 1);
      PutInCons(s[0], s[1..], Insert(s[1..], x, before), x, p - 1);
      assert s == [s[0]] + s[1..];
    }
  }

  lemma PutInFront<T>(s: seq<T>, x: T)
    ensures PutIn([x] + s, s, x, 0)
  {
  }

  lemma PutInCons<T>(h: T, t: seq<T>, r: seq<T>, x: T, p: nat)
    requires PutIn(r, t, x, p)
    ensures PutIn([h] + r, [h] + t, x, p + 1)
  {
  }

  lemma PutInIsUnique<T>(a: seq<T>, b: seq<T>, s: seq<T>, x: T, p: nat)
    requires PutIn(a, s, x, p) && PutIn(b, s, x, p)
    ensures a == b
  {
  }

  lemma SortedPrefix(added: seq<Suite>, i: nat)
    requires i < |added|
    ensures Sort(added[..i + 1], SlowerFirst) == Insert(Sort(added[..i], SlowerFirst), added[i], SlowerFirst)
  {
    assert added[..i + 1] == added[..i] + [added[i]];
    SortExtended(added[..i], added[i], SlowerFirst);
  }

  class Table {
    var suites: array?<Suite>
    var count: nat

    /** The block always has room for one more suite: it is allocated for ten, and again by ten
        whenever the count reaches a multiple of ten. */
    ghost predicate Valid()
      reads this
    {
      if suites == null then count == 0 else suites.Length % 10 == 0 && suites.Length - 10 <= count < suites.Length
    }

    ghost function Contents(): seq<Suite>
      reads this, suites
      requires Valid()
    {
      if suites == null then [] else suites[..count]
    }

    constructor ()
      ensures Valid() && Contents() == []
    {
      suites, count := null, 0;
    }

    /** The place in front of the first suite faster than `suite`, or behind them all. */
    method Locate(suite: Suite) returns (at: nat)
      requires Valid() && suites != null
      ensures at <= count && (at < count ==> SlowerFirst(suite, suites[at]))
      ensures forall k | 0 <= k < at :: !SlowerFirst(suite, suites[k])
    {
      at := 0;
      while at < count && suites[at].averageTime >= suite.averageTime
        invariant 0 <= at <= count
        invariant forall k | 0 <= k < at :: !SlowerFirst(suite, suites[k])
      {
        at := at + 1;
      }
    }

    /** Moves the suites from `at` on one place up, from the last one down, and fills the gap. */
    method PutAt(at: nat, suite: Suite)
      requires Valid() && suites != null && at <= count
      modifies suites
      ensures PutIn(suites[..count + 1], old(suites[..count]), suite, at)
    {
      if at < count {
        var move := count;
        while move >= at + 1
          invariant at <= move <= count
          invariant forall k | 0 <= k <= move && k < count :: suites[k] == old(suites[k])
          invariant forall k | move < k <= count :: suites[k] == old(suites[k - 1])
        {
          suites[move] := suites[move - 1];
          move := move - 1;
        }
      }
      suites[at] := suite;
    }

    /** `malloc` for ten suites on first use. */
    method Allocate()
      requires Valid()
      modifies `suites
      ensures Valid() && suites != null && Contents() == old(Contents())
      ensures suites != old(suites) ==> fresh(suites)
    {
      if suites == null {
        suites := new Suite[10];
      }
    }

    method InsertSuite(suite: Suite)
      requires Valid() && suites != null
      modifies suites
      ensures suites[..count + 1] == Insert(old(suites[..count]), suite, SlowerFirst)
    {
      ghost var earlier := suites[..count];
      var at := Locate(suite);
      InsertPutsIn(earlier, suite, SlowerFirst, at);
      PutAt(at, suite);
      PutInIsUnique(suites[..count + 1], Insert(earlier, suite, SlowerFirst), earlier, suite, at);
    }

    /** `realloc` by ten when the count has reached a multiple of ten. */
    method Grow()
      requires suites != null && count > 0
      requires suites.Length % 10 == 0 && suites.Length - 10 < count <= suites.Length
      modifies `suites
      ensures Valid() && suites != null && suites[..count] == old(suites[..count])
      ensures suites != old(suites) ==> fresh(suites)
    {
      if count % 10 == 0 {
        var current, n := suites, count;
        var larger := new Suite[n + 10];
        for i := 0 to n
          invariant suites == current && count == n
          invariant forall k | 0 <= k < i :: larger[k] == current[k]
        {
          larger[i] := current[i];
        }
        suites := larger;
      }
    }

    /** `bc_tester_add_suite`. */
    method AddSuite(suite: Suite)
      requires Valid()
      modifies this, suites
      ensures Valid() && suites != null && count == old(count) + 1
      ensures Contents() == Insert(old(Contents()), suite, SlowerFirst)
      ensures suites != old(suites) ==> fresh(suites)
    {
      Allocate();
      ghost var earlier := Contents();
      InsertSuite(suite);
      ghost var later := suites[..count + 1];
      count := count + 1;
      Grow();
      assert Contents() == later == Insert(earlier, suite, SlowerFirst);
    }

    /** Any sequence of additions to an empty table. */
    method AddAll(added: seq<Suite>)
      requires Valid() && count == 0
      modifies this, suites
      ensures Valid()
      ensures IsStableSortOf(Contents(), added, SlowerFirst) && multiset(Contents()) == multiset(added)
    {
      for i := 0 to |added|
        invariant Valid() && Contents() == Sort(added[..i], SlowerFirst)
        invariant suites == old(suites) || fresh(suites)
      {
        SortedPrefix(added, i);
        AddSuite(added[i]);
      }
      assert added[..|added|] == added;
      SlowerFirstIsOrder();
      SortIsStable(added, SlowerFirst);
      SortIsPermutation(added, SlowerFirst);
    }
  }

  function OfTime(s: seq<Suite>, time: int): seq<Suite> { Filter(s, (x: Suite) => x.averageTime == time) }

  /** Main result, spelled out: the table after any additions is a permutation of them in
      descending average time, and suites of equal time keep the order of their addition. */
  lemma TableOrder(added: seq<Suite>)
    ensures
      var table := Sort(added, SlowerFirst);
      && multiset(table) == multiset(added)
      && (forall i, j | 0 <= i < j < |table| :: table[i].averageTime >= table[j].averageTime)
      && (forall time: int :: OfTime(table, time) == OfTime(added, time))
  {
    var table := Sort(added, SlowerFirst);
    SlowerFirstIsOrder();
    SortIsStable(added, SlowerFirst);
    SortIsPermutation(added, SlowerFirst);
    forall time: int ensures OfTime(table, time) == OfTime(added, time) {
      var x := Suite("", time);
      assert Peers(table, x, SlowerFirst) == Peers(added, x, SlowerFirst);
      SameFilter(table, y => Peer(SlowerFirst, x, y), (z: Suite) => z.averageTime == time);
      SameFilter(added, y => Peer(SlowerFirst, x, y), (z: Suite) => z.averageTime == time);
    }
  }

  lemma {:induction false} SameFilter<T>(s: seq<T>, f: T -> bool, g: T -> bool)
    requires forall x | x in s :: f(x) == g(x)
    ensures Filter(s, f) == Filter(s, g)
  {
    if s != [] {
      SameFilter(s[1..], f, g);
    }
  }
}
