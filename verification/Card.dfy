/** The property container of a vCard (belcard.cpp): single-valued slots, PREF-sorted lists per
    kind, and one flat list of all properties that must agree with them. */
module Card {
  import opened Options
  import opened StableSort

  /** A property object: its identity together with its PREF parameter, which stays as it is while
      the object is in a card. */
  datatype Property = Property(id: nat, pref: Option<string>)

  // ---------------------------------------------------------------- the PREF order

  /** `operator<` of `std::string`. */
  predicate LexLess(a: string, b: string) {
    b != "" && (a == "" || a[0] < b[0] || (a[0] == b[0] && LexLess(a[1..], b[1..])))
  }

  lemma {:induction false} LexTrichotomy(a: string, b: string)
    ensures !LexLess(a, a)
    ensures LexLess(a, b) ==> !LexLess(b, a) && a != b
    ensures LexLess(a, b) || LexLess(b, a) || a == b
  {
    if a != "" {
      LexTrichotomy(a[1..], a[1..]);
      if b != "" {
        LexTrichotomy(a[1..], b[1..]);
        assert a == [a[0]] + a[1..] && b == [b[0]] + b[1..];
      }
    }
  }

  lemma {:induction false} LexTransitive(a: string, b: string, c: string)
    requires LexLess(a, b) && LexLess(b, c)
    ensures LexLess(a, c)
  {
    if a != "" && a[0] == b[0] == c[0] {
      LexTransitive(a[1..], b[1..], c[1..]);
    }
  }

  /** The texts agree up to `k`, where the first ends or has the smaller character. */
  predicate DiffersFirstAt(a: string, b: string, k: nat) {
    k <= |a| && k < |b| && (forall i | 0 <= i < k :: a[i] == b[i]) && (k < |a| ==> a[k] < b[k])
  }

  lemma {:induction false} LexByFirstDifference(a: string, b: string)
    ensures LexLess(a, b) <==> exists k: nat :: DiffersFirstAt(a, b, k)
  {
    if a == "" || b == "" {
      if b != "" { assert DiffersFirstAt(a, b, 0); }
    } else {
      LexByFirstDifference(a[1..], b[1..]);
      if a[0] < b[0] {
        assert DiffersFirstAt(a, b, 0);
      }
      if a[0] == b[0] {
        forall k: nat | DiffersFirstAt(a[1..], b[1..], k) ensures DiffersFirstAt(a, b, k + 1) {
          assert forall i | 0 <= i < k :: a[1..][i] == a[i + 1] && b[1..][i] == b[i + 1];
          assert forall i | 1 <= i < k + 1 :: a[i] == a[1..][i - 1] && b[i] == b[1..][i - 1];
        }
        forall k: nat | DiffersFirstAt(a, b, k) ensures k > 0 && DiffersFirstAt(a[1..], b[1..], k - 1) {
        }
      }
    }
  }

  /** `comparePropertiesUsingPrefParam`: by PREF as text, properties without PREF last. */
  predicate PreferredTo(a: Property, b: Property) {
    if a.pref.None? && b.pref.None? then false
    else if b.pref.None? then true
    else if a.pref.None? then false
    else LexLess(a.pref.value, b.pref.value)
  }

  lemma PreferredToIsOrder()
    ensures StrictWeakOrder(PreferredTo)
  {
    forall x: Property ensures !PreferredTo(x, x) {
      if x.pref.Some? {
        LexTrichotomy(x.pref.value, x.pref.value);
      }
    }
    forall x: Property, y: Property, z: Property | PreferredTo(x, y) && PreferredTo(y, z) ensures PreferredTo(x, z) {
      if z.pref.Some? {
        LexTransitive(x.pref.value, y.pref.value, z.pref.value);
      }
    }
    forall x: Property, y: Property, z: Property | PreferredTo(x, y)
      ensures PreferredTo(x, z) || PreferredTo(z, y)
    {
      if y.pref.Some? && z.pref.Some? {
        LexTrichotomy(x.pref.value, z.pref.value);
        if LexLess(z.pref.value, x.pref.value) {
          LexTransitive(z.pref.value, x.pref.value, y.pref.value);
        }
      }
    }
  }

  // ---------------------------------------------------------------- text order against numeric order

  predicate Digits(s: string) { forall i | 0 <= i < |s| :: '0' <= s[i] <= '9' }

  /** A number in decimal, without leading zeros. */
  predicate Decimal(s: string) { Digits(s) && s != "" && (|s| > 1 ==> s[0] != '0') }

  function Power(n: nat): (p: nat)
    ensures p >= 1
  {
    if n == 0 then 1 else 10 * Power(n - 1)
  }

  function Num(s: string): nat
    requires Digits(s)
  {
    if s == "" then 0 else (s[0] - '0') as int * Power(|s| - 1) + Num(s[1..])
  }

  lemma LeadingDigit(d: nat, e: nat, power: nat, m: nat, n: nat)
    requires d < e && m < power
    ensures d * power + m < e * power + n
  {
    assert (d + 1) * power <= e * power;
  }

  lemma {:induction false} NumBelow(s: string)
    requires Digits(s)
    ensures Num(s) < Power(|s|)
  {
    if s != "" {
      NumBelow(s[1..]);
      LeadingDigit((s[0] - '0') as int, 10, Power(|s| - 1), Num(s[1..]), 0);
    }
  }

  lemma NumAtLeast(s: string)
    requires Decimal(s) && |s| > 1
    ensures Power(|s| - 1) <= Num(s)
  {
    var d := (s[0] - '0') as int;
    assert 1 * Power(|s| - 1) <= d * Power(|s| - 1);
  }

  lemma {:induction false} PowerGrows(m: nat, n: nat)
    requires m <= n
    ensures Power(m) <= Power(n)
  {
    if m < n { PowerGrows(m, n - 1); }
  }

  /** Among texts of one length the two orders agree. */
  lemma {:induction false} SameLength(a: string, b: string)
    requires Digits(a) && Digits(b) && |a| == |b|
    ensures LexLess(a, b) <==> Num(a) < Num(b)
  {
    if a != "" {
      SameLength(a[1..], b[1..]);
      NumBelow(a[1..]);
      NumBelow(b[1..]);
      var power, d, e := Power(|a| - 1), (a[0] - '0') as int, (b[0] - '0') as int;
      if d < e {
        LeadingDigit(d, e, power, Num(a[1..]), Num(b[1..]));
      } else if e < d {
        LeadingDigit(e, d, power, Num(b[1..]), Num(a[1..]));
      }
    }
  }

  lemma ShorterIsLess(a: string, b: string)
    requires Decimal(a) && Decimal(b) && |a| < |b|
    ensures Num(a) < Num(b)
  {
    NumBelow(a);
    PowerGrows(|a|, |b| - 1);
    NumAtLeast(b);
  }

  /** The text order of texts of different length is decided by the common length. */
  lemma {:induction false} PrefixDecides(a: string, b: string)
    requires |a| < |b|
    ensures LexLess(a, b) <==> !LexLess(b[..|a|], a)
    ensures LexLess(b, a) <==> LexLess(b[..|a|], a)
  {
    if a != "" {
      PrefixDecides(a[1..], b[1..]);
      assert b[..|a|][1..] == b[1..][..|a[1..]|];
    }
  }

  /** The shorter text does not exceed the beginning of the longer one. */
  predicate TextIsNumeric(a: string, b: string) {
    if |a| < |b| then !LexLess(b[..|a|], a)
    else if |b| < |a| then !LexLess(a[..|b|], b)
    else true
  }

  lemma TextAgainstNumber(a: string, b: string)
    requires Decimal(a) && Decimal(b)
    ensures (LexLess(a, b) <==> Num(a) < Num(b)) <==> TextIsNumeric(a, b)
  {
    if |a| < |b| {
      ShorterIsLess(a, b);
      PrefixDecides(a, b);
    } else if |b| < |a| {
      ShorterIsLess(b, a);
      PrefixDecides(b, a);
    } else {
      SameLength(a, b);
    }
  }

  predicate Numbered(p: Property) { p.pref.Some? ==> Decimal(p.pref.value) }

  /** The order of section 5.3 of RFC 6350: the lower number is preferred, no PREF comes last. */
  predicate LowerNumber(a: Property, b: Property) {
    Number(a).Some? && (Number(b).Some? ==> Number(a).value < Number(b).value)
  }

  function Number(p: Property): Option<nat> {
    if p.pref.Some? && Decimal(p.pref.value) then Some(Num(p.pref.value)) else None
  }

  predicate ReadsAsNumber(a: Property, b: Property) {
    a.pref.Some? && b.pref.Some? ==> TextIsNumeric(a.pref.value, b.pref.value)
  }

  lemma PreferredAgainstNumber(a: Property, b: Property)
    requires Numbered(a) && Numbered(b)
    ensures (PreferredTo(a, b) <==> LowerNumber(a, b)) <==> ReadsAsNumber(a, b)
  {
    if a.pref.Some? && b.pref.Some? { TextAgainstNumber(a.pref.value, b.pref.value); }
  }

  /** "10" is preferred to "9". */
  lemma PrefIsComparedAsText()
    ensures var ten, nine := Property(0, Some("10")), Property(1, Some("9"));
      PreferredTo(ten, nine) && LowerNumber(nine, ten) && !ReadsAsNumber(ten, nine)
  {
    assert "10"[1..] == "0" && "0"[1..] == "" && "9"[1..] == "";
    assert Num("") == 0 && Num("0") == 0 && Num("9") == 9 && Num("10") == 10;
    assert "10"[..1] == "1";
  }

  /** Insertion depends only on how the new element compares with the others. */
  lemma {:induction false} InsertAlike(s: seq<Property>, x: Property)
    requires forall y | y in s :: PreferredTo(x, y) == LowerNumber(x, y)
    ensures Insert(s, x, PreferredTo) == Insert(s, x, LowerNumber)
  {
    if s != [] { InsertAlike(s[1..], x); }
  }

  ghost predicate OrdersAgree(s: seq<Property>) {
    forall x, y | x in s && y in s :: PreferredTo(x, y) == LowerNumber(x, y)
  }

  lemma {:induction false} SortAlike(s: seq<Property>)
    requires OrdersAgree(s)
    ensures Sort(s, PreferredTo) == Sort(s, LowerNumber)
  {
    if s == [] {
    } else {
      var front, last := s[..|s| - 1], s[|s| - 1];
      assert s == front + [last];
      SortAlike(front);
      SortExtended(front, last, PreferredTo);
      SortExtended(front, last, LowerNumber);
      SortMembers(front);
      InsertAlike(Sort(front, PreferredTo), last);
    }
  }

  lemma SortMembers(s: seq<Property>)
    ensures forall x :: x in Sort(s, PreferredTo) <==> x in s
  {
    SortIsPermutation(s, PreferredTo);
    assert forall x :: x in Sort(s, PreferredTo) <==> x in multiset(Sort(s, PreferredTo));
    assert forall x :: x in s <==> x in multiset(s);
  }

  lemma LowerNumberIsOrder()
    ensures StrictWeakOrder(LowerNumber)
  {
  }

  /** Two properties whose orders differ are ranked strictly, and opposite ways. */
  lemma DisagreementIsStrict(x: Property, y: Property)
    requires Numbered(x) && Numbered(y) && PreferredTo(x, y) != LowerNumber(x, y)
    ensures (PreferredTo(x, y) && LowerNumber(y, x)) || (PreferredTo(y, x) && LowerNumber(x, y))
  {
    var a, b := x.pref.value, y.pref.value;
    LexTrichotomy(a, b);
    if |a| < |b| { ShorterIsLess(a, b); } else if |b| < |a| { ShorterIsLess(b, a); } else { SameLength(a, b); }
    if |a| == |b| { SameLength(b, a); }
  }
  ghost predicate AllReadAsNumbers(s: seq<Property>) {
    forall x, y | x in s && y in s :: ReadsAsNumber(x, y)
  }

  lemma DisagreementShows(s: seq<Property>, x: Property, y: Property)
    requires x in s && y in s && PreferredTo(x, y) && LowerNumber(y, x)
    ensures Sort(s, PreferredTo) != Sort(s, LowerNumber)
  {
    var r := Sort(s, PreferredTo);
    PreferredToIsOrder();
    SortIsStable(s, PreferredTo);
    LowerNumberIsOrder();
    SortIsStable(s, LowerNumber);
    SortMembers(s);
    var i :| 0 <= i < |r| && r[i] == x;
    var j :| 0 <= j < |r| && r[j] == y;
    assert i < j;
  }

  /** Main result: the list a card keeps is in the order of section 5.3 of RFC 6350 exactly when, of
      any two PREF values in it, the shorter does not exceed the beginning of the longer. */
  lemma SortedAsNumbers(s: seq<Property>)
    requires forall p | p in s :: Numbered(p)
    ensures Sort(s, PreferredTo) == Sort(s, LowerNumber) <==> AllReadAsNumbers(s)
  {
    forall x, y | x in s && y in s ensures (PreferredTo(x, y) <==> LowerNumber(x, y)) <==> ReadsAsNumber(x, y) {
      PreferredAgainstNumber(x, y);
    }
    if AllReadAsNumbers(s) {
      SortAlike(s);
    } else {
      var x, y :| x in s && y in s && !ReadsAsNumber(x, y);
      DisagreementIsStrict(x, y);
      if PreferredTo(x, y) { DisagreementShows(s, x, y); } else { DisagreementShows(s, y, x); }
    }
  }

  // ---------------------------------------------------------------- the container

  /** The kinds of property a card knows, such as FN, TEL or EMAIL. */
  type Kind = nat

  /** Where a card keeps a property: in the slot or in the list of a kind. */
  datatype Holder = Slot(kind: Kind) | List(kind: Kind)

  datatype State = State(slots: map<Kind, Property>, lists: map<Kind, seq<Property>>, properties: seq<Property>)

  const EMPTY: State := State(map[], map[], [])

  datatype Op = Set(kind: Kind, p: Property) | Add(kind: Kind, p: Property) | Remove(kind: Kind, p: Property)

  function Used(op: Op): Holder { if op.Set? then Slot(op.kind) else List(op.kind) }

  function Listed(st: State, kind: Kind): seq<Property> { if kind in st.lists then st.lists[kind] else [] }

  function InSlot(st: State, kind: Kind): seq<Property> { if kind in st.slots then [st.slots[kind]] else [] }

  /** `std::list::remove`: all occurrences. */
  function Without(s: seq<Property>, p: Property): seq<Property> { Filter(s, x => x != p) }

  function Applied(st: State, op: Op): State {
    match op
    case Set(kind, p) =>
      var kept := if kind in st.slots then Without(st.properties, st.slots[kind]) else st.properties;
      State(st.slots[kind := p], st.lists, kept + [p])
    case Add(kind, p) =>
      State(st.slots, st.lists[kind := Sort(Listed(st, kind) + [p], PreferredTo)], st.properties + [p])
    case Remove(kind, p) =>
      State(st.slots, st.lists[kind := Without(Listed(st, kind), p)], Without(st.properties, p))
  }

  function Run(ops: seq<Op>): State {
    if ops == [] then EMPTY else Applied(Run(ops[..|ops| - 1]), ops[|ops| - 1])
  }

  class BelCard {
    var slots: map<Kind, Property>
    var lists: map<Kind, seq<Property>>
    var properties: seq<Property>

    ghost function Abstract(): State
      reads this
    {
      State(slots, lists, properties)
    }

    constructor ()
      ensures Abstract() == EMPTY
    {
      slots, lists, properties := map[], map[], [];
    }

    method AddProperty(property: Property)
      modifies `properties
      ensures properties == old(properties) + [property]
    {
      properties := properties + [property];
    }

    method RemoveProperty(property: Property)
      modifies `properties
      ensures properties == Without(old(properties), property)
    {
      properties := Filter(properties, x => x != property);
    }

    /** The template `set`. */
    method Set(kind: Kind, property: Property)
      modifies this
      ensures Abstract() == Applied(old(Abstract()), Op.Set(kind, property))
    {
      if kind in slots {
        RemoveProperty(slots[kind]);
      }
      slots := slots[kind := property];
      AddProperty(property);
    }

    /** The template `add`: appended, then the whole list sorted. */
    method Add(kind: Kind, property: Property)
      modifies this
      ensures Abstract() == Applied(old(Abstract()), Op.Add(kind, property))
    {
      var list := if kind in lists then lists[kind] else [];
      list := list + [property];
      lists := lists[kind := Sort(list, PreferredTo)];
      AddProperty(property);
    }

    /** The template `remove`. */
    method Remove(kind: Kind, property: Property)
      modifies this
      ensures Abstract() == Applied(old(Abstract()), Op.Remove(kind, property))
    {
      var list := if kind in lists then lists[kind] else [];
      lists := lists[kind := Filter(list, x => x != property)];
      RemoveProperty(property);
    }
  }

  // ---------------------------------------------------------------- agreement

  /** The properties of the flat list that belong to a holder. */
  function OfHolder(s: seq<Property>, h: Holder, holder: Property -> Holder): seq<Property> {
    Filter(s, p => holder(p) == h)
  }

  ghost predicate ListAgrees(st: State, kind: Kind, holder: Property -> Holder) {
    Listed(st, kind) == Sort(OfHolder(st.properties, List(kind), holder), PreferredTo)
  }

  ghost predicate SlotAgrees(st: State, kind: Kind, holder: Property -> Holder) {
    InSlot(st, kind) == OfHolder(st.properties, Slot(kind), holder)
  }

  /** Every list is the stable PREF sort of its share of the flat list, every slot is its share. */
  ghost predicate Agrees(st: State, holder: Property -> Holder) {
    forall kind :: ListAgrees(st, kind, holder) && SlotAgrees(st, kind, holder)
  }

  lemma OfHolderAppended(s: seq<Property>, p: Property, h: Holder, holder: Property -> Holder)
    ensures OfHolder(s + [p], h, holder) == if holder(p) == h then OfHolder(s, h, holder) + [p] else OfHolder(s, h, holder)
  {
    FilterConcat(s, [p], x => holder(x) == h);
  }

  lemma OfHolderWithout(s: seq<Property>, p: Property, h: Holder, holder: Property -> Holder)
    ensures OfHolder(Without(s, p), h, holder) == Without(OfHolder(s, h, holder), p)
    ensures holder(p) != h ==> OfHolder(Without(s, p), h, holder) == OfHolder(s, h, holder)
  {
    FilterCommutes(s, x => x != p, x => holder(x) == h);
    if holder(p) != h {
      FilterMembers(s, x => holder(x) == h);
      FilterAll(OfHolder(s, h, holder), x => x != p);
    }
  }

  lemma SortedShareAppended(share: seq<Property>, p: Property)
    ensures Sort(Sort(share, PreferredTo) + [p], PreferredTo) == Sort(share + [p], PreferredTo)
  {
    PreferredToIsOrder();
    SortAppended(share, p, PreferredTo);
  }

  lemma SortedShareWithout(share: seq<Property>, p: Property)
    ensures Without(Sort(share, PreferredTo), p) == Sort(Without(share, p), PreferredTo)
  {
    PreferredToIsOrder();
    SortFiltered(share, x => x != p, PreferredTo);
  }

  lemma AddAgrees(st: State, kind: Kind, p: Property, holder: Property -> Holder, k: Kind)
    requires ListAgrees(st, k, holder) && SlotAgrees(st, k, holder) && holder(p) == List(kind)
    ensures ListAgrees(Applied(st, Op.Add(kind, p)), k, holder) && SlotAgrees(Applied(st, Op.Add(kind, p)), k, holder)
  {
    OfHolderAppended(st.properties, p, List(k), holder);
    OfHolderAppended(st.properties, p, Slot(k), holder);
    SortedShareAppended(OfHolder(st.properties, List(k), holder), p);
  }

  lemma RemoveAgrees(st: State, kind: Kind, p: Property, holder: Property -> Holder, k: Kind)
    requires ListAgrees(st, k, holder) && SlotAgrees(st, k, holder) && holder(p) == List(kind)
    ensures ListAgrees(Applied(st, Op.Remove(kind, p)), k, holder)
    ensures SlotAgrees(Applied(st, Op.Remove(kind, p)), k, holder)
  {
    OfHolderWithout(st.properties, p, List(k), holder);
    OfHolderWithout(st.properties, p, Slot(k), holder);
    SortedShareWithout(OfHolder(st.properties, List(k), holder), p);
  }

  /** Taking the slot's property out of the flat list empties its share and leaves the others. */
  lemma VacateSlot(st: State, kind: Kind, h: Holder, holder: Property -> Holder)
    requires SlotAgrees(st, kind, holder)
    ensures
      var kept := if kind in st.slots then Without(st.properties, st.slots[kind]) else st.properties;
      OfHolder(kept, h, holder) == if h == Slot(kind) then [] else OfHolder(st.properties, h, holder)
  {
    if kind in st.slots {
      var p := st.slots[kind];
      assert OfHolder(st.properties, Slot(kind), holder) == [p];
      FilterMembers(st.properties, x => holder(x) == Slot(kind));
      assert p in OfHolder(st.properties, Slot(kind), holder);
      OfHolderWithout(st.properties, p, h, holder);
      if h == Slot(kind) {
        FilterNone([p], x => x != p);
      }
    }
  }

  lemma SetAgrees(st: State, kind: Kind, p: Property, holder: Property -> Holder, k: Kind)
    requires ListAgrees(st, k, holder) && SlotAgrees(st, k, holder)
    requires SlotAgrees(st, kind, holder) && holder(p) == Slot(kind)
    ensures ListAgrees(Applied(st, Op.Set(kind, p)), k, holder) && SlotAgrees(Applied(st, Op.Set(kind, p)), k, holder)
  {
    var kept := if kind in st.slots then Without(st.properties, st.slots[kind]) else st.properties;
    VacateSlot(st, kind, List(k), holder);
    VacateSlot(st, kind, Slot(k), holder);
    OfHolderAppended(kept, p, List(k), holder);
    OfHolderAppended(kept, p, Slot(k), holder);
  }

  /** One operation on a property's own holder keeps the agreement. */
  lemma StepAgrees(st: State, op: Op, holder: Property -> Holder)
    requires Agrees(st, holder) && holder(op.p) == Used(op)
    ensures Agrees(Applied(st, op), holder)
  {
    forall k ensures ListAgrees(Applied(st, op), k, holder) && SlotAgrees(Applied(st, op), k, holder) {
      assert ListAgrees(st, k, holder) && SlotAgrees(st, k, holder);
      assert SlotAgrees(st, op.kind, holder);
      match op
      case Set(kind, p) => SetAgrees(st, kind, p, holder, k);
      case Add(kind, p) => AddAgrees(st, kind, p, holder, k);
      case Remove(kind, p) => RemoveAgrees(st, kind, p, holder, k);
    }
  }

  /** Main result: in every run that uses each property under one holder only, every list is the
      stable PREF sort of its share of the flat list and every slot is its share. */
  lemma {:induction false} RunAgrees(ops: seq<Op>, holder: Property -> Holder)
    requires Assigns(holder, ops)
    ensures Agrees(Run(ops), holder)
  {
    if ops != [] {
      RunAgrees(ops[..|ops| - 1], holder);
      StepAgrees(Run(ops[..|ops| - 1]), ops[|ops| - 1], holder);
    }
  }

  ghost predicate Assigns(holder: Property -> Holder, ops: seq<Op>) {
    forall op | op in ops :: holder(op.p) == Used(op)
  }

  ghost predicate OneHolderEach(ops: seq<Op>) {
    forall a, b | a in ops && b in ops && a.p == b.p :: Used(a) == Used(b)
  }

  function HolderIn(ops: seq<Op>, p: Property): Holder {
    if ops == [] then Slot(0) else if ops[0].p == p then Used(ops[0]) else HolderIn(ops[1..], p)
  }

  lemma {:induction false} HolderInIsUsed(ops: seq<Op>, op: Op)
    requires op in ops && OneHolderEach(ops)
    ensures HolderIn(ops, op.p) == Used(op)
  {
    if ops[0].p != op.p {
      HolderInIsUsed(ops[1..], op);
    }
  }

  /** The same for the caller's view: it is enough that no property is used under two holders. */
  lemma OneHolderRunAgrees(ops: seq<Op>)
    requires OneHolderEach(ops)
    ensures Agrees(Run(ops), p => HolderIn(ops, p))
  {
    var holder := (p: Property) => HolderIn(ops, p);
    forall op | op in ops ensures holder(op.p) == Used(op) {
      HolderInIsUsed(ops, op);
    }
    RunAgrees(ops, holder);
  }

  // ---------------------------------------------------------------- what a run leaves behind

  /** A later operation takes a property out again: a removal an added one, a setting the one set before. */
  predicate Undoes(later: Op, op: Op) {
    match op
    case Add(_, p) => later.Remove? && later.p == p
    case Set(kind, _) => later.Set? && later.kind == kind
    case Remove(_, _) => false
  }

  /** The i-th operation put a property into the card that no later one took out. */
  predicate Lasts(ops: seq<Op>, i: nat)
    requires i < |ops|
  {
    !ops[i].Remove? && forall j | i < j < |ops| :: !Undoes(ops[j], ops[i])
  }

  /** The properties of the first n operations that last, in the order of the operations. */
  function Left(ops: seq<Op>, n: nat): seq<Property>
    requires n <= |ops|
  {
    if n == 0 then [] else Left(ops, n - 1) + (if Lasts(ops, n - 1) then [ops[n - 1].p] else [])
  }

  lemma LastsOnward(front: seq<Op>, op: Op, i: nat)
    requires i < |front|
    ensures Lasts(front + [op], i) <==> Lasts(front, i) && !Undoes(op, front[i])
  {
    var ops := front + [op];
    assert ops[|front|] == op && forall j | 0 <= j < |front| :: ops[j] == front[j];
  }

  lemma {:induction false} WithoutAppended(s: seq<Property>, p: Property, q: Property)
    ensures Without(s + [p], q) == Without(s, q) + (if p == q then [] else [p])
  {
    if s == [] {
      assert s + [p] == [p] && [p][1..] == [];
    } else {
      WithoutAppended(s[1..], p, q);
      assert (s + [p])[1..] == s[1..] + [p];
    }
  }

  /** One more operation takes out of what lasts exactly the property it undoes. */
  lemma {:induction false} LeftOnward(front: seq<Op>, ops: seq<Op>, op: Op, n: nat, gone: Option<Property>)
    requires n <= |front| <= |ops|
    requires forall i: nat | i < n :: ops[i] == front[i] && (Lasts(ops, i) <==> Lasts(front, i) && !Undoes(op, front[i]))
    requires forall i: nat | i < n && Lasts(front, i) :: Undoes(op, front[i]) <==> gone == Some(front[i].p)
    ensures Left(ops, n) == if gone.None? then Left(front, n) else Without(Left(front, n), gone.value)
  {
    if n > 0 {
      LeftOnward(front, ops, op, n - 1, gone);
      assert Lasts(ops, n - 1) <==> Lasts(front, n - 1) && !Undoes(op, front[n - 1]);
      if Lasts(front, n - 1) {
        if gone.Some? { WithoutAppended(Left(front, n - 1), front[n - 1].p, gone.value); }
      } else {
        LeftUnchanged(front, n);
        LeftUnchanged(ops, n);
      }
    }
  }

  lemma LeftUnchanged(ops: seq<Op>, n: nat)
    requires 0 < n <= |ops| && !Lasts(ops, n - 1)
    ensures Left(ops, n) == Left(ops, n - 1)
  {
  }

  /** A slot holds what was last set there. */
  lemma {:induction false} SlotIsLastSet(ops: seq<Op>, kind: Kind)
    ensures kind in Run(ops).slots <==> exists i: nat :: i < |ops| && ops[i].Set? && ops[i].kind == kind
    ensures forall i: nat | i < |ops| && ops[i].Set? && ops[i].kind == kind && Lasts(ops, i) :: Run(ops).slots[kind] == ops[i].p
    ensures kind in Run(ops).slots ==> Op.Set(kind, Run(ops).slots[kind]) in ops
  {
    if ops != [] {
      var front, op := ops[..|ops| - 1], ops[|ops| - 1];
      assert ops == front + [op];
      SlotIsLastSet(front, kind);
      forall i: nat | i < |front| ensures Lasts(ops, i) <==> Lasts(front, i) && !Undoes(op, front[i]) {
        LastsOnward(front, op, i);
      }
      if kind in Run(front).slots {
        var i: nat :| i < |front| && front[i].Set? && front[i].kind == kind;
        assert ops[i] == front[i];
      }
      if op.Set? && op.kind == kind { assert ops[|front|] == op; }
    }
  }

  /** What an operation takes out of the flat list. */
  function TakenOut(st: State, op: Op): Option<Property> {
    match op
    case Add(_, _) => None
    case Remove(_, p) => Some(p)
    case Set(kind, _) => if kind in st.slots then Some(st.slots[kind]) else None
  }

  lemma SameHolder(ops: seq<Op>, a: Op, b: Op)
    requires OneHolderEach(ops) && a in ops && b in ops && a.p == b.p
    ensures Used(a) == Used(b)
  {
  }

  lemma RemovedIsUndone(front: seq<Op>, op: Op, i: nat)
    requires OneHolderEach(front + [op]) && i < |front| && Lasts(front, i) && op.Remove?
    ensures Undoes(op, front[i]) <==> op.p == front[i].p
  {
    var ops := front + [op];
    assert ops[|front|] == op && ops[i] == front[i];
    if op.p == front[i].p { SameHolder(ops, op, front[i]); }
  }

  lemma ReplacedIsUndone(front: seq<Op>, op: Op, i: nat)
    requires OneHolderEach(front + [op]) && i < |front| && Lasts(front, i) && op.Set?
    ensures Undoes(op, front[i]) <==> op.kind in Run(front).slots && Run(front).slots[op.kind] == front[i].p
  {
    SlotIsLastSet(front, op.kind);
    if op.kind in Run(front).slots {
      var earlier := Op.Set(op.kind, Run(front).slots[op.kind]);
      var ops := front + [op];
      assert ops[i] == front[i];
      assert earlier in front && earlier in ops;
      if earlier.p == front[i].p { SameHolder(ops, earlier, front[i]); }
    }
  }

  lemma TakenOutIsUndone(front: seq<Op>, op: Op, i: nat)
    requires OneHolderEach(front + [op]) && i < |front| && Lasts(front, i)
    ensures Undoes(op, front[i]) <==> TakenOut(Run(front), op) == Some(front[i].p)
  {
    match op
    case Add(_, _) =>
    case Remove(_, _) => RemovedIsUndone(front, op, i);
    case Set(_, _) => ReplacedIsUndone(front, op, i);
  }

  /** Main result: when no property is used under two holders, the flat list after any run is, in order,
      what was put into the card and not taken out again. */
  lemma {:induction false} FlatIsWhatLasts(ops: seq<Op>)
    requires OneHolderEach(ops)
    ensures Run(ops).properties == Left(ops, |ops|)
  {
    if ops != [] {
      var front, op := ops[..|ops| - 1], ops[|ops| - 1];
      assert ops == front + [op];
      assert forall x | x in front :: x in ops;
      FlatIsWhatLasts(front);
      forall i: nat | i < |front| && Lasts(front, i)
        ensures Undoes(op, front[i]) <==> TakenOut(Run(front), op) == Some(front[i].p)
      {
        TakenOutIsUndone(front, op, i);
      }
      forall i: nat | i < |front| ensures Lasts(ops, i) <==> Lasts(front, i) && !Undoes(op, front[i]) {
        LastsOnward(front, op, i);
      }
      LeftOnward(front, ops, op, |front|, TakenOut(Run(front), op));
      assert Lasts(ops, |front|) <==> !op.Remove?;
    }
  }

  // ---------------------------------------------------------------- properties under several holders

  function HeldBy(st: State, h: Holder): seq<Property> {
    if h.Slot? then InSlot(st, h.kind) else Listed(st, h.kind)
  }

  /** Whatever a slot or list holds is in the flat list, which is what gets written. */
  ghost predicate Covered(st: State) {
    forall h: Holder, x: Property | x in HeldBy(st, h) :: x in st.properties
  }

  ghost predicate HeldElsewhere(st: State, p: Property, h: Holder) {
    exists other: Holder :: other != h && p in HeldBy(st, other)
  }

  lemma WithoutMembers(s: seq<Property>, p: Property)
    ensures p !in Without(s, p)
    ensures forall x | x in Without(s, p) :: x in s
    ensures forall x | x in s && x != p :: x in Without(s, p)
  {
    FilterMembers(s, x => x != p);
  }

  /** Adding never loses a property. */
  lemma AddKeepsCover(st: State, kind: Kind, p: Property)
    requires Covered(st)
    ensures Covered(Applied(st, Op.Add(kind, p)))
  {
    var st' := Applied(st, Op.Add(kind, p));
    SortIsPermutation(Listed(st, kind) + [p], PreferredTo);
    forall h: Holder, x: Property | x in HeldBy(st', h) ensures x in st'.properties {
      if h == List(kind) {
        assert x in multiset(Listed(st, kind) + [p]);
        assert x == p || x in HeldBy(st, h);
      } else {
        assert x in HeldBy(st, h);
      }
    }
  }

  /** Removing from one list loses the property from the flat list for every other holder: the
      cover survives exactly when there is none. */
  lemma RemoveKeepsCover(st: State, kind: Kind, p: Property)
    requires Covered(st)
    ensures Covered(Applied(st, Op.Remove(kind, p))) <==> !HeldElsewhere(st, p, List(kind))
  {
    var st' := Applied(st, Op.Remove(kind, p));
    WithoutMembers(st.properties, p);
    WithoutMembers(Listed(st, kind), p);
    if HeldElsewhere(st, p, List(kind)) {
      var other: Holder :| other != List(kind) && p in HeldBy(st, other);
      assert p in HeldBy(st', other);
    } else {
      forall h: Holder, x: Property | x in HeldBy(st', h) ensures x in st'.properties {
        assert x in HeldBy(st, h);
      }
    }
  }

  /** Replacing the property of a slot does the same to the property replaced. */
  lemma SetKeepsCover(st: State, kind: Kind, p: Property)
    requires Covered(st)
    ensures Covered(Applied(st, Op.Set(kind, p))) <==>
            (kind in st.slots && st.slots[kind] != p ==> !HeldElsewhere(st, st.slots[kind], Slot(kind)))
  {
    var st' := Applied(st, Op.Set(kind, p));
    if kind in st.slots {
      WithoutMembers(st.properties, st.slots[kind]);
    }
    if kind in st.slots && st.slots[kind] != p && HeldElsewhere(st, st.slots[kind], Slot(kind)) {
      var other: Holder :| other != Slot(kind) && st.slots[kind] in HeldBy(st, other);
      assert st.slots[kind] in HeldBy(st', other);
      assert st'.properties == Without(st.properties, st.slots[kind]) + [p];
      assert st.slots[kind] !in st'.properties;
    } else {
      forall h: Holder, x: Property | x in HeldBy(st', h) ensures x in st'.properties {
        assert h != Slot(kind) ==> x in HeldBy(st, h);
      }
    }
  }

  // ---------------------------------------------------------------- contents of the flat list

  /** The flat list holds nothing but what the slots and lists hold, as often as they hold it. */
  lemma FlatIsSlotsAndLists(st: State, holder: Property -> Holder, p: Property)
    requires Agrees(st, holder)
    ensures
      multiset(st.properties)[p] == multiset(HeldBy(st, holder(p)))[p]
    ensures forall kind :: Slot(kind) != holder(p) ==> p !in InSlot(st, kind)
    ensures forall kind :: List(kind) != holder(p) ==> p !in Listed(st, kind)
  {
    CountOfHolder(st.properties, p, holder);
    SortIsPermutation(OfHolder(st.properties, holder(p), holder), PreferredTo);
    assert ListAgrees(st, holder(p).kind, holder) && SlotAgrees(st, holder(p).kind, holder);
    forall kind | Slot(kind) != holder(p) ensures p !in InSlot(st, kind) {
      assert SlotAgrees(st, kind, holder);
      FilterMembers(st.properties, x => holder(x) == Slot(kind));
    }
    forall kind | List(kind) != holder(p) ensures p !in Listed(st, kind) {
      assert ListAgrees(st, kind, holder);
      NotListed(st.properties, p, kind, holder);
    }
  }

  lemma NotListed(s: seq<Property>, p: Property, kind: Kind, holder: Property -> Holder)
    requires holder(p) != List(kind)
    ensures p !in Sort(OfHolder(s, List(kind), holder), PreferredTo)
  {
    var share := OfHolder(s, List(kind), holder);
    FilterMembers(s, x => holder(x) == List(kind));
    SortIsPermutation(share, PreferredTo);
    assert p in Sort(share, PreferredTo) ==> p in multiset(Sort(share, PreferredTo)) && p in share;
  }

  lemma {:induction false} CountOfHolder(s: seq<Property>, p: Property, holder: Property -> Holder)
    ensures multiset(s)[p] == multiset(OfHolder(s, holder(p), holder))[p]
  {
    if s != [] {
      CountOfHolder(s[1..], p, holder);
      assert s == [s[0]] + s[1..];
    }
  }
}
