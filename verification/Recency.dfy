/** Lists of cached fields: order of last use, byte totals, and what removing, touching and moving entries does. */
module Recency {
  /** A field is asked for by its single goal (set 0) or its goal set, and by its profile. */
  datatype Key = Key(goal: nat, set_: nat, profile: nat)

  datatype CachedField = CachedField(
    key: Key, setEpoch: nat, dist: seq<nat>, next: seq<nat>, bytes: nat,
    ok: bool, pinned: bool, newInCall: bool, touch: nat)

  function Total(l: seq<CachedField>): nat {
    if l == [] then 0 else l[0].bytes + Total(l[1..])
  }

  function Keys(l: seq<CachedField>): (s: seq<Key>)
    ensures |s| == |l| && forall i | 0 <= i < |l| :: s[i] == l[i].key
  {
    seq(|l|, i requires 0 <= i < |l| => l[i].key)
  }

  ghost function KeySet(l: seq<CachedField>): set<Key> { set f | f in l :: f.key }

  ghost predicate DistinctKeys(l: seq<CachedField>) {
    l == [] || (Lacks(l[1..], l[0].key) && DistinctKeys(l[1..]))
  }

  ghost predicate Lacks(l: seq<CachedField>, k: Key) {
    forall f | f in l :: f.key != k
  }

  /** Touch numbers are handed out once; 0 means not touched in this call. */
  ghost predicate DistinctTouches(l: seq<CachedField>) {
    l == [] || (NotTouchedAt(l[1..], l[0].touch) && DistinctTouches(l[1..]))
  }

  ghost predicate NotTouchedAt(l: seq<CachedField>, t: nat) {
    t != 0 ==> forall f | f in l :: f.touch != t
  }

  ghost function Without(l: seq<CachedField>, k: Key): seq<CachedField> {
    if l == [] then [] else if l[0].key == k then Without(l[1..], k) else [l[0]] + Without(l[1..], k)
  }

  ghost function Except(s: seq<Key>, k: Key): seq<Key> {
    if s == [] then [] else if s[0] == k then Except(s[1..], k) else [s[0]] + Except(s[1..], k)
  }

  ghost function Only(s: seq<Key>, keep: set<Key>): seq<Key> {
    if s == [] then [] else if s[0] in keep then [s[0]] + Only(s[1..], keep) else Only(s[1..], keep)
  }

  ghost function ToFront(s: seq<Key>, k: Key): seq<Key> { [k] + Except(s, k) }

  // ---------- the order a commit establishes ----------

  ghost function Place(f: CachedField, s: seq<CachedField>): seq<CachedField> {
    if s == [] || s[0].touch < f.touch then [f] + s else [s[0]] + Place(f, s[1..])
  }

  /** Touched entries, latest touch first. */
  ghost function Ranked(l: seq<CachedField>): seq<CachedField> {
    if l == [] then [] else if l[0].touch == 0 then Ranked(l[1..]) else Place(l[0], Ranked(l[1..]))
  }

  ghost function Untouched(l: seq<CachedField>): seq<CachedField> {
    if l == [] then [] else if l[0].touch == 0 then [l[0]] + Untouched(l[1..]) else Untouched(l[1..])
  }

  /** Latest touch first, then the untouched in the order they already had. */
  ghost function Order(l: seq<CachedField>): seq<Key> { Keys(Ranked(l)) + Keys(Untouched(l)) }

  ghost predicate Falling(s: seq<CachedField>) {
    s == [] || (NoneAbove(s[1..], s[0].touch) && Falling(s[1..]))
  }

  ghost predicate NoneAbove(s: seq<CachedField>, t: nat) {
    forall x | x in s :: x.touch <= t
  }

  lemma {:induction false} PlaceElements(f: CachedField, s: seq<CachedField>)
    ensures forall x :: x in Place(f, s) <==> x == f || x in s
    ensures |Place(f, s)| == |s| + 1
    ensures Falling(s) ==> Falling(Place(f, s))
  {
    assert s != [] ==> s == [s[0]] + s[1..];
    if s != [] && s[0].touch >= f.touch {
      PlaceElements(f, s[1..]);
    }
  }

  lemma {:induction false} RankedElements(l: seq<CachedField>)
    ensures forall x :: x in Ranked(l) <==> x in l && x.touch != 0
    ensures forall x :: x in Untouched(l) <==> x in l && x.touch == 0
    ensures Falling(Ranked(l)) && |Ranked(l)| + |Untouched(l)| == |l|
  {
    if l != [] {
      assert l == [l[0]] + l[1..];
      RankedElements(l[1..]);
      if l[0].touch != 0 {
        PlaceElements(l[0], Ranked(l[1..]));
      }
    }
  }

  /** Removing an entry removes it from the order and changes nothing else there. */
  lemma {:induction false} WithoutOrder(l: seq<CachedField>, k: Key)
    ensures Ranked(Without(l, k)) == Without(Ranked(l), k)
    ensures Untouched(Without(l, k)) == Without(Untouched(l), k)
    ensures Order(Without(l, k)) == Except(Order(l), k)
  {
    if l != [] {
      WithoutOrder(l[1..], k);
      RankedElements(l[1..]);
      PlaceWithout(l[0], Ranked(l[1..]), k);
    }
    KeysWithout(Ranked(l), k);
    KeysWithout(Untouched(l), k);
    ExceptConcat(Keys(Ranked(l)), Keys(Untouched(l)), k);
  }

  lemma {:induction false} PlaceWithout(f: CachedField, s: seq<CachedField>, k: Key)
    requires Falling(s)
    ensures Without(Place(f, s), k) == if f.key == k then Without(s, k) else Place(f, Without(s, k))
  {
    if s != [] && s[0].touch >= f.touch {
      PlaceWithout(f, s[1..], k);
    } else if s != [] {
      WithoutElements(s, k);
    }
  }

  lemma {:induction false} WithoutElements(l: seq<CachedField>, k: Key)
    ensures forall x :: x in Without(l, k) <==> x in l && x.key != k
    ensures |Without(l, k)| <= |l|
  {
    if l != [] {
      WithoutElements(l[1..], k);
    }
  }

  lemma {:induction false} WithoutAbsent(l: seq<CachedField>, k: Key)
    requires Lacks(l, k)
    ensures Without(l, k) == l
  {
    if l != [] {
      WithoutAbsent(l[1..], k);
    }
  }

  lemma {:induction false} WithoutDistinct(l: seq<CachedField>, k: Key)
    ensures DistinctKeys(l) ==> DistinctKeys(Without(l, k))
    ensures DistinctTouches(l) ==> DistinctTouches(Without(l, k))
    ensures Lacks(Without(l, k), k)
  {
    if l != [] {
      WithoutDistinct(l[1..], k);
      WithoutElements(l[1..], k);
    }
  }

  lemma {:induction false} DistinctAt(l: seq<CachedField>, i: nat)
    requires DistinctKeys(l) && i < |l|
    ensures Lacks(l[..i], l[i].key) && Lacks(l[i + 1..], l[i].key)
    ensures forall f | f in l && f.key == l[i].key :: f == l[i]
  {
    if i > 0 {
      DistinctAt(l[1..], i - 1);
      assert l[..i] == [l[0]] + l[1..][..i - 1] && l[i + 1..] == l[1..][i..] && l[i] in l[1..];
    }
    assert l == [l[0]] + l[1..];
  }

  lemma {:induction false} KeysWithout(l: seq<CachedField>, k: Key)
    ensures Keys(Without(l, k)) == Except(Keys(l), k)
  {
    if l != [] {
      KeysWithout(l[1..], k);
      assert Keys(l) == [l[0].key] + Keys(l[1..]);
      assert Keys(Without(l, k)) == if l[0].key == k then Keys(Without(l[1..], k))
             else [l[0].key] + Keys(Without(l[1..], k));
    }
  }

  lemma ExceptCons(x: Key, s: seq<Key>, k: Key)
    ensures Except([x] + s, k) == if x == k then Except(s, k) else [x] + Except(s, k)
  {
    assert ([x] + s)[1..] == s;
  }

  lemma {:induction false} ExceptConcat(s: seq<Key>, t: seq<Key>, k: Key)
    ensures Except(s + t, k) == Except(s, k) + Except(t, k)
  {
    if s == [] {
      assert s + t == t;
    } else {
      hide Except;
      ExceptConcat(s[1..], t, k);
      ExceptCons(s[0], s[1..], k);
      ExceptCons(s[0], s[1..] + t, k);
      assert s == [s[0]] + s[1..] && s + t == [s[0]] + (s[1..] + t);
    }
  }

  lemma {:induction false} ExceptAbsent(s: seq<Key>, k: Key)
    requires k !in s
    ensures Except(s, k) == s
  {
    if s != [] {
      ExceptAbsent(s[1..], k);
    }
  }

  // ---------- restricting the history ----------

  lemma {:induction false} OnlyExcept(s: seq<Key>, keep: set<Key>, k: Key)
    ensures Except(Only(s, keep), k) == Only(s, keep - {k})
    ensures Only(Except(s, k), keep) == Only(s, keep - {k})
  {
    if s != [] {
      OnlyExcept(s[1..], keep, k);
    }
  }

  /** Moving a key to the front commutes with forgetting others. */
  lemma OnlyToFront(s: seq<Key>, keep: set<Key>, k: Key)
    requires k in keep
    ensures Only(ToFront(s, k), keep) == ToFront(Only(s, keep), k)
    ensures Only(ToFront(s, k), keep) == [k] + Only(s, keep - {k})
  {
    OnlyExcept(s, keep, k);
    assert ToFront(s, k)[1..] == Except(s, k);
  }

  lemma {:induction false} OnlyAll(s: seq<Key>, keep: set<Key>)
    requires forall k | k in s :: k in keep
    ensures Only(s, keep) == s
  {
    if s != [] {
      OnlyAll(s[1..], keep);
    }
  }

  // ---------- touching ----------

  /** The entry for `k`, pinned and touched. */
  ghost function Touched(l: seq<CachedField>, k: Key, t: nat): seq<CachedField> {
    if l == [] then []
    else if l[0].key == k then [l[0].(pinned := true, touch := t)] + l[1..]
    else [l[0]] + Touched(l[1..], k, t)
  }

  lemma {:induction false} TouchedAt(l: seq<CachedField>, i: nat, t: nat)
    requires DistinctKeys(l) && i < |l|
    ensures Touched(l, l[i].key, t) == l[i := l[i].(pinned := true, touch := t)]
  {
    if i > 0 {
      TouchedAt(l[1..], i - 1, t);
      assert l[i := l[i].(pinned := true, touch := t)] == [l[0]] + l[1..][i - 1 := l[i].(pinned := true, touch := t)];
    }
  }

  lemma PlaceFirst(f: CachedField, s: seq<CachedField>)
    requires forall x | x in s :: x.touch < f.touch
    ensures Place(f, s) == [f] + s
  {
  }

  lemma PlaceBehind(f: CachedField, first: CachedField, s: seq<CachedField>)
    requires first.touch >= f.touch
    ensures Place(f, [first] + s) == [first] + Place(f, s)
  {
    assert ([first] + s)[1..] == s;
  }

  lemma RankedLacks(l: seq<CachedField>, k: Key)
    requires Lacks(l, k)
    ensures Without(Ranked(l), k) == Ranked(l) && Without(Untouched(l), k) == Untouched(l)
  {
    RankedElements(l);
    WithoutAbsent(Ranked(l), k);
    WithoutAbsent(Untouched(l), k);
  }

  lemma ConsRanked(f: CachedField, l: seq<CachedField>)
    ensures Ranked([f] + l) == if f.touch == 0 then Ranked(l) else Place(f, Ranked(l))
    ensures Untouched([f] + l) == if f.touch == 0 then [f] + Untouched(l) else Untouched(l)
  {
    assert ([f] + l)[1..] == l;
  }

  lemma {:induction false} TouchRanks(l: seq<CachedField>, f: CachedField, t: nat)
    requires DistinctKeys(l) && f in l && forall g | g in l :: g.touch < t
    ensures Ranked(Touched(l, f.key, t)) == [f.(pinned := true, touch := t)] + Without(Ranked(l), f.key)
    ensures Untouched(Touched(l, f.key, t)) == Without(Untouched(l), f.key)
  {
    hide Ranked, Untouched, Place, Without;
    var k, rest, f' := f.key, l[1..], f.(pinned := true, touch := t);
    RankedElements(rest);
    assert l == [l[0]] + rest;
    ConsRanked(l[0], rest);
    PlaceWithout(l[0], Ranked(rest), k);
    ConsWithout(l[0], Untouched(rest), k);
    if l[0].key == k {
      assert l[0] == f;
      ConsRanked(f', rest);
      RankedLacks(rest, k);
      PlaceFirst(f', Ranked(rest));
    } else {
      TouchRanks(rest, f, t);
      ConsRanked(l[0], Touched(rest, k, t));
      PlaceBehind(l[0], f', Without(Ranked(rest), k));
    }
  }

  lemma ConsWithout(f: CachedField, l: seq<CachedField>, k: Key)
    ensures Without([f] + l, k) == if f.key == k then Without(l, k) else [f] + Without(l, k)
  {
    assert ([f] + l)[1..] == l;
  }

  /** A fresh touch moves the entry to the front of the order. */
  lemma TouchOrder(l: seq<CachedField>, i: nat, t: nat)
    requires DistinctKeys(l) && i < |l| && forall f | f in l :: f.touch < t
    ensures Order(l[i := l[i].(pinned := true, touch := t)]) == ToFront(Order(l), l[i].key)
  {
    hide Ranked, Untouched, Without, Touched;
    var f := l[i];
    TouchRanks(l, f, t);
    TouchedAt(l, i, t);
    KeysWithout(Ranked(l), f.key);
    KeysWithout(Untouched(l), f.key);
    ExceptConcat(Keys(Ranked(l)), Keys(Untouched(l)), f.key);
    var f' := f.(pinned := true, touch := t);
    assert Keys([f'] + Without(Ranked(l), f.key)) == [f.key] + Keys(Without(Ranked(l), f.key));
  }

  /** A new entry starts at the front of the order. */
  lemma PushOrder(l: seq<CachedField>, f: CachedField)
    requires f.touch != 0 && forall g | g in l :: g.touch < f.touch
    ensures Order([f] + l) == [f.key] + Order(l)
  {
    hide *;
    RankedElements(l);
    ConsRanked(f, l);
    PlaceFirst(f, Ranked(l));
    OrderStarts(f, Ranked(l), Untouched(l), l, [f] + l);
  }

  lemma OrderStarts(f: CachedField, r: seq<CachedField>, u: seq<CachedField>, l: seq<CachedField>, l': seq<CachedField>)
    requires Ranked(l) == r && Untouched(l) == u && Ranked(l') == [f] + r && Untouched(l') == u
    ensures Order(l') == [f.key] + Order(l)
  {
    hide Keys;
    KeysConcat([f], r);
    KeysOne(f);
    assert ([f.key] + Keys(r)) + Keys(u) == [f.key] + (Keys(r) + Keys(u));
  }

  // ---------- applying deferred touches ----------

  /** Moving the entry touched longest ago to the front, its touch spent, is a step towards the final order. */
  lemma OldestFirst(l: seq<CachedField>, i: nat)
    requires DistinctKeys(l) && i < |l| && l[i].touch != 0
    requires forall f | f in l && f.touch != 0 :: l[i].touch <= f.touch
    requires DistinctTouches(l)
    ensures var l' := [l[i].(touch := 0)] + Without(l, l[i].key);
            Order(l') == Order(l) && |Ranked(l')| < |Ranked(l)|
  {
    hide *;
    var f, spent := l[i], l[i].(touch := 0);
    LastRanked(l, f);
    DistinctAt(l, i);
    SpentRanks(l, f);
    OrderMoves(f, spent, Without(Ranked(l), f.key), Untouched(l), l, [spent] + Without(l, f.key));
  }

  lemma SpentRanks(l: seq<CachedField>, f: CachedField)
    requires f.touch != 0 && forall g | g in l && g.key == f.key :: g == f
    ensures Ranked([f.(touch := 0)] + Without(l, f.key)) == Without(Ranked(l), f.key)
    ensures Untouched([f.(touch := 0)] + Without(l, f.key)) == [f.(touch := 0)] + Untouched(l)
  {
    hide *;
    ConsRanked(f.(touch := 0), Without(l, f.key));
    WithoutOrder(l, f.key);
    NotAmong(l, f);
  }

  lemma OrderMoves(f: CachedField, spent: CachedField, r: seq<CachedField>, u: seq<CachedField>,
                   l: seq<CachedField>, l': seq<CachedField>)
    requires spent.key == f.key
    requires Ranked(l) == r + [f] && Untouched(l) == u && Ranked(l') == r && Untouched(l') == [spent] + u
    ensures Order(l) == Order(l')
  {
    hide Keys;
    KeysConcat([spent], u);
    KeysConcat(r, [f]);
    KeysOne(f);
    KeysOne(spent);
    assert Keys(r) + ([f.key] + Keys(u)) == (Keys(r) + [f.key]) + Keys(u);
  }

  lemma KeysConcat(a: seq<CachedField>, b: seq<CachedField>)
    ensures Keys(a + b) == Keys(a) + Keys(b)
  {
  }

  lemma KeysOne(f: CachedField)
    ensures Keys([f]) == [f.key]
  {
  }

  lemma NotAmong(l: seq<CachedField>, f: CachedField)
    requires f.touch != 0 && forall g | g in l && g.key == f.key :: g == f
    ensures Without(Untouched(l), f.key) == Untouched(l)
  {
    RankedElements(l);
    WithoutAbsent(Untouched(l), f.key);
  }

  lemma {:induction false} LastRanked(l: seq<CachedField>, f: CachedField)
    requires DistinctKeys(l) && DistinctTouches(l) && f in l && f.touch != 0
    requires forall g | g in l && g.touch != 0 :: f.touch <= g.touch
    ensures Ranked(l) == Without(Ranked(l), f.key) + [f]
  {
    hide Ranked, Without, Place;
    var rest := l[1..];
    assert l == [l[0]] + rest;
    ConsRanked(l[0], rest);
    RankedElements(rest);
    PlaceWithout(l[0], Ranked(rest), f.key);
    if l[0].key == f.key {
      assert l[0] == f;
      RankedLacks(rest, f.key);
      PlaceLast(f, Ranked(rest));
    } else {
      LastRanked(rest, f);
      if l[0].touch != 0 {
        PlaceBefore(l[0], Without(Ranked(rest), f.key), f);
      }
    }
  }

  lemma {:induction false} PlaceLast(f: CachedField, s: seq<CachedField>)
    requires forall x | x in s :: x.touch > f.touch
    ensures Place(f, s) == s + [f]
  {
    if s != [] {
      assert s[0] in s && s == [s[0]] + s[1..];
      PlaceLast(f, s[1..]);
    }
  }

  lemma {:induction false} PlaceBefore(f: CachedField, s: seq<CachedField>, last: CachedField)
    requires last.touch < f.touch
    ensures Place(f, s + [last]) == Place(f, s) + [last]
  {
    if s == [] {
      assert s + [last] == [last];
    } else if s[0].touch >= f.touch {
      PlaceBefore(f, s[1..], last);
      assert s + [last] == [s[0]] + (s[1..] + [last]);
    }
  }

  /** With every touch spent, the list is its own order. */
  lemma {:induction false} AllSpent(l: seq<CachedField>)
    requires forall f | f in l :: f.touch == 0
    ensures Order(l) == Keys(l) && Ranked(l) == [] && Untouched(l) == l
  {
    hide Keys;
    if l != [] {
      assert l == [l[0]] + l[1..];
      AllSpent(l[1..]);
    }
    assert Keys(l) == [] + Keys(l);
  }

  // ---------- sizes ----------

  lemma {:induction false} TotalConcat(a: seq<CachedField>, b: seq<CachedField>)
    ensures Total(a + b) == Total(a) + Total(b)
  {
    if a == [] {
      assert a + b == b;
    } else {
      TotalConcat(a[1..], b);
      assert (a + b)[1..] == a[1..] + b;
    }
  }

  /** Taking one entry out, by position. */
  lemma {:induction false} RemoveAt(l: seq<CachedField>, i: nat)
    requires DistinctKeys(l) && i < |l|
    ensures Without(l, l[i].key) == l[..i] + l[i + 1..]
    ensures Total(l) == Total(Without(l, l[i].key)) + l[i].bytes
  {
    hide Without;
    var f, a, b := l[i], l[..i], l[i + 1..];
    assert l == a + ([f] + b);
    DistinctAt(l, i);
    WithoutConcat(a, [f] + b, f.key);
    ConsWithout(f, b, f.key);
    WithoutAbsent(a, f.key);
    WithoutAbsent(b, f.key);
    TotalConcat(a, [f] + b);
    TotalConcat(a, b);
  }

  lemma {:induction false} WithoutConcat(a: seq<CachedField>, b: seq<CachedField>, k: Key)
    ensures Without(a + b, k) == Without(a, k) + Without(b, k)
  {
    if a == [] {
      assert a + b == b;
    } else {
      hide Without;
      WithoutConcat(a[1..], b, k);
      ConsWithout(a[0], a[1..], k);
      ConsWithout(a[0], a[1..] + b, k);
      assert a == [a[0]] + a[1..] && a + b == [a[0]] + (a[1..] + b);
    }
  }

  /** Changing flags of one entry changes neither sizes nor keys. */
  lemma {:induction false} UpdateAt(l: seq<CachedField>, i: nat, f: CachedField)
    requires i < |l| && f.key == l[i].key && f.bytes == l[i].bytes
    ensures Total(l[i := f]) == Total(l) && Keys(l[i := f]) == Keys(l) && KeySet(l[i := f]) == KeySet(l)
    ensures DistinctKeys(l) ==> DistinctKeys(l[i := f])
    ensures f.touch == l[i].touch ==> Order(l[i := f]) == Order(l)
  {
    hide DistinctKeys, Order;
    var l' := l[i := f];
    KeySetIs(l);
    KeySetIs(l');
    assert Keys(l') == Keys(l);
    SameDistinct(l, l');
    if f.touch == l[i].touch {
      SameOrder(l, l');
    }
    TotalSame(l, l');
  }

  lemma {:induction false} SameDistinct(a: seq<CachedField>, b: seq<CachedField>)
    requires Keys(a) == Keys(b)
    ensures DistinctKeys(a) == DistinctKeys(b)
  {
    assert |Keys(a)| == |Keys(b)|;
    if a != [] {
      assert Keys(a)[0] == Keys(b)[0];
      assert Keys(a[1..]) == Keys(a)[1..] == Keys(b[1..]);
      SameDistinct(a[1..], b[1..]);
      KeySetIs(a[1..]);
      KeySetIs(b[1..]);
      LacksByKeys(a[1..], a[0].key);
      LacksByKeys(b[1..], b[0].key);
    }
  }

  lemma LacksByKeys(l: seq<CachedField>, k: Key)
    ensures Lacks(l, k) <==> k !in KeySet(l)
  {
  }

  lemma KeySetIs(l: seq<CachedField>)
    ensures forall k :: k in KeySet(l) <==> k in Keys(l)
  {
    forall k | k in KeySet(l) ensures k in Keys(l) {
      var f :| f in l && f.key == k;
      var i :| 0 <= i < |l| && l[i] == f;
      assert Keys(l)[i] == k;
    }
    forall k | k in Keys(l) ensures k in KeySet(l) {
      var i :| 0 <= i < |l| && Keys(l)[i] == k;
      assert l[i] in l;
    }
  }

  lemma {:induction false} TotalSame(a: seq<CachedField>, b: seq<CachedField>)
    requires |a| == |b| && forall i | 0 <= i < |a| :: a[i].bytes == b[i].bytes
    ensures Total(a) == Total(b)
  {
    if a != [] {
      TotalSame(a[1..], b[1..]);
    }
  }

  ghost predicate SameUse(a: seq<CachedField>, b: seq<CachedField>) {
    |a| == |b| && forall i | 0 <= i < |a| :: a[i].key == b[i].key && a[i].touch == b[i].touch
  }

  lemma {:induction false} SameRanks(a: seq<CachedField>, b: seq<CachedField>)
    requires SameUse(a, b)
    ensures SameUse(Ranked(a), Ranked(b)) && SameUse(Untouched(a), Untouched(b))
  {
    if a != [] {
      SameRanks(a[1..], b[1..]);
      hide Ranked, Untouched, Place;
      ConsRanked(a[0], a[1..]);
      ConsRanked(b[0], b[1..]);
      assert a == [a[0]] + a[1..] && b == [b[0]] + b[1..];
      SamePlace(a[0], b[0], Ranked(a[1..]), Ranked(b[1..]));
    }
  }

  /** The order depends on keys and touches only. */
  lemma SameOrder(a: seq<CachedField>, b: seq<CachedField>)
    requires SameUse(a, b)
    ensures Order(a) == Order(b)
  {
    hide Ranked, Untouched;
    SameRanks(a, b);
    SameKeys(Ranked(a), Ranked(b));
    SameKeys(Untouched(a), Untouched(b));
  }

  lemma SameKeys(a: seq<CachedField>, b: seq<CachedField>)
    requires SameUse(a, b)
    ensures Keys(a) == Keys(b)
  {
  }

  lemma {:induction false} SamePlace(f: CachedField, g: CachedField, s: seq<CachedField>, t: seq<CachedField>)
    requires f.key == g.key && f.touch == g.touch && SameUse(s, t)
    ensures SameUse(Place(f, s), Place(g, t))
  {
    if s != [] && s[0].touch >= f.touch {
      SamePlace(f, g, s[1..], t[1..]);
    }
  }
}
