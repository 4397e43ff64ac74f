/** The open list: a binary min-heap sifted in place, under the total order (f ascending, g descending, index
    ascending).  Its contents are a multiset; popping removes the least entry of that multiset, so what a search
    sees does not depend on how the array happens to be laid out. */
module OpenList {

  datatype Entry = Entry(f: nat, g: nat, idx: nat)

  predicate Less(a: Entry, b: Entry) {
    if a.f != b.f then a.f < b.f
    else if a.g != b.g then a.g > b.g
    else a.idx < b.idx
  }

  /** The order the field build uses on its entries, which carry f = g. */
  predicate FieldLess(a: Entry, b: Entry) {
    a.f < b.f || (a.f == b.f && a.idx < b.idx)
  }

  lemma FieldOrderIsTheSame(a: Entry, b: Entry)
    requires a.f == a.g && b.f == b.g
    ensures FieldLess(a, b) <==> Less(a, b)
  {
  }

  /** No entry of `open` comes before `e`. */
  ghost predicate IsFirst(e: Entry, open: multiset<Entry>) {
    e in open && forall x | x in open :: !Less(x, e)
  }

  /** The first entry has the least f; among those, the greatest g; among those, the least index. */
  lemma FirstReads(e: Entry, open: multiset<Entry>)
    ensures IsFirst(e, open) <==>
              && e in open && (forall x | x in open :: e.f <= x.f)
              && (forall x | x in open && x.f == e.f :: x.g <= e.g)
              && forall x | x in open && x.f == e.f && x.g == e.g :: e.idx <= x.idx
  {
    if IsFirst(e, open) {
      forall x | x in open
        ensures e.f <= x.f && (x.f == e.f ==> x.g <= e.g && (x.g == e.g ==> e.idx <= x.idx))
      {
        assert !Less(x, e);
      }
    }
  }

  lemma {:induction false} FirstExists(open: multiset<Entry>)
    requires open != multiset{}
    ensures exists e :: IsFirst(e, open)
    decreases |open|
  {
    var e :| e in open;
    var rest := open - multiset{e};
    if rest == multiset{} {
      assert open == multiset{e};
      assert IsFirst(e, open);
    } else {
      FirstExists(rest);
      var m :| IsFirst(m, rest);
      if Less(e, m) {
        forall x | x in open ensures !Less(x, e) {
          assert x == e || x in rest;
        }
        assert IsFirst(e, open);
      } else {
        forall x | x in open ensures !Less(x, m) {
          assert x == e || x in rest;
        }
        assert IsFirst(m, open);
      }
    }
  }

  /** The entry a pop returns: fixed by the contents alone. */
  ghost function First(open: multiset<Entry>): (e: Entry)
    requires open != multiset{}
    ensures IsFirst(e, open)
  {
    FirstExists(open);
    var e :| IsFirst(e, open);
    e
  }

  lemma FirstIsUnique(open: multiset<Entry>, e: Entry)
    requires IsFirst(e, open)
    ensures open != multiset{} && e == First(open)
  {
    var m := First(open);
    assert !Less(e, m) && !Less(m, e);
  }

  // ---------- heap order on sequences ----------

  function Up(k: nat): nat requires k > 0 { (k - 1) / 2 }

  ghost predicate Ordered(s: seq<Entry>) {
    forall k | 0 < k < |s| :: !Less(s[k], s[Up(k)])
  }

  /** Heap order everywhere except on the links at the hole `i`. */
  ghost predicate OrderedAround(s: seq<Entry>, i: nat) {
    && (forall k | 0 < k < |s| && k != i && Up(k) != i :: !Less(s[k], s[Up(k)]))
    && (i > 0 ==> forall k | 0 < k < |s| && Up(k) == i :: !Less(s[k], s[Up(i)]))
  }

  /** `e` is not after any child of the hole. */
  ghost predicate BeforeChildren(s: seq<Entry>, i: nat, e: Entry) {
    forall k | 0 < k < |s| && Up(k) == i :: !Less(s[k], e)
  }

  lemma {:induction false} RootIsFirst(s: seq<Entry>, k: nat)
    requires Ordered(s) && k < |s|
    ensures !Less(s[k], s[0])
  {
    if k > 0 {
      RootIsFirst(s, Up(k));
    }
  }

  lemma MoveHole(s: seq<Entry>, i: nat, j: nat, e: Entry)
    requires i < |s| && j < |s| && i != j
    ensures multiset(s[i := s[j]][j := e]) == multiset(s[i := e])
  {
    assert multiset(s[i := s[j]]) == multiset(s) - multiset{s[i]} + multiset{s[j]};
    var t := s[i := s[j]];
    assert t[j] == s[j];
    assert multiset(t[j := e]) == multiset(t) - multiset{t[j]} + multiset{e};
  }

  lemma HoleUp(s: seq<Entry>, i: nat, e: Entry)
    requires 0 < i < |s| && OrderedAround(s, i) && BeforeChildren(s, i, e) && Less(e, s[Up(i)])
    ensures OrderedAround(s[i := s[Up(i)]], Up(i)) && BeforeChildren(s[i := s[Up(i)]], Up(i), e)
  {
    var u := Up(i);
    var t := s[i := s[u]];
    forall k | 0 < k < |t| && k != u && Up(k) != u ensures !Less(t[k], t[Up(k)]) {
      if Up(k) == i {
        assert !Less(s[k], s[u]);
      }
    }
    if u > 0 {
      forall k | 0 < k < |t| && Up(k) == u ensures !Less(t[k], t[Up(u)]) {
        assert !Less(s[u], s[Up(u)]);
      }
    }
  }

  lemma FillHoleUp(s: seq<Entry>, i: nat, e: Entry)
    requires i < |s| && OrderedAround(s, i) && BeforeChildren(s, i, e)
    requires i > 0 ==> !Less(e, s[Up(i)])
    ensures Ordered(s[i := e])
  {
  }

  /** The child that moves into the hole when `e` sinks. */
  ghost predicate SmallestChild(s: seq<Entry>, i: nat, c: nat) {
    0 < c < |s| && Up(c) == i && forall k | 0 < k < |s| && Up(k) == i :: !Less(s[k], s[c])
  }

  lemma HoleDown(s: seq<Entry>, i: nat, c: nat, e: Entry)
    requires i < |s| && OrderedAround(s, i) && SmallestChild(s, i, c)
    requires Less(s[c], e) && (i > 0 ==> !Less(e, s[Up(i)]))
    ensures OrderedAround(s[i := s[c]], c) && !Less(e, s[i := s[c]][Up(c)])
  {
    var t := s[i := s[c]];
    forall k | 0 < k < |t| && k != c && Up(k) != c ensures !Less(t[k], t[Up(k)]) {
      if k == i {
        assert !Less(s[c], s[Up(i)]);
      }
    }
    forall k | 0 < k < |t| && Up(k) == c ensures !Less(t[k], t[Up(c)]) {
      assert !Less(s[k], s[c]);
    }
  }

  // ---------- the heap ----------

  class Heap {
    var h: array<Entry>
    var len: nat

    ghost predicate Valid()
      reads this, h
    {
      len <= h.Length && Ordered(h[..len])
    }

    ghost function Contents(): multiset<Entry>
      reads this, h
      requires len <= h.Length
    {
      multiset(h[..len])
    }

    constructor ()
      ensures Valid() && fresh(h) && len == 0
    {
      len := 0;
      h := new Entry[4096](_ => Entry(0, 0, 0));
    }

    method Clear()
      modifies this`len
      ensures Valid() && Contents() == multiset{}
    {
      len := 0;
    }

    /** Doubles the array when it is full; contents and layout stay. */
    method Reserve()
      requires Valid()
      modifies this`h
      ensures Valid() && len < h.Length && h[..len] == old(h[..len])
      ensures h == old(h) || fresh(h)
    {
      if len == h.Length {
        var old_h := h;
        var cap := if h.Length == 0 then 4096 else h.Length * 2;
        var bigger := new Entry[cap](_ => Entry(0, 0, 0));
        for i := 0 to len
          invariant bigger[..i] == old_h[..i]
        {
          bigger[i] := old_h[i];
        }
        h := bigger;
      }
    }

    method Push(e: Entry)
      requires Valid()
      modifies this, h
      ensures Valid() && Contents() == old(Contents()) + multiset{e} && len == old(len) + 1
      ensures h == old(h) || fresh(h)
    {
      Reserve();
      ghost var was := h[..len];
      len := len + 1;
      assert h[..len][len - 1 := e] == was + [e];
      RiseToPlace(h, len, e);
    }

    method Pop() returns (top: Entry)
      requires Valid() && len > 0
      modifies this`len, h
      ensures Valid() && len == old(len) - 1
      ensures IsFirst(top, old(Contents())) && Contents() == old(Contents()) - multiset{top}
    {
      hide Less, OrderedAround;
      ghost var was := h[..len];
      top := h[0];
      len := len - 1;
      var e := h[len];
      PopStart(was);
      assert h[..len] == was[..len];
      SinkToPlace(h, len, e);
    }
  }

  /** Sifts `e` up from the hole at the end of the first `m` entries of `h`. */
  method RiseToPlace(h: array<Entry>, m: nat, e: Entry)
    requires 0 < m <= h.Length && Ordered(h[..m - 1])
    modifies h
    ensures Ordered(h[..m]) && multiset(h[..m]) == multiset(old(h[..m][m - 1 := e]))
  {
    hide Less;
    var i := m - 1;
    ghost var s := h[..m];
    assert forall k | 0 < k < m :: Up(k) != m - 1;
    assert forall k | 0 <= k < m - 1 :: s[k] == h[..m - 1][k];
    while i > 0
      invariant i < m && s == h[..m]
      invariant OrderedAround(s, i) && BeforeChildren(s, i, e)
      invariant multiset(s[i := e]) == multiset(old(h[..m][m - 1 := e]))
    {
      var up := (i - 1) / 2;
      if !Less(e, h[up]) {
        break;
      }
      HoleUp(s, i, e);
      MoveHole(s, i, up, e);
      h[i] := h[up];
      s := s[i := s[up]];
      i := up;
    }
    FillHoleUp(s, i, e);
    h[i] := e;
    assert h[..m] == s[i := e];
  }

  /** Sifts `e` down from the hole at the root of the first `m` entries of `h`. */
  method SinkToPlace(h: array<Entry>, m: nat, e: Entry)
    requires m < h.Length && OrderedAround(h[..m], 0)
    modifies h
    ensures Ordered(h[..m])
    ensures m > 0 ==> multiset(h[..m]) == multiset(old(h[..m][0 := e]))
  {
    hide OrderedAround, BeforeChildren, SmallestChild, Less;
    var i := 0;
    ghost var s := h[..m];
    while true
      invariant (i < m || i == 0) && s == h[..m]
      invariant OrderedAround(s, i) && (0 < i ==> !Less(e, s[Up(i)]))
      invariant m > 0 ==> multiset(s[i := e]) == multiset(old(h[..m][0 := e]))
      decreases m - i
    {
      var l := 2 * i + 1;
      var r := l + 1;
      var best := i;
      if l < m && Less(h[l], e) {
        best := l;
      }
      if r < m && Less(h[r], if best == i then e else h[l]) {
        best := r;
      }
      BestChild(s, i, e, best);
      if best == i {
        break;
      }
      HoleDown(s, i, best, e);
      MoveHole(s, i, best, e);
      h[i] := h[best];
      s := s[i := s[best]];
      i := best;
    }
    h[i] := e;
    if m > 0 {
      FillHoleUp(s, i, e);
    }
    assert h[..m] == if m > 0 then s[i := e] else s;
  }

  /** The two comparisons of the sink loop pick the smaller child, or stop when none is before `e`. */
  lemma BestChild(s: seq<Entry>, i: nat, e: Entry, best: nat)
    requires i < |s| || i == 0
    requires var l := 2 * i + 1;
             var b := if l < |s| && Less(s[l], e) then l else i;
             best == if l + 1 < |s| && Less(s[l + 1], if b == i then e else s[l]) then l + 1 else b
    ensures best == i ==> BeforeChildren(s, i, e)
    ensures best != i ==> SmallestChild(s, i, best) && Less(s[best], e)
  {
    forall k | 0 < k < |s| && Up(k) == i ensures k == 2 * i + 1 || k == 2 * i + 2 {
    }
  }

  lemma PopStart(was: seq<Entry>)
    requires |was| > 0 && Ordered(was)
    ensures IsFirst(was[0], multiset(was))
    ensures var n := |was| - 1; OrderedAround(was[..n], 0)
    ensures var n := |was| - 1; n > 0 ==> multiset(was[..n][0 := was[n]]) == multiset(was) - multiset{was[0]}
    ensures |was| == 1 ==> multiset{} == multiset(was) - multiset{was[0]}
  {
    var n := |was| - 1;
    forall x | x in multiset(was) ensures !Less(x, was[0]) {
      var k :| 0 <= k < |was| && was[k] == x;
      RootIsFirst(was, k);
    }
    assert was == was[..n] + [was[n]];
    if n > 0 {
      assert multiset(was[..n][0 := was[n]]) == multiset(was[..n]) - multiset{was[0]} + multiset{was[n]};
    }
  }
}
