/** The log of terrain edits: which tiles may differ from the last reconciled terrain, and in which bits. */
module DirtyLog {
  import opened Profiles

  datatype Rect = Rect(x: nat, y: nat, w: nat, h: nat)

  function Col(width: nat, i: nat): nat requires width > 0 { i % width }

  function Row(width: nat, i: nat): nat requires width > 0 { i / width }

  /** Neighbours: other tiles at most one column and one row away. */
  predicate Touching(w: nat, i: nat, j: nat)
    requires w > 0
  {
    i != j && -1 <= Col(w, i) - Col(w, j) <= 1 && -1 <= Row(w, i) - Row(w, j) <= 1
  }

  predicate Inside(r: Rect, width: nat, i: nat)
    requires width > 0
  {
    r.x <= Col(width, i) < r.x + r.w && r.y <= Row(width, i) < r.y + r.h
  }

  /** An edit of `rect`: whether passability changed anywhere in it, and which tag bits flipped. */
  datatype Edit = Edit(rect: Rect, passChanged: bool, tagBits: Word)

  datatype Dirty = Dirty(edits: seq<Edit>, full: bool)

  const MAX_DIRTY_RECTS: nat := 16

  /** The log after recording `e` on a map of `n` tiles: nothing changed records nothing, and a sixteenth overflow or a
      whole-map edit makes everything dirty. */
  function Logged(d: Dirty, n: nat, e: Edit): Dirty {
    if !e.passChanged && e.tagBits == {} then d
    else if d.full then d
    else if Area(e.rect) >= n || |d.edits| == MAX_DIRTY_RECTS then Dirty(d.edits, true)
    else Dirty(d.edits + [e], false)
  }

  function Area(r: Rect): int { r.w * r.h }

  predicate SameSize(a: Terrain, b: Terrain) {
    a.w == b.w && a.h == b.h && a.w > 0 && |a.cost| == |b.cost| == |a.tags| == |b.tags| == a.w * a.h
  }

  ghost predicate CostLogged(d: Dirty, width: nat, i: nat)
    requires width > 0
  {
    exists k | 0 <= k < |d.edits| :: Inside(d.edits[k].rect, width, i) && d.edits[k].passChanged
  }

  ghost predicate BitLogged(d: Dirty, width: nat, i: nat, b: nat)
    requires width > 0
  {
    exists k | 0 <= k < |d.edits| :: Inside(d.edits[k].rect, width, i) && b in d.edits[k].tagBits
  }

  predicate BitDiffers(a: Terrain, b: Terrain, i: nat, bit: nat)
    requires i < |a.tags| && i < |b.tags|
  {
    bit in a.tags[i] <==> bit !in b.tags[i]
  }

  /** Every difference between the two terrains is in the log. */
  ghost predicate Covers(d: Dirty, base: Terrain, now: Terrain) {
    && SameSize(base, now)
    && (!d.full ==>
          && (forall i: nat | i < |now.cost| && base.cost[i] != now.cost[i] :: CostLogged(d, now.w, i))
          && (forall i: nat, b: nat | i < |now.tags| && BitDiffers(base, now, i, b) :: BitLogged(d, now.w, i, b)))
  }

  /** What an edit may do: change tiles inside its rectangle, telling of every cost change and every flipped bit. */
  ghost predicate Describes(e: Edit, was: Terrain, now: Terrain) {
    && SameSize(was, now)
    && (forall i: nat | i < |now.cost| && was.cost[i] != now.cost[i] :: Inside(e.rect, now.w, i) && e.passChanged)
    && (forall i: nat, b: nat | i < |now.tags| && BitDiffers(was, now, i, b) ::
          Inside(e.rect, now.w, i) && b in e.tagBits)
  }

  /** The log `after` is `before` with one truthful edit recorded. */
  ghost predicate EditLogged(before: Dirty, was: Terrain, now: Terrain, after: Dirty) {
    exists e: Edit :: Describes(e, was, now) && after == Logged(before, |now.cost|, e)
  }

  /** What painting `r` amounts to: whether any tile's passability changed, and exactly the bits some tile lost or
      got. */
  ghost function EditMade(r: Rect, was: Terrain, now: Terrain): Edit
    requires SameSize(was, now)
  {
    Edit(r, was.cost != now.cost, set b: nat | b < 64 && SomeDiffers(was, now, b))
  }

  ghost predicate SomeDiffers(was: Terrain, now: Terrain, b: nat)
    requires SameSize(was, now)
  {
    exists i: nat :: i < |was.tags| && BitDiffers(was, now, i, b)
  }

  lemma NothingCovers(t: Terrain)
    requires SameSize(t, t)
    ensures Covers(Dirty([], false), t, t)
  {
  }

  lemma LoggedKeeps(d: Dirty, n: nat, e: Edit, width: nat, i: nat)
    requires width > 0 && !Logged(d, n, e).full
    ensures !d.full
    ensures CostLogged(d, width, i) ==> CostLogged(Logged(d, n, e), width, i)
    ensures forall b: nat :: BitLogged(d, width, i, b) ==> BitLogged(Logged(d, n, e), width, i, b)
    ensures Inside(e.rect, width, i) && e.passChanged ==> CostLogged(Logged(d, n, e), width, i)
    ensures forall b: nat :: Inside(e.rect, width, i) && b in e.tagBits ==> BitLogged(Logged(d, n, e), width, i, b)
  {
    var l := Logged(d, n, e);
    assert forall k | 0 <= k < |d.edits| :: l.edits[k] == d.edits[k];
    if e.passChanged || e.tagBits != {} {
      assert l.edits[|d.edits|] == e;
    }
  }

  /** Recording a truthful edit keeps the log covering everything since the last reconcile. */
  lemma LoggedCovers(d: Dirty, base: Terrain, was: Terrain, now: Terrain, e: Edit)
    requires Covers(d, base, was) && Describes(e, was, now)
    ensures Covers(Logged(d, |now.cost|, e), base, now)
  {
    hide Inside, CostLogged, BitLogged;
    var l := Logged(d, |now.cost|, e);
    if !l.full {
      forall i: nat | i < |now.cost| && base.cost[i] != now.cost[i] ensures CostLogged(l, now.w, i) {
        LoggedKeeps(d, |now.cost|, e, now.w, i);
      }
      forall i: nat, b: nat | i < |now.tags| && BitDiffers(base, now, i, b) ensures BitLogged(l, now.w, i, b) {
        LoggedKeeps(d, |now.cost|, e, now.w, i);
        assert BitDiffers(base, was, i, b) || BitDiffers(was, now, i, b);
      }
    }
  }

  // ---------- what the log remembers ----------

  /** The log after some edits on a map of `n` tiles, nothing having been logged before. */
  function LogOf(n: nat, es: seq<Edit>): Dirty {
    if es == [] then Dirty([], false) else Logged(LogOf(n, es[..|es| - 1]), n, es[|es| - 1])
  }

  predicate Real(e: Edit) { e.passChanged || e.tagBits != {} }

  /** The edits that changed something. */
  function RealOnes(es: seq<Edit>): (s: seq<Edit>)
    ensures forall e :: e in s <==> e in es && Real(e)
  {
    if es == [] then [] else RealOnes(es[..|es| - 1]) + if Real(es[|es| - 1]) then [es[|es| - 1]] else []
  }

  /** Up to sixteen edits that changed something, none of them of the whole map, are remembered one by one; otherwise
      everything counts as changed. */
  lemma {:induction false} LogIsExact(n: nat, es: seq<Edit>)
    ensures LogOf(n, es).full <==>
              |RealOnes(es)| > MAX_DIRTY_RECTS || exists e :: e in es && Real(e) && Area(e.rect) >= n
    ensures !LogOf(n, es).full ==> LogOf(n, es).edits == RealOnes(es)
  {
    if es != [] {
      var before, last := es[..|es| - 1], es[|es| - 1];
      LogIsExact(n, before);
      assert forall e :: e in es <==> e in before || e == last;
    }
  }
}
