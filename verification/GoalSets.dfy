/** Goal sets: which tiles belong, which tiles seed a field, and when a refresh counts as a change. */
module GoalSets {
  import opened FixedPoint
  import opened Grid
  import opened Profiles
  import opened DirtyLog
  import opened TileMap
  import opened Labels

  const MAX_GOALSETS: nat := 64

  /** A set lists its tiles or describes them by their tags; `epoch` counts changes of membership. */
  datatype GoalSet = GoalSet(
    used: bool, byTags: bool, adjacent: bool, anyMask: Word, allMask: Word, tiles: seq<nat>,
    members: seq<bool>, seeds: seq<bool>, count: nat, epoch: nat)

  const NO_SET: GoalSet := GoalSet(false, false, false, {}, {}, [], [], [], 0, 0)

  predicate Matches(gs: GoalSet, word: Word) {
    (gs.anyMask == {} || word * gs.anyMask != {}) && gs.allMask <= word
  }

  /** A tile belongs when it carries every tag of the one mask and, unless the other is empty, some tag of that. */
  lemma MatchesByBits(gs: GoalSet, word: Word)
    ensures Matches(gs, word) <==>
              && (forall b: nat :: b in gs.allMask ==> b in word)
              && ((exists b: nat :: b in gs.anyMask && b in word) || forall b: nat :: b !in gs.anyMask)
  {
    assert forall b | b in gs.anyMask && b in word :: b in word * gs.anyMask;
    if word * gs.anyMask != {} {
      var b :| b in word * gs.anyMask;
    }
  }

  /** Membership on a terrain. */
  ghost function MembersOn(gs: GoalSet, tags: seq<Word>): (b: seq<bool>)
    ensures |b| == |tags|
  {
    seq(|tags|, i requires 0 <= i < |tags| => if gs.byTags then Matches(gs, tags[i]) else i in gs.tiles)
  }

  function Tally(b: seq<bool>): nat {
    if b == [] then 0 else Tally(b[..|b| - 1]) + if b[|b| - 1] then 1 else 0
  }

  ghost function Set(b: seq<bool>): set<nat> { set i: nat | i < |b| && b[i] }

  /** The tally is the number of members. */
  lemma {:induction false} TallyCounts(b: seq<bool>)
    ensures Tally(b) == |Set(b)|
  {
    if b == [] {
      assert Set(b) == {};
    } else {
      var n := |b| - 1;
      var before := b[..n];
      TallyCounts(before);
      assert Set(b) == Set(before) + if b[n] then {n} else {};
    }
  }

  /** The tiles from which standing next to a member is possible, or only the members themselves. */
  ghost predicate Seeded(w: nat, h: nat, members: seq<bool>, adjacent: bool, i: nat)
    requires w > 0 && |members| == w * h
  {
    exists j: nat :: j < |members| && members[j] && SeededFrom(w, h, adjacent, j, i)
  }

  ghost predicate SeededFrom(w: nat, h: nat, adjacent: bool, j: nat, i: nat)
    requires w > 0
  {
    i == j || (adjacent && exists d: nat :: d < 8 && Beside(w, h, j, d, i))
  }

  predicate Beside(w: nat, h: nat, j: nat, d: nat, i: nat)
    requires w > 0 && d < 8
  {
    GridInBounds(w, h, j, d) && GridNbr(w, h, j, d) == i
  }

  lemma BesideMoves(w: nat, h: nat, j: nat, d: nat, i: nat)
    requires w > 0 && d < 8 && i < w * h
    ensures Beside(w, h, j, d, i) <==> Col(w, i) == Col(w, j) + DX[d] && Row(w, i) == Row(w, j) + DY[d]
  {
    if Row(w, i) >= h {
      ProductOrder(h, Row(w, i), w);
    }
    if GridInBounds(w, h, j, d) {
      var x, y := j % w + DX[d], j / w + DY[d];
      hide *;
      NonNegativeProduct(y, w);
      DivisionIsUnique(y * w + x, w, y, x);
    }
  }

  /** So a tile seeds a field when it is a member or, for sets approached from beside, a neighbour of one. */
  lemma SeededByDistance(w: nat, h: nat, members: seq<bool>, adjacent: bool, i: nat)
    requires w > 0 && |members| == w * h && i < w * h
    ensures Seeded(w, h, members, adjacent, i) <==>
              exists j: nat :: j < |members| && members[j] && (i == j || (adjacent && Touching(w, i, j)))
  {
    forall j: nat | j < |members| && adjacent
      ensures SeededFrom(w, h, adjacent, j, i) <==> i == j || Touching(w, i, j)
    {
      TouchingIsBeside(w, h, i, j);
    }
    hide Touching, Beside;
  }

  lemma TouchingIsBeside(w: nat, h: nat, i: nat, j: nat)
    requires w > 0 && i < w * h && j < w * h
    ensures i == j || Touching(w, i, j) <==> i == j || exists d: nat :: d < 8 && Beside(w, h, j, d, i)
  {
    forall d: nat | d < 8
      ensures Beside(w, h, j, d, i) <==> Col(w, i) == Col(w, j) + DX[d] && Row(w, i) == Row(w, j) + DY[d]
    {
      BesideMoves(w, h, j, d, i);
    }
    hide Beside;
    if Touching(w, i, j) {
      SameTile(w, i, j);
      var d := Towards(Col(w, i) - Col(w, j), Row(w, i) - Row(w, j));
      hide Col, Row;
      assert Beside(w, h, j, d, i);
    }
  }

  lemma SameTile(w: nat, i: nat, j: nat)
    requires w > 0 && i != j
    ensures Col(w, i) != Col(w, j) || Row(w, i) != Row(w, j)
  {
  }

  ghost function SeedsFor(w: nat, h: nat, members: seq<bool>, adjacent: bool): (b: seq<bool>)
    requires w > 0 && |members| == w * h
    ensures |b| == |members|
  {
    seq(|members|, i requires 0 <= i < |members| => Seeded(w, h, members, adjacent, i))
  }

  /** The set after a refresh: membership and seeds are those of the terrain, and the epoch moved exactly if
      membership did. */
  ghost function Refreshed(gs: GoalSet, t: Terrain): GoalSet
    requires t.Valid()
  {
    var members := MembersOn(gs, t.tags);
    gs.(members := members, seeds := SeedsFor(t.w, t.h, members, gs.adjacent), count := Tally(members),
        epoch := if gs.members == members then gs.epoch else gs.epoch + 1)
  }

  /** The epoch tells, tile by tile, whether a refresh found membership changed. */
  lemma EpochTellsChange(gs: GoalSet, t: Terrain)
    requires t.Valid() && |gs.members| == |t.tags|
    ensures Refreshed(gs, t).epoch != gs.epoch <==>
              exists i: nat ::
                i < |t.tags| && gs.members[i] != if gs.byTags then Matches(gs, t.tags[i]) else i in gs.tiles
  {
    var members := MembersOn(gs, t.tags);
    if gs.members != members {
      var i: nat :| i < |t.tags| && gs.members[i] != members[i];
    }
  }

  /** Refreshes into new bitmaps and publishes them together. */
  method Materialize(m: Map, gs: GoalSet) returns (out: GoalSet)
    requires m.Valid() && forall k | 0 <= k < |gs.tiles| :: gs.tiles[k] < m.w * m.h
    ensures out == Refreshed(gs, m.Now())
  {
    var members := CollectMembers(m, gs);
    var seeds := CollectSeeds(m.w, m.h, members, gs.adjacent);
    out := gs.(members := members, seeds := seeds, count := Tally(members),
               epoch := if gs.members == members then gs.epoch else gs.epoch + 1);
  }

  method CollectMembers(m: Map, gs: GoalSet) returns (b: seq<bool>)
    requires m.Valid() && forall k | 0 <= k < |gs.tiles| :: gs.tiles[k] < m.w * m.h
    ensures b == MembersOn(gs, m.Now().tags)
  {
    var bits := new bool[m.w * m.h](_ => false);
    if gs.byTags {
      for i := 0 to bits.Length
        invariant forall k | 0 <= k < i :: bits[k] == Matches(gs, m.Now().tags[k])
      {
        bits[i] := Matches(gs, m.interner.words[m.comboIdx[i]]);
      }
    } else {
      for t := 0 to |gs.tiles|
        invariant forall k | 0 <= k < bits.Length :: bits[k] <==> k in gs.tiles[..t]
      {
        bits[gs.tiles[t]] := true;
        assert gs.tiles[..t + 1] == gs.tiles[..t] + [gs.tiles[t]];
      }
      assert gs.tiles[..|gs.tiles|] == gs.tiles;
    }
    b := bits[..];
  }

  method CollectSeeds(w: nat, h: nat, members: seq<bool>, adjacent: bool) returns (b: seq<bool>)
    requires 0 < w && 0 < h && |members| == w * h
    ensures b == SeedsFor(w, h, members, adjacent)
  {
    hide GridInBounds, GridNbr, Beside;
    var bits := new bool[|members|](_ => false);
    for j := 0 to |members|
      invariant forall i | 0 <= i < |members| :: bits[i] <==> exists k | 0 <= k < j && members[k] ::
                SeededFrom(w, h, adjacent, k, i)
    {
      if members[j] {
        SeedTile(w, h, bits, j, adjacent);
      }
    }
    b := bits[..];
  }

  /** Seeds one member and, for sets approached from beside, its in-bounds neighbours. */
  method SeedTile(w: nat, h: nat, bits: array<bool>, j: nat, adjacent: bool)
    requires 0 < w && 0 < h && bits.Length == w * h && j < bits.Length
    modifies bits
    ensures forall i | 0 <= i < bits.Length :: bits[i] <==> old(bits[i]) || SeededFrom(w, h, adjacent, j, i)
  {
    hide GridInBounds, GridNbr;
    bits[j] := true;
    if adjacent {
      for d := 0 to 8
        invariant forall i | 0 <= i < bits.Length ::
                    bits[i] <==> old(bits[i]) || i == j || exists e: nat | e < d :: Beside(w, h, j, e, i)
      {
        if GridInBounds(w, h, j, d) {
          ghost var was := bits[..];
          bits[GridNbr(w, h, j, d)] := true;
          assert Beside(w, h, j, d, GridNbr(w, h, j, d));
          assert forall i | 0 <= i < bits.Length :: bits[i] <==> was[i] || Beside(w, h, j, d, i);
        } else {
          assert forall i :: !Beside(w, h, j, d, i);
        }
        assert forall i :: (exists e: nat | e < d + 1 :: Beside(w, h, j, e, i)) <==>
            (exists e: nat | e < d :: Beside(w, h, j, e, i)) || Beside(w, h, j, d, i);
      }
    }
  }

  // ---------- when a refresh is due ----------

  /** Some logged edit flipped a bit the set looks at. */
  ghost predicate Pending(d: Dirty, gs: GoalSet) {
    d.full || exists k | 0 <= k < |d.edits| :: d.edits[k].tagBits * (gs.anyMask + gs.allMask) != {}
  }

  /** A used set is well-formed, and its membership is right unless an edit that could have changed it is pending. */
  ghost predicate Current(gs: GoalSet, now: Terrain, d: Dirty)
    requires now.Valid()
  {
    && (forall k | 0 <= k < |gs.tiles| :: gs.tiles[k] < |now.cost|)
    && |gs.members| == |now.cost| && gs.seeds == SeedsFor(now.w, now.h, gs.members, gs.adjacent)
    && gs.epoch > 0
    && (gs.byTags ==> gs.anyMask + gs.allMask != {})
    && ((gs.byTags && Pending(d, gs)) || gs.members == MembersOn(gs, now.tags))
  }

  /** Words that agree on a set's masks match alike. */
  lemma MatchesByMask(gs: GoalSet, a: Word, b: Word)
    requires a * (gs.anyMask + gs.allMask) == b * (gs.anyMask + gs.allMask)
    ensures Matches(gs, a) == Matches(gs, b)
  {
    var m := gs.anyMask + gs.allMask;
    assert a * gs.anyMask == (a * m) * gs.anyMask && b * gs.anyMask == (b * m) * gs.anyMask;
    assert a * gs.allMask == (a * m) * gs.allMask && b * gs.allMask == (b * m) * gs.allMask;
    assert gs.allMask <= a <==> a * gs.allMask == gs.allMask;
    assert gs.allMask <= b <==> b * gs.allMask == gs.allMask;
  }

  lemma PendingGrows(d: Dirty, n: nat, e: Edit, gs: GoalSet)
    requires Pending(d, gs)
    ensures Pending(Logged(d, n, e), gs)
  {
    var l := Logged(d, n, e);
    if !l.full {
      var k :| 0 <= k < |d.edits| && d.edits[k].tagBits * (gs.anyMask + gs.allMask) != {};
      assert l.edits[k] == d.edits[k];
    }
  }

  lemma EditPends(d: Dirty, n: nat, e: Edit, gs: GoalSet)
    requires e.tagBits * (gs.anyMask + gs.allMask) != {}
    ensures Pending(Logged(d, n, e), gs)
  {
    var l := Logged(d, n, e);
    if !l.full {
      assert l.edits[|d.edits|] == e;
    }
  }

  lemma EditSparesMask(was: Terrain, now: Terrain, e: Edit, mask: Word, i: nat)
    requires Describes(e, was, now) && e.tagBits * mask == {} && i < |now.tags|
    ensures was.tags[i] * mask == now.tags[i] * mask
  {
    forall b | b in mask ensures b in was.tags[i] <==> b in now.tags[i] {
      assert b !in e.tagBits by { assert b in e.tagBits ==> b in e.tagBits * mask; }
      assert !BitDiffers(was, now, i, b);
    }
  }

  /** Recording a truthful edit keeps every set right or due for a refresh. */
  lemma EditKeepsCurrent(gs: GoalSet, was: Terrain, now: Terrain, d: Dirty, e: Edit)
    requires was.Valid() && now.Valid() && Current(gs, was, d) && Describes(e, was, now)
    ensures Current(gs, now, Logged(d, |now.cost|, e))
  {
    if gs.byTags && Pending(d, gs) {
      PendingGrows(d, |now.cost|, e, gs);
    } else if e.tagBits * (gs.anyMask + gs.allMask) != {} {
      EditPends(d, |now.cost|, e, gs);
      assert gs.byTags || MembersOn(gs, was.tags) == MembersOn(gs, now.tags);
    } else {
      forall i | 0 <= i < |now.tags| && gs.byTags ensures Matches(gs, was.tags[i]) == Matches(gs, now.tags[i]) {
        EditSparesMask(was, now, e, gs.anyMask + gs.allMask, i);
        MatchesByMask(gs, was.tags[i], now.tags[i]);
      }
      assert MembersOn(gs, was.tags) == MembersOn(gs, now.tags);
    }
  }

  /** After a refresh a set is right, whatever is pending. */
  lemma RefreshedIsCurrent(gs: GoalSet, t: Terrain, d: Dirty)
    requires t.Valid() && (forall k | 0 <= k < |gs.tiles| :: gs.tiles[k] < |t.cost|)
    requires gs.byTags ==> gs.anyMask + gs.allMask != {}
    requires gs.members == [] || gs.epoch > 0
    ensures Current(Refreshed(gs, t), t, d)
  {
    assert |MembersOn(gs, t.tags)| > 0 by { CellsExist(t); }
  }

  lemma CellsExist(t: Terrain)
    requires t.Valid()
    ensures |t.tags| > 0
  {
    ProductOrder(1, t.w, t.h);
  }
}
