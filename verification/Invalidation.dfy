/** Which cached fields an edit may affect, and why all others stay exact. */
module Invalidation {
  import opened FixedPoint
  import opened Grid
  import opened Profiles
  import opened DirtyLog
  import opened FieldMachine
  import opened FieldExact
  import opened Survival
  import opened TileMap

  /** Does the profile care about what the edit changed? */
  predicate Relevant(p: Profile, e: Edit) {
    e.passChanged || e.tagBits * p.relevantMask != {}
  }

  /** The edit's rectangle grown by one tile on every side, within the map. */
  function Grown(r: Rect, w: nat, h: nat): (g: Rect) {
    var x0, y0 := (if r.x > 0 then r.x - 1 else 0), if r.y > 0 then r.y - 1 else 0;
    var x1, y1 := (if r.x + r.w + 1 < w then r.x + r.w + 1 else w), if r.y + r.h + 1 < h then r.y + r.h + 1 else h;
    if x0 <= x1 && y0 <= y1 then Rect(x0, y0, x1 - x0, y1 - y0) else Rect(x0, y0, 0, 0)
  }

  /** Large rectangles are taken to affect every field without a scan. */
  predicate Sweeping(r: Rect, w: nat, h: nat) {
    Area(Grown(r, w, h)) > w * h / 4
  }

  ghost predicate Reaches(dist: seq<nat>, r: Rect, w: nat)
    requires w > 0
  {
    exists i: nat :: i < |dist| && dist[i] != G_INFINITE && Inside(r, w, i)
  }

  /** May this edit have changed the field? */
  ghost predicate Affected(p: Profile, dist: seq<nat>, e: Edit, w: nat, h: nat)
    requires w > 0
  {
    Relevant(p, e) && (Sweeping(e.rect, w, h) || Reaches(dist, Grown(e.rect, w, h), w))
  }

  /** Decides it by scanning the grown rectangle. */
  method AffectedBy(p: Profile, dist: seq<nat>, e: Edit, w: nat, h: nat) returns (hit: bool)
    requires 0 < w && 0 < h && |dist| == w * h
    ensures hit == Affected(p, dist, e, w, h)
  {
    hide Inside, Area;
    if !e.passChanged && e.tagBits * p.relevantMask == {} {
      return false;
    }
    var g := Grown(e.rect, w, h);
    if Sweeping(e.rect, w, h) {
      return true;
    }
    for row := 0 to g.h
      invariant forall r: nat, c: nat | r < row && c < g.w && Cell(g, w, r, c) < |dist| ::
                dist[Cell(g, w, r, c)] == G_INFINITE
    {
      for col := 0 to g.w
        invariant forall c: nat | c < col && Cell(g, w, row, c) < |dist| :: dist[Cell(g, w, row, c)] == G_INFINITE
      {
        CellIs(g, w, h, row, col);
        if dist[Cell(g, w, row, col)] != G_INFINITE {
          return true;
        }
      }
    }
    forall i: nat | i < |dist| && Inside(g, w, i) ensures dist[i] == G_INFINITE {
      InsideIsCell(g, w, i);
    }
    hit := false;
  }

  lemma InsideIsCell(r: Rect, w: nat, i: nat)
    requires w > 0 && Inside(r, w, i)
    ensures Row(w, i) >= r.y && Col(w, i) >= r.x
    ensures i == Cell(r, w, Row(w, i) - r.y, Col(w, i) - r.x)
    ensures Row(w, i) - r.y < r.h && Col(w, i) - r.x < r.w
  {
  }

  // ---------- what an edit affects, tile by tile ----------

  /** The tile lies in the rectangle or touches it, sideways or at a corner. */
  predicate Close(w: nat, r: Rect, i: nat)
    requires w > 0
  {
    r.x <= Col(w, i) + 1 && Col(w, i) <= r.x + r.w && r.y <= Row(w, i) + 1 && Row(w, i) <= r.y + r.h
  }

  ghost function CloseTiles(w: nat, h: nat, r: Rect): set<nat>
    requires w > 0
  {
    set i: nat | i < w * h && Close(w, r, i)
  }

  /** The edit changed what the profile looks at, and is too large to look closer or near a tile with a distance. */
  ghost predicate Disturbs(p: Profile, dist: seq<nat>, e: Edit, w: nat, h: nat)
    requires w > 0
  {
    && (e.passChanged || exists b: nat :: b in e.tagBits && b in p.relevantMask)
    && (4 * |CloseTiles(w, h, e.rect)| > w * h ||
        exists i: nat :: i < |dist| && dist[i] != G_INFINITE && Close(w, e.rect, i))
  }

  lemma GrownIsClose(r: Rect, w: nat, h: nat, i: nat)
    requires w > 0 && i < w * h
    ensures Inside(Grown(r, w, h), w, i) <==> Close(w, r, i)
  {
    InRows(w, h, i);
    hide Col, Row;
  }

  lemma InRows(w: nat, h: nat, i: nat)
    requires w > 0
    ensures Col(w, i) < w && i == Row(w, i) * w + Col(w, i) && (i < w * h <==> Row(w, i) < h)
  {
    var row, col := Row(w, i), Col(w, i);
    if row < h {
      RowMajor(row, col, h, w);
    } else {
      ProductOrder(h, row, w);
    }
  }

  function Interval(a: nat, b: nat): (s: set<nat>)
    requires a <= b
    ensures |s| == b - a && forall i: nat :: i in s <==> a <= i < b
    decreases b
  {
    if a == b then {} else Interval(a, b - 1) + {b - 1}
  }

  /** The tiles of a rectangle's first `k` rows. */
  ghost function TilesTo(g: Rect, w: nat, h: nat, k: nat): set<nat>
    requires w > 0
  {
    set i: nat | i < w * h && Inside(g, w, i) && Row(w, i) < g.y + k
  }

  lemma {:induction false} TilesInside(g: Rect, w: nat, h: nat, k: nat)
    requires w > 0 && g.x + g.w <= w && g.y + g.h <= h && k <= g.h
    ensures |TilesTo(g, w, h, k)| == g.w * k
  {
    hide Col, Row;
    if k == 0 {
      assert TilesTo(g, w, h, k) == {};
    } else {
      TilesInside(g, w, h, k - 1);
      var row := OneRow(g, w, h, g.y + k - 1);
      var before := TilesTo(g, w, h, k - 1);
      assert TilesTo(g, w, h, k) == before + row;
      assert before !! row;
      hide *;
      assert |before + row| == |before| + g.w;
      assert g.w * k == g.w * (k - 1) + g.w;
    }
  }

  lemma OneRow(g: Rect, w: nat, h: nat, y: nat) returns (row: set<nat>)
    requires w > 0 && g.x + g.w <= w && g.y <= y < g.y + g.h <= h
    ensures |row| == g.w && forall i: nat :: i in row <==> i < w * h && Inside(g, w, i) && Row(w, i) == y
  {
    hide Col, Row;
    NonNegativeProduct(y, w);
    var low: nat := y * w + g.x;
    row := Interval(low, low + g.w);
    forall i: nat ensures i in row <==> i < w * h && Inside(g, w, i) && Row(w, i) == y {
      InRows(w, h, i);
      if i in row {
        AtRow(w, y, i);
      }
    }
  }

  lemma AtRow(w: nat, y: nat, i: nat)
    requires w > 0 && y * w <= i < y * w + w
    ensures Row(w, i) == y && Col(w, i) == i - y * w
  {
    DivisionIsUnique(i, w, y, i - y * w);
  }

  /** A rectangle is large when the tiles in it or next to it are more than a quarter of the map. */
  lemma SweepingIsMany(r: Rect, w: nat, h: nat)
    requires w > 0
    ensures Sweeping(r, w, h) <==> 4 * |CloseTiles(w, h, r)| > w * h
  {
    hide Col, Row;
    var g := Grown(r, w, h);
    forall i: nat | i < w * h ensures Inside(g, w, i) <==> Close(w, r, i) {
      GrownIsClose(r, w, h, i);
    }
    hide Close, Grown;
    if g.w == 0 || g.h == 0 {
      assert CloseTiles(w, h, r) == {};
    } else {
      GrownFits(r, w, h);
      TilesInside(g, w, h, g.h);
      assert CloseTiles(w, h, r) == TilesTo(g, w, h, g.h);
    }
  }

  lemma GrownFits(r: Rect, w: nat, h: nat)
    requires Grown(r, w, h).w != 0 && Grown(r, w, h).h != 0
    ensures var g := Grown(r, w, h); g.x + g.w <= w && g.y + g.h <= h
  {
  }

  lemma RelevantByBits(p: Profile, e: Edit)
    ensures Relevant(p, e) <==> e.passChanged || exists b: nat :: b in e.tagBits && b in p.relevantMask
  {
    if b: nat :| b in e.tagBits && b in p.relevantMask {
      assert b in e.tagBits * p.relevantMask;
    }
  }

  /** Which edits end a field: the scan's test, tile by tile. */
  lemma AffectedIff(p: Profile, dist: seq<nat>, e: Edit, w: nat, h: nat)
    requires w > 0 && |dist| == w * h
    ensures Affected(p, dist, e, w, h) <==> Disturbs(p, dist, e, w, h)
  {
    RelevantByBits(p, e);
    SweepingIsMany(e.rect, w, h);
    hide Inside, Close, Grown, Sweeping, Relevant;
    forall i: nat | i < |dist| ensures Inside(Grown(e.rect, w, h), w, i) <==> Close(w, e.rect, i) {
      GrownIsClose(e.rect, w, h, i);
    }
  }

  // ---------- unaffected fields are undisturbed ----------

  /** A tile that looks different to the profile has a logged, relevant edit over it. */
  lemma ChangeIsLogged(p: Profile, base: Terrain, now: Terrain, d: Dirty, i: nat)
    requires Sized(p) && CoversRelevant(p) && base.Valid() && now.Valid() && Covers(d, base, now) && !d.full
    requires i < |now.cost| && !SameTile(Behold(base, p), Behold(now, p), i)
    ensures exists k | 0 <= k < |d.edits| :: Inside(d.edits[k].rect, now.w, i) && Relevant(p, d.edits[k])
  {
    if base.cost[i] != now.cost[i] {
      assert CostLogged(d, now.w, i);
      var k :| 0 <= k < |d.edits| && Inside(d.edits[k].rect, now.w, i) && d.edits[k].passChanged;
      assert Relevant(p, d.edits[k]);
    } else {
      var a, c := base.tags[i], now.tags[i];
      if a * p.relevantMask == c * p.relevantMask {
        IrrelevantBitsFoldAlike(p, a, c);
        assert false;
      } else {
        var b := DifferentBit(a * p.relevantMask, c * p.relevantMask);
        assert BitDiffers(base, now, i, b);
        assert BitLogged(d, now.w, i, b);
        var k :| 0 <= k < |d.edits| && Inside(d.edits[k].rect, now.w, i) && b in d.edits[k].tagBits;
        assert b in d.edits[k].tagBits * p.relevantMask;
        assert Relevant(p, d.edits[k]);
      }
    }
  }

  ghost function DifferentBit(a: set<nat>, b: set<nat>): (x: nat)
    requires a != b
    ensures x in a <==> x !in b
  {
    var x :| x in (a - b) + (b - a);
    x
  }

  /** A neighbour of a tile in a rectangle is in the grown rectangle. */
  lemma NearIsGrown(v: View, r: Rect, i: nat, j: nat)
    requires v.Valid() && i < v.N() && j < v.N() && Near(v, i, j) && Inside(r, v.w, i)
    ensures Inside(Grown(r, v.w, v.h), v.w, j)
  {
    CoordsInRange(v, j);
    assert Col(v.w, i) == X(v, i) && Row(v.w, i) == Y(v, i) && Col(v.w, j) == X(v, j) && Row(v.w, j) == Y(v, j);
    hide X, Y, Col, Row;
  }

  /** If no logged edit affects a field, nothing the field covers, and nothing next to it, has changed. */
  lemma UnaffectedIsUndisturbed(p: Profile, base: Terrain, now: Terrain, d: Dirty, dist: seq<nat>)
    requires Sized(p) && CoversRelevant(p) && base.Valid() && now.Valid() && Covers(d, base, now) && !d.full
    requires |dist| == |now.cost|
    requires forall k | 0 <= k < |d.edits| :: !Affected(p, dist, d.edits[k], now.w, now.h)
    ensures Behold(base, p).Valid() && Behold(now, p).Valid() && SameRules(Behold(base, p), Behold(now, p))
    ensures |dist| == Behold(base, p).N() && Undisturbed(Behold(base, p), Behold(now, p), dist)
  {
    BeholdValid(base, p);
    BeholdValid(now, p);
    var a, b := Behold(base, p), Behold(now, p);
    assert a.w == now.w && a.h == now.h;
    hide Behold, SameTile, Near, Inside, Grown, Sweeping, Relevant;
    forall i: nat, j: nat | i < a.N() && j < a.N() && !SameTile(a, b, i) && Near(a, i, j)
      ensures dist[j] == G_INFINITE
    {
      ChangeIsLogged(p, base, now, d, i);
      var k :| 0 <= k < |d.edits| && Inside(d.edits[k].rect, now.w, i) && Relevant(p, d.edits[k]);
      NearIsGrown(a, d.edits[k].rect, i, j);
      assert !Affected(p, dist, d.edits[k], now.w, now.h);
    }
  }

  // ---------- a field that is the one a fresh build gives ----------

  /** The stored field is exactly what building it on this terrain gives.  Fields towards a single tile are only ever
      made for tiles that can be entered. */
  ghost predicate GoodOn(t: Terrain, p: Profile, target: Target, dist: seq<nat>, next: seq<nat>) {
    && Sized(p) && t.Valid() && Behold(t, p).Valid() && ValidTarget(Behold(t, p), target)
    && |dist| == |t.cost|
    && (target.Tile? ==> !Behold(t, p).blocked[target.goal])
    && Stored(dist, next) == Field(Behold(t, p), target)
  }

  /** A field no edit affects is, distances and directions, what a fresh build on the edited terrain would give. */
  lemma SurvivorIsGood(p: Profile, base: Terrain, now: Terrain, d: Dirty, target: Target, dist: seq<nat>,
                       next: seq<nat>)
    requires GoodOn(base, p, target, dist, next) && CoversRelevant(p) && now.Valid() && Covers(d, base, now) && !d.full
    requires forall k | 0 <= k < |d.edits| :: !Affected(p, dist, d.edits[k], now.w, now.h)
    ensures GoodOn(now, p, target, dist, next)
  {
    UnaffectedIsUndisturbed(p, base, now, d, dist);
    hide Behold, Affected, Covers, Undisturbed, CoversRelevant, Source, Field;
    UndisturbedSameField(Behold(base, p), Behold(now, p), target);
  }

  /** A good field can be walked, and its distances are exact. */
  lemma GoodIsUsable(t: Terrain, p: Profile, target: Target, dist: seq<nat>, next: seq<nat>)
    requires GoodOn(t, p, target, dist, next)
    ensures Usable(Behold(t, p), target, Stored(dist, next)) && ExactField(Behold(t, p), target, dist)
  {
    hide Behold, Finished, Field, Leads;
    FieldIsExact(Behold(t, p), target);
    FieldFinished(Behold(t, p), target);
  }

  /** And a fresh build is good. */
  lemma FreshIsGood(t: Terrain, p: Profile, target: Target)
    requires Sized(p) && t.Valid() && Behold(t, p).Valid() && ValidTarget(Behold(t, p), target)
    requires target.Tile? ==> !Behold(t, p).blocked[target.goal]
    ensures var s := Field(Behold(t, p), target); GoodOn(t, p, target, s.dist, s.next) && s == Stored(s.dist, s.next)
  {
    hide Build, Start, Finished;
    BeholdValid(t, p);
  }
}
