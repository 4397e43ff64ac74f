/** Terrain on which an inflated search that is cut short overstates its total.  A lane one tile wide winds through the
    map; where it ends a search can go on in three ways, and takes the dear one first:

        z x y # G        z costs 511/256 ticks to enter, b 600/256, all others one tick
        s b # # #        s is the end of the lane, the goal G cannot be reached
*/
module Lane {
  import opened FixedPoint
  import opened Grid
  import opened Heuristic
  import opened Profiles
  import opened Registration

  const SIDE: nat := 2048
  const TURN: nat := 2043
  /** Tiles of one row of the lane, and the one that joins it to the next. */
  const PERIOD: nat := 2045
  /** The lane's tiles are numbered from its end, 0, up to this. */
  const LONGEST: nat := 2094078

  /** Odd rows belong to the lane up to column TURN; even ones join them at alternating ends. */
  predicate OnLane(x: int, y: int) {
    && 0 <= x <= TURN && 1 <= y < SIDE
    && (y % 2 == 1 || x == if y % 4 == 2 then 0 else TURN)
  }

  function LaneIndex(x: int, y: int): (m: nat)
    requires OnLane(x, y)
  {
    if y % 4 == 1 then y / 2 * PERIOD + (TURN - x)
    else if y % 4 == 3 then y / 2 * PERIOD + x
    else (y / 2 - 1) * PERIOD + (PERIOD - 1)
  }

  function LaneX(m: nat): (x: nat) {
    var j, r := m / PERIOD, m % PERIOD;
    if j % 2 == 0 then if r <= TURN then TURN - r else 0
    else if r <= TURN then r else TURN
  }

  function LaneY(m: nat): nat {
    var j, r := m / PERIOD, m % PERIOD;
    if r <= TURN then 2 * j + 1 else 2 * j + 2
  }

  lemma LanePosition(m: nat)
    requires m <= LONGEST
    ensures OnLane(LaneX(m), LaneY(m)) && LaneIndex(LaneX(m), LaneY(m)) == m
  {
    var j, r := m / PERIOD, m % PERIOD;
    assert m == j * PERIOD + r && j <= 1023 && (j == 1023 ==> r <= TURN);
    if r <= TURN {
      assert (2 * j + 1) / 2 == j;
    } else {
      assert (2 * j + 2) / 2 - 1 == j;
    }
  }

  /** Row of the lane and place in it. */
  lemma IndexParts(x: int, y: int)
    requires OnLane(x, y)
    ensures LaneIndex(x, y) / PERIOD == (if y % 2 == 1 then y / 2 else y / 2 - 1)
    ensures LaneIndex(x, y) % PERIOD == if y % 4 == 1 then TURN - x else if y % 4 == 3 then x else PERIOD - 1
    ensures LaneIndex(x, y) <= LONGEST
  {
    var j := if y % 2 == 1 then y / 2 else y / 2 - 1;
    var r := if y % 4 == 1 then TURN - x else if y % 4 == 3 then x else PERIOD - 1;
    assert LaneIndex(x, y) == j * PERIOD + r;
    DivisionIsUnique(LaneIndex(x, y), PERIOD, j, r);
  }

  lemma IndexTells(x: int, y: int, x': int, y': int)
    requires OnLane(x, y) && OnLane(x', y') && LaneIndex(x, y) == LaneIndex(x', y')
    ensures x == x' && y == y'
  {
    IndexParts(x, y);
    IndexParts(x', y');
    hide LaneIndex;
  }

  /** Base cost, 0 for a wall; the lane is open up to tile `m`. */
  function CostAt(m: nat, x: int, y: int): nat {
    if y == 0 then
      if x == TURN then 511 else if x == TURN + 1 || x == TURN + 2 || x == TURN + 4 then 256 else 0
    else if y == 1 && x == TURN + 1 then 600
    else if OnLane(x, y) && LaneIndex(x, y) <= m then 256
    else 0
  }

  predicate Open(m: nat, x: int, y: int) {
    0 <= x < SIDE && 0 <= y < SIDE && CostAt(m, x, y) > 0
  }

  /** The step (dx, dy) is legal under the strict corner rule. */
  predicate Free(m: nat, x: int, y: int, dx: int, dy: int) {
    Open(m, x + dx, y + dy) && (dx != 0 && dy != 0 ==> Open(m, x + dx, y) && Open(m, x, y + dy))
  }

  /** Corners are cut nowhere along the lane. */
  lemma NoDiagonal(m: nat, x: int, y: int, dx: int, dy: int)
    requires OnLane(x, y) && 0 < LaneIndex(x, y) <= m && (dx == 1 || dx == -1) && (dy == 1 || dy == -1)
    ensures !Free(m, x, y, dx, dy)
  {
    hide LaneIndex;
    assert y == 1 && x == TURN ==> LaneIndex(x, y) == 0 by { EndOfLane(); }
  }

  lemma EndOfLane()
    ensures OnLane(TURN, 1) && LaneIndex(TURN, 1) == 0
  {
  }

  /** Beyond its last tile the lane leads nowhere but along itself. */
  lemma LaneLeads(m: nat, x: int, y: int, dx: int, dy: int)
    requires OnLane(x, y) && 0 < LaneIndex(x, y) <= m && -1 <= dx <= 1 && -1 <= dy <= 1 && (dx != 0 || dy != 0)
    requires Free(m, x, y, dx, dy)
    ensures OnLane(x + dx, y + dy) && (dx == 0 || dy == 0)
    ensures LaneIndex(x + dx, y + dy) == LaneIndex(x, y) + 1 || LaneIndex(x + dx, y + dy) == LaneIndex(x, y) - 1
  {
    if dx != 0 && dy != 0 {
      NoDiagonal(m, x, y, dx, dy);
    }
  }

  /** The direction towards the lane's end. */
  function Toward(x: int, y: int): (d: nat)
    requires OnLane(x, y)
    ensures d < 4
  {
    if y % 4 == 1 && x < TURN then 0 else if y % 4 == 3 && x > 0 then 1 else 3
  }

  lemma TowardEnd(m: nat, x: int, y: int)
    requires OnLane(x, y) && 0 < LaneIndex(x, y) <= m
    ensures var d := Toward(x, y);
            && OnLane(x + DX[d], y + DY[d]) && LaneIndex(x + DX[d], y + DY[d]) == LaneIndex(x, y) - 1
            && Free(m, x, y, DX[d], DY[d])
  {
  }

  // ---------- the terrain and what a plain profile sees of it ----------

  function TileAt(x: int, y: int): (i: nat)
    requires 0 <= x < SIDE && 0 <= y < SIDE
    ensures i < SIDE * SIDE && i % SIDE == x && i / SIDE == y
  {
    y * SIDE + x
  }

  function LaneTerrain(m: nat): (t: Terrain)
    ensures t.Valid()
  {
    Terrain(SIDE, SIDE, seq(SIDE * SIDE, i requires 0 <= i < SIDE * SIDE => CostAt(m, i % SIDE, i / SIDE)),
            seq(SIDE * SIDE, _ => {}))
  }

  /** No weights, no masks; diagonals at three straight steps. */
  const PLAIN: ProfileDesc := ProfileDesc(false, Strict, 3.0, {}, {}, seq(64, _ => 0.0), seq(64, _ => 0.0))

  /** How the lane looks: costs as they are, diagonals three times as much. */
  ghost predicate Laid(v: View, m: nat) {
    && v.Valid() && v.w == v.h == SIDE && !v.conn4 && v.corner == Strict && v.hD == 256 && v.hD2 == 512
    && forall i: nat | i < SIDE * SIDE :: TileLaid(v, m, i)
  }

  ghost predicate TileLaid(v: View, m: nat, i: nat) {
    var c := CostAt(m, i % SIDE, i / SIDE);
    && i < |v.blocked| && i < |v.straight| && i < |v.diagonal|
    && (v.blocked[i] <==> c == 0) && (c > 0 ==> v.straight[i] == c && v.diagonal[i] == 3 * c)
  }

  lemma {:induction false} PlainFolds(p: Profile, b: nat)
    requires Sized(p) && b <= 64 && forall k | 0 <= k < 64 :: p.mult[k] == 1.0 && p.add[k] == 0.0
    ensures FloorBelow(p.mult, b) == MultBelow(p, {}, b) == 1.0 && AddBelow(p, {}, b) == 0.0
  {
    if b > 0 {
      PlainFolds(p, b - 1);
    }
  }

  lemma PlainProfile()
    ensures DescValid(PLAIN)
    ensures var p := Registered(PLAIN);
            && p.hD == 256 && p.hD2 == 512 && p.diagQ == 768 && !p.conn4 && p.corner == Strict
            && FloorQ(p.mult) == 256 && FoldWord(p, {}) == Fold(256, 0)
  {
    hide RelevantBelow;
    PlainFolds(Registered(PLAIN), 64);
  }

  lemma PlainStep(q: nat)
    requires q <= 0x1_0000
    ensures q > 0 ==>
              && PerceivedStep(q, Fold(256, 0), 768, false) == q
              && PerceivedStep(q, Fold(256, 0), 768, true) == 3 * q
  {
    assert Scale(q, 256) == q && Scale(q, 768) == 3 * q && Scale(3 * q, 256) == 3 * q;
    hide Scale;
  }

  lemma LaneIsLaid(m: nat)
    ensures DescValid(PLAIN) && Laid(Behold(LaneTerrain(m), Registered(PLAIN)), m)
  {
    hide FoldWord, Registered, PerceivedStep, OnLane, LaneIndex, FloorQ;
    PlainProfile();
    var t, p := LaneTerrain(m), Registered(PLAIN);
    BeholdValid(t, p);
    var v := Behold(t, p);
    forall i: nat | i < SIDE * SIDE ensures TileLaid(v, m, i) {
      PlainStep(t.cost[i]);
    }
  }

  /** Steps in terms of coordinates. */
  lemma StepTo(v: View, m: nat, x: int, y: int, d: nat)
    requires Laid(v, m) && 0 <= x < SIDE && 0 <= y < SIDE && d < 8
    ensures var i := TileAt(x, y);
            && v.Valid() && i < v.N() && (CanStep(v, i, d) <==> Free(m, x, y, DX[d], DY[d]))
            && (CanStep(v, i, d) ==>
                  && Dest(v, i, d) == TileAt(x + DX[d], y + DY[d])
                  && EnterCost(v, Dest(v, i, d), d) == (if d < 4 then 1 else 3) * CostAt(m, x + DX[d], y + DY[d]))
  {
    hide CostAt;
    var i := TileAt(x, y);
    assert v.N() == SIDE * SIDE;
    assert X(v, i) == x && Y(v, i) == y;
    if InBounds(v, i, d) {
      At(v, m, x + DX[d], y + DY[d]);
      if d >= 4 {
        At(v, m, x + DX[d], y);
        At(v, m, x, y + DY[d]);
      }
    }
  }

  lemma At(v: View, m: nat, x: int, y: int)
    requires Laid(v, m) && 0 <= x < SIDE && 0 <= y < SIDE
    ensures var i := TileAt(x, y);
            && i < v.N() && X(v, i) == x && Y(v, i) == y
            && (v.blocked[i] <==> CostAt(m, x, y) == 0)
            && (CostAt(m, x, y) > 0 ==> v.straight[i] == CostAt(m, x, y) && v.diagonal[i] == 3 * CostAt(m, x, y))
    ensures forall j: nat | j < v.N() && X(v, j) == x && Y(v, j) == y :: j == TileAt(x, y)
  {
    hide CostAt;
    assert v.N() == SIDE * SIDE;
    assert TileLaid(v, m, TileAt(x, y));
  }

  const GOAL: nat := 2047

  /** With diagonal floors at twice the straight floor the heuristic just counts columns and rows. */
  lemma HeightAt(v: View, m: nat, x: int, y: int)
    requires Laid(v, m) && 0 <= x < SIDE && 0 <= y < SIDE
    ensures Clamped(v) && H(v, TileAt(x, y), GOAL) == 256 * (GOAL - x + y)
  {
    assert GOAL % SIDE == GOAL && GOAL / SIDE == 0;
    assert X(v, GOAL) == GOAL && Y(v, GOAL) == 0;
  }
}
