/** Why the exactness of reported totals stops at an expansion budget: whatever the epsilon above 1 and whatever the
    budget from four expansions up to half the largest map, there is terrain on which a search that is cut short reports
    more for its partial path than the path costs.  A tile behind the path is improved after the path has gone on. */
module BudgetCut {
  import opened FixedPoint
  import opened Grid
  import opened Heuristic
  import opened OpenList
  import opened Trails
  import opened Profiles
  import opened Registration
  import opened SearchMachine
  import opened SearchInvariant
  import opened SearchResults
  import opened SearchKernel
  import opened Emit
  import opened Solve
  import opened Effort
  import opened Degenerate
  import opened Lane

  // ---------- what relaxing does, direction by direction ----------

  /** The step in direction `d`, if there is one, has nothing to offer. */
  ghost predicate Idle(v: View, q: Query, s: State, cur: nat, eg: nat, d: nat)
    requires Ready(v, q) && Shaped(v, q, s) && cur < v.N()
  {
    CanStep(v, cur, d) ==>
      var j := Dest(v, cur, d);
      s.g[j] <= eg + EnterCost(v, j, d) <= q.maxCost
  }

  /** What the step in direction `d` leaves when it lowers its target. */
  ghost function Lowered(v: View, q: Query, s: State, cur: nat, eg: nat, d: nat): State
    requires Ready(v, q) && Shaped(v, q, s) && cur < v.N() && CanStep(v, cur, d)
  {
    var j := Dest(v, cur, d);
    var ng := eg + EnterCost(v, j, d);
    s.(g := s.g[j := ng], parent := s.parent[j := d + 1], from := s.from[j := cur],
       open := s.open + multiset{Entry(F(v, q, j, ng), ng, j)})
  }

  lemma IdleKeeps(v: View, q: Query, s: State, cur: nat, eg: nat, d: nat)
    requires Ready(v, q) && Shaped(v, q, s) && cur < v.N() && Idle(v, q, s, cur, eg, d)
    ensures Relax(v, q, s, cur, eg, d) == s
  {
    hide CanStep, F;
  }

  lemma {:induction false} SkipTo(v: View, q: Query, s: State, cur: nat, eg: nat, d: nat, until: nat)
    requires Ready(v, q) && Shaped(v, q, s) && cur < v.N() && d <= until <= v.Dirs()
    requires forall k: nat | d <= k < until :: Idle(v, q, s, cur, eg, k)
    ensures RelaxFrom(v, q, s, cur, eg, d) == RelaxFrom(v, q, s, cur, eg, until)
    decreases until - d
  {
    hide Idle, Relax, Shaped, View.Valid, Clamped;
    if d < until {
      IdleKeeps(v, q, s, cur, eg, d);
      SkipTo(v, q, s, cur, eg, d + 1, until);
    }
  }

  lemma LowerStep(v: View, q: Query, s: State, cur: nat, eg: nat, d: nat)
    requires Ready(v, q) && Shaped(v, q, s) && cur < v.N() && d < v.Dirs() && CanStep(v, cur, d)
    requires eg + EnterCost(v, Dest(v, cur, d), d) < s.g[Dest(v, cur, d)]
    requires eg + EnterCost(v, Dest(v, cur, d), d) <= q.maxCost
    ensures Shaped(v, q, Lowered(v, q, s, cur, eg, d))
    ensures forall u: nat | u < v.N() :: Lowered(v, q, s, cur, eg, d).g[u] <= s.g[u]
    ensures RelaxFrom(v, q, s, cur, eg, d) == RelaxFrom(v, q, Lowered(v, q, s, cur, eg, d), cur, eg, d + 1)
  {
    RelaxLowers(v, q, s, cur, eg, d);
    hide CanStep, F, Relax, Lowered, EnterCost, Dest, View.Valid, Clamped;
  }

  lemma RelaxLowers(v: View, q: Query, s: State, cur: nat, eg: nat, d: nat)
    requires Ready(v, q) && Shaped(v, q, s) && cur < v.N() && d < v.Dirs() && CanStep(v, cur, d)
    requires eg + EnterCost(v, Dest(v, cur, d), d) < s.g[Dest(v, cur, d)]
    requires eg + EnterCost(v, Dest(v, cur, d), d) <= q.maxCost
    ensures Shaped(v, q, Lowered(v, q, s, cur, eg, d))
    ensures Relax(v, q, s, cur, eg, d) == Lowered(v, q, s, cur, eg, d)
  {
    hide CanStep, F, EnterCost, View.Valid, Clamped;
  }

  /** Lowering costs makes no idle step busy. */
  lemma StaysIdle(v: View, q: Query, s: State, t: State, cur: nat, eg: nat, k: nat)
    requires Ready(v, q) && Shaped(v, q, s) && Shaped(v, q, t) && cur < v.N() && Idle(v, q, s, cur, eg, k)
    requires forall u: nat | u < v.N() :: t.g[u] <= s.g[u]
    ensures Idle(v, q, t, cur, eg, k)
  {
    hide CanStep, EnterCost;
  }

  /** An expansion in which one direction at most lowers its target. */
  lemma OneLowers(v: View, q: Query, s: State, cur: nat, eg: nat, d: nat)
    requires Ready(v, q) && Shaped(v, q, s) && cur < v.N() && d < v.Dirs() && CanStep(v, cur, d)
    requires eg + EnterCost(v, Dest(v, cur, d), d) < s.g[Dest(v, cur, d)]
    requires eg + EnterCost(v, Dest(v, cur, d), d) <= q.maxCost
    requires forall k: nat | k < v.Dirs() && k != d :: Idle(v, q, s, cur, eg, k)
    ensures RelaxFrom(v, q, s, cur, eg, 0) == Lowered(v, q, s, cur, eg, d)
  {
    hide CanStep, Relax, F, Idle, EnterCost, View.Valid, Clamped;
    SkipTo(v, q, s, cur, eg, 0, d);
    LowerStep(v, q, s, cur, eg, d);
    var t := Lowered(v, q, s, cur, eg, d);
    hide Lowered, Shaped, Dest;
    forall k: nat | d < k < v.Dirs() ensures Idle(v, q, t, cur, eg, k) {
      StaysIdle(v, q, s, t, cur, eg, k);
    }
    SkipTo(v, q, t, cur, eg, d + 1, v.Dirs());
  }

  // ---------- the search along the lane ----------

  /** An inflated query from the lane's tile `m`, with four expansions more than it takes to reach the lane's end. */
  ghost predicate Asked(v: View, q: Query, m: nat) {
    && Laid(v, m) && Ready(v, q) && m <= LONGEST
    && q.start == Tile(m) && q.goal == GOAL && 257 <= q.eps && q.maxExpansions == m + 4 && q.maxCost == G_INFINITE
  }

  function Tile(k: nat): (i: nat)
    requires k <= LONGEST
    ensures i < SIDE * SIDE
  {
    LanePosition(k);
    TileAt(LaneX(k), LaneY(k))
  }

  /** The lane's tile at these coordinates, or none. */
  predicate IsTile(i: nat, k: nat) {
    OnLane(i % SIDE, i / SIDE) && LaneIndex(i % SIDE, i / SIDE) == k
  }

  /** The direction from tile `k` towards the lane's end. */
  function Onward(k: nat): (d: nat)
    requires k <= LONGEST
    ensures d < 4
  {
    LanePosition(k);
    Toward(LaneX(k), LaneY(k))
  }

  /** What tiles cost to reach when the search has come to tile `k`. */
  function LaneG(m: nat, k: nat, i: nat): nat {
    if OnLane(i % SIDE, i / SIDE) && k <= LaneIndex(i % SIDE, i / SIDE) <= m
        then 256 * (m - LaneIndex(i % SIDE, i / SIDE))
    else G_INFINITE
  }

  lemma LaneGrows(m: nat, k: nat, i: nat)
    requires 1 <= k <= m <= LONGEST && i < SIDE * SIDE
    ensures LaneG(m, k - 1, i) == if i == Tile(k - 1) then 256 * (m - k + 1) else LaneG(m, k, i)
  {
    hide LaneIndex, LaneX, LaneY, Tile;
    TileIs(k - 1, i);
  }

  lemma TileIs(k: nat, i: nat)
    requires k <= LONGEST && i < SIDE * SIDE
    ensures IsTile(i, k) <==> i == Tile(k)
  {
    hide LaneIndex, LaneX, LaneY;
    LanePosition(k);
    if IsTile(i, k) {
      IndexTells(i % SIDE, i / SIDE, LaneX(k), LaneY(k));
    }
  }

  /** The search has come to tile `k`: the tiles up to it cost one tick each, nothing else is reached, and it alone is
      open. */
  ghost predicate At(v: View, q: Query, s: State, m: nat, k: nat) {
    && Asked(v, q, m) && Shaped(v, q, s) && k <= m && s.expansions == m - k && s.bestH >= 1024
    && |s.g| == SIDE * SIDE && (forall i: nat | i < SIDE * SIDE :: s.g[i] == LaneG(m, k, i))
    && s.open == multiset{Entry(F(v, q, Tile(k), 256 * (m - k)), 256 * (m - k), Tile(k))}
  }

  /** What an expansion starts from: the entry that comes first is popped and its approach noted. */
  lemma Begin(v: View, q: Query, s: State, e: Entry)
    requires Ready(v, q) && Shaped(v, q, s) && e in s.open && (forall x | x in s.open && x != e :: Less(e, x))
    requires e.idx < v.N() && s.g[e.idx] == e.g
    ensures s.open != multiset{} && First(s.open) == e && Shaped(v, q, Popped(s))
    ensures var t, h := Settle(v, q, Popped(s), e), H(v, e.idx, q.goal);
            && Shaped(v, q, t) && t.g == s.g && t.parent == s.parent && t.from == s.from
            && t.open == s.open - multiset{e}
            && t.expansions == s.expansions + 1 && Expanded(v, q, s) == RelaxFrom(v, q, t, e.idx, e.g, 0)
            && (h < s.bestH ==> t.bestH == h && t.bestIdx == e.idx)
            && (h > s.bestH ==> t.bestH == s.bestH && t.bestIdx == s.bestIdx)
            && (t.bestH == s.bestH || t.bestH == h)
  {
    hide H, RelaxFrom;
    assert IsFirst(e, s.open);
    FirstIsUnique(s.open, e);
  }

  /** Along the lane only the next tile has anything to gain. */
  lemma LaneIdle(v: View, q: Query, s: State, m: nat, k: nat, d: nat)
    requires Asked(v, q, m) && Shaped(v, q, s) && 1 <= k <= m && d < 8
    requires forall j: nat | k <= j <= m :: Tile(j) < |s.g| && s.g[Tile(j)] == 256 * (m - j)
    requires d != Onward(k)
    ensures Tile(k) < v.N() && Idle(v, q, s, Tile(k), 256 * (m - k), d)
  {
    hide CanStep, Dest, EnterCost, LaneIndex, LaneX, LaneY, Toward, Tile, TileLaid, View.Valid, Shaped, F, GridInBounds;
    LanePosition(k);
    TilePlace(k);
    var x, y := LaneX(k), LaneY(k);
    StepTo(v, m, x, y, d);
    if Free(m, x, y, DX[d], DY[d]) {
      LaneLeads(m, x, y, DX[d], DY[d]);
      TowardEnd(m, x, y);
      OtherWay(x, y, d);
      LaneCost(m, x + DX[d], y + DY[d]);
      TileCount(v);
      LaneTile(x + DX[d], y + DY[d]);
    }
  }

  lemma LaneTile(x: int, y: int)
    requires OnLane(x, y)
    ensures LaneIndex(x, y) <= LONGEST && Tile(LaneIndex(x, y)) == TileAt(x, y)
  {
    hide LaneIndex, LaneX, LaneY, Tile;
    LaneCost(0, x, y);
    var j := LaneIndex(x, y);
    TilePlace(j);
    LanePosition(j);
    IndexTells(x, y, LaneX(j), LaneY(j));
  }

  lemma TilePlace(k: nat)
    requires k <= LONGEST
    ensures OnLane(LaneX(k), LaneY(k)) && Tile(k) == TileAt(LaneX(k), LaneY(k))
  {
    LanePosition(k);
  }

  /** Two directions never lead to the same lane tile. */
  lemma OtherWay(x: int, y: int, d: nat)
    requires OnLane(x, y) && d < 8 && d != Toward(x, y) && OnLane(x + DX[d], y + DY[d])
    requires OnLane(x + DX[Toward(x, y)], y + DY[Toward(x, y)])
    ensures LaneIndex(x + DX[d], y + DY[d]) != LaneIndex(x + DX[Toward(x, y)], y + DY[Toward(x, y)])
  {
    hide LaneIndex;
    if LaneIndex(x + DX[d], y + DY[d]) == LaneIndex(x + DX[Toward(x, y)], y + DY[Toward(x, y)]) {
      IndexTells(x + DX[d], y + DY[d], x + DX[Toward(x, y)], y + DY[Toward(x, y)]);
    }
  }

  /** Open lane tiles cost one tick, and the index says whether they are open. */
  lemma LaneCost(m: nat, x: int, y: int)
    requires OnLane(x, y)
    ensures LaneIndex(x, y) <= LONGEST
    ensures CostAt(m, x, y) == if LaneIndex(x, y) <= m then 256 else 0
  {
    IndexParts(x, y);
    hide LaneIndex;
  }

  /** The step on towards the lane's end. */
  lemma LaneStep(v: View, q: Query, s: State, m: nat, k: nat)
    requires Asked(v, q, m) && 1 <= k <= m
    ensures var d := Onward(k);
            && d < 4 && Tile(k) < v.N() && CanStep(v, Tile(k), d) && Dest(v, Tile(k), d) == Tile(k - 1)
            && EnterCost(v, Tile(k - 1), d) == 256
  {
    hide CanStep, Dest, EnterCost, LaneIndex, LaneX, LaneY, Toward, Tile;
    TilePlace(k);
    LanePosition(k);
    TilePlace(k - 1);
    LanePosition(k - 1);
    var x, y := LaneX(k), LaneY(k);
    var d := Toward(x, y);
    TowardEnd(m, x, y);
    StepTo(v, m, x, y, d);
    IndexTells(x + DX[d], y + DY[d], LaneX(k - 1), LaneY(k - 1));
    LaneCost(m, x + DX[d], y + DY[d]);
  }

  lemma TileCosts(v: View, q: Query, s: State, m: nat, k: nat)
    requires At(v, q, s, m, k)
    ensures v.N() == SIDE * SIDE == |s.g|
    ensures forall j: nat | j <= m :: Tile(j) < |s.g| && s.g[Tile(j)] == if k <= j then 256 * (m - j) else G_INFINITE
  {
    hide LaneIndex, LaneX, LaneY, Tile;
    forall j: nat | j <= m ensures Tile(j) < |s.g| && s.g[Tile(j)] == if k <= j then 256 * (m - j) else G_INFINITE {
      TilePlace(j);
      LanePosition(j);
    }
  }

  /** One expansion takes the search one tile on. */
  lemma AlongLane(v: View, q: Query, s: State, m: nat, k: nat)
    requires At(v, q, s, m, k) && 1 <= k
    ensures s.open != multiset{} && First(s.open).idx == Tile(k) < |s.g| && First(s.open).g == s.g[Tile(k)]
    ensures At(v, q, Expanded(v, q, s), m, k - 1)
  {
    hide CanStep, Dest, EnterCost, LaneIndex, LaneX, LaneY, Onward, Tile, F, RelaxFrom, Settle, Expanded, H;
    var eg := 256 * (m - k);
    var e := Entry(F(v, q, Tile(k), eg), eg, Tile(k));
    TileCosts(v, q, s, m, k);
    Begin(v, q, s, e);
    var t := Settle(v, q, Popped(s), e);
    LaneStep(v, q, s, m, k);
    var d := Onward(k);
    forall j: nat | j < v.Dirs() && j != d ensures Idle(v, q, t, Tile(k), eg, j) {
      LaneIdle(v, q, t, m, k, j);
    }
    OneLowers(v, q, t, Tile(k), eg, d);
    LaneHeight(v, m, k);
    LoweredIsAt(v, q, s, t, m, k);
  }

  lemma LaneHeight(v: View, m: nat, k: nat)
    requires Laid(v, m) && k <= LONGEST
    ensures Clamped(v) && H(v, Tile(k), GOAL) >= 1024
  {
    hide LaneX, LaneY;
    TilePlace(k);
    HeightAt(v, m, LaneX(k), LaneY(k));
  }

  lemma LoweredIsAt(v: View, q: Query, s: State, t: State, m: nat, k: nat)
    requires At(v, q, s, m, k) && 1 <= k && Shaped(v, q, t) && Tile(k) < v.N() == SIDE * SIDE
    requires t.g == s.g && t.open == multiset{} && t.expansions == s.expansions + 1 && t.bestH >= 1024
    requires CanStep(v, Tile(k), Onward(k))
    requires Dest(v, Tile(k), Onward(k)) == Tile(k - 1)
    requires EnterCost(v, Tile(k - 1), Onward(k)) == 256
    requires Shaped(v, q, Lowered(v, q, t, Tile(k), 256 * (m - k), Onward(k)))
    ensures At(v, q, Lowered(v, q, t, Tile(k), 256 * (m - k), Onward(k)), m, k - 1)
  {
    hide CanStep, Dest, EnterCost, LaneIndex, LaneX, LaneY, Onward, Tile, F, H, Asked, LaneG, Shaped, Ready;
    AskedLane(v, q, m);
    var r := Lowered(v, q, t, Tile(k), 256 * (m - k), Onward(k));
    forall i: nat | i < SIDE * SIDE ensures r.g[i] == LaneG(m, k - 1, i) {
      LaneGrows(m, k, i);
    }
  }

  lemma AskedLane(v: View, q: Query, m: nat)
    requires Asked(v, q, m)
    ensures m <= LONGEST && Ready(v, q)
  {
  }

  // ---------- where the lane ends ----------

  const S: nat := 4091
  const Z: nat := 2043
  const A: nat := 2044
  const C: nat := 2045
  const B: nat := 4092

  lemma Places()
    ensures S == TileAt(TURN, 1) == Tile(0) && Z == TileAt(TURN, 0) && A == TileAt(TURN + 1, 0)
            && C == TileAt(TURN + 2, 0)
    ensures B == TileAt(TURN + 1, 1)
  {
  }

  /** Priorities where the lane ends: cost so far plus epsilon times so many columns and rows. */
  lemma Priority(v: View, q: Query, m: nat, x: int, y: int, g: nat, far: nat)
    requires Asked(v, q, m) && 0 <= x < SIDE && 0 <= y < SIDE && far == GOAL - x + y
    ensures F(v, q, TileAt(x, y), g) == g + q.eps * far && H(v, TileAt(x, y), GOAL) == 256 * far
  {
    HeightAt(v, m, x, y);
    Shifted(q.eps, far);
  }

  lemma Shifted(e: nat, k: nat)
    ensures Inflate(e, 256 * k) == e * k
  {
    assert e * (256 * k) == 256 * (e * k);
  }

  /** Costs of the five tiles and the lane's last but one, and the open entries. */
  ghost predicate Around(v: View, q: Query, s: State, m: nat, gz: nat, ga: nat, gc: nat, gb: nat, open: multiset<Entry>,
                         expansions: nat)
  {
    && Asked(v, q, m) && Shaped(v, q, s) && |s.g| == SIDE * SIDE
    && s.g[S] == 256 * m && s.g[Z] == gz && s.g[A] == ga && s.g[C] == gc && s.g[B] == gb
    && (m > 0 ==> s.g[Tile(1)] == 256 * (m - 1))
    && (gz < G_INFINITE ==> s.from[Z] == S && s.parent[Z] == 4)
    && (gc < G_INFINITE ==> s.from[C] == A && s.parent[C] == 1)
    && s.open == open && s.expansions == expansions
  }

  ghost function Waits(g: nat, eps: nat, far: nat, i: nat): Entry {
    Entry(g + eps * far, g, i)
  }

  lemma LaneEnds(v: View, q: Query, s: State, m: nat)
    requires At(v, q, s, m, 0)
    ensures Around(v, q, s, m, G_INFINITE, G_INFINITE, G_INFINITE, G_INFINITE,
                   multiset{Waits(256 * m, q.eps, 5, S)}, m)
  {
    hide F, LaneX, LaneY, Tile;
    Places();
    Priority(v, q, m, TURN, 1, 256 * m, 5);
    TileCosts(v, q, s, m, 0);
  }

  /** The steps from s: left along the lane, and three new ones. */
  lemma FromS(v: View, q: Query, m: nat, d: nat)
    requires Asked(v, q, m) && d < 8
    ensures S < v.N()
    ensures CanStep(v, S, d) <==> d == 0 || d == 3 || d == 5 || (d == 1 && m > 0)
    ensures d == 0 ==> CanStep(v, S, d) && Dest(v, S, d) == B && EnterCost(v, B, d) == 600
    ensures d == 3 ==> CanStep(v, S, d) && Dest(v, S, d) == Z && EnterCost(v, Z, d) == 511
    ensures d == 5 ==> CanStep(v, S, d) && Dest(v, S, d) == A && EnterCost(v, A, d) == 768
    ensures d == 1 && m > 0 ==> CanStep(v, S, d) && Dest(v, S, d) == Tile(1) && EnterCost(v, Tile(1), d) == 256
  {
    hide CanStep, Dest, EnterCost;
    Places();
    StepTo(v, m, TURN, 1, d);
    assert Tile(1) == TileAt(TURN - 1, 1);
  }

  /** The steps from x (A), y (C) and z (Z). */
  lemma FromA(v: View, q: Query, m: nat, d: nat)
    requires Asked(v, q, m) && d < 8
    ensures A < v.N()
    ensures CanStep(v, A, d) <==> d == 0 || d == 1 || d == 2 || d == 6
    ensures d == 0 ==> CanStep(v, A, d) && Dest(v, A, d) == C && EnterCost(v, C, d) == 256
    ensures d == 1 ==> CanStep(v, A, d) && Dest(v, A, d) == Z && EnterCost(v, Z, d) == 511
    ensures d == 2 ==> CanStep(v, A, d) && Dest(v, A, d) == B && EnterCost(v, B, d) == 600
    ensures d == 6 ==> CanStep(v, A, d) && Dest(v, A, d) == S
  {
    hide CanStep, Dest, EnterCost;
    Places();
    StepTo(v, m, TURN + 1, 0, d);
  }

  lemma FromC(v: View, q: Query, m: nat, d: nat)
    requires Asked(v, q, m) && d < 8
    ensures C < v.N()
    ensures CanStep(v, C, d) <==> d == 1
    ensures d == 1 ==> CanStep(v, C, d) && Dest(v, C, d) == A && EnterCost(v, A, d) == 256
  {
    hide CanStep, Dest, EnterCost;
    Places();
    StepTo(v, m, TURN + 2, 0, d);
  }

  lemma FromZ(v: View, q: Query, m: nat, d: nat)
    requires Asked(v, q, m) && d < 8
    ensures Z < v.N()
    ensures CanStep(v, Z, d) <==> d == 0 || d == 2 || d == 4
    ensures d == 0 ==> CanStep(v, Z, d) && Dest(v, Z, d) == A && EnterCost(v, A, d) == 256
    ensures d == 2 ==> CanStep(v, Z, d) && Dest(v, Z, d) == S
    ensures d == 4 ==> CanStep(v, Z, d) && Dest(v, Z, d) == B && EnterCost(v, B, d) == 1800
  {
    hide CanStep, Dest, EnterCost;
    Places();
    StepTo(v, m, TURN, 0, d);
  }

  lemma NextTile(m: nat)
    ensures m > 0 && m <= LONGEST ==> Tile(1) == 4090
  {
    assert TileAt(TURN - 1, 1) == 4090;
  }

  /** `s` with tile `j` lowered to `ng` by the step from `cur` in direction `d`. */
  ghost function Put(v: View, q: Query, s: State, cur: nat, d: nat, j: nat, ng: nat): State
    requires Ready(v, q) && j < |s.g| == |s.parent| == |s.from|
  {
    s.(g := s.g[j := ng], parent := s.parent[j := d + 1], from := s.from[j := cur],
       open := s.open + multiset{Entry(F(v, q, j, ng), ng, j)})
  }

  lemma PutStep(v: View, q: Query, s: State, cur: nat, eg: nat, d: nat, j: nat, c: nat)
    requires Ready(v, q) && Shaped(v, q, s) && cur < v.N() && d < v.Dirs() && CanStep(v, cur, d)
    requires j < v.N() && Dest(v, cur, d) == j && EnterCost(v, j, d) == c && eg + c < s.g[j] && eg + c <= q.maxCost
    ensures j < |s.g| == |s.parent| == |s.from| == v.N()
    ensures var t := Put(v, q, s, cur, d, j, eg + c);
            && Shaped(v, q, t) && |t.g| == |t.parent| == |t.from| == v.N()
            && RelaxFrom(v, q, s, cur, eg, d) == RelaxFrom(v, q, t, cur, eg, d + 1)
            && t.g == s.g[j := eg + c] && t.expansions == s.expansions && t.bestH == s.bestH && t.bestIdx == s.bestIdx
  {
    hide CanStep, F, RelaxFrom, Dest, EnterCost;
    LowerStep(v, q, s, cur, eg, d);
  }

  /** No idle direction changes anything. */
  lemma IdleStep(v: View, q: Query, s: State, cur: nat, eg: nat, d: nat)
    requires Ready(v, q) && Shaped(v, q, s) && cur < v.N() && d < v.Dirs() && Idle(v, q, s, cur, eg, d)
    ensures RelaxFrom(v, q, s, cur, eg, d) == RelaxFrom(v, q, s, cur, eg, d + 1)
  {
    hide Idle, Relax;
    IdleKeeps(v, q, s, cur, eg, d);
  }

  /** Directions of s that have nothing to offer. */
  lemma IdleS(v: View, q: Query, s: State, m: nat, d: nat)
    requires Asked(v, q, m) && Shaped(v, q, s) && d < 8 && d != 0 && d != 3 && d != 5
    requires m > 0 ==> Tile(1) < |s.g| && s.g[Tile(1)] <= 256 * m
    ensures S < v.N() && Idle(v, q, s, S, 256 * m, d)
  {
    hide CanStep, Dest, EnterCost, F, Tile, Laid, Shaped;
    FromS(v, q, m, d);
  }

  /** The costs s ends up giving to its three new neighbours. */
  ghost function Fanned(v: View, q: Query, s: State, g: nat): State
    requires Ready(v, q) && |s.g| == |s.parent| == |s.from| == SIDE * SIDE
  {
    Put(v, q, Put(v, q, Put(v, q, s, S, 0, B, g + 600), S, 3, Z, g + 511), S, 5, A, g + 768)
  }

  lemma RelaxS(v: View, q: Query, s: State, m: nat)
    requires Asked(v, q, m) && Shaped(v, q, s) && |s.g| == |s.parent| == |s.from| == SIDE * SIDE == v.N()
             && v.Dirs() == 8
    requires s.g[B] == s.g[Z] == s.g[A] == G_INFINITE && (m > 0 ==> s.g[Tile(1)] <= 256 * m)
    ensures S < v.N() && RelaxFrom(v, q, s, S, 256 * m, 0) == Fanned(v, q, s, 256 * m)
  {
    hide CanStep, Dest, EnterCost, F, RelaxFrom, Tile, Laid, Shaped, Put, Idle, View.Valid;
    var g := 256 * m;
    NextTile(m);
    FromS(v, q, m, 0);
    PutStep(v, q, s, S, g, 0, B, 600);
    var t1 := Put(v, q, s, S, 0, B, g + 600);
    IdleS(v, q, t1, m, 1);
    IdleStep(v, q, t1, S, g, 1);
    IdleS(v, q, t1, m, 2);
    IdleStep(v, q, t1, S, g, 2);
    FromS(v, q, m, 3);
    PutStep(v, q, t1, S, g, 3, Z, 511);
    var t2 := Put(v, q, t1, S, 3, Z, g + 511);
    IdleS(v, q, t2, m, 4);
    IdleStep(v, q, t2, S, g, 4);
    FromS(v, q, m, 5);
    PutStep(v, q, t2, S, g, 5, A, 768);
    var t3 := Put(v, q, t2, S, 5, A, g + 768);
    IdleS(v, q, t3, m, 6);
    IdleStep(v, q, t3, S, g, 6);
    IdleS(v, q, t3, m, 7);
    IdleStep(v, q, t3, S, g, 7);
    AllRelaxed(v, q, t3, S, g);
  }

  lemma AllRelaxed(v: View, q: Query, s: State, cur: nat, eg: nat)
    requires Ready(v, q) && Shaped(v, q, s) && cur < v.N() && v.Dirs() == 8
    ensures RelaxFrom(v, q, s, cur, eg, 8) == s
  {
  }

  lemma AskedShape(v: View, q: Query, m: nat)
    requires Asked(v, q, m)
    ensures Ready(v, q) && v.N() == SIDE * SIDE && v.Dirs() == 8 && m <= LONGEST && q.maxCost == G_INFINITE
            && q.goal == GOAL
    ensures 257 <= q.eps && q.maxExpansions == m + 4
  {
  }

  /** s reaches z, x and b. */
  lemma ExpandS(v: View, q: Query, s: State, m: nat)
    requires Around(v, q, s, m, G_INFINITE, G_INFINITE, G_INFINITE, G_INFINITE, multiset{Waits(256 * m, q.eps, 5, S)},
             m)
    requires s.bestH >= 1024
    ensures s.open != multiset{} && First(s.open) == Waits(256 * m, q.eps, 5, S)
    ensures var t, g := Expanded(v, q, s), 256 * m;
            && Around(v, q, t, m, g + 511, g + 768, G_INFINITE, g + 600,
                      multiset{Waits(g + 511, q.eps, 4, Z), Waits(g + 768, q.eps, 3, A), Waits(g + 600, q.eps, 4, B)},
                          m + 1)
            && t.bestH >= 1024
  {
    hide CanStep, Dest, EnterCost, F, RelaxFrom, Settle, Expanded, H, Tile, Laid, Less, Asked, View.Valid, Clamped,
      Fanned;
    AskedShape(v, q, m);
    var e, g := Waits(256 * m, q.eps, 5, S), 256 * m;
    Begin(v, q, s, e);
    Places();
    Priority(v, q, m, TURN, 1, g, 5);
    var t := Settle(v, q, Popped(s), e);
    RelaxS(v, q, t, m);
    FannedIs(v, q, t, m);
  }

  lemma FannedIs(v: View, q: Query, t: State, m: nat)
    requires Asked(v, q, m) && Shaped(v, q, t) && |t.g| == |t.parent| == |t.from| == SIDE * SIDE && t.open == multiset{}
    requires t.g[S] == 256 * m && t.g[C] == G_INFINITE && (m > 0 ==> t.g[Tile(1)] == 256 * (m - 1))
    requires Shaped(v, q, Fanned(v, q, t, 256 * m))
    ensures var g := 256 * m;
            && Around(v, q, Fanned(v, q, t, g), m, g + 511, g + 768, G_INFINITE, g + 600,
                      multiset{Waits(g + 511, q.eps, 4, Z), Waits(g + 768, q.eps, 3, A), Waits(g + 600, q.eps, 4, B)},
                          t.expansions)
            && Fanned(v, q, t, g).bestH == t.bestH
  {
    hide F, H, Tile, Laid, Shaped, View.Valid, Clamped;
    var g := 256 * m;
    Places();
    NextTile(m);
    Priority(v, q, m, TURN + 1, 1, g + 600, 4);
    Priority(v, q, m, TURN, 0, g + 511, 4);
    Priority(v, q, m, TURN + 1, 0, g + 768, 3);
  }

  /** An expansion in which exactly one direction lowers its target. */
  lemma OnePut(v: View, q: Query, s: State, cur: nat, eg: nat, d: nat, j: nat, c: nat)
    requires Ready(v, q) && Shaped(v, q, s) && cur < v.N() && d < v.Dirs() && CanStep(v, cur, d)
    requires j < v.N() && Dest(v, cur, d) == j && EnterCost(v, j, d) == c && eg + c < s.g[j] && eg + c <= q.maxCost
    requires forall k: nat | k < v.Dirs() && k != d :: Idle(v, q, s, cur, eg, k)
    ensures j < |s.g| == |s.parent| == |s.from| == v.N()
    ensures RelaxFrom(v, q, s, cur, eg, 0) == Put(v, q, s, cur, d, j, eg + c)
  {
    hide CanStep, Dest, EnterCost, F, RelaxFrom, Idle;
    OneLowers(v, q, s, cur, eg, d);
  }

  ghost function OpenB(g: nat, eps: nat): Entry { Waits(g + 600, eps, 4, B) }

  lemma Heights(v: View, q: Query, m: nat)
    requires Asked(v, q, m)
    ensures Ready(v, q) && S < v.N() && Z < v.N() && A < v.N() && C < v.N() && B < v.N()
    ensures H(v, Z, q.goal) == 1024 && H(v, A, q.goal) == 768 && H(v, C, q.goal) == 512
  {
    hide H, F, Laid, Tile;
    AskedShape(v, q, m);
    Places();
    Priority(v, q, m, TURN, 0, 0, 4);
    Priority(v, q, m, TURN + 1, 0, 0, 3);
    Priority(v, q, m, TURN + 2, 0, 0, 2);
  }

  /** Which of the open entries comes first, and what is left without it. */
  lemma FirstIsA(g: nat, eps: nat, open: multiset<Entry>)
    requires 257 <= eps && open == multiset{Waits(g + 511, eps, 4, Z), Waits(g + 768, eps, 3, A), OpenB(g, eps)}
    ensures var a := Waits(g + 768, eps, 3, A);
            && a.idx == A && a.g == g + 768 && a in open && (forall x | x in open && x != a :: Less(a, x))
            && open - multiset{a} == multiset{Waits(g + 511, eps, 4, Z), OpenB(g, eps)}
  {
  }

  lemma FirstIsC(g: nat, eps: nat, open: multiset<Entry>)
    requires 257 <= eps && open == multiset{Waits(g + 511, eps, 4, Z), OpenB(g, eps), Waits(g + 1024, eps, 2, C)}
    ensures var c := Waits(g + 1024, eps, 2, C);
            && c.idx == C && c.g == g + 1024 && c in open && (forall x | x in open && x != c :: Less(c, x))
            && open - multiset{c} == multiset{Waits(g + 511, eps, 4, Z), OpenB(g, eps)}
  {
  }

  lemma FirstIsZ(g: nat, eps: nat, open: multiset<Entry>)
    requires 257 <= eps && open == multiset{Waits(g + 511, eps, 4, Z), OpenB(g, eps)}
    ensures var z, b := Waits(g + 511, eps, 4, Z), OpenB(g, eps);
            && z.idx == Z && z.g == g + 511 && z in open && open - multiset{z} == multiset{b}
            && (forall x | x in open && x != z :: Less(z, x))
  {
  }

  /** x is expanded too early, and reaches y. */
  lemma ExpandA(v: View, q: Query, s: State, m: nat)
    requires var g := 256 * m;
             Around(v, q, s, m, g + 511, g + 768, G_INFINITE, g + 600,
                    multiset{Waits(g + 511, q.eps, 4, Z), Waits(g + 768, q.eps, 3, A), OpenB(g, q.eps)}, m + 1)
    requires s.bestH >= 1024
    ensures s.open != multiset{} && First(s.open) == Waits(256 * m + 768, q.eps, 3, A)
    ensures var t, g := Expanded(v, q, s), 256 * m;
            && Around(v, q, t, m, g + 511, g + 768, g + 1024, g + 600,
                      multiset{Waits(g + 511, q.eps, 4, Z), OpenB(g, q.eps), Waits(g + 1024, q.eps, 2, C)}, m + 2)
            && t.bestH == 768
  {
    hide *;
    AroundIs(v, q, s, m, 256 * m + 511, 256 * m + 768, G_INFINITE, 256 * m + 600,
             multiset{Waits(256 * m + 511, q.eps, 4, Z), Waits(256 * m + 768, q.eps, 3, A), OpenB(256 * m, q.eps)},
                 m + 1);
    var e, g := Waits(256 * m + 768, q.eps, 3, A), 256 * m;
    FirstIsA(g, q.eps, s.open);
    Heights(v, q, m);
    Begin(v, q, s, e);
    var t := Settle(v, q, Popped(s), e);
    RelaxA(v, q, t, m);
    PutCIs(v, q, s, t, m);
  }

  /** What the five tiles cost, taken apart. */
  lemma AroundIs(v: View, q: Query, s: State, m: nat, gz: nat, ga: nat, gc: nat, gb: nat, open: multiset<Entry>, n: nat)
    requires Around(v, q, s, m, gz, ga, gc, gb, open, n)
    ensures Asked(v, q, m) && Ready(v, q) && v.N() == SIDE * SIDE && 257 <= q.eps && q.maxExpansions == m + 4
            && q.goal == GOAL
    ensures m <= LONGEST && q.maxCost == G_INFINITE
    ensures Shaped(v, q, s) && |s.g| == |s.from| == |s.parent| == SIDE * SIDE
    ensures s.g[S] == 256 * m && s.g[Z] == gz && s.g[A] == ga && s.g[C] == gc && s.g[B] == gb && s.open == open
    ensures s.expansions == n
  {
  }

  /** The state after x has reached y. */
  lemma PutCIs(v: View, q: Query, s: State, t: State, m: nat)
    requires var g := 256 * m;
             Around(v, q, s, m, g + 511, g + 768, G_INFINITE, g + 600,
                    multiset{Waits(g + 511, q.eps, 4, Z), Waits(g + 768, q.eps, 3, A), OpenB(g, q.eps)}, m + 1)
    requires Shaped(v, q, t) && t.g == s.g && t.from == s.from && t.parent == s.parent
             && t.expansions == s.expansions + 1
    requires t.open == multiset{Waits(256 * m + 511, q.eps, 4, Z), OpenB(256 * m, q.eps)} && t.bestH == 768
    requires |t.g| == |t.parent| == |t.from| == SIDE * SIDE && Shaped(v, q, Put(v, q, t, A, 0, C, 256 * m + 1024))
    ensures var r, g := Put(v, q, t, A, 0, C, 256 * m + 1024), 256 * m;
            && Around(v, q, r, m, g + 511, g + 768, g + 1024, g + 600,
                      multiset{Waits(g + 511, q.eps, 4, Z), OpenB(g, q.eps), Waits(g + 1024, q.eps, 2, C)}, m + 2)
            && r.bestH == 768
  {
    hide F, Tile, Asked, Shaped, Ready, Waits, OpenB, Put, View.Valid, Clamped;
    AskedShape(v, q, m);
    NextTile(m);
    PutC(v, q, t, m);
    AddedOpen(t.open, Waits(256 * m + 511, q.eps, 4, Z), OpenB(256 * m, q.eps), Waits(256 * m + 1024, q.eps, 2, C));
  }

  lemma AddedOpen(open: multiset<Entry>, a: Entry, b: Entry, c: Entry)
    requires open == multiset{a, b}
    ensures open + multiset{c} == multiset{a, b, c}
  {
  }

  lemma IdleA(v: View, q: Query, s: State, m: nat, d: nat)
    requires Asked(v, q, m) && Shaped(v, q, s) && 0 < d < 8 && |s.g| == SIDE * SIDE
    requires s.g[Z] <= 256 * m + 511 && s.g[B] <= 256 * m + 600 && s.g[S] <= 256 * m
    ensures A < v.N() && Idle(v, q, s, A, 256 * m + 768, d)
  {
    hide CanStep, Dest, EnterCost, F, Tile, Laid, Shaped;
    FromA(v, q, m, d);
  }

  lemma RelaxA(v: View, q: Query, s: State, m: nat)
    requires Asked(v, q, m) && Shaped(v, q, s) && |s.g| == |s.parent| == |s.from| == SIDE * SIDE
    requires s.g[Z] <= 256 * m + 511 && s.g[B] <= 256 * m + 600 && s.g[S] <= 256 * m && s.g[C] == G_INFINITE
    ensures A < v.N() && RelaxFrom(v, q, s, A, 256 * m + 768, 0) == Put(v, q, s, A, 0, C, 256 * m + 1024)
    ensures Shaped(v, q, Put(v, q, s, A, 0, C, 256 * m + 1024))
  {
    hide CanStep, Dest, EnterCost, F, RelaxFrom, Asked, Put, Idle;
    AskedShape(v, q, m);
    var eg := 256 * m + 768;
    FromA(v, q, m, 0);
    forall d: nat | d < v.Dirs() && d != 0 ensures Idle(v, q, s, A, eg, d) {
      IdleA(v, q, s, m, d);
    }
    OnePut(v, q, s, A, eg, 0, C, 256);
  }

  lemma PutC(v: View, q: Query, t: State, m: nat)
    requires Asked(v, q, m) && Shaped(v, q, t) && |t.g| == |t.parent| == |t.from| == SIDE * SIDE
    requires Shaped(v, q, Put(v, q, t, A, 0, C, 256 * m + 1024)) && 256 * m + 1024 < G_INFINITE
    requires m > 0 ==> Tile(1) == 4090
    ensures var r := Put(v, q, t, A, 0, C, 256 * m + 1024);
            && r.g == t.g[C := 256 * m + 1024] && r.from == t.from[C := A] && r.parent == t.parent[C := 1]
            && r.open == t.open + multiset{Waits(256 * m + 1024, q.eps, 2, C)}
            && r.expansions == t.expansions && r.bestH == t.bestH && r.bestIdx == t.bestIdx
  {
    hide F, H, Tile, Laid, Shaped, View.Valid, Clamped;
    Places();
    Priority(v, q, m, TURN + 2, 0, 256 * m + 1024, 2);
  }

  /** y leads nowhere; it is the closest approach. */
  lemma ExpandC(v: View, q: Query, s: State, m: nat)
    requires var g := 256 * m;
             Around(v, q, s, m, g + 511, g + 768, g + 1024, g + 600,
                    multiset{Waits(g + 511, q.eps, 4, Z), OpenB(g, q.eps), Waits(g + 1024, q.eps, 2, C)}, m + 2)
    requires s.bestH == 768
    ensures s.open != multiset{} && First(s.open) == Waits(256 * m + 1024, q.eps, 2, C)
    ensures var t, g := Expanded(v, q, s), 256 * m;
            && Around(v, q, t, m, g + 511, g + 768, g + 1024, g + 600,
                      multiset{Waits(g + 511, q.eps, 4, Z), OpenB(g, q.eps)}, m + 3)
            && t.bestH == 512 && t.bestIdx == C
  {
    hide *;
    AroundIs(v, q, s, m, 256 * m + 511, 256 * m + 768, 256 * m + 1024, 256 * m + 600,
             multiset{Waits(256 * m + 511, q.eps, 4, Z), OpenB(256 * m, q.eps), Waits(256 * m + 1024, q.eps, 2, C)},
                 m + 2);
    var e, g := Waits(256 * m + 1024, q.eps, 2, C), 256 * m;
    FirstIsC(g, q.eps, s.open);
    Heights(v, q, m);
    Begin(v, q, s, e);
    var t := Settle(v, q, Popped(s), e);
    RelaxC(v, q, t, m);
    PoppedIs(v, q, s, t, m);
  }

  lemma RelaxC(v: View, q: Query, s: State, m: nat)
    requires Asked(v, q, m) && Shaped(v, q, s) && |s.g| == SIDE * SIDE && s.g[A] <= 256 * m + 768
    ensures C < v.N() && RelaxFrom(v, q, s, C, 256 * m + 1024, 0) == s
  {
    hide CanStep, Dest, EnterCost, F, RelaxFrom, Asked, Idle;
    AskedShape(v, q, m);
    FromC(v, q, m, 0);
    var eg := 256 * m + 1024;
    forall d: nat | d < v.Dirs() ensures Idle(v, q, s, C, eg, d) {
      IdleC(v, q, s, m, d);
    }
    SkipTo(v, q, s, C, eg, 0, 8);
    AllRelaxed(v, q, s, C, eg);
  }

  lemma PoppedIs(v: View, q: Query, s: State, t: State, m: nat)
    requires var g := 256 * m;
             Around(v, q, s, m, g + 511, g + 768, g + 1024, g + 600,
                    multiset{Waits(g + 511, q.eps, 4, Z), OpenB(g, q.eps), Waits(g + 1024, q.eps, 2, C)}, m + 2)
    requires Shaped(v, q, t) && t.g == s.g && t.from == s.from && t.parent == s.parent
             && t.expansions == s.expansions + 1
    requires t.open == multiset{Waits(256 * m + 511, q.eps, 4, Z), OpenB(256 * m, q.eps)}
    ensures var g := 256 * m;
            Around(v, q, t, m, g + 511, g + 768, g + 1024, g + 600,
                multiset{Waits(g + 511, q.eps, 4, Z), OpenB(g, q.eps)}, m + 3)
  {
    hide F, Tile, Asked, Shaped, Ready, Waits, OpenB;
    AskedShape(v, q, m);
    NextTile(m);
  }

  lemma IdleC(v: View, q: Query, s: State, m: nat, d: nat)
    requires Asked(v, q, m) && Shaped(v, q, s) && d < 8 && |s.g| == SIDE * SIDE && s.g[A] <= 256 * m + 768
    ensures C < v.N() && Idle(v, q, s, C, 256 * m + 1024, d)
  {
    hide CanStep, Dest, EnterCost, F, Tile, Laid, Shaped;
    FromC(v, q, m, d);
  }

  /** z is popped; b is all that stays open. */
  lemma BeginZ(v: View, q: Query, s: State, m: nat)
    requires var g := 256 * m;
             Around(v, q, s, m, g + 511, g + 768, g + 1024, g + 600,
                    multiset{Waits(g + 511, q.eps, 4, Z), OpenB(g, q.eps)}, m + 3)
    requires s.bestH == 512 && s.bestIdx == C
    ensures s.open != multiset{} && First(s.open) == Waits(256 * m + 511, q.eps, 4, Z)
    ensures Ready(v, q) && Z < v.N() && Shaped(v, q, Popped(s))
    ensures var e := Waits(256 * m + 511, q.eps, 4, Z);
            && e.idx == Z && e.g == 256 * m + 511
            && var t := Settle(v, q, Popped(s), e);
            && Shaped(v, q, t) && t.g == s.g && t.parent == s.parent && t.from == s.from
            && t.open == multiset{OpenB(256 * m, q.eps)} && t.expansions == s.expansions + 1 && t.bestIdx == C
            && Expanded(v, q, s) == RelaxFrom(v, q, t, Z, 256 * m + 511, 0)
  {
    hide *;
    AroundIs(v, q, s, m, 256 * m + 511, 256 * m + 768, 256 * m + 1024, 256 * m + 600,
             multiset{Waits(256 * m + 511, q.eps, 4, Z), OpenB(256 * m, q.eps)}, m + 3);
    FirstIsZ(256 * m, q.eps, s.open);
    Heights(v, q, m);
    Begin(v, q, s, Waits(256 * m + 511, q.eps, 4, Z));
  }

  /** z improves x, too late for y. */
  lemma ExpandZ(v: View, q: Query, s: State, m: nat)
    requires var g := 256 * m;
             Around(v, q, s, m, g + 511, g + 768, g + 1024, g + 600,
                    multiset{Waits(g + 511, q.eps, 4, Z), OpenB(g, q.eps)}, m + 3)
    requires s.bestH == 512 && s.bestIdx == C
    ensures s.open != multiset{} && First(s.open) == Waits(256 * m + 511, q.eps, 4, Z)
    ensures var t, g := Expanded(v, q, s), 256 * m;
            && Around(v, q, t, m, g + 511, g + 767, g + 1024, g + 600,
                      multiset{OpenB(g, q.eps), Waits(g + 767, q.eps, 3, A)}, m + 4)
            && t.bestIdx == C && t.from[A] == Z && t.parent[A] == 1
  {
    hide *;
    AroundIs(v, q, s, m, 256 * m + 511, 256 * m + 768, 256 * m + 1024, 256 * m + 600,
             multiset{Waits(256 * m + 511, q.eps, 4, Z), OpenB(256 * m, q.eps)}, m + 3);
    BeginZ(v, q, s, m);
    var t := Settle(v, q, Popped(s), Waits(256 * m + 511, q.eps, 4, Z));
    RelaxZ(v, q, t, m);
    PutAIs(v, q, s, t, m);
  }

  /** The state after z has improved x. */
  lemma PutAIs(v: View, q: Query, s: State, t: State, m: nat)
    requires var g := 256 * m;
             Around(v, q, s, m, g + 511, g + 768, g + 1024, g + 600,
                    multiset{Waits(g + 511, q.eps, 4, Z), OpenB(g, q.eps)}, m + 3)
    requires Shaped(v, q, t) && t.g == s.g && t.from == s.from && t.parent == s.parent
             && t.expansions == s.expansions + 1
    requires t.open == multiset{OpenB(256 * m, q.eps)} && t.bestIdx == C && m <= LONGEST
    requires |t.g| == |t.parent| == |t.from| == SIDE * SIDE && Shaped(v, q, Put(v, q, t, Z, 0, A, 256 * m + 767))
    ensures var r, g := Put(v, q, t, Z, 0, A, 256 * m + 767), 256 * m;
            && Around(v, q, r, m, g + 511, g + 767, g + 1024, g + 600,
                      multiset{OpenB(g, q.eps), Waits(g + 767, q.eps, 3, A)}, m + 4)
            && r.bestIdx == C && r.from[A] == Z && r.parent[A] == 1
  {
    hide F, Tile, Asked, Shaped, Ready, Waits, OpenB, Put;
    AskedShape(v, q, m);
    NextTile(m);
    PutA(v, q, t, m);
  }

  lemma IdleZ(v: View, q: Query, s: State, m: nat, d: nat)
    requires Asked(v, q, m) && Shaped(v, q, s) && 0 < d < 8 && |s.g| == SIDE * SIDE
    requires s.g[B] <= 256 * m + 600 && s.g[S] <= 256 * m
    ensures Z < v.N() && Idle(v, q, s, Z, 256 * m + 511, d)
  {
    hide CanStep, Dest, EnterCost, F, Tile, Laid, Shaped;
    FromZ(v, q, m, d);
  }

  lemma RelaxZ(v: View, q: Query, s: State, m: nat)
    requires Asked(v, q, m) && Shaped(v, q, s) && |s.g| == |s.parent| == |s.from| == SIDE * SIDE
    requires s.g[B] <= 256 * m + 600 && s.g[S] <= 256 * m && s.g[A] == 256 * m + 768
    ensures Z < v.N() && RelaxFrom(v, q, s, Z, 256 * m + 511, 0) == Put(v, q, s, Z, 0, A, 256 * m + 767)
    ensures Shaped(v, q, Put(v, q, s, Z, 0, A, 256 * m + 767))
  {
    hide CanStep, Dest, EnterCost, F, RelaxFrom, Asked, Put, Idle;
    AskedShape(v, q, m);
    var eg := 256 * m + 511;
    FromZ(v, q, m, 0);
    forall d: nat | d < v.Dirs() && d != 0 ensures Idle(v, q, s, Z, eg, d) {
      IdleZ(v, q, s, m, d);
    }
    OnePut(v, q, s, Z, eg, 0, A, 256);
  }

  lemma PutA(v: View, q: Query, t: State, m: nat)
    requires Asked(v, q, m) && Shaped(v, q, t) && |t.g| == |t.parent| == |t.from| == SIDE * SIDE
    requires Shaped(v, q, Put(v, q, t, Z, 0, A, 256 * m + 767)) && m <= LONGEST
    ensures var r := Put(v, q, t, Z, 0, A, 256 * m + 767);
            && r.g == t.g[A := 256 * m + 767] && r.from == t.from[A := Z] && r.parent == t.parent[A := 1]
            && r.open == t.open + multiset{Waits(256 * m + 767, q.eps, 3, A)}
            && r.expansions == t.expansions && r.bestH == t.bestH && r.bestIdx == t.bestIdx
  {
    hide F, H, Tile, Laid, Shaped, View.Valid, Clamped;
    Places();
    Priority(v, q, m, TURN + 1, 0, 256 * m + 767, 3);
  }

  // ---------- the whole search ----------

  lemma OffGoal(k: nat)
    requires k <= LONGEST
    ensures Tile(k) != GOAL
  {
    TilePlace(k);
  }

  /** An expansion that is not stale, not at the goal and within budget leads on. */
  lemma RunOn(v: View, q: Query, s: State)
    requires Ready(v, q) && Shaped(v, q, s) && s.open != multiset{} && s.expansions < q.maxExpansions
    requires First(s.open).idx < |s.g| && First(s.open).g == s.g[First(s.open).idx] && First(s.open).idx != q.goal
    ensures Run(v, q, s) == Run(v, q, Expanded(v, q, s))
  {
    hide Expanded;
  }

  lemma {:induction false} RunLane(v: View, q: Query, s: State, m: nat, k: nat) returns (t: State)
    requires At(v, q, s, m, k)
    ensures At(v, q, t, m, 0) && Run(v, q, s) == Run(v, q, t)
    decreases k
  {
    hide Run, Expanded, Asked, Tile, First, LaneG;
    if k == 0 {
      t := s;
    } else {
      AskedShape(v, q, m);
      AlongLane(v, q, s, m, k);
      OffGoal(k);
      RunOn(v, q, s);
      t := RunLane(v, q, Expanded(v, q, s), m, k - 1);
    }
  }

  lemma LaneBegins(v: View, q: Query, m: nat)
    requires Asked(v, q, m)
    ensures At(v, q, Init(v, q), m, m)
  {
    hide LaneIndex, LaneX, LaneY, Tile, F, H, LaneG;
    AskedShape(v, q, m);
    LaneHeight(v, m, m);
    forall i: nat | i < SIDE * SIDE ensures Init(v, q).g[i] == LaneG(m, m, i) {
      OnlyStart(m, i);
    }
  }

  lemma OnlyStart(m: nat, i: nat)
    requires m <= LONGEST && i < SIDE * SIDE
    ensures LaneG(m, m, i) == if i == Tile(m) then 0 else G_INFINITE
  {
    hide LaneIndex, LaneX, LaneY, Tile;
    TileIs(m, i);
  }

  lemma AtShape(v: View, q: Query, s: State, m: nat)
    requires At(v, q, s, m, 0)
    ensures Asked(v, q, m) && s.bestH >= 1024 && s.expansions == m
  {
  }

  /** The search ends on its budget; y keeps the cost it had before x was improved. */
  lemma CutShort(v: View, q: Query, m: nat) returns (s: State)
    requires Asked(v, q, m)
    ensures Ready(v, q) && Shaped(v, q, s) && Search(v, q) == Outcome(OutOfBudget, s)
    ensures s.bestIdx == C && C < |s.g| == |s.from| == |s.parent|
    ensures s.g[C] == 256 * m + 1024 && s.g[Z] == 256 * m + 511 && s.g[A] == 256 * m + 767
    ensures s.from[A] == Z && s.parent[A] == 1 && s.from[C] == A && s.parent[C] == 1
  {
    hide Run, Expanded, Asked, Tile, First, LaneG, At, Around, Init, F, H;
    AskedShape(v, q, m);
    LaneBegins(v, q, m);
    s := RunLane(v, q, Init(v, q), m, m);
    AtShape(v, q, s, m);
    LaneEnds(v, q, s, m);
    var g := 256 * m;
    AroundIs(v, q, s, m, G_INFINITE, G_INFINITE, G_INFINITE, G_INFINITE, multiset{Waits(g, q.eps, 5, S)}, m);
    ExpandS(v, q, s, m);
    RunOn(v, q, s);
    s := Expanded(v, q, s);
    s := WindUp(v, q, s, m);
  }

  /** From the lane's end on. */
  lemma WindUp(v: View, q: Query, s: State, m: nat) returns (t: State)
    requires var g := 256 * m;
             Around(v, q, s, m, g + 511, g + 768, G_INFINITE, g + 600,
                    multiset{Waits(g + 511, q.eps, 4, Z), Waits(g + 768, q.eps, 3, A), Waits(g + 600, q.eps, 4, B)},
                        m + 1)
    requires s.bestH >= 1024
    ensures Ready(v, q) && Shaped(v, q, s) && Shaped(v, q, t) && Run(v, q, s) == Outcome(OutOfBudget, t)
    ensures t.bestIdx == C && C < |t.g| == |t.from| == |t.parent|
    ensures t.g[C] == 256 * m + 1024 && t.g[Z] == 256 * m + 511 && t.g[A] == 256 * m + 767
    ensures t.from[A] == Z && t.parent[A] == 1 && t.from[C] == A && t.parent[C] == 1
  {
    hide Run, Expanded, Asked, Tile, First, LaneG, Around, F, H;
    var g := 256 * m;
    assert OpenB(g, q.eps) == Waits(g + 600, q.eps, 4, B);
    AroundIs(v, q, s, m, g + 511, g + 768, G_INFINITE, g + 600,
             multiset{Waits(g + 511, q.eps, 4, Z), Waits(g + 768, q.eps, 3, A), OpenB(g, q.eps)}, m + 1);
    ExpandA(v, q, s, m);
    RunOn(v, q, s);
    t := Expanded(v, q, s);
    AroundIs(v, q, t, m, g + 511, g + 768, g + 1024, g + 600,
             multiset{Waits(g + 511, q.eps, 4, Z), OpenB(g, q.eps), Waits(g + 1024, q.eps, 2, C)}, m + 2);
    ExpandC(v, q, t, m);
    RunOn(v, q, t);
    t := Expanded(v, q, t);
    t := Improve(v, q, t, m);
  }

  /** z is expanded, and the budget is used up. */
  lemma Improve(v: View, q: Query, s: State, m: nat) returns (t: State)
    requires var g := 256 * m;
             Around(v, q, s, m, g + 511, g + 768, g + 1024, g + 600,
                    multiset{Waits(g + 511, q.eps, 4, Z), OpenB(g, q.eps)}, m + 3)
    requires s.bestH == 512 && s.bestIdx == C
    ensures Ready(v, q) && Shaped(v, q, s) && Shaped(v, q, t) && Run(v, q, s) == Outcome(OutOfBudget, t)
    ensures t.bestIdx == C && C < |t.g| == |t.from| == |t.parent|
    ensures t.g[C] == 256 * m + 1024 && t.g[Z] == 256 * m + 511 && t.g[A] == 256 * m + 767
    ensures t.from[A] == Z && t.parent[A] == 1 && t.from[C] == A && t.parent[C] == 1
  {
    hide Run, Expanded, Asked, Tile, First, LaneG, Around, F, H;
    var g := 256 * m;
    AroundIs(v, q, s, m, g + 511, g + 768, g + 1024, g + 600,
             multiset{Waits(g + 511, q.eps, 4, Z), OpenB(g, q.eps)}, m + 3);
    ExpandZ(v, q, s, m);
    RunOn(v, q, s);
    t := Expanded(v, q, s);
    Stops(v, q, t, m);
  }

  lemma Stops(v: View, q: Query, s: State, m: nat)
    requires var g := 256 * m;
             Around(v, q, s, m, g + 511, g + 767, g + 1024, g + 600,
                 multiset{OpenB(g, q.eps), Waits(g + 767, q.eps, 3, A)}, m + 4)
    ensures Ready(v, q) && Shaped(v, q, s) && Run(v, q, s) == Outcome(OutOfBudget, s)
    ensures C < |s.g| == |s.from| == |s.parent| && s.g[C] == 256 * m + 1024 && s.g[Z] == 256 * m + 511
            && s.g[A] == 256 * m + 767
    ensures s.from[C] == A && s.parent[C] == 1
  {
    hide F, H, Tile, Laid, Expanded;
    var e := Waits(256 * m + 767, q.eps, 3, A);
    assert e in s.open && IsFirst(e, s.open);
    FirstIsUnique(s.open, e);
  }

  // ---------- what the caller sees ----------

  /** A request from the lane's tile `budget - 4` to the unreachable goal, with that many expansions. */
  function LaneRequest(budget: nat, epsilon: real): Request
    requires 4 <= budget <= LONGEST + 4
  {
    Request(LaneX(budget - 4), LaneY(budget - 4), GOAL, 0, 0, true, budget, 0.0, epsilon, 0)
  }

  lemma LaneAsked(budget: nat, epsilon: real)
    requires 4 <= budget <= LONGEST + 4 && (epsilon == 0.0 || 257.0 / 256.0 <= epsilon <= 256.0)
    ensures DescValid(PLAIN)
    ensures var v, req := Behold(LaneTerrain(budget - 4), Registered(PLAIN)), LaneRequest(budget, epsilon);
            && Answerable(v, req) && EndpointsInside(v, req) && StartOf(v, req) == Tile(budget - 4)
            && GoalOf(v, req) == GOAL
            && Asked(v, QueryOf(v, req, StartOf(v, req), GoalOf(v, req)), budget - 4)
  {
    hide LaneX, LaneY, LaneIndex, Behold, Registered, LaneTerrain;
    var m := budget - 4;
    LaneIsLaid(m);
    LanePosition(m);
    TilePlace(m);
    var v, req := Behold(LaneTerrain(m), Registered(PLAIN)), LaneRequest(budget, epsilon);
    AskedFits(v, req, m);
  }

  lemma AskedFits(v: View, req: Request, m: nat)
    requires Laid(v, m) && m <= LONGEST && OnLane(LaneX(m), LaneY(m)) && Tile(m) == TileAt(LaneX(m), LaneY(m))
    requires req == LaneRequest(m + 4, req.epsilon) && (req.epsilon == 0.0 || 257.0 / 256.0 <= req.epsilon <= 256.0)
    ensures Answerable(v, req) && EndpointsInside(v, req) && StartOf(v, req) == Tile(m) && GoalOf(v, req) == GOAL
    ensures Asked(v, QueryOf(v, req, StartOf(v, req), GoalOf(v, req)), m)
  {
    hide LaneX, LaneY, LaneIndex, Tile, TileLaid;
    LimitsNeverLoosen(req);
    assert v.N() == SIDE * SIDE;
  }

  /** The partial path's steps spell only routes that cost less than reported. */
  ghost predicate Overstated(v: View, req: Request)
    requires Answerable(v, req) && EndpointsInside(v, req)
  {
    var a, start := SearchAnswer(v, req), StartOf(v, req);
    && a.steps != []
    && forall r: Route | Legal(v, start, r) && Steps(v, start, r) == a.steps :: Cost(v, start, r) < a.perceivedQ
  }

  /** Steps spell one route only. */
  lemma {:induction false} StepsTell(v: View, i: nat, r: Route, r': Route)
    requires v.Valid() && i < v.N() && Legal(v, i, r) && Legal(v, i, r') && Steps(v, i, r) == Steps(v, i, r')
    ensures r == r'
    decreases r
  {
    hide CanStep, TrueCost;
    if r.Go? && r'.Go? {
      assert Steps(v, i, r)[0] == Steps(v, i, r')[0];
      SameDirection(v, i, r.d, r'.d);
      assert Steps(v, i, r)[1..] == Steps(v, Dest(v, i, r.d), r.rest);
      assert Steps(v, i, r')[1..] == Steps(v, Dest(v, i, r.d), r'.rest);
      StepsTell(v, Dest(v, i, r.d), r.rest, r'.rest);
    }
  }

  lemma SameDirection(v: View, i: nat, d: nat, e: nat)
    requires v.Valid() && i < v.N() && CanStep(v, i, d) && CanStep(v, i, e) && Dest(v, i, d) == Dest(v, i, e)
    ensures d == e
  {
    hide X, Y;
    assert DX[d] == DX[e] && DY[d] == DY[e];
  }

  /** The reported partial path ends on y, costs what the way through z costs, and is reported at what the way by x
      alone cost. */
  lemma OverstatedTotal(budget: nat, epsilon: real)
    requires 4 <= budget <= LONGEST + 4 && (epsilon == 0.0 || 257.0 / 256.0 <= epsilon <= 256.0)
    ensures DescValid(PLAIN) && Honest(Registered(PLAIN))
    ensures var v, req := Behold(LaneTerrain(budget - 4), Registered(PLAIN)), LaneRequest(budget, epsilon);
            && Answerable(v, req) && EndpointsInside(v, req) && StartOf(v, req) != GoalOf(v, req)
            && SearchAnswer(v, req).status == BudgetExceeded && Overstated(v, req)
  {
    hide Behold, LaneTerrain, Asked, Search, Tile, Overstated, FoldWord, StartOf, GoalOf, LaneX, LaneY, Registered;
    PlainProfile();
    LaneAsked(budget, epsilon);
    OffGoal(budget - 4);
    var v, req := Behold(LaneTerrain(budget - 4), Registered(PLAIN)), LaneRequest(budget, epsilon);
    CutOverstates(v, req, QueryOf(v, req, StartOf(v, req), GoalOf(v, req)), budget - 4);
  }

  lemma CutOverstates(v: View, req: Request, q: Query, m: nat)
    requires Answerable(v, req) && EndpointsInside(v, req) && StartOf(v, req) != GoalOf(v, req) && req.partial
    requires q == QueryOf(v, req, StartOf(v, req), GoalOf(v, req)) && Asked(v, q, m)
    ensures SearchAnswer(v, req).status == BudgetExceeded && Overstated(v, req)
  {
    hide Answerable, EndpointsInside, StartOf, GoalOf, QueryOf, Asked, Ready, Shaped, Inv, Chained, Search, Overstated,
      Reported, SearchAnswer, ParentRoute, Legal, End, Cost, Steps, Duration, View.Valid, Laid, H;
    AskedShape(v, q, m);
    var s := CutShort(v, q, m);
    SearchHolds(v, q);
    InvChained(v, q, s);
    StartElsewhere(v, q, m);
    TwoBack(v, q, s, m);
    PathReported(v, q, s);
    ReportOverstates(v, req, q, s);
  }

  /** The answer when a search with partial paths is stopped at `s`. */
  lemma PathReported(v: View, q: Query, s: State)
    requires Ready(v, q) && Shaped(v, q, s) && Chained(v, q, s) && Search(v, q) == Outcome(OutOfBudget, s)
    requires s.bestIdx == C && q.start != C && C < |s.g| && s.g[C] < G_INFINITE
    ensures C < v.N() && Connects(v, q.start, ParentRoute(v, q, s, C, Stop), C)
    ensures var a, r := Reported(v, q, true), ParentRoute(v, q, s, C, Stop);
            a.status == BudgetExceeded && a.steps == Steps(v, q.start, r) && a.perceivedQ == s.g[C] && a.steps != []
  {
    hide Search, ParentRoute, Inv, Steps, Duration, Cost, CanStep, Dest, EnterCost, Chained, H, F;
    ParentRouteLegal(v, q, s, C, Stop);
    NotEmpty(v, q, ParentRoute(v, q, s, C, Stop));
  }

  lemma ReportOverstates(v: View, req: Request, q: Query, s: State)
    requires Answerable(v, req) && EndpointsInside(v, req) && StartOf(v, req) != GoalOf(v, req) && req.partial
    requires q == QueryOf(v, req, StartOf(v, req), GoalOf(v, req))
    requires Ready(v, q) && Shaped(v, q, s) && Chained(v, q, s) && C < v.N() == |s.g| && s.g[C] < G_INFINITE
    requires var a, r := Reported(v, q, true), ParentRoute(v, q, s, C, Stop);
             && Legal(v, q.start, r) && a.status == BudgetExceeded && a.steps == Steps(v, q.start, r) && a.steps != []
             && a.perceivedQ == s.g[C] && Cost(v, q.start, r) < s.g[C]
    ensures SearchAnswer(v, req).status == BudgetExceeded && Overstated(v, req)
  {
    hide ParentRoute, Steps, Duration, Cost, Legal, Reported, Chained, Shaped, StartOf, GoalOf;
    var r := ParentRoute(v, q, s, C, Stop);
    forall r': Route | Legal(v, q.start, r') && Steps(v, q.start, r') == SearchAnswer(v, req).steps
      ensures Cost(v, q.start, r') < SearchAnswer(v, req).perceivedQ
    {
      StepsTell(v, q.start, r', r);
    }
  }

  lemma StartElsewhere(v: View, q: Query, m: nat)
    requires Asked(v, q, m)
    ensures q.start != C && q.start != A && q.start != Z
  {
    TilePlace(m);
  }

  lemma NotEmpty(v: View, q: Query, r: Route)
    requires v.Valid() && q.start < v.N() && q.start != C && Connects(v, q.start, r, C)
    ensures Steps(v, q.start, r) != []
  {
    hide CanStep, Dest;
  }

  /** The chain of y goes back through x to z, and costs no more than z and the two steps from there. */
  lemma TwoBack(v: View, q: Query, s: State, m: nat)
    requires Asked(v, q, m) && Ready(v, q) && Shaped(v, q, s) && Chained(v, q, s)
             && C < v.N() == |s.g| == |s.from| == |s.parent|
    requires s.g[C] == 256 * m + 1024 && s.g[Z] == 256 * m + 511 && s.g[A] == 256 * m + 767 && m <= LONGEST
    requires s.from[A] == Z && s.parent[A] == 1 && s.from[C] == A && s.parent[C] == 1
    requires q.start != C && q.start != A
    ensures Legal(v, q.start, ParentRoute(v, q, s, C, Stop))
    ensures Cost(v, q.start, ParentRoute(v, q, s, C, Stop)) < s.g[C]
  {
    hide Asked, CanStep, Dest, EnterCost, Chained, Tile;
    FromZ(v, q, m, 0);
    FromA(v, q, m, 0);
    assert ParentRoute(v, q, s, C, Stop) == ParentRoute(v, q, s, A, Go(0, Stop));
    assert ParentRoute(v, q, s, A, Go(0, Stop)) == ParentRoute(v, q, s, Z, Go(0, Go(0, Stop)));
    assert Legal(v, C, Stop) && Legal(v, A, Go(0, Stop));
    ParentRouteLegal(v, q, s, Z, Go(0, Go(0, Stop)));
  }

  // ---------- for which limits totals are exact ----------

  /** Every route the answer's steps spell costs what is reported. */
  ghost predicate Exact(v: View, req: Request)
    requires Answerable(v, req) && EndpointsInside(v, req)
  {
    var a, start := SearchAnswer(v, req), StartOf(v, req);
    a.steps != [] ==>
      forall r: Route | Legal(v, start, r) && Steps(v, start, r) == a.steps :: Cost(v, start, r) == a.perceivedQ
  }

  /** Totals are exact for this request on this terrain. */
  ghost predicate ExactOn(d: ProfileDesc, t: Terrain, req: Request)
    requires DescValid(d)
  {
    t.Valid() && Answerable(Behold(t, Registered(d)), req) && EndpointsInside(Behold(t, Registered(d)), req) ==>
      Exact(Behold(t, Registered(d)), req)
  }

  lemma ExactIfLimits(v: View, req: Request)
    requires Answerable(v, req) && EndpointsInside(v, req) && TotalsExact(v, req)
    ensures Exact(v, req)
  {
    hide Cost, Legal, End, Steps, TotalsExact, StartOf, GoalOf, Reported;
    if SearchAnswer(v, req).steps != [] && StartOf(v, req) != GoalOf(v, req) {
      var r, end := EmittedPathIsLegal(v, req);
      forall r': Route | Legal(v, StartOf(v, req), r') && Steps(v, StartOf(v, req), r') == SearchAnswer(v, req).steps
        ensures Cost(v, StartOf(v, req), r') == SearchAnswer(v, req).perceivedQ
      {
        StepsTell(v, StartOf(v, req), r', r);
      }
    }
  }

  /** For partial paths: totals are exact on every map, for every honest profile, if and only if epsilon quantises to 1
      or the budget is unlimited, which is what 0 means, or allows at most three expansions. */
  lemma TotalsExactIff(budget: nat, epsilon: real)
    requires budget <= LONGEST + 4 && (epsilon == 0.0 || 1.0 <= epsilon <= 256.0)
    ensures (epsilon != 0.0 && epsilon < 257.0 / 256.0) || budget <= 3 <==>
            forall d: ProfileDesc, t: Terrain, req: Request |
              DescValid(d) && Honest(Registered(d)) && req.partial && req.maxExpansions == budget
                  && req.epsilon == epsilon ::
              ExactOn(d, t, req)
  {
    hide Registered, Honest, Exact, Overstated, LaneTerrain, LaneRequest;
    if (epsilon != 0.0 && epsilon < 257.0 / 256.0) || budget <= 3 {
      forall d: ProfileDesc, t: Terrain, req: Request |
        DescValid(d) && Honest(Registered(d)) && req.partial && req.maxExpansions == budget && req.epsilon == epsilon
        ensures ExactOn(d, t, req)
      {
        LimitedIsExact(d, t, req);
      }
    } else {
      OverstatedTotal(budget, epsilon);
      NotExact(budget, epsilon);
    }
  }

  lemma LimitedIsExact(d: ProfileDesc, t: Terrain, req: Request)
    requires DescValid(d) && Honest(Registered(d))
    requires (req.epsilon != 0.0 && req.epsilon < 257.0 / 256.0) || req.maxExpansions <= 3
    ensures ExactOn(d, t, req)
  {
    hide Registered, Honest, Exact, Behold, Sound, AmpleFor;
    if t.Valid() && Answerable(Behold(t, Registered(d)), req) && EndpointsInside(Behold(t, Registered(d)), req) {
      HonestIsSound(d, t);
      FloorsLow(d, t);
      LimitsNeverLoosen(req);
      ExactIfLimits(Behold(t, Registered(d)), req);
    }
  }

  lemma FloorsLow(d: ProfileDesc, t: Terrain)
    requires DescValid(d) && t.Valid()
    ensures var v := Behold(t, Registered(d)); v.w == t.w && v.h == t.h && v.hD <= Q_ONE && v.Valid()
  {
    hide Registered;
    RegisteredFloors(d);
    BeholdValid(t, Registered(d));
  }

  /** The expansions that any search of a registered profile can take on a map of this size at this epsilon. */
  function AmpleOn(w: nat, h: nat, epsQ: nat): int
    requires w > 0 && h > 0
  {
    (w * h - 1) * (epsQ * (w - 1 + (h - 1)) + 1)
  }

  /** Whatever the profile, honest or not, totals are exact under budgets that large, and under none at all. */
  lemma AmpleIsExact(d: ProfileDesc, t: Terrain, req: Request)
    requires DescValid(d) && t.Valid()
    requires req.maxExpansions == 0 || AmpleOn(t.w, t.h, EpsQ(req)) <= req.maxExpansions
    ensures ExactOn(d, t, req)
  {
    hide Registered, Exact, Behold, Sound, EpsQ, AmpleFor, AmpleOn;
    if Answerable(Behold(t, Registered(d)), req) && EndpointsInside(Behold(t, Registered(d)), req) {
      FloorsLow(d, t);
      AmpleBounds(Behold(t, Registered(d)), EpsQ(req));
      ExactIfLimits(Behold(t, Registered(d)), req);
    }
  }

  lemma AmpleBounds(v: View, eps: nat)
    requires v.Valid() && v.hD <= Q_ONE
    ensures AmpleFor(v, eps) <= AmpleOn(v.w, v.h, eps)
  {
    var most := v.w - 1 + (v.h - 1);
    TileCount(v);
    ProductBound(v.hD, most, Q_ONE, most);
    ProductBound(eps, v.hD * most, eps, Q_ONE * most);
    assert eps * (Q_ONE * most) == Q_ONE * (eps * most);
    ProductBound(v.N() - 1, Farthest(v, eps) + 1, v.N() - 1, eps * most + 1);
  }

  lemma NotExact(budget: nat, epsilon: real)
    requires 4 <= budget <= LONGEST + 4 && DescValid(PLAIN)
    requires var v, req := Behold(LaneTerrain(budget - 4), Registered(PLAIN)), LaneRequest(budget, epsilon);
             Answerable(v, req) && EndpointsInside(v, req) && StartOf(v, req) != GoalOf(v, req) && Overstated(v, req)
    ensures !ExactOn(PLAIN, LaneTerrain(budget - 4), LaneRequest(budget, epsilon))
    ensures var req := LaneRequest(budget, epsilon);
            req.partial && req.maxExpansions == budget && req.epsilon == epsilon
  {
    hide Registered, Behold, LaneTerrain, Cost, Legal, Steps;
    var v, req := Behold(LaneTerrain(budget - 4), Registered(PLAIN)), LaneRequest(budget, epsilon);
    var r, end := EmittedPathIsLegal(v, req);
  }
}
