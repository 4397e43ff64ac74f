/** The grid as one profile sees it: which tiles can be entered, what a step costs, which steps are legal, and
    what a route is.  Every search result is stated against the routes of this module. */
module Grid {
  import opened FixedPoint

  const MAX_DIM: nat := 2048

  datatype CornerRule = Strict | Lenient | Allow

  /** Terrain folded through one profile.  `straight[u]` and `diagonal[u]` are the perceived costs of entering
      `u`; the two `true` sequences are the unweighted durations of the same steps. */
  datatype View = View(
    w: nat, h: nat, conn4: bool, corner: CornerRule,
    blocked: seq<bool>,
    straight: seq<nat>, diagonal: seq<nat>,
    trueStraight: seq<nat>, trueDiagonal: seq<nat>,
    hD: nat, hD2: nat)
  {
    function N(): nat { w * h }

    predicate Valid() {
      && 0 < w <= MAX_DIM && 0 < h <= MAX_DIM
      && |blocked| == |straight| == |diagonal| == |trueStraight| == |trueDiagonal| == N()
      && (forall u | 0 <= u < N() :: 1 <= straight[u] <= U32_MAX && 1 <= diagonal[u] <= U32_MAX)
    }

    function Dirs(): nat { if conn4 then 4 else 8 }
  }

  const DX: seq<int> := [1, -1, 0, 0, 1, 1, -1, -1]
  const DY: seq<int> := [0, 0, 1, -1, 1, -1, 1, -1]
  const OPPOSITE: seq<nat> := [1, 0, 3, 2, 7, 6, 5, 4]

  /** The direction of an offset. */
  function Towards(dx: int, dy: int): (d: nat)
    requires -1 <= dx <= 1 && -1 <= dy <= 1 && (dx != 0 || dy != 0)
    ensures d < 8 && DX[d] == dx && DY[d] == dy && (d < 4 <==> dx == 0 || dy == 0)
  {
    if dy == 0 then if dx == 1 then 0 else 1
    else if dx == 0 then if dy == 1 then 2 else 3
    else if dx == 1 then if dy == 1 then 4 else 5
    else if dy == 1 then 6 else 7
  }

  function X(v: View, i: nat): nat requires 0 < v.w { i % v.w }

  function Y(v: View, i: nat): nat requires 0 < v.w { i / v.w }

  /** The neighbour in direction `d` lies on a grid of this size. */
  predicate GridInBounds(w: nat, h: nat, i: nat, d: nat)
    requires w > 0 && d < 8
  {
    0 <= i % w + DX[d] < w && 0 <= i / w + DY[d] < h
  }

  function GridNbr(w: nat, h: nat, i: nat, d: nat): (j: nat)
    requires w > 0 && d < 8 && GridInBounds(w, h, i, d)
    ensures j < w * h
  {
    RowMajor(i / w + DY[d], i % w + DX[d], h, w);
    (i / w + DY[d]) * w + (i % w + DX[d])
  }

  predicate InBounds(v: View, i: nat, d: nat)
    requires v.Valid() && d < 8
  {
    GridInBounds(v.w, v.h, i, d)
  }

  function Nbr(v: View, i: nat, d: nat): (j: nat)
    requires v.Valid() && i < v.N() && d < 8 && InBounds(v, i, d)
    ensures j < v.N()
    ensures X(v, j) == X(v, i) + DX[d] && Y(v, j) == Y(v, i) + DY[d]
    ensures j == i + DX[d] + DY[d] * v.w
  {
    IndexOfCoords(v, X(v, i) + DX[d], Y(v, i) + DY[d]);
    StepOffset(v, i, d);
    GridNbr(v.w, v.h, i, d)
  }

  lemma IndexOfCoords(v: View, x: int, y: int)
    requires 0 < v.w && 0 <= x < v.w && 0 <= y < v.h
    ensures 0 <= y * v.w + x < v.N()
    ensures (y * v.w + x) % v.w == x && (y * v.w + x) / v.w == y
  {
    DivisionIsUnique(y * v.w + x, v.w, y, x);
    assert (v.h - 1) * v.w == v.N() - v.w;
    assert y * v.w <= (v.h - 1) * v.w;
  }

  lemma StepOffset(v: View, i: nat, d: nat)
    requires v.Valid() && d < 8
    ensures (Y(v, i) + DY[d]) * v.w + (X(v, i) + DX[d]) == i + DX[d] + DY[d] * v.w
  {
    assert i == Y(v, i) * v.w + X(v, i);
    assert (Y(v, i) + DY[d]) * v.w == Y(v, i) * v.w + DY[d] * v.w;
  }

  /** The two orthogonal tiles a diagonal step squeezes past. */
  function FlankA(v: View, i: nat, d: nat): (a: nat)
    requires v.Valid() && i < v.N() && 4 <= d < 8 && InBounds(v, i, d)
    ensures a < v.N() && X(v, a) == X(v, i) + DX[d] && Y(v, a) == Y(v, i)
    ensures a == i + DX[d]
  {
    IndexOfCoords(v, X(v, i) + DX[d], Y(v, i));
    assert i == Y(v, i) * v.w + X(v, i);
    if DX[d] > 0 then i + 1 else i - 1
  }

  /** Moving from row `y` to row `z` of a column. */
  lemma RowShift(y: int, x: int, z: int, w: int)
    ensures (y * w + x) + (z - y) * w == z * w + x
  {
  }

  lemma Decomposed(v: View, i: nat)
    requires v.Valid()
    ensures i == Y(v, i) * v.w + X(v, i) && 0 <= X(v, i) < v.w && 0 <= Y(v, i)
  {
  }

  lemma CoordsAre(v: View, x: int, y: int)
    requires v.Valid() && 0 <= x < v.w && 0 <= y < v.h
    ensures var b := y * v.w + x; 0 <= b < v.N() && X(v, b) == x && Y(v, b) == y
  {
    IndexOfCoords(v, x, y);
  }

  lemma SameColumn(v: View, i: nat, z: int)
    requires v.Valid() && i < v.N() && 0 <= z < v.h
    ensures var b := i + (z - Y(v, i)) * v.w; 0 <= b < v.N() && X(v, b) == X(v, i) && Y(v, b) == z
  {
    hide X, Y;
    Decomposed(v, i);
    RowShift(Y(v, i), X(v, i), z, v.w);
    CoordsAre(v, X(v, i), z);
  }

  function FlankB(v: View, i: nat, d: nat): (b: nat)
    requires v.Valid() && i < v.N() && 4 <= d < 8 && InBounds(v, i, d)
    ensures b < v.N() && X(v, b) == X(v, i) && Y(v, b) == Y(v, i) + DY[d]
    ensures b == i + DY[d] * v.w
  {
    SameColumn(v, i, Y(v, i) + DY[d]);
    if DY[d] > 0 then i + v.w else i - v.w
  }

  predicate CornerForbidden(v: View, i: nat, d: nat)
    requires v.Valid() && i < v.N() && 4 <= d < 8 && InBounds(v, i, d)
  {
    match v.corner
    case Allow => false
    case Strict => v.blocked[FlankA(v, i, d)] || v.blocked[FlankB(v, i, d)]
    case Lenient => v.blocked[FlankA(v, i, d)] && v.blocked[FlankB(v, i, d)]
  }

  /** A legal step: you pay to enter the target, so only the target must be enterable. */
  predicate CanStep(v: View, i: nat, d: nat)
    requires v.Valid() && i < v.N()
  {
    && d < v.Dirs()
    && InBounds(v, i, d)
    && !v.blocked[Nbr(v, i, d)]
    && !(d >= 4 && CornerForbidden(v, i, d))
  }

  /** The tile a legal step enters. */
  function Dest(v: View, i: nat, d: nat): (j: nat)
    requires v.Valid() && i < v.N() && CanStep(v, i, d)
    ensures j < v.N() && j == i + DX[d] + DY[d] * v.w
  {
    Nbr(v, i, d)
  }

  function EnterCost(v: View, u: nat, d: nat): (c: nat)
    requires v.Valid() && u < v.N()
    ensures 1 <= c <= U32_MAX
  {
    if d >= 4 then v.diagonal[u] else v.straight[u]
  }

  function TrueCost(v: View, u: nat, d: nat): nat
    requires v.Valid() && u < v.N()
  {
    if d >= 4 then v.trueDiagonal[u] else v.trueStraight[u]
  }

  lemma TileCount(v: View)
    requires v.Valid()
    ensures 0 < v.N() <= 0x40_0000
  {
    ProductOrder(v.w, MAX_DIM, v.h);
    ProductOrder(1, v.w, v.h);
  }

  // ---------- direction symmetry ----------

  lemma OppositeOffset(d: nat)
    requires d < 8
    ensures OPPOSITE[d] < 8 && (OPPOSITE[d] >= 4 <==> d >= 4) && OPPOSITE[OPPOSITE[d]] == d
    ensures DX[OPPOSITE[d]] == -DX[d] && DY[OPPOSITE[d]] == -DY[d]
  {
  }

  lemma CoordsInRange(v: View, i: nat)
    requires v.Valid() && i < v.N()
    ensures 0 <= X(v, i) < v.w && 0 <= Y(v, i) < v.h && i == Y(v, i) * v.w + X(v, i)
  {
    if Y(v, i) >= v.h {
      ProductOrder(v.h, Y(v, i), v.w);
    }
  }

  lemma ProductOrder(a: nat, b: nat, c: nat)
    requires a <= b
    ensures a * c <= b * c
  {
  }

  lemma NegatedProduct(a: int, b: int)
    ensures (-a) * b == -(a * b)
  {
  }

  /** Walking back along the opposite direction returns to the tile. */
  lemma StepBack(v: View, i: nat, d: nat)
    requires v.Valid() && i < v.N() && d < 8 && InBounds(v, i, d)
    ensures InBounds(v, Nbr(v, i, d), OPPOSITE[d]) && Nbr(v, Nbr(v, i, d), OPPOSITE[d]) == i
  {
    CoordsInRange(v, i);
    hide X, Y;
    OppositeOffset(d);
    NegatedProduct(DY[d], v.w);
    assert InBounds(v, Nbr(v, i, d), OPPOSITE[d]);
  }

  /** A diagonal is squeezed by the same two tiles from either end, so the corner rule is symmetric. */
  lemma CornerSymmetric(v: View, i: nat, d: nat)
    requires v.Valid() && i < v.N() && 4 <= d < 8 && InBounds(v, i, d)
    requires InBounds(v, Nbr(v, i, d), OPPOSITE[d])
    ensures CornerForbidden(v, Nbr(v, i, d), OPPOSITE[d]) == CornerForbidden(v, i, d)
  {
    OppositeOffset(d);
    var j, o := Nbr(v, i, d), OPPOSITE[d];
    NegatedProduct(DY[d], v.w);
    assert FlankA(v, j, o) == FlankB(v, i, d);
    assert FlankB(v, j, o) == FlankA(v, i, d);
  }

  // ---------- routes ----------

  /** A route is the list of directions taken, first step first. */
  datatype Route = Stop | Go(d: nat, rest: Route)

  predicate Legal(v: View, i: nat, r: Route)
    requires v.Valid() && i < v.N()
    decreases r
  {
    match r
    case Stop => true
    case Go(d, rest) => CanStep(v, i, d) && Legal(v, Dest(v, i, d), rest)
  }

  function End(v: View, i: nat, r: Route): (e: nat)
    requires v.Valid() && i < v.N() && Legal(v, i, r)
    ensures e < v.N()
    decreases r
  {
    match r
    case Stop => i
    case Go(d, rest) => End(v, Dest(v, i, d), rest)
  }

  /** Perceived cost: what the search minimises. */
  function Cost(v: View, i: nat, r: Route): nat
    requires v.Valid() && i < v.N() && Legal(v, i, r)
    decreases r
  {
    match r
    case Stop => 0
    case Go(d, rest) => EnterCost(v, Dest(v, i, d), d) + Cost(v, Dest(v, i, d), rest)
  }

  /** True duration: what is reported per step. */
  function Duration(v: View, i: nat, r: Route): nat
    requires v.Valid() && i < v.N() && Legal(v, i, r)
    decreases r
  {
    match r
    case Stop => 0
    case Go(d, rest) => TrueCost(v, Dest(v, i, d), d) + Duration(v, Dest(v, i, d), rest)
  }

  /** The tiles entered, in order; the start tile is not one of them. */
  function Tiles(v: View, i: nat, r: Route): seq<nat>
    requires v.Valid() && i < v.N() && Legal(v, i, r)
    decreases r
  {
    match r
    case Stop => []
    case Go(d, rest) => [Dest(v, i, d)] + Tiles(v, Dest(v, i, d), rest)
  }

  function Length(r: Route): nat {
    match r
    case Stop => 0
    case Go(_, rest) => 1 + Length(rest)
  }

  ghost predicate Connects(v: View, i: nat, r: Route, e: nat)
    requires v.Valid() && i < v.N()
  {
    Legal(v, i, r) && End(v, i, r) == e
  }

  function Append(r: Route, s: Route): Route {
    match r
    case Stop => s
    case Go(d, rest) => Go(d, Append(rest, s))
  }

  lemma {:induction false} AppendConnects(v: View, i: nat, r: Route, s: Route)
    requires v.Valid() && i < v.N() && Legal(v, i, r) && Legal(v, End(v, i, r), s)
    ensures Connects(v, i, Append(r, s), End(v, End(v, i, r), s))
    ensures Cost(v, i, Append(r, s)) == Cost(v, i, r) + Cost(v, End(v, i, r), s)
    decreases r
  {
    hide CanStep, Dest, EnterCost;
    match r
    case Stop =>
    case Go(d, rest) => AppendConnects(v, Dest(v, i, d), rest, s);
  }
}
