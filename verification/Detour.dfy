/** A four by six maze of uniform cost 1 in which the better way to the goal begins by moving away from it:
    a search that overestimates diagonals finds the worse one.  Columns run right, rows run down.

        . . S .
        . # . .
        . # # .
        . . . .
        . . . #
        G . # #
 */
module Detour {
  import opened FixedPoint
  import opened Grid
  import opened Heuristic
  import opened SearchMachine
  import opened Bottleneck

  const START: nat := 2
  const GOAL: nat := 20

  predicate Free(x: int, y: int) {
    && 0 <= x < 4 && 0 <= y < 6
    && !(y == 1 && x == 1) && !(y == 2 && 1 <= x <= 2) && !(y == 4 && x == 3) && !(y == 5 && x >= 2)
  }

  function Across(d: nat): int {
    if d == 0 || d == 4 || d == 5 then 1 else if d == 1 || d == 6 || d == 7 then -1 else 0
  }

  function Down(d: nat): int { if d == 2 || d == 4 || d == 6 then 1 else if d == 3 || d == 5 || d == 7 then -1 else 0 }

  predicate MayStep(c: CornerRule, x: int, y: int, d: nat) {
    && Free(x + Across(d), y + Down(d))
    && (d >= 4 ==>
          match c
          case Allow => true
          case Strict => Free(x + Across(d), y) && Free(x, y + Down(d))
          case Lenient => Free(x + Across(d), y) || Free(x, y + Down(d)))
  }

  /** Manhattan distance to the goal: what the forced floors 1 and 2 make of the octile distance. */
  function Distance(x: int, y: int): nat { Gap(x, 0) + Gap(y, 5) }

  /** `v` is the maze as seen through a profile for which every step costs 1 while the floors are 1 and 2. */
  ghost predicate Shows(v: View, c: CornerRule) {
    && v.Valid() && v.w == 4 && v.h == 6 && !v.conn4 && v.corner == c && v.hD == 1 && v.hD2 == 2
    && (forall u | 0 <= u < v.N() :: v.blocked[u] <==> !Free(X(v, u), Y(v, u)))
    && (forall u | 0 <= u < v.N() && !v.blocked[u] :: v.straight[u] == 1 && v.diagonal[u] == 1)
  }

  lemma OutsideIsNotFree(v: View, c: CornerRule, i: nat, d: nat)
    requires Shows(v, c) && i < v.N() && d < 8 && !InBounds(v, i, d)
    ensures !Free(X(v, i) + DX[d], Y(v, i) + DY[d])
  {
  }

  lemma Directions(d: nat)
    requires d < 8
    ensures DX[d] == Across(d) && DY[d] == Down(d)
  {
  }

  /** Steps of the view are those drawn. */
  lemma StepIsDrawn(v: View, c: CornerRule, i: nat, d: nat)
    requires Shows(v, c) && i < v.N() && d < 8
    ensures CanStep(v, i, d) <==> MayStep(c, X(v, i), Y(v, i), d)
    ensures CanStep(v, i, d) ==>
              var j := Dest(v, i, d);
              && EnterCost(v, j, d) == 1
              && X(v, j) == X(v, i) + Across(d) && Y(v, j) == Y(v, i) + Down(d)
  {
    hide X, Y, Free, InBounds;
    Directions(d);
    if !InBounds(v, i, d) {
      OutsideIsNotFree(v, c, i, d);
    }
  }

  lemma PriorityIsDistance(v: View, q: Query, c: CornerRule, i: nat, g: nat)
    requires Shows(v, c) && Ready(v, q) && q.eps == 256 && q.goal == GOAL && i < v.N()
    ensures F(v, q, i, g) == g + Distance(X(v, i), Y(v, i))
    ensures i == Y(v, i) * 4 + X(v, i) && 0 <= X(v, i) < 4 && 0 <= Y(v, i) < 6
  {
    CoordsInRange(v, i);
    assert X(v, GOAL) == 0 && Y(v, GOAL) == 5;
  }

  // ---------- routes ----------

  /** The route leads to the goal, with priorities within `top`, in so many steps. */
  predicate Walk(c: CornerRule, x: int, y: int, g: nat, r: Route, top: nat, steps: nat)
    decreases r
  {
    && g + Distance(x, y) <= top
    && match r
       case Stop => x == 0 && y == 5 && steps == 0
       case Go(d, rest) =>
         d < 8 && steps > 0 && MayStep(c, x, y, d) && Walk(c, x + Across(d), y + Down(d), g + 1, rest, top, steps - 1)
  }

  lemma {:induction false} WalkIsRoute(v: View, q: Query, c: CornerRule, i: nat, g: nat, r: Route, top: nat, steps: nat)
    requires Shows(v, c) && Ready(v, q) && q.eps == 256 && q.goal == GOAL && i < v.N()
    requires Walk(c, X(v, i), Y(v, i), g, r, top, steps)
    ensures Connects(v, i, r, q.goal) && Cost(v, i, r) == steps && Below(v, q, i, g, r, top)
    decreases r
  {
    hide CanStep, Dest, EnterCost, X, Y, F, MayStep, Shows, Distance;
    PriorityIsDistance(v, q, c, i, g);
    match r
    case Stop =>
    case Go(d, rest) =>
      StepIsDrawn(v, c, i, d);
      WalkIsRoute(v, q, c, Dest(v, i, d), g + 1, rest, top, steps - 1);
  }

  /** The way round the left. */
  function FirstFound(c: CornerRule): Route {
    if c == Strict then Go(1, Go(1, Go(2, Go(2, Go(2, Go(2, Go(2, Stop)))))))
    else Go(1, Go(6, Go(2, Go(2, Go(2, Go(2, Stop))))))
  }

  /** The way round the right, one step shorter. */
  function Shorter(c: CornerRule): Route {
    if c == Strict then Go(4, Go(2, Go(2, Go(1, Go(6, Go(6, Stop))))))
    else Go(2, Go(4, Go(6, Go(6, Go(6, Stop)))))
  }

  function FirstSteps(c: CornerRule): nat { if c == Strict then 7 else 6 }

  lemma Arrive(c: CornerRule, g: nat, top: nat)
    requires g <= top
    ensures Walk(c, 0, 5, g, Stop, top, 0)
  {
  }

  lemma Back(c: CornerRule, x: int, y: int, g: nat, d: nat, rest: Route, top: nat, steps: nat)
    requires d < 8 && g + Distance(x, y) <= top && MayStep(c, x, y, d)
    requires Walk(c, x + Across(d), y + Down(d), g + 1, rest, top, steps)
    ensures Walk(c, x, y, g, Go(d, rest), top, steps + 1)
  {
    hide MayStep, Distance;
  }

  lemma StrictLeft()
    ensures Walk(Strict, 2, 0, 0, FirstFound(Strict), 7, 7)
  {
    hide Walk;
    Arrive(Strict, 7, 7);
    Back(Strict, 0, 4, 6, 2, Stop, 7, 0);
    Back(Strict, 0, 3, 5, 2, Go(2, Stop), 7, 1);
    Back(Strict, 0, 2, 4, 2, Go(2, Go(2, Stop)), 7, 2);
    Back(Strict, 0, 1, 3, 2, Go(2, Go(2, Go(2, Stop))), 7, 3);
    Back(Strict, 0, 0, 2, 2, Go(2, Go(2, Go(2, Go(2, Stop)))), 7, 4);
    Back(Strict, 1, 0, 1, 1, Go(2, Go(2, Go(2, Go(2, Go(2, Stop))))), 7, 5);
    Back(Strict, 2, 0, 0, 1, Go(1, Go(2, Go(2, Go(2, Go(2, Go(2, Stop)))))), 7, 6);
  }

  lemma StrictRight()
    ensures Walk(Strict, 2, 0, 0, Shorter(Strict), 8, 6)
  {
    hide Walk;
    Arrive(Strict, 6, 8);
    Back(Strict, 1, 4, 5, 6, Stop, 8, 0);
    Back(Strict, 2, 3, 4, 6, Go(6, Stop), 8, 1);
    Back(Strict, 3, 3, 3, 1, Go(6, Go(6, Stop)), 8, 2);
    Back(Strict, 3, 2, 2, 2, Go(1, Go(6, Go(6, Stop))), 8, 3);
    Back(Strict, 3, 1, 1, 2, Go(2, Go(1, Go(6, Go(6, Stop)))), 8, 4);
    Back(Strict, 2, 0, 0, 4, Go(2, Go(2, Go(1, Go(6, Go(6, Stop))))), 8, 5);
  }

  lemma LooseLeft(c: CornerRule)
    requires c != Strict
    ensures Walk(c, 2, 0, 0, FirstFound(c), 7, 6)
  {
    hide Walk;
    Arrive(c, 6, 7);
    Back(c, 0, 4, 5, 2, Stop, 7, 0);
    Back(c, 0, 3, 4, 2, Go(2, Stop), 7, 1);
    Back(c, 0, 2, 3, 2, Go(2, Go(2, Stop)), 7, 2);
    Back(c, 0, 1, 2, 2, Go(2, Go(2, Go(2, Stop))), 7, 3);
    Back(c, 1, 0, 1, 6, Go(2, Go(2, Go(2, Go(2, Stop)))), 7, 4);
    Back(c, 2, 0, 0, 1, Go(6, Go(2, Go(2, Go(2, Go(2, Stop))))), 7, 5);
  }

  lemma LooseRight(c: CornerRule)
    requires c != Strict
    ensures Walk(c, 2, 0, 0, Shorter(c), 8, 5)
  {
    hide Walk;
    Arrive(c, 5, 8);
    Back(c, 1, 4, 4, 6, Stop, 8, 0);
    Back(c, 2, 3, 3, 6, Go(6, Stop), 8, 1);
    Back(c, 3, 2, 2, 6, Go(6, Go(6, Stop)), 8, 2);
    Back(c, 2, 1, 1, 4, Go(6, Go(6, Go(6, Stop))), 8, 3);
    Back(c, 2, 0, 0, 2, Go(4, Go(6, Go(6, Go(6, Stop)))), 8, 4);
  }

  lemma Walks(c: CornerRule)
    ensures Walk(c, 2, 0, 0, FirstFound(c), 7, FirstSteps(c))
    ensures Walk(c, 2, 0, 0, Shorter(c), 8, FirstSteps(c) - 1)
  {
    hide Walk, FirstFound, Shorter;
    if c == Strict {
      StrictLeft();
      StrictRight();
    } else {
      LooseLeft(c);
      LooseRight(c);
    }
  }

  // ---------- the potential ----------

  function Row(a: nat, b: nat, c: nat, d: nat, x: int): nat {
    if x == 0 then a else if x == 1 then b else if x == 2 then c else d
  }

  /** What expanding only tiles with priorities up to 7 can reach, and at what cost. */
  function Reach(c: CornerRule, x: int, y: int): (p: nat)
    ensures p <= 30
  {
    if c == Strict then
      if y == 0 then Row(2, 1, 0, 1, x)
      else if y == 1 then Row(3, 30, 1, 1, x)
      else if y == 2 then Row(4, 30, 30, 30, x)
      else if y == 3 then Row(5, 6, 30, 30, x)
      else if y == 4 then Row(6, 6, 30, 30, x)
      else Row(7, 7, 30, 30, x)
    else
      if y == 0 then Row(2, 1, 0, 1, x)
      else if y == 1 then Row(2, 30, 1, 1, x)
      else if y == 2 then Row(3, 30, 30, 2, x)
      else if y == 3 then Row(4, 4, 5, 30, x)
      else if y == 4 then Row(5, 5, 5, 30, x)
      else Row(6, 6, 30, 30, x)
  }

  lemma ReachIsClosed(c: CornerRule, x: int, y: int, d: nat)
    requires 0 <= x < 4 && 0 <= y < 6 && d < 8 && MayStep(c, x, y, d) && Reach(c, x, y) + Distance(x, y) <= 7
    ensures Reach(c, x + Across(d), y + Down(d)) <= Reach(c, x, y) + 1
  {
  }

  ghost function Spread(v: View, c: CornerRule): (s: seq<nat>)
    requires v.Valid()
    ensures |s| == v.N() && forall u | 0 <= u < v.N() :: s[u] == Reach(c, X(v, u), Y(v, u))
  {
    seq(v.N(), u requires 0 <= u < v.N() => Reach(c, X(v, u), Y(v, u)))
  }

  lemma ReachIsPotential(v: View, q: Query, c: CornerRule)
    requires Shows(v, c) && Ready(v, q) && q.eps == 256 && q.start == START && q.goal == GOAL
    ensures Potential(v, q, Spread(v, c), 7) && Spread(v, c)[q.goal] == FirstSteps(c)
  {
    hide CanStep, Dest, EnterCost, X, Y, F, MayStep, Distance, Reach;
    Ends(v, c);
    var s := Spread(v, c);
    forall u: nat, d: nat | u < v.N() && CanStep(v, u, d) && F(v, q, u, s[u]) <= 7
      ensures s[Dest(v, u, d)] <= s[u] + EnterCost(v, Dest(v, u, d), d)
    {
      StepDirection(v, u, d);
      StepIsDrawn(v, c, u, d);
      PriorityIsDistance(v, q, c, u, s[u]);
      ReachIsClosed(c, X(v, u), Y(v, u), d);
    }
  }

  lemma Ends(v: View, c: CornerRule)
    requires v.w == 4
    ensures X(v, START) == 2 && Y(v, START) == 0 && X(v, GOAL) == 0 && Y(v, GOAL) == 5
    ensures Reach(c, 2, 0) == 0 && Reach(c, 0, 5) == FirstSteps(c)
  {
  }

  lemma StepDirection(v: View, u: nat, d: nat)
    requires v.Valid() && u < v.N() && CanStep(v, u, d)
    ensures d < 8
  {
  }
}
