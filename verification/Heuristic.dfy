/** The octile distance heuristic and when it may be trusted. */
module Heuristic {
  import opened FixedPoint
  import opened Grid

  function Gap(a: int, b: int): nat { if a > b then a - b else b - a }

  function Least(a: nat, b: nat): nat { if a < b then a else b }

  /** Octile distance from `i` to `goal` with per-step floors hD (straight) and hD2 (diagonal). */
  function Octile(v: View, dx: nat, dy: nat): (q: int)
  {
    if v.conn4 then v.hD * (dx + dy)
    else v.hD * (dx + dy) - (2 * v.hD - v.hD2) * Least(dx, dy)
  }

  function H(v: View, i: nat, goal: nat): (q: nat)
    requires v.Valid() && Clamped(v)
  {
    var dx, dy := Gap(X(v, i), X(v, goal)), Gap(Y(v, i), Y(v, goal));
    OctileShape(v, dx, dy);
    Octile(v, dx, dy)
  }

  /** What registration guarantees about the two floors. */
  predicate Clamped(v: View) {
    v.hD <= v.hD2 <= 2 * v.hD
  }

  /** Every enterable tile costs at least the floor of the step that enters it. */
  predicate Sound(v: View)
    requires v.Valid()
  {
    && Clamped(v)
    && forall u | 0 <= u < v.N() && !v.blocked[u] ::
         v.hD <= v.straight[u] && (!v.conn4 ==> v.hD2 <= v.diagonal[u])
  }

  /** The subtraction never underflows: octile distance is a sum of non-negative parts. */
  lemma OctileShape(v: View, dx: nat, dy: nat)
    requires Clamped(v)
    ensures !v.conn4 ==> Octile(v, dx, dy) == v.hD * Gap(dx, dy) + v.hD2 * Least(dx, dy)
    ensures v.conn4 ==> Octile(v, dx, dy) == v.hD * dx + v.hD * dy
    ensures Octile(v, dx, dy) >= 0
  {
    if v.conn4 {
      Distribute(v.hD, dx, dy);
    } else {
      OctileParts(v.hD, v.hD2, dx + dy, Gap(dx, dy), Least(dx, dy));
    }
  }

  lemma Distribute(a: nat, s: nat, t: nat)
    ensures a * (s + t) == a * s + a * t && a * s >= 0 && a * t >= 0
  {
  }

  lemma OctileParts(a: nat, b: nat, sum: nat, gap: nat, mn: nat)
    requires sum == gap + mn + mn
    ensures a * sum - (2 * a - b) * mn == a * gap + b * mn
    ensures a * gap >= 0 && b * mn >= 0
  {
    Distribute(a, gap, mn + mn);
    Distribute(a, mn, mn);
    assert (2 * a - b) * mn == 2 * (a * mn) - b * mn;
  }

  lemma AtGoal(v: View, goal: nat)
    requires v.Valid() && Clamped(v)
    ensures H(v, goal, goal) == 0
  {
  }

  /** How far a king's move can shift the two parts of the octile distance. */
  lemma PartShift(dx: nat, dy: nat, ex: nat, ey: nat)
    requires Gap(dx, ex) <= 1 && Gap(dy, ey) <= 1
    ensures var p, q := Gap(dx, dy) - Gap(ex, ey), Least(dx, dy) - Least(ex, ey);
            && -2 <= p <= 2 && -1 <= q <= 1
            && (dx == ex || dy == ey ==> p <= 1 && (p == 1 ==> q <= 0) && (p == 0 ==> q == 0))
            && (p == 1 ==> q <= 0) && (p == 2 ==> q == -1)
  {
  }

  lemma Product(a: nat, k: int)
    requires -2 <= k <= 2
    ensures k == 2 ==> a * k == a + a
    ensures k == 1 ==> a * k == a
    ensures k == 0 ==> a * k == 0
    ensures k < 0 ==> a * k == -(a as int) || a * k == -(a as int) - a
    ensures k == -1 ==> a * k == -(a as int)
  {
  }

  lemma Difference(a: nat, s: int, t: int)
    ensures a * s == a * t + a * (s - t)
  {
  }

  /** One unit along one axis lowers the octile distance by at most hD, one unit along both by at most hD2. */
  lemma OctileStep(v: View, dx: nat, dy: nat, ex: nat, ey: nat)
    requires Clamped(v)
    requires Gap(dx, ex) <= 1 && Gap(dy, ey) <= 1
    ensures dx == ex || dy == ey ==> Octile(v, dx, dy) <= v.hD + Octile(v, ex, ey)
    ensures !v.conn4 ==> Octile(v, dx, dy) <= v.hD2 + Octile(v, ex, ey)
  {
    OctileShape(v, dx, dy);
    OctileShape(v, ex, ey);
    if v.conn4 {
      Difference(v.hD, dx, ex);
      Difference(v.hD, dy, ey);
      Product(v.hD, dx - ex);
      Product(v.hD, dy - ey);
    } else {
      PartShift(dx, dy, ex, ey);
      Difference(v.hD, Gap(dx, dy), Gap(ex, ey));
      Difference(v.hD2, Least(dx, dy), Least(ex, ey));
      Product(v.hD, Gap(dx, dy) - Gap(ex, ey));
      Product(v.hD2, Least(dx, dy) - Least(ex, ey));
    }
  }

  /** Consistency: no legal step lowers the heuristic by more than the step costs. */
  lemma Consistent(v: View, i: nat, d: nat, goal: nat)
    requires v.Valid() && Sound(v) && i < v.N() && goal < v.N() && CanStep(v, i, d)
    ensures H(v, i, goal) <= EnterCost(v, Dest(v, i, d), d) + H(v, Dest(v, i, d), goal)
  {
    var j := Dest(v, i, d);
    OctileStep(v, Gap(X(v, i), X(v, goal)), Gap(Y(v, i), Y(v, goal)), Gap(X(v, j), X(v, goal)),
        Gap(Y(v, j), Y(v, goal)));
  }

  /** Consistency along a whole route. */
  lemma {:induction false} ConsistentAlong(v: View, i: nat, r: Route, goal: nat)
    requires v.Valid() && Sound(v) && i < v.N() && goal < v.N() && Legal(v, i, r)
    ensures H(v, i, goal) <= Cost(v, i, r) + H(v, End(v, i, r), goal)
    decreases r
  {
    match r
    case Stop =>
    case Go(d, rest) =>
      Consistent(v, i, d, goal);
      ConsistentAlong(v, Dest(v, i, d), rest, goal);
  }

  /** Admissibility: the heuristic never exceeds the cost of a legal route to the goal. */
  lemma Admissible(v: View, i: nat, r: Route, goal: nat)
    requires v.Valid() && Sound(v) && i < v.N() && goal < v.N() && Connects(v, i, r, goal)
    ensures H(v, i, goal) <= Cost(v, i, r)
  {
    ConsistentAlong(v, i, r, goal);
    AtGoal(v, goal);
  }
}
