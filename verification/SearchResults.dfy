/** What a finished search guarantees: the epsilon bound, completeness under the cost cap, optimal closest
    approaches, legal parent chains and arithmetic that never overflows. */
module SearchResults {
  import opened FixedPoint
  import opened Grid
  import opened Heuristic
  import opened OpenList
  import opened Trails
  import opened SearchMachine
  import opened SearchInvariant

  // ---------- following the parents ----------

  /** The route read off the parents of `u`, followed by `acc`. */
  ghost function ParentRoute(v: View, q: Query, s: State, u: nat, acc: Route): Route
    requires Ready(v, q) && Shaped(v, q, s) && Chained(v, q, s) && u < v.N() && s.g[u] < G_INFINITE
    decreases s.g[u]
  {
    if u == q.start then acc
    else
      assert Parented(v, q, s, u);
      ParentRoute(v, q, s, s.from[u], Go(s.parent[u] - 1, acc))
  }

  lemma ParentStep(v: View, q: Query, s: State, u: nat)
    requires Ready(v, q) && Shaped(v, q, s) && Chained(v, q, s) && u < v.N() && s.g[u] < G_INFINITE && u != q.start
    ensures Parented(v, q, s, u) && s.g[s.from[u]] < s.g[u]
  {
    hide CanStep, Dest;
    assert Parented(v, q, s, u);
  }

  /** Parent chains are legal routes from the start, and cost no more than the tentative cost they lead to. */
  lemma {:induction false} ParentRouteLegal(v: View, q: Query, s: State, u: nat, acc: Route)
    requires Ready(v, q) && Shaped(v, q, s) && Chained(v, q, s) && u < v.N() && s.g[u] < G_INFINITE
    requires Legal(v, u, acc)
    ensures var r := ParentRoute(v, q, s, u, acc);
            && Connects(v, q.start, r, End(v, u, acc))
            && Cost(v, q.start, r) <= s.g[u] + Cost(v, u, acc)
    decreases s.g[u]
  {
    hide CanStep, Dest, EnterCost, Chained;
    if u != q.start {
      ParentStep(v, q, s, u);
      ParentRouteLegal(v, q, s, s.from[u], Go(s.parent[u] - 1, acc));
    } else {
      assert s.g[u] == 0 by { StartFree(v, q, s); }
    }
  }

  lemma StartFree(v: View, q: Query, s: State)
    requires Ready(v, q) && Shaped(v, q, s) && Chained(v, q, s)
    ensures s.g[q.start] == 0
  {
  }

  /** Every reached tile has a legal route of at most its tentative cost. */
  lemma Reachable(v: View, q: Query, s: State, u: nat) returns (r: Route)
    requires Ready(v, q) && Shaped(v, q, s) && Inv(v, q, s) && u < v.N() && s.g[u] < G_INFINITE
    ensures Connects(v, q.start, r, u) && Cost(v, q.start, r) <= s.g[u] <= q.maxCost
  {
    hide CanStep, Dest, EnterCost, Chained, Covered, Closest, Trailed;
    ParentRouteLegal(v, q, s, u, Stop);
    r := ParentRoute(v, q, s, u, Stop);
  }

  // ---------- arithmetic ----------

  /** The far end of what any tentative cost can reach, with 2048 x 2048 tiles: below 2^54. */
  const COST_CEILING: nat := 0x3F_FFFF * 0xFFFF_FFFF

  /** No tentative cost comes near 64 bits, whatever was re-expanded on the way. */
  lemma CostsStayLow(v: View, q: Query, s: State, u: nat)
    requires Ready(v, q) && Shaped(v, q, s) && Inv(v, q, s) && u < v.N() && s.g[u] < G_INFINITE
    ensures s.g[u] <= COST_CEILING < 0x40_0000_0000_0000
    ensures s.g[u] + U32_MAX < G_INFINITE
  {
    hide Chained, Covered, Closest, Booked, Trailed;
    TentativeCostBounded(s.g, u);
    TileCount(v);
  }

  /** The products and sums of the priority never leave 64 bits either. */
  lemma PrioritiesFit(v: View, q: Query, u: nat, g: nat)
    requires Ready(v, q) && u < v.N()
    requires g <= COST_CEILING + U32_MAX
    ensures q.eps * H(v, u, q.goal) < G_INFINITE && F(v, q, u, g) < G_INFINITE
  {
    HeuristicBounded(v, u, q.goal);
    var h := H(v, u, q.goal);
    ProductBound(q.eps, h, Q_EPS_MAX, 0x20_0000_0000);
  }

  lemma GapBounded(v: View, u: nat, goal: nat)
    requires v.Valid() && u < v.N() && goal < v.N()
    ensures Gap(X(v, u), X(v, goal)) < 2048 && Gap(Y(v, u), Y(v, goal)) < 2048
  {
    CoordsInRange(v, u);
    CoordsInRange(v, goal);
  }

  lemma HeuristicBounded(v: View, u: nat, goal: nat)
    requires v.Valid() && Clamped(v) && u < v.N() && goal < v.N() && v.hD <= Q_TILE_MAX
    ensures H(v, u, goal) <= 0x20_0000_0000
  {
    GapBounded(v, u, goal);
    hide X, Y;
    var dx, dy := Gap(X(v, u), X(v, goal)), Gap(Y(v, u), Y(v, goal));
    hide Gap;
    ProductBound(v.hD, dx + dy, Q_TILE_MAX, 4096);
    ProductBound(2 * v.hD - v.hD2, Least(dx, dy), 2 * v.hD, 4096);
  }

  // ---------- what the open list knows about every route ----------

  lemma RelaxedHere(v: View, q: Query, s: State, u: nat, d: nat)
    requires Ready(v, q) && Shaped(v, q, s) && Inv(v, q, s)
    requires u < v.N() && s.g[u] < G_INFINITE && CanStep(v, u, d) && !Pending(v, q, s, u)
    requires !s.pruned || s.g[u] + EnterCost(v, Dest(v, u, d), d) <= q.maxCost
    requires s.g[u] + EnterCost(v, Dest(v, u, d), d) < G_INFINITE
    ensures s.g[Dest(v, u, d)] <= s.g[u] + EnterCost(v, Dest(v, u, d), d) < G_INFINITE
  {
    hide CanStep, Dest, EnterCost, Pending;
    DirectionBelow(v, u, d);
    assert Relaxed(v, q, s, u, d);
  }

  /** Follow any affordable route from a reached tile: either some tile on it is pending, no dearer than the route so
      far, or the whole route has been accounted for. */
  lemma {:induction false} OnRoute(v: View, q: Query, s: State, u: nat, r: Route) returns (w: nat, rest: Route)
    requires Ready(v, q) && Shaped(v, q, s) && Inv(v, q, s)
    requires u < v.N() && s.g[u] < G_INFINITE && Legal(v, u, r)
    requires !s.pruned || s.g[u] + Cost(v, u, r) <= q.maxCost
    ensures w < v.N() && s.g[w] < G_INFINITE && Connects(v, w, rest, End(v, u, r))
    ensures s.g[w] + Cost(v, w, rest) <= s.g[u] + Cost(v, u, r)
    ensures Pending(v, q, s, w) || rest == Stop
    decreases r
  {
    hide CanStep, Dest, EnterCost, Inv, Pending;
    if Pending(v, q, s, u) || r == Stop {
      w, rest := u, r;
    } else {
      var t := Dest(v, u, r.d);
      CostsStayLow(v, q, s, u);
      RelaxedHere(v, q, s, u, r.d);
      w, rest := OnRoute(v, q, s, t, r.rest);
    }
  }

  /** The first open entry is no later than a pending tile's. */
  lemma FirstBeforePending(v: View, q: Query, s: State, w: nat)
    requires Ready(v, q) && Shaped(v, q, s) && Inv(v, q, s) && w < v.N() && Pending(v, q, s, w)
    ensures s.open != multiset{} && First(s.open).f <= F(v, q, w, s.g[w])
    ensures First(s.open).idx < v.N() && First(s.open).f == F(v, q, First(s.open).idx, First(s.open).g)
  {
    hide F, Chained, Covered, Closest, Trailed;
    var e := Entry(F(v, q, w, s.g[w]), s.g[w], w);
    assert e in s.open;
    assert !Less(e, First(s.open));
  }

  // ---------- completeness under the cost cap ----------

  /** Where a search ran dry, the goal was never reached. */
  lemma ExhaustedMisses(v: View, q: Query, s: State, r: Route)
    requires Ready(v, q) && Shaped(v, q, s) && Inv(v, q, s) && s.open == multiset{}
    requires Connects(v, q.start, r, q.goal)
    ensures s.pruned && Cost(v, q.start, r) > q.maxCost
  {
    hide CanStep, Dest, EnterCost, F, Chained, Covered, Closest, Trailed;
    StartFree(v, q, s);
    DryMisses(v, q, s);
    if !s.pruned || Cost(v, q.start, r) <= q.maxCost {
      var w, rest := OnRoute(v, q, s, q.start, r);
      assert false;
    }
  }

  lemma DryMisses(v: View, q: Query, s: State)
    requires Ready(v, q) && Shaped(v, q, s) && Inv(v, q, s) && s.open == multiset{}
    ensures s.g[q.goal] == G_INFINITE
  {
  }

  /** FOUND exactly when the goal can be reached within the cap, unless the expansion budget ends the search. */
  lemma FoundUnlessCut(v: View, q: Query)
    requires Ready(v, q) && Search(v, q).stop != OutOfBudget
    ensures Search(v, q).stop == Reached <==>
            exists r :: Connects(v, q.start, r, q.goal) && Cost(v, q.start, r) <= q.maxCost
  {
    hide Search, Inv, Stopped, Cost;
    SearchHolds(v, q);
    var o := Search(v, q);
    StopFacts(v, q, o);
    if o.stop == Reached {
      var r := Reachable(v, q, o.last, q.goal);
    } else {
      forall r: Route | Connects(v, q.start, r, q.goal) ensures Cost(v, q.start, r) > q.maxCost {
        ExhaustedMisses(v, q, o.last, r);
      }
    }
  }

  lemma StopFacts(v: View, q: Query, o: Outcome)
    requires Ready(v, q) && Shaped(v, q, o.last) && Inv(v, q, o.last) && Stopped(v, q, o)
    ensures o.stop == Exhausted ==> o.last.open == multiset{}
    ensures o.stop == Reached ==> o.last.g[q.goal] < G_INFINITE
    ensures o.stop == Reached ==> o.last.open != multiset{} && First(o.last.open).idx == q.goal
    ensures o.stop == Reached ==> First(o.last.open).g == o.last.g[q.goal]
    ensures o.stop == Reached ==> First(o.last.open).f == o.last.g[q.goal] && Pending(v, q, o.last, q.goal)
  {
    hide CanStep, Dest, EnterCost, H, Chained, Covered, Closest, Trailed;
    AtGoal(v, q.goal);
  }

  /** UNREACHABLE, the status of a search that ran dry without the cap ever cutting a step, is the truth: no legal
      route to the goal exists at any cost. */
  lemma UnreachableIsTrue(v: View, q: Query, r: Route)
    requires Ready(v, q) && Search(v, q).stop == Exhausted && !Search(v, q).last.pruned
    ensures !Connects(v, q.start, r, q.goal)
  {
    hide Search, Inv, Stopped, Connects, Cost;
    SearchHolds(v, q);
    StopFacts(v, q, Search(v, q));
    if Connects(v, q.start, r, q.goal) {
      ExhaustedMisses(v, q, Search(v, q).last, r);
      assert false;
    }
  }

  // ---------- the epsilon bound ----------

  lemma InflatedSum(eps: nat, g: nat, h: nat, rest: nat, total: nat)
    requires eps >= 256 && h <= rest && g + rest <= total
    ensures g + eps * h / 256 <= eps * total / 256
  {
    assert eps * (g + rest) == eps * g + eps * rest;
    assert eps * g >= 256 * g;
    assert eps * h <= eps * rest;
    assert eps * (g + rest) <= eps * total;
  }

  /** A search that reaches the goal reports a cost within a factor eps of every affordable legal route: the bound
      of weighted A* with re-expansion and truncated priorities. */
  lemma EpsilonBound(v: View, q: Query, r: Route)
    requires Ready(v, q) && Sound(v) && q.eps >= Q_ONE && Search(v, q).stop == Reached
    requires Connects(v, q.start, r, q.goal) && Cost(v, q.start, r) <= q.maxCost
    ensures Search(v, q).last.g[q.goal] <= q.eps * Cost(v, q.start, r) / 256
  {
    SearchHolds(v, q);
    var o := Search(v, q);
    var s := o.last;
    hide Search, Inv, Stopped, CanStep, Dest, EnterCost, H;
    StopFacts(v, q, o);
    StartIsFree(v, q, s);
    var w, rest := OnRoute(v, q, s, q.start, r);
    FirstBeforePending(v, q, s, w);
    Admissible(v, w, rest, q.goal);
    InflatedSum(q.eps, s.g[w], H(v, w, q.goal), Cost(v, w, rest), Cost(v, q.start, r));
  }

  lemma StartIsFree(v: View, q: Query, s: State)
    requires Ready(v, q) && Shaped(v, q, s) && Inv(v, q, s)
    ensures s.g[q.start] == 0
  {
  }

  // ---------- closest approach ----------

  /** When the heap runs dry every tile within reach has its exact cost. */
  lemma ExhaustedExact(v: View, q: Query, s: State, r: Route)
    requires Ready(v, q) && Shaped(v, q, s) && Inv(v, q, s) && s.open == multiset{}
    requires Legal(v, q.start, r) && Cost(v, q.start, r) <= q.maxCost
    ensures s.g[End(v, q.start, r)] <= Cost(v, q.start, r) && s.g[End(v, q.start, r)] < G_INFINITE
  {
    hide CanStep, Dest, EnterCost, F, Chained, Covered, Closest, Trailed;
    StartFree(v, q, s);
    var w, rest := OnRoute(v, q, s, q.start, r);
    assert !Pending(v, q, s, w);
  }

  /** A search that ran dry reports the tile that minimises (heuristic, exact cost) lexicographically over
      everything that can be reached within the cap, and the exact cost of reaching it. */
  lemma ClosestApproach(v: View, q: Query, r: Route) returns (best: Route)
    requires Ready(v, q) && Search(v, q).stop == Exhausted
    requires Legal(v, q.start, r) && Cost(v, q.start, r) <= q.maxCost
    ensures var s := Search(v, q).last;
            && Connects(v, q.start, best, s.bestIdx) && Cost(v, q.start, best) == s.g[s.bestIdx] <= q.maxCost
            && NotBetter(H(v, End(v, q.start, r), q.goal), Cost(v, q.start, r), H(v, s.bestIdx, q.goal), s.g[s.bestIdx])
  {
    SearchHolds(v, q);
    var o := Search(v, q);
    var s := o.last;
    hide Search, Inv, Stopped, CanStep, Dest, EnterCost, H;
    StopFacts(v, q, o);
    ExhaustedExact(v, q, s, r);
    ClosestWhenDry(v, q, s, End(v, q.start, r));
    best := Reachable(v, q, s, s.bestIdx);
    ExhaustedExact(v, q, s, best);
  }

  lemma ClosestWhenDry(v: View, q: Query, s: State, u: nat)
    requires Ready(v, q) && Shaped(v, q, s) && Inv(v, q, s) && s.open == multiset{}
    requires u < v.N() && s.g[u] < G_INFINITE
    ensures s.g[s.bestIdx] < G_INFINITE
    ensures NotBetter(H(v, u, q.goal), s.g[u], H(v, s.bestIdx, q.goal), s.g[s.bestIdx])
  {
    hide F, H, Chained, Covered, Booked, Trailed;
    assert !Pending(v, q, s, u) && !Pending(v, q, s, s.bestIdx);
  }
}
