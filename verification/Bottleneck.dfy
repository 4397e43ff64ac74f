/** What a search cannot find before it finds something else: a search never expands a tile whose priority exceeds the
    highest priority along some route to the goal, so costs it reports respect any potential that only such tiles
    relax. */
module Bottleneck {
  import opened FixedPoint
  import opened Grid
  import opened Heuristic
  import opened OpenList
  import opened Trails
  import opened SearchMachine
  import opened SearchInvariant
  import opened SearchResults

  /** All priorities along the route, taken at the route's own costs, stay within `top`. */
  ghost predicate Below(v: View, q: Query, u: nat, g: nat, r: Route, top: nat)
    requires Ready(v, q) && u < v.N() && Legal(v, u, r)
    decreases r
  {
    F(v, q, u, g) <= top
    && match r
       case Stop => true
       case Go(d, rest) => Below(v, q, Dest(v, u, d), g + EnterCost(v, Dest(v, u, d), d), rest, top)
  }

  /** Costs that can be reached by expanding only tiles with priorities within `top`. */
  ghost predicate Potential(v: View, q: Query, pot: seq<nat>, top: nat)
    requires Ready(v, q)
  {
    && |pot| == v.N() && pot[q.start] == 0 && (forall u | 0 <= u < |pot| :: pot[u] <= G_INFINITE)
    && (forall u: nat, d: nat | u < v.N() && CanStep(v, u, d) && F(v, q, u, pot[u]) <= top ::
          pot[Dest(v, u, d)] <= pot[u] + EnterCost(v, Dest(v, u, d), d))
  }

  ghost predicate Above(v: View, q: Query, s: State, pot: seq<nat>)
    requires Ready(v, q) && Shaped(v, q, s) && |pot| == v.N()
  {
    forall u | 0 <= u < v.N() :: pot[u] <= s.g[u]
  }

  lemma PriorityGrows(v: View, q: Query, u: nat, g: nat, g': nat)
    requires Ready(v, q) && g <= g'
    ensures F(v, q, u, g) <= F(v, q, u, g')
  {
  }

  /** While the search runs, some pending tile on the route has a priority within `top`. */
  lemma {:induction false} PendingBelow(v: View, q: Query, s: State, u: nat, g: nat, r: Route, top: nat)
    returns (w: nat)
    requires Ready(v, q) && Shaped(v, q, s) && Inv(v, q, s) && u < v.N() && s.g[u] < G_INFINITE && s.g[u] <= g
    requires Legal(v, u, r) && End(v, u, r) == q.goal && Below(v, q, u, g, r, top) && g + Cost(v, u, r) <= q.maxCost
    ensures w < v.N() && Pending(v, q, s, w) && F(v, q, w, s.g[w]) <= top
    decreases r
  {
    hide CanStep, Dest, EnterCost, Inv, Pending, F;
    PriorityGrows(v, q, u, s.g[u], g);
    if Pending(v, q, s, u) {
      w := u;
    } else if r == Stop {
      GoalPends(v, q, s);
      w := u;
    } else {
      var t := Dest(v, u, r.d);
      CostsStayLow(v, q, s, u);
      RelaxedHere(v, q, s, u, r.d);
      w := PendingBelow(v, q, s, t, g + EnterCost(v, t, r.d), r.rest, top);
    }
  }

  lemma GoalPends(v: View, q: Query, s: State)
    requires Ready(v, q) && Shaped(v, q, s) && Inv(v, q, s) && s.g[q.goal] < G_INFINITE
    ensures Pending(v, q, s, q.goal)
  {
  }

  lemma RelaxAbove(v: View, q: Query, s: State, pot: seq<nat>, cur: nat, eg: nat, d: nat, top: nat)
    requires Ready(v, q) && Shaped(v, q, s) && Potential(v, q, pot, top) && Above(v, q, s, pot)
    requires cur < v.N() && pot[cur] <= eg && F(v, q, cur, eg) <= top
    ensures Above(v, q, Relax(v, q, s, cur, eg, d), pot)
  {
    hide CanStep, Dest, EnterCost, F;
    PriorityGrows(v, q, cur, pot[cur], eg);
  }

  lemma {:induction false} RelaxFromAbove(v: View, q: Query, s: State, pot: seq<nat>, cur: nat, eg: nat, d: nat,
                                          top: nat)
    requires Ready(v, q) && Shaped(v, q, s) && Potential(v, q, pot, top) && Above(v, q, s, pot)
    requires cur < v.N() && pot[cur] <= eg && F(v, q, cur, eg) <= top && d <= v.Dirs()
    ensures Above(v, q, RelaxFrom(v, q, s, cur, eg, d), pot)
    decreases v.Dirs() - d
  {
    hide Potential, Above, Relax, F;
    if d < v.Dirs() {
      RelaxAbove(v, q, s, pot, cur, eg, d, top);
      RelaxFromAbove(v, q, Relax(v, q, s, cur, eg, d), pot, cur, eg, d + 1, top);
    }
  }

  lemma ExpandedAbove(v: View, q: Query, s: State, pot: seq<nat>, top: nat)
    requires Ready(v, q) && Shaped(v, q, s) && Potential(v, q, pot, top) && Above(v, q, s, pot)
    requires s.open != multiset{} && !SearchMachine.Stale(s, First(s.open)) && First(s.open).f <= top
    requires First(s.open).f == F(v, q, First(s.open).idx, First(s.open).g)
    ensures Above(v, q, Expanded(v, q, s), pot)
  {
    hide RelaxFrom, Potential, F, H, Settle, Above;
    var e := First(s.open);
    PotentialSize(v, q, pot, top);
    FirstFits(v, q, s, pot);
    SettleAbove(v, q, s, pot, e);
    RelaxFromAbove(v, q, Settle(v, q, Popped(s), e), pot, e.idx, e.g, 0, top);
  }

  lemma FirstFits(v: View, q: Query, s: State, pot: seq<nat>)
    requires Ready(v, q) && Shaped(v, q, s) && |pot| == v.N() && Above(v, q, s, pot)
    requires s.open != multiset{} && First(s.open).idx < v.N() && !SearchMachine.Stale(s, First(s.open))
    ensures pot[First(s.open).idx] <= First(s.open).g
  {
  }

  lemma SettleAbove(v: View, q: Query, s: State, pot: seq<nat>, e: Entry)
    requires Ready(v, q) && Shaped(v, q, s) && |pot| == v.N()
    requires Above(v, q, s, pot) && s.open != multiset{} && e.idx < v.N()
    ensures Above(v, q, Settle(v, q, Popped(s), e), pot)
  {
    hide H;
  }

  lemma PotentialSize(v: View, q: Query, pot: seq<nat>, top: nat)
    requires Ready(v, q) && Potential(v, q, pot, top)
    ensures |pot| == v.N() && pot[q.start] == 0
  {
  }

  lemma {:induction false} RunAbove(v: View, q: Query, s: State, pot: seq<nat>, r: Route, top: nat)
    requires Ready(v, q) && Shaped(v, q, s) && Inv(v, q, s)
    requires Potential(v, q, pot, top) && |pot| == v.N() && Above(v, q, s, pot)
    requires Connects(v, q.start, r, q.goal) && Below(v, q, q.start, 0, r, top) && Cost(v, q.start, r) <= q.maxCost
    ensures Above(v, q, Run(v, q, s).last, pot)
    decreases Sum(s.g), |s.open|
  {
    hide Inv, Potential, Above, Settle, RelaxFrom, F, H, Legal, End, Below, CanStep, Dest;
    if s.open != multiset{} {
      var e := First(s.open);
      StartIsFree(v, q, s);
      var w := PendingBelow(v, q, s, q.start, 0, r, top);
      FirstBeforePending(v, q, s, w);
      if SearchMachine.Stale(s, e) {
        StalePopKeeps(v, q, s);
        PopAbove(v, q, s, pot);
        RunAbove(v, q, Popped(s), pot, r, top);
      } else if e.idx != q.goal && s.expansions < q.maxExpansions {
        ExpandKeeps(v, q, s);
        ExpandedAbove(v, q, s, pot, top);
        RunAbove(v, q, Expanded(v, q, s), pot, r, top);
      }
    }
  }

  lemma PopAbove(v: View, q: Query, s: State, pot: seq<nat>)
    requires Ready(v, q) && Shaped(v, q, s) && |pot| == v.N() && Above(v, q, s, pot) && s.open != multiset{}
    ensures Above(v, q, Popped(s), pot)
  {
  }

  /** The search cannot report less for the goal than a potential says. */
  lemma ReportedAbove(v: View, q: Query, pot: seq<nat>, r: Route, top: nat)
    requires Ready(v, q) && Potential(v, q, pot, top)
    requires Connects(v, q.start, r, q.goal) && Below(v, q, q.start, 0, r, top) && Cost(v, q.start, r) <= q.maxCost
    ensures |pot| == v.N() && pot[q.goal] <= Search(v, q).last.g[q.goal]
  {
    hide Inv, Run, CanStep, Dest, Below, Legal, End, Cost;
    InitHolds(v, q);
    RunAbove(v, q, Init(v, q), pot, r, top);
  }
}
