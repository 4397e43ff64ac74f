/** At epsilon 1 with a sound heuristic nothing is ever re-opened too late: parent chains account exactly for the
    tentative costs, so the reported perceived total is the cost of the emitted route. */
module SearchExact {
  import opened FixedPoint
  import opened Grid
  import opened Heuristic
  import opened OpenList
  import opened Trails
  import opened SearchMachine
  import opened SearchInvariant
  import opened SearchResults

  /** No affordable route reaches `p` more cheaply than recorded. */
  ghost predicate Final(v: View, q: Query, s: State, p: nat)
    requires Ready(v, q) && Shaped(v, q, s) && p < v.N()
  {
    forall r: Route | Connects(v, q.start, r, p) && Cost(v, q.start, r) <= q.maxCost :: s.g[p] <= Cost(v, q.start, r)
  }

  /** The recorded parent is final and accounts exactly for the tentative cost. */
  ghost predicate TightAt(v: View, q: Query, s: State, u: nat)
    requires Ready(v, q) && Shaped(v, q, s) && u < v.N()
  {
    && Parented(v, q, s, u)
    && Final(v, q, s, s.from[u])
    && s.g[s.from[u]] + EnterCost(v, u, s.parent[u] - 1) == s.g[u]
  }

  ghost predicate Tight(v: View, q: Query, s: State)
    requires Ready(v, q) && Shaped(v, q, s)
  {
    forall u: nat | u < v.N() && s.g[u] < G_INFINITE && u != q.start :: TightAt(v, q, s, u)
  }

  /** Under a consistent heuristic and no inflation, the tile popped next is final. */
  lemma PoppedIsFinal(v: View, q: Query, s: State)
    requires Ready(v, q) && Sound(v) && q.eps == Q_ONE
    requires Shaped(v, q, s) && s.open != multiset{} && Inv(v, q, s)
    requires First(s.open).idx < v.N() && !Stale(s, First(s.open))
    ensures Final(v, q, s, First(s.open).idx)
  {
    var e := First(s.open);
    forall r | Connects(v, q.start, r, e.idx) && Cost(v, q.start, r) <= q.maxCost
      ensures s.g[e.idx] <= Cost(v, q.start, r)
    {
      PoppedBeatsRoute(v, q, s, r);
    }
  }

  lemma PoppedBeatsRoute(v: View, q: Query, s: State, r: Route)
    requires Ready(v, q) && Sound(v) && q.eps == Q_ONE
    requires Shaped(v, q, s) && s.open != multiset{} && Inv(v, q, s)
    requires First(s.open).idx < v.N() && !Stale(s, First(s.open))
    requires Connects(v, q.start, r, First(s.open).idx) && Cost(v, q.start, r) <= q.maxCost
    ensures s.g[First(s.open).idx] <= Cost(v, q.start, r)
  {
    hide Inv, CanStep, Dest, EnterCost, H;
    var e := First(s.open);
    StartIsFree(v, q, s);
    var w, rest := OnRoute(v, q, s, q.start, r);
    if Pending(v, q, s, w) {
      FirstBeforePending(v, q, s, w);
      ConsistentAlong(v, w, rest, q.goal);
    }
  }

  /** A final tile cannot be improved. */
  lemma FinalStays(v: View, q: Query, s: State, cur: nat, d: nat, t: State)
    requires Ready(v, q) && Shaped(v, q, s) && Shaped(v, q, t) && cur < v.N() && CanStep(v, cur, d)
    requires Improved(v, q, s, cur, d, t) && Chained(v, q, s) && s.g[cur] < G_INFINITE
    ensures !Final(v, q, s, Dest(v, cur, d))
  {
    hide CanStep, Dest, EnterCost, Chained, F;
    var r := ParentRoute(v, q, s, cur, Go(d, Stop));
    ParentRouteLegal(v, q, s, cur, Go(d, Stop));
    assert Connects(v, q.start, r, Dest(v, cur, d));
  }

  lemma ImprovedTightAt(v: View, q: Query, s: State, cur: nat, d: nat, t: State, u: nat)
    requires Ready(v, q) && Shaped(v, q, s) && Shaped(v, q, t) && cur < v.N() && CanStep(v, cur, d)
    requires Improved(v, q, s, cur, d, t) && Chained(v, q, s) && s.g[cur] < G_INFINITE && Final(v, q, s, cur)
    requires u < v.N() && (u == Dest(v, cur, d) || TightAt(v, q, s, u))
    ensures TightAt(v, q, t, u)
  {
    hide CanStep, Dest, EnterCost, Chained, F, Parented, Final, Pending;
    FinalStays(v, q, s, cur, d, t);
    ImprovedHere(v, q, s, cur, d, t);
    var p := t.from[u];
    if u == Dest(v, cur, d) {
      SameFinal(v, q, s, t, cur);
    } else {
      ImprovedParented(v, q, s, cur, d, t, u);
      assert p < v.N() by { ParentInRange(v, q, s, u); }
      assert p != Dest(v, cur, d);
      SameFinal(v, q, s, t, p);
    }
  }

  lemma ParentInRange(v: View, q: Query, s: State, u: nat)
    requires Ready(v, q) && Shaped(v, q, s) && u < v.N() && Parented(v, q, s, u)
    ensures s.from[u] < v.N() && s.parent[u] > 0
  {
  }

  lemma SameFinal(v: View, q: Query, s: State, t: State, p: nat)
    requires Ready(v, q) && Shaped(v, q, s) && Shaped(v, q, t) && p < v.N()
    requires t.g[p] == s.g[p] && Final(v, q, s, p)
    ensures Final(v, q, t, p)
  {
    hide Connects, Cost;
  }

  lemma SameTight(v: View, q: Query, s: State, t: State)
    requires Ready(v, q) && Shaped(v, q, s) && Shaped(v, q, t) && Tight(v, q, s)
    requires t.g == s.g && t.parent == s.parent && t.from == s.from
    ensures Tight(v, q, t)
  {
    hide CanStep, Dest, EnterCost, Parented, Final;
    forall u: nat | u < v.N() && t.g[u] < G_INFINITE && u != q.start ensures TightAt(v, q, t, u) {
      assert TightAt(v, q, s, u);
      ParentInRange(v, q, s, u);
      SameParented(v, q, s, t, u);
      SameFinal(v, q, s, t, s.from[u]);
    }
  }

  lemma RelaxTight(v: View, q: Query, s: State, cur: nat, d: nat)
    requires Ready(v, q) && Shaped(v, q, s) && cur < v.N() && d < v.Dirs()
    requires Chained(v, q, s) && s.g[cur] < G_INFINITE && Tight(v, q, s) && Final(v, q, s, cur)
    ensures var t := Relax(v, q, s, cur, s.g[cur], d); Tight(v, q, t) && t.g[cur] == s.g[cur] && Final(v, q, t, cur)
  {
    hide CanStep, Dest, EnterCost, F, H, Relax, Relaxed, Chained, Improved, Final, TightAt;
    RelaxCases(v, q, s, cur, d);
    var t := Relax(v, q, s, cur, s.g[cur], d);
    if CanStep(v, cur, d) && Improved(v, q, s, cur, d, t) {
      ImprovedHere(v, q, s, cur, d, t);
      forall u: nat | u < v.N() && t.g[u] < G_INFINITE && u != q.start ensures TightAt(v, q, t, u) {
        ImprovedFrame(v, q, s, cur, d, t);
        ImprovedTightAt(v, q, s, cur, d, t, u);
      }
    } else {
      SameTight(v, q, s, t);
    }
    SameFinal(v, q, s, t, cur);
  }

  lemma {:induction false} RelaxFromTight(v: View, q: Query, s: State, cur: nat, d: nat)
    requires Ready(v, q) && Shaped(v, q, s) && cur < v.N() && d <= v.Dirs()
    requires Booked(v, q, s) && Covered(v, q, s, cur, d) && Chained(v, q, s) && Closest(v, q, s) && Trailed(s.g)
    requires s.g[cur] < G_INFINITE && Tight(v, q, s) && Final(v, q, s, cur)
    ensures Tight(v, q, RelaxFrom(v, q, s, cur, s.g[cur], d))
    decreases v.Dirs() - d
  {
    hide Booked, Covered, Chained, Closest, Trailed, Relax, Tight, Final;
    if d < v.Dirs() {
      RelaxKeeps(v, q, s, cur, d);
      RelaxTight(v, q, s, cur, d);
      RelaxFromTight(v, q, Relax(v, q, s, cur, s.g[cur], d), cur, d + 1);
    }
  }

  lemma SettledBooks(v: View, q: Query, s: State, e: Entry)
    requires Ready(v, q) && s.open != multiset{} && Shaped(v, q, Popped(s)) && e.idx < v.N()
    ensures SameBooks(s, Settle(v, q, Popped(s), e))
  {
  }

  lemma ExpandTight(v: View, q: Query, s: State)
    requires Ready(v, q) && Sound(v) && q.eps == Q_ONE
    requires Shaped(v, q, s) && s.open != multiset{} && First(s.open).idx < v.N() && !Stale(s, First(s.open))
    requires Inv(v, q, s) && First(s.open).idx != q.goal && Tight(v, q, s)
    ensures Tight(v, q, Expanded(v, q, s))
  {
    hide Booked, Covered, Chained, Closest, Trailed, RelaxFrom, Tight, Final, Settle, Sound, Popped, F, H;
    PoppedIsFinal(v, q, s);
    var e := First(s.open);
    SettleKeeps(v, q, s, e);
    SettledBooks(v, q, s, e);
    var t := Settle(v, q, Popped(s), e);
    SameTight(v, q, s, t);
    SameFinal(v, q, s, t, e.idx);
    RelaxFromTight(v, q, t, e.idx, 0);
  }

  lemma {:induction false} RunTight(v: View, q: Query, s: State)
    requires Ready(v, q) && Sound(v) && q.eps == Q_ONE
    requires Shaped(v, q, s) && Inv(v, q, s) && Tight(v, q, s)
    ensures Tight(v, q, Run(v, q, s).last)
    decreases Sum(s.g), |s.open|
  {
    hide Inv, Expanded, Tight, Sound;
    if s.open != multiset{} {
      var e := First(s.open);
      if Stale(s, e) {
        StalePopKeeps(v, q, s);
        SameTight(v, q, s, Popped(s));
        RunTight(v, q, Popped(s));
      } else if e.idx != q.goal && s.expansions < q.maxExpansions {
        ExpandKeeps(v, q, s);
        ExpandTight(v, q, s);
        RunTight(v, q, Expanded(v, q, s));
      }
    }
  }

  ghost predicate ExactAt(v: View, q: Query, s: State, u: nat)
    requires Ready(v, q) && Shaped(v, q, s) && u < v.N()
  {
    Parented(v, q, s, u) && s.g[s.from[u]] + EnterCost(v, u, s.parent[u] - 1) == s.g[u]
  }

  lemma {:induction false} TightRouteCost(v: View, q: Query, s: State, u: nat, acc: Route)
    requires Ready(v, q) && Shaped(v, q, s) && Chained(v, q, s) && u < v.N() && s.g[u] < G_INFINITE
    requires Legal(v, u, acc)
    requires forall x: nat | x < v.N() && s.g[x] < G_INFINITE && x != q.start :: ExactAt(v, q, s, x)
    ensures Legal(v, q.start, ParentRoute(v, q, s, u, acc))
    ensures Cost(v, q.start, ParentRoute(v, q, s, u, acc)) == s.g[u] + Cost(v, u, acc)
    decreases s.g[u]
  {
    hide CanStep, Dest, EnterCost, Chained, ExactAt;
    ParentRouteLegal(v, q, s, u, acc);
    if u != q.start {
      ParentStep(v, q, s, u);
      assert s.g[s.from[u]] + EnterCost(v, u, s.parent[u] - 1) == s.g[u] by { ExactStep(v, q, s, u); }
      TightRouteCost(v, q, s, s.from[u], Go(s.parent[u] - 1, acc));
    } else {
      assert s.g[u] == 0 by { StartFree(v, q, s); }
    }
  }

  lemma ExactStep(v: View, q: Query, s: State, u: nat)
    requires Ready(v, q) && Shaped(v, q, s) && u < v.N() && ExactAt(v, q, s, u)
    ensures s.parent[u] > 0 && s.from[u] < v.N() && s.g[s.from[u]] + EnterCost(v, u, s.parent[u] - 1) == s.g[u]
  {
  }

  /** At epsilon 1 the tentative cost of every reached tile is exactly the cost of the route its parents spell. */
  lemma ReportedCostExact(v: View, q: Query, u: nat)
    requires Ready(v, q) && Sound(v) && q.eps == Q_ONE && u < v.N()
    requires Search(v, q).last.g[u] < G_INFINITE
    ensures var s := Search(v, q).last;
            && Inv(v, q, s) && Connects(v, q.start, ParentRoute(v, q, s, u, Stop), u)
            && Cost(v, q.start, ParentRoute(v, q, s, u, Stop)) == s.g[u]
  {
    hide Inv, Run, Sound;
    InitHolds(v, q);
    assert Tight(v, q, Init(v, q));
    RunKeeps(v, q, Init(v, q));
    RunTight(v, q, Init(v, q));
    TightGivesRoute(v, q, Run(v, q, Init(v, q)).last, u);
  }

  lemma TightGivesRoute(v: View, q: Query, s: State, u: nat)
    requires Ready(v, q) && Shaped(v, q, s) && Inv(v, q, s) && Tight(v, q, s) && u < v.N() && s.g[u] < G_INFINITE
    ensures Connects(v, q.start, ParentRoute(v, q, s, u, Stop), u)
    ensures Cost(v, q.start, ParentRoute(v, q, s, u, Stop)) == s.g[u]
  {
    hide CanStep, Dest, EnterCost, Chained, Covered, Closest, Booked, Final, Trailed, Parented;
    forall x: nat | x < v.N() && s.g[x] < G_INFINITE && x != q.start
      ensures ExactAt(v, q, s, x)
    {
      assert TightAt(v, q, s, x);
    }
    ParentRouteLegal(v, q, s, u, Stop);
    TightRouteCost(v, q, s, u, Stop);
  }

  /** Whatever epsilon, once the heap has run dry the parents account exactly for every cost. */
  lemma DryRouteCost(v: View, q: Query, s: State, u: nat)
    requires Ready(v, q) && Shaped(v, q, s) && Inv(v, q, s) && s.open == multiset{} && u < v.N() && s.g[u] < G_INFINITE
    ensures Connects(v, q.start, ParentRoute(v, q, s, u, Stop), u)
    ensures Cost(v, q.start, ParentRoute(v, q, s, u, Stop)) == s.g[u]
  {
    hide CanStep, Dest, EnterCost, F, Booked, Covered, Chained, Closest, Trailed, Parented, ExactAt, ParentRoute, Cost;
    forall x: nat | x < v.N() && s.g[x] < G_INFINITE && x != q.start
      ensures ExactAt(v, q, s, x)
    {
      DryExactAt(v, q, s, x);
    }
    ParentRouteLegal(v, q, s, u, Stop);
    TightRouteCost(v, q, s, u, Stop);
    CostOfStop(v, u);
  }

  lemma CostOfStop(v: View, u: nat)
    requires v.Valid() && u < v.N()
    ensures Legal(v, u, Stop) && Cost(v, u, Stop) == 0 && End(v, u, Stop) == u
  {
  }

  lemma DryExactAt(v: View, q: Query, s: State, x: nat)
    requires Ready(v, q) && Shaped(v, q, s) && Inv(v, q, s) && s.open == multiset{} && x < v.N() && x != q.start
    requires s.g[x] < G_INFINITE
    ensures ExactAt(v, q, s, x)
  {
    hide CanStep, Dest, EnterCost, F, Covered, Chained, Closest, Trailed;
    ParentStep(v, q, s, x);
    assert !Pending(v, q, s, s.from[x]);
    CostsStayLow(v, q, s, s.from[x]);
    RelaxedHere(v, q, s, s.from[x], s.parent[x] - 1);
  }
}
