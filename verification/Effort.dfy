/** How much work a search can do.  A tile is expanded again only after it has become cheaper, and whenever it is
    expanded it costs at most the largest inflated heuristic more than any affordable route to it: so re-expansion has
    an end long before 64 bits, and an unlimited budget really is one. */
module Effort {
  import opened FixedPoint
  import opened Grid
  import opened Heuristic
  import opened OpenList
  import opened Trails
  import opened SearchMachine
  import opened SearchInvariant
  import opened SearchResults
  import opened SearchExact
  import opened SearchOnce

  /** How often each tile was expanded, and what it cost the last time. */
  datatype Tally = Tally(count: seq<nat>, last: seq<nat>)

  /** No affordable route to `u` costs less than `c` by more than `k`. */
  ghost predicate Near(v: View, q: Query, u: nat, c: nat, k: nat)
    requires Ready(v, q) && u < v.N()
  {
    forall r: Route | Connects(v, q.start, r, u) && Cost(v, q.start, r) <= q.maxCost :: c <= Cost(v, q.start, r) + k
  }

  /** A tile that was expanded costs no more than then, and less if it is open again; every further expansion has taken
      it at least one closer to what routes cost. */
  ghost predicate Counted(v: View, q: Query, s: State, k: nat, u: nat, count: nat, last: nat)
    requires Ready(v, q) && Shaped(v, q, s) && u < v.N()
  {
    count > 0 ==>
      && s.g[u] <= last < G_INFINITE && (Pending(v, q, s, u) ==> s.g[u] < last)
      && Near(v, q, u, last + count, k + 1)
  }

  ghost predicate Tallied(v: View, q: Query, s: State, k: nat, c: Tally)
    requires Ready(v, q) && Shaped(v, q, s)
  {
    && |c.count| == |c.last| == v.N() && c.count[q.goal] == 0
    && forall u: nat | u < v.N() :: Counted(v, q, s, k, u, c.count[u], c.last[u])
  }

  /** No tile's inflated heuristic is above `k`. */
  ghost predicate InflatedBelow(v: View, q: Query, k: nat)
    requires Ready(v, q)
  {
    forall u: nat | u < v.N() :: Inflate(q.eps, H(v, u, q.goal)) <= k
  }

  /** Whatever is popped costs little more than any route to it. */
  lemma PoppedIsNear(v: View, q: Query, s: State, k: nat)
    requires Ready(v, q) && InflatedBelow(v, q, k) && Shaped(v, q, s) && s.open != multiset{} && Inv(v, q, s)
    requires First(s.open).idx < v.N() && !Stale(s, First(s.open))
    ensures Near(v, q, First(s.open).idx, First(s.open).g, k)
  {
    hide Inv, CanStep, Dest, EnterCost, H;
    var e := First(s.open);
    StartIsFree(v, q, s);
    forall r: Route | Connects(v, q.start, r, e.idx) && Cost(v, q.start, r) <= q.maxCost
      ensures e.g <= Cost(v, q.start, r) + k
    {
      var w, rest := OnRoute(v, q, s, q.start, r);
      if Pending(v, q, s, w) {
        FirstBeforePending(v, q, s, w);
        assert Inflate(q.eps, H(v, w, q.goal)) <= k;
      }
    }
  }

  // ---------- counting along an expansion ----------

  function Once(c: Tally, u: nat, g: nat): Tally
    requires u < |c.count| == |c.last|
  {
    Tally(c.count[u := c.count[u] + 1], c.last[u := g])
  }

  lemma PopCounts(v: View, q: Query, s: State, k: nat, c: Tally, e: Entry)
    requires Ready(v, q) && InflatedBelow(v, q, k) && Shaped(v, q, s) && s.open != multiset{} && e == First(s.open)
    requires Inv(v, q, s) && Single(v, q, s) && Tallied(v, q, s, k, c)
    requires e.idx < v.N() && !Stale(s, e) && e.idx != q.goal && Shaped(v, q, Popped(s))
    ensures Tallied(v, q, Settle(v, q, Popped(s), e), k, Once(c, e.idx, e.g))
  {
    hide F, H, Inv, Settle, Popped, First, Single, Near, InflatedBelow, Tallied, Pending, Once;
    PoppedIsNear(v, q, s, k);
    InvBooks(v, q, s);
    SettleOpen(v, q, s, e);
    FirstIsOpen(s);
    OnlyEntry(v, q, s, e);
    PoppedTallied(v, q, s, Settle(v, q, Popped(s), e), k, c, e);
  }

  lemma InvBooks(v: View, q: Query, s: State)
    requires Ready(v, q) && Shaped(v, q, s) && Inv(v, q, s)
    ensures Booked(v, q, s) && Chained(v, q, s) && Closest(v, q, s) && Trailed(s.g) && Covered(v, q, s, 0, 8)
  {
  }

  lemma FirstIsOpen(s: State)
    requires s.open != multiset{}
    ensures First(s.open) in s.open
  {
    assert IsFirst(First(s.open), s.open);
  }

  lemma PoppedTallied(v: View, q: Query, s: State, t: State, k: nat, c: Tally, e: Entry)
    requires Ready(v, q) && Shaped(v, q, s) && Shaped(v, q, t) && e.idx < v.N() && s.g[e.idx] == e.g < G_INFINITE
    requires t.g == s.g && t.open == s.open - multiset{e} && e !in t.open && e == LiveEntry(v, q, s, e.idx)
    requires Pending(v, q, s, e.idx) && Near(v, q, e.idx, e.g, k) && Tallied(v, q, s, k, c) && e.idx != q.goal
    ensures Tallied(v, q, t, k, Once(c, e.idx, e.g))
  {
    hide F, Near, Counted, Shaped, Pending, LiveEntry, View.Valid, Clamped;
    var n := Once(c, e.idx, e.g);
    PoppedCounted(v, q, s, t, k, e, c.count[e.idx], c.last[e.idx]);
    forall u: nat | u < v.N() ensures Counted(v, q, t, k, u, n.count[u], n.last[u]) {
      if u != e.idx {
        SameCounted(v, q, s, t, k, u, c.count[u], c.last[u]);
      }
    }
  }

  lemma SameCounted(v: View, q: Query, s: State, t: State, k: nat, u: nat, count: nat, last: nat)
    requires Ready(v, q) && Shaped(v, q, s) && Shaped(v, q, t) && t.g == s.g && t.open <= s.open && u < v.N()
    requires Counted(v, q, s, k, u, count, last)
    ensures Counted(v, q, t, k, u, count, last)
  {
    hide F, Near, Ready;
  }

  lemma PoppedCounted(v: View, q: Query, s: State, t: State, k: nat, e: Entry, count: nat, last: nat)
    requires Ready(v, q) && Shaped(v, q, s) && Shaped(v, q, t) && e.idx < v.N() && s.g[e.idx] == e.g < G_INFINITE
    requires t.g == s.g && t.open == s.open - multiset{e} && e !in t.open && e == LiveEntry(v, q, s, e.idx)
    requires Pending(v, q, s, e.idx) && Near(v, q, e.idx, e.g, k) && Counted(v, q, s, k, e.idx, count, last)
    ensures Counted(v, q, t, k, e.idx, count + 1, e.g)
  {
    CloserStill(v, q, e.idx, e.g, count, last, k);
    hide F, Near, Ready;
  }

  lemma CloserStill(v: View, q: Query, u: nat, g: nat, count: nat, last: nat, k: nat)
    requires Ready(v, q) && u < v.N() && Near(v, q, u, g, k)
    requires count > 0 ==> g < last && Near(v, q, u, last + count, k + 1)
    ensures Near(v, q, u, g + (count + 1), k + 1)
  {
    hide Connects, Cost, Ready;
  }

  lemma ImprovedCounts(v: View, q: Query, s: State, cur: nat, d: nat, t: State, k: nat, c: Tally)
    requires Ready(v, q) && Shaped(v, q, s) && Shaped(v, q, t) && cur < v.N() && CanStep(v, cur, d)
    requires Improved(v, q, s, cur, d, t) && Tallied(v, q, s, k, c)
    ensures Tallied(v, q, t, k, c)
  {
    hide CanStep, Dest, EnterCost, F, Near;
    var nb := Dest(v, cur, d);
    forall u: nat | u < v.N() ensures Counted(v, q, t, k, u, c.count[u], c.last[u]) {
      assert Counted(v, q, s, k, u, c.count[u], c.last[u]);
      if u != nb {
        assert Pending(v, q, t, u) ==> Pending(v, q, s, u);
      }
    }
  }

  lemma SameCounts(v: View, q: Query, s: State, t: State, k: nat, c: Tally)
    requires Ready(v, q) && Shaped(v, q, s) && Shaped(v, q, t) && t.g == s.g && t.open <= s.open
    requires Tallied(v, q, s, k, c)
    ensures Tallied(v, q, t, k, c)
  {
    hide F, Counted, Ready;
    forall u: nat | u < v.N() ensures Counted(v, q, t, k, u, c.count[u], c.last[u]) {
      SameCounted(v, q, s, t, k, u, c.count[u], c.last[u]);
    }
  }

  lemma {:induction false} RelaxFromCounts(v: View, q: Query, s: State, cur: nat, d: nat, k: nat, c: Tally)
    requires Ready(v, q) && Shaped(v, q, s) && cur < v.N() && d <= v.Dirs()
    requires Booked(v, q, s) && Covered(v, q, s, cur, d) && Chained(v, q, s) && Closest(v, q, s) && Trailed(s.g)
    requires s.g[cur] < G_INFINITE && Tallied(v, q, s, k, c)
    ensures Tallied(v, q, RelaxFrom(v, q, s, cur, s.g[cur], d), k, c)
    decreases v.Dirs() - d
  {
    hide Booked, Covered, Chained, Closest, Trailed, Relax, Relaxed, Improved, Tallied, CanStep;
    if d < v.Dirs() {
      RelaxKeeps(v, q, s, cur, d);
      RelaxCases(v, q, s, cur, d);
      var t := Relax(v, q, s, cur, s.g[cur], d);
      if CanStep(v, cur, d) && Improved(v, q, s, cur, d, t) {
        ImprovedCounts(v, q, s, cur, d, t, k, c);
      } else {
        SameCounts(v, q, s, t, k, c);
      }
      RelaxFromCounts(v, q, t, cur, d + 1, k, c);
    }
  }

  lemma ExpandSingle(v: View, q: Query, s: State)
    requires Ready(v, q) && Shaped(v, q, s) && s.open != multiset{} && Inv(v, q, s) && Single(v, q, s)
    requires First(s.open).idx < v.N() && !Stale(s, First(s.open)) && First(s.open).idx != q.goal
    ensures Single(v, q, Expanded(v, q, s)) && Expanded(v, q, s).expansions == s.expansions + 1
  {
    hide Booked, Covered, Chained, Closest, Trailed, RelaxFrom, Single, Settle, Popped, F, H, Shut;
    var e := First(s.open);
    SettleKeeps(v, q, s, e);
    SettleOpen(v, q, s, e);
    NoneShut(v, q, s);
    SameShut(v, q, s, Settle(v, q, Popped(s), e), {});
    RelaxFromShut(v, q, Settle(v, q, Popped(s), e), e.idx, 0, {});
  }

  /** An expansion counts once, for the tile popped. */
  lemma ExpandCounts(v: View, q: Query, s: State, k: nat, c: Tally)
    requires Ready(v, q) && InflatedBelow(v, q, k) && Shaped(v, q, s) && s.open != multiset{}
    requires First(s.open).idx < v.N() && !Stale(s, First(s.open)) && First(s.open).idx != q.goal
    requires Inv(v, q, s) && Single(v, q, s) && Tallied(v, q, s, k, c)
    ensures First(s.open).idx < |c.count| == |c.last|
    ensures var e := First(s.open); Tallied(v, q, Expanded(v, q, s), k, Once(c, e.idx, e.g))
  {
    hide Booked, Covered, Chained, Closest, Trailed, RelaxFrom, Single, Settle, Popped, F, H, InflatedBelow, Near,
      Counted;
    var e := First(s.open);
    var n := Once(c, e.idx, e.g);
    hide Tallied, Once;
    SettleKeeps(v, q, s, e);
    PopCounts(v, q, s, k, c, e);
    SettleOpen(v, q, s, e);
    RelaxFromCounts(v, q, Settle(v, q, Popped(s), e), e.idx, 0, k, n);
  }

  lemma NoneShut(v: View, q: Query, s: State)
    requires Ready(v, q) && Shaped(v, q, s)
    ensures Shut(v, q, s, {})
  {
  }

  // ---------- how much there is to count ----------

  /** No tile is expanded more than `k + 1` times: it was reached by a route, which costs no more than it did then. */
  lemma CountBounded(v: View, q: Query, s: State, k: nat, c: Tally, u: nat)
    requires Ready(v, q) && Shaped(v, q, s) && Inv(v, q, s) && Tallied(v, q, s, k, c) && u < v.N()
    ensures c.count[u] <= k + 1
  {
    hide Inv, Pending, Connects, Cost;
    assert Counted(v, q, s, k, u, c.count[u], c.last[u]);
    if c.count[u] > 0 {
      var r := Reachable(v, q, s, u);
    }
  }

  lemma {:induction false} SumAtMost(s: seq<nat>, cap: nat)
    requires forall i | 0 <= i < |s| :: s[i] <= cap
    ensures Sum(s) <= |s| * cap
  {
    if s != [] {
      SumAtMost(s[1..], cap);
      assert |s| * cap == (|s| - 1) * cap + cap;
    }
  }

  /** As often as every tile but the goal can be expanded. */
  function Times(v: View, k: nat): nat
    requires v.Valid()
  {
    TileCount(v);
    NonNegative(v.N() - 1, k + 1);
    (v.N() - 1) * (k + 1)
  }

  /** The goal is never expanded. */
  lemma TallyBounded(v: View, q: Query, s: State, k: nat, c: Tally)
    requires Ready(v, q) && Shaped(v, q, s) && Inv(v, q, s) && Tallied(v, q, s, k, c)
    ensures Sum(c.count) <= Times(v, k)
  {
    hide Inv, Counted, Sum, Shaped, View.Valid, Clamped;
    forall i: nat | i < v.N() ensures c.count[i] <= k + 1 {
      CountBounded(v, q, s, k, c, i);
    }
    SumBesides(c.count, q.goal, k + 1);
  }

  lemma SumBesides(s: seq<nat>, i: nat, cap: nat)
    requires i < |s| && s[i] == 0 && forall j: nat | j < |s| :: s[j] <= cap
    ensures Sum(s) <= (|s| - 1) * cap
  {
    hide Sum;
    SumAtMost(s[i := cap], cap);
    SumUpdate(s, i, cap);
    assert |s| * cap == (|s| - 1) * cap + cap;
  }

  lemma {:induction false} RunCounts(v: View, q: Query, s: State, k: nat, c: Tally)
    requires Ready(v, q) && InflatedBelow(v, q, k) && Shaped(v, q, s) && Inv(v, q, s)
    requires Single(v, q, s) && Tallied(v, q, s, k, c) && Sum(c.count) == s.expansions
    ensures Run(v, q, s).last.expansions <= Times(v, k)
    ensures Times(v, k) <= q.maxExpansions ==> Run(v, q, s).stop != OutOfBudget
    decreases Sum(s.g), |s.open|
  {
    hide Inv, Expanded, Single, Tallied, InflatedBelow, Times, View.Valid, Clamped;
    TallyBounded(v, q, s, k, c);
    if s.open != multiset{} {
      var e := First(s.open);
      if SearchMachine.Stale(s, e) {
        StalePopKeeps(v, q, s);
        NoneShut(v, q, s);
        SameShut(v, q, s, Popped(s), {});
        SameCounts(v, q, s, Popped(s), k, c);
        RunCounts(v, q, Popped(s), k, c);
      } else if e.idx != q.goal {
        ExpandKeeps(v, q, s);
        ExpandSingle(v, q, s);
        ExpandCounts(v, q, s, k, c);
        CountedOnce(v, q, s, k, c, e);
        TallyBounded(v, q, Expanded(v, q, s), k, Once(c, e.idx, e.g));
        if s.expansions < q.maxExpansions {
          RunCounts(v, q, Expanded(v, q, s), k, Once(c, e.idx, e.g));
        }
      }
    }
  }

  lemma CountedOnce(v: View, q: Query, s: State, k: nat, c: Tally, e: Entry)
    requires Ready(v, q) && Shaped(v, q, s) && Tallied(v, q, s, k, c) && e.idx < v.N()
    ensures e.idx < |c.count| == |c.last| && Sum(Once(c, e.idx, e.g).count) == Sum(c.count) + 1
  {
    hide Counted;
    SumUpdate(c.count, e.idx, c.count[e.idx] + 1);
  }

  lemma InitCounts(v: View, q: Query, k: nat) returns (c: Tally)
    requires Ready(v, q)
    ensures Single(v, q, Init(v, q)) && Tallied(v, q, Init(v, q), k, c) && Sum(c.count) == 0
  {
    hide F, H;
    c := Tally(seq(v.N(), _ => 0), seq(v.N(), _ => 0));
    SumAtMost(c.count, 0);
  }

  // ---------- the bound ----------

  /** No inflated heuristic on this map is above this. */
  function Farthest(v: View, eps: nat): nat
    requires v.Valid()
  {
    NonNegative(v.hD, v.w - 1 + (v.h - 1));
    Inflate(eps, v.hD * (v.w - 1 + (v.h - 1)))
  }

  /** The most expansions any search on this map can take. */
  function AmpleFor(v: View, eps: nat): nat
    requires v.Valid()
  {
    Times(v, Farthest(v, eps))
  }

  lemma HeuristicBelow(v: View, u: nat, goal: nat)
    requires v.Valid() && Clamped(v) && u < v.N() && goal < v.N()
    ensures H(v, u, goal) <= v.hD * (v.w - 1 + (v.h - 1))
  {
    CoordsInRange(v, u);
    CoordsInRange(v, goal);
    hide X, Y;
    var dx, dy := Gap(X(v, u), X(v, goal)), Gap(Y(v, u), Y(v, goal));
    var most := v.w - 1 + (v.h - 1);
    assert dx + dy <= most;
    hide Gap;
    assert v.hD * (dx + dy) <= v.hD * most by { ProductBound(v.hD, dx + dy, v.hD, most); }
    assert (2 * v.hD - v.hD2) * Least(dx, dy) >= 0 by { NonNegative(2 * v.hD - v.hD2, Least(dx, dy)); }
  }

  lemma AllBelow(v: View, q: Query)
    requires Ready(v, q)
    ensures InflatedBelow(v, q, Farthest(v, q.eps))
  {
    hide H;
    forall u: nat | u < v.N() ensures Inflate(q.eps, H(v, u, q.goal)) <= Farthest(v, q.eps) {
      HeuristicBelow(v, u, q.goal);
      ProductBound(q.eps, H(v, u, q.goal), q.eps, v.hD * (v.w - 1 + (v.h - 1)));
    }
  }

  /** No search expands more often than that, whatever it inflates and re-expands, and no budget that allows for it ever
      ends one. */
  lemma AmpleBudget(v: View, q: Query)
    requires Ready(v, q)
    ensures Search(v, q).last.expansions <= AmpleFor(v, q.eps)
    ensures AmpleFor(v, q.eps) <= q.maxExpansions ==> Search(v, q).stop != OutOfBudget
  {
    hide Inv, Run, Single, Tallied, InflatedBelow, Farthest, Times;
    AllBelow(v, q);
    InitHolds(v, q);
    var c := InitCounts(v, q, Farthest(v, q.eps));
    RunCounts(v, q, Init(v, q), Farthest(v, q.eps), c);
  }

  /** With floors as registration leaves them, an unlimited budget allows for every search on every map. */
  lemma UnlimitedIsAmple(v: View, eps: nat)
    requires v.Valid() && eps <= Q_EPS_MAX
    ensures v.hD <= Q_ONE ==> AmpleFor(v, eps) < 0x4_0000_0000_0000 < G_INFINITE
  {
    var most := v.w - 1 + (v.h - 1);
    TileCount(v);
    if v.hD <= Q_ONE {
      ProductBound(v.hD, most, Q_ONE, 4094);
      ProductBound(eps, v.hD * most, Q_EPS_MAX, Q_ONE * 4094);
      ProductBound(v.N() - 1, Farthest(v, eps) + 1, 0x3F_FFFF, 0x1000_0000);
    }
  }

  /** FOUND exactly when the goal can be reached within the cap: for every search with a budget that allows for it, and
      for every other that its budget did not end. */
  lemma FoundIffAffordable(v: View, q: Query)
    requires Ready(v, q)
    ensures AmpleFor(v, q.eps) <= q.maxExpansions || Search(v, q).stop != OutOfBudget ==>
              (Search(v, q).stop == Reached <==>
                exists r :: Connects(v, q.start, r, q.goal) && Cost(v, q.start, r) <= q.maxCost)
  {
    hide Search, AmpleFor, Connects, Cost;
    AmpleBudget(v, q);
    if Search(v, q).stop != OutOfBudget {
      FoundUnlessCut(v, q);
    }
  }
}
