/** What a cost cap cuts off: when a search that ran dry blames the cap, and when it says that there is no way. */
module Pruning {
  import opened FixedPoint
  import opened Grid
  import opened Heuristic
  import opened OpenList
  import opened Trails
  import opened SearchMachine
  import opened SearchInvariant
  import opened SearchResults
  import opened SearchExact

  // ---------- routes that tentative costs stand for ----------

  /** A legal route that comes to no tile twice. */
  predicate Simple(v: View, i: nat, r: Route)
    requires v.Valid() && i < v.N()
    decreases r
  {
    Legal(v, i, r) && match r
                      case Stop => true
                      case Go(d, rest) => i !in Tiles(v, i, r) && Simple(v, Dest(v, i, d), rest)
  }

  /** No tile of the route, come to at cost `c`, has become dearer than it was then. */
  ghost predicate Under(v: View, g: seq<nat>, i: nat, c: nat, r: Route)
    requires v.Valid() && i < v.N() == |g| && Legal(v, i, r)
    decreases r
  {
    g[i] <= c && match r
                 case Stop => true
                 case Go(d, rest) => Under(v, g, Dest(v, i, d), c + EnterCost(v, Dest(v, i, d), d), rest)
  }

  /** The tentative cost of `u` is what this route costs. */
  ghost predicate Backs(v: View, q: Query, g: seq<nat>, u: nat, r: Route)
    requires Ready(v, q) && u < v.N() == |g|
  {
    Connects(v, q.start, r, u) && Cost(v, q.start, r) == g[u] && Simple(v, q.start, r) && Under(v, g, q.start, 0, r)
  }

  ghost predicate Backed(v: View, q: Query, g: seq<nat>)
    requires Ready(v, q) && |g| == v.N()
  {
    forall u: nat | u < v.N() && g[u] < G_INFINITE :: exists r: Route :: Backs(v, q, g, u, r)
  }

  ghost predicate Cheaper(h: seq<nat>, g: seq<nat>) {
    |h| == |g| && forall u: nat | u < |g| :: h[u] <= g[u]
  }

  lemma CheaperAt(h: seq<nat>, g: seq<nat>, i: nat)
    requires Cheaper(h, g) && i < |g|
    ensures |h| == |g| && h[i] <= g[i]
  {
  }

  lemma {:induction false} UnderLower(v: View, g: seq<nat>, h: seq<nat>, i: nat, c: nat, r: Route)
    requires v.Valid() && i < v.N() == |g| == |h| && Legal(v, i, r) && Under(v, g, i, c, r) && Cheaper(h, g)
    ensures Under(v, h, i, c, r)
    decreases r
  {
    hide CanStep, Dest, EnterCost, View.Valid, Cheaper, Under, Legal;
    CheaperAt(h, g, i);
    UnderAt(v, g, i, c, r);
    UnderAt(v, h, i, c, r);
    if r.Go? {
      UnderLower(v, g, h, Dest(v, i, r.d), c + EnterCost(v, Dest(v, i, r.d), r.d), r.rest);
    }
  }

  lemma UnderAt(v: View, g: seq<nat>, i: nat, c: nat, r: Route)
    requires v.Valid() && i < v.N() == |g| && Legal(v, i, r)
    ensures r.Go? ==> CanStep(v, i, r.d) && Legal(v, Dest(v, i, r.d), r.rest)
    ensures Under(v, g, i, c, r) <==>
              g[i] <= c
              && (r.Go? ==> Under(v, g, Dest(v, i, r.d), c + EnterCost(v, Dest(v, i, r.d), r.d), r.rest))
  {
    hide CanStep, Dest, EnterCost, View.Valid;
  }

  /** One more step, to a tile that is dearer than the whole, comes to a new tile. */
  lemma {:induction false} StepIsNew(v: View, g: seq<nat>, i: nat, c: nat, r: Route, d: nat)
    requires v.Valid() && i < v.N() == |g| && Simple(v, i, r) && Under(v, g, i, c, r) && CanStep(v, End(v, i, r), d)
    requires c + Cost(v, i, r) < g[Dest(v, End(v, i, r), d)]
    ensures Simple(v, i, Append(r, Go(d, Stop)))
    ensures Tiles(v, i, Append(r, Go(d, Stop))) == Tiles(v, i, r) + [Dest(v, End(v, i, r), d)]
    ensures i != Dest(v, End(v, i, r), d)
    decreases r
  {
    hide CanStep, Dest, EnterCost, View.Valid;
    match r
    case Stop =>
      NewStep(v, i, d);
    case Go(k, rest) =>
      var j := Dest(v, i, k);
      StepIsNew(v, g, j, c + EnterCost(v, j, k), rest, d);
      var more := Append(rest, Go(d, Stop));
      assert Append(r, Go(d, Stop)) == Go(k, more) && Legal(v, j, more);
      assert Tiles(v, i, Go(k, more)) == [j] + Tiles(v, j, more);
  }

  lemma NewStep(v: View, i: nat, d: nat)
    requires v.Valid() && i < v.N() && CanStep(v, i, d) && Dest(v, i, d) != i
    ensures Simple(v, i, Go(d, Stop)) && Tiles(v, i, Go(d, Stop)) == [Dest(v, i, d)]
    ensures Append(Stop, Go(d, Stop)) == Go(d, Stop)
  {
    hide CanStep, Dest, View.Valid;
    assert Legal(v, Dest(v, i, d), Stop) && Tiles(v, Dest(v, i, d), Stop) == [] && Simple(v, Dest(v, i, d), Stop);
    assert Tiles(v, i, Go(d, Stop)) == [Dest(v, i, d)] + Tiles(v, Dest(v, i, d), Stop);
  }

  lemma {:induction false} StepIsUnder(v: View, g: seq<nat>, i: nat, c: nat, r: Route, d: nat)
    requires v.Valid() && i < v.N() == |g| && Legal(v, i, r) && Under(v, g, i, c, r) && CanStep(v, End(v, i, r), d)
    requires var u := Dest(v, End(v, i, r), d); g[u] <= c + Cost(v, i, r) + EnterCost(v, u, d)
    ensures Legal(v, i, Append(r, Go(d, Stop))) && Under(v, g, i, c, Append(r, Go(d, Stop)))
    decreases r
  {
    hide CanStep, Dest, EnterCost, View.Valid, Under;
    UnderAt(v, g, i, c, r);
    match r
    case Stop =>
      UnderAt(v, g, i, c, Go(d, Stop));
      UnderAt(v, g, Dest(v, i, d), c + EnterCost(v, Dest(v, i, d), d), Stop);
    case Go(k, rest) =>
      var j := Dest(v, i, k);
      StepIsUnder(v, g, j, c + EnterCost(v, j, k), rest, d);
      UnderAt(v, g, i, c, Go(k, Append(rest, Go(d, Stop))));
  }

  lemma ImprovedBacked(v: View, q: Query, s: State, cur: nat, d: nat, t: State)
    requires Ready(v, q) && Shaped(v, q, s) && Shaped(v, q, t) && cur < v.N() && CanStep(v, cur, d)
    requires Improved(v, q, s, cur, d, t) && Backed(v, q, s.g) && s.g[cur] < G_INFINITE
    ensures Backed(v, q, t.g)
  {
    hide CanStep, Dest, EnterCost, F, Backs, Improved;
    ImprovedFrame(v, q, s, cur, d, t);
    forall u: nat | u < v.N() && t.g[u] < G_INFINITE ensures exists r: Route :: Backs(v, q, t.g, u, r) {
      if u == Dest(v, cur, d) {
        var r: Route :| Backs(v, q, s.g, cur, r);
        ImprovedBacks(v, q, s, cur, d, t, r);
      } else {
        var r: Route :| Backs(v, q, s.g, u, r);
        BacksLower(v, q, s.g, t.g, u, r);
      }
    }
  }

  lemma BacksLower(v: View, q: Query, g: seq<nat>, h: seq<nat>, u: nat, r: Route)
    requires Ready(v, q) && u < v.N() == |g| == |h| && Backs(v, q, g, u, r)
    requires h[u] == g[u] && forall i: nat | i < v.N() :: h[i] <= g[i]
    ensures Backs(v, q, h, u, r)
  {
    hide Simple, Legal, Cost, End, Under;
    UnderLower(v, g, h, q.start, 0, r);
  }

  lemma ImprovedBacks(v: View, q: Query, s: State, cur: nat, d: nat, t: State, r: Route)
    requires Ready(v, q) && Shaped(v, q, s) && Shaped(v, q, t) && cur < v.N() && CanStep(v, cur, d)
    requires Improved(v, q, s, cur, d, t) && Backs(v, q, s.g, cur, r)
    ensures Backs(v, q, t.g, Dest(v, cur, d), Append(r, Go(d, Stop)))
  {
    ImprovedFrame(v, q, s, cur, d, t);
    hide CanStep, Dest, F, Simple, Legal, Cost, End, Under, Append;
    OneStep(v, cur, d);
    AppendConnects(v, q.start, r, Go(d, Stop));
    StepIsNew(v, s.g, q.start, 0, r, d);
    UnderLower(v, s.g, t.g, q.start, 0, r);
    StepIsUnder(v, t.g, q.start, 0, r, d);
  }

  lemma OneStep(v: View, i: nat, d: nat)
    requires v.Valid() && i < v.N() && CanStep(v, i, d)
    ensures Connects(v, i, Go(d, Stop), Dest(v, i, d)) && Cost(v, i, Go(d, Stop)) == EnterCost(v, Dest(v, i, d), d)
  {
  }

  // ---------- steps beyond the cap ----------

  /** A step too far: the route keeps within the cap and comes to no tile twice, one more step exceeds the cap.  With
      `least` nothing cheaper leads where the route ends. */
  ghost predicate Oversteps(v: View, q: Query, r: Route, d: nat, least: bool)
    requires Ready(v, q)
  {
    && Simple(v, q.start, r) && CanStep(v, End(v, q.start, r), d)
    && var w := Dest(v, End(v, q.start, r), d);
    && Cost(v, q.start, r) <= q.maxCost < Cost(v, q.start, r) + EnterCost(v, w, d)
    && (least ==> forall o: Route | Connects(v, q.start, o, End(v, q.start, r)) ::
          Cost(v, q.start, r) <= Cost(v, q.start, o))
  }

  ghost predicate Beyond(v: View, q: Query, least: bool)
    requires Ready(v, q)
  {
    exists r: Route, d: nat :: Oversteps(v, q, r, d, least)
  }

  /** Unless the cap has cut a step, no reached tile that is dealt with has one that exceeds it. */
  ghost predicate Fits(v: View, q: Query, s: State, cur: nat, k: nat)
    requires Ready(v, q) && Shaped(v, q, s)
  {
    !s.pruned ==>
      forall u: nat, d: nat | u < v.N() && s.g[u] < G_INFINITE && CanStep(v, u, d) ::
        Pending(v, q, s, u) || s.g[u] + EnterCost(v, Dest(v, u, d), d) <= q.maxCost || (u == cur && d >= k)
  }

  /** What is known of the cap so far; `least` if tiles are only ever expanded at their least cost. */
  ghost predicate CapBooks(v: View, q: Query, s: State, cur: nat, k: nat, least: bool)
    requires Ready(v, q) && Shaped(v, q, s)
  {
    Backed(v, q, s.g) && (s.pruned ==> Beyond(v, q, least)) && Fits(v, q, s, cur, k)
  }

  lemma PruneOversteps(v: View, q: Query, s: State, cur: nat, d: nat, least: bool)
    requires Ready(v, q) && Shaped(v, q, s) && cur < v.N() && CanStep(v, cur, d) && Backed(v, q, s.g)
    requires s.g[cur] <= q.maxCost < s.g[cur] + EnterCost(v, Dest(v, cur, d), d) && s.g[cur] < G_INFINITE
    requires least ==> Final(v, q, s, cur)
    ensures Beyond(v, q, least)
  {
    hide CanStep, Dest, EnterCost, Simple, Legal, Cost, End, Under;
    var r: Route :| Backs(v, q, s.g, cur, r);
    assert Oversteps(v, q, r, d, least);
  }

  lemma ImprovedFits(v: View, q: Query, s: State, cur: nat, d: nat, t: State)
    requires Ready(v, q) && Shaped(v, q, s) && Shaped(v, q, t) && cur < v.N() && CanStep(v, cur, d)
    requires Improved(v, q, s, cur, d, t) && Fits(v, q, s, cur, d)
    ensures Fits(v, q, t, cur, d + 1)
  {
    hide CanStep, Dest, EnterCost, F, Pending;
    ImprovedFrame(v, q, s, cur, d, t);
    if !t.pruned {
      forall u: nat, k: nat | u < v.N() && t.g[u] < G_INFINITE && CanStep(v, u, k)
        ensures Pending(v, q, t, u) || t.g[u] + EnterCost(v, Dest(v, u, k), k) <= q.maxCost || (u == cur && k >= d + 1)
      {
        if u != Dest(v, cur, d) {
          assert Pending(v, q, s, u) || s.g[u] + EnterCost(v, Dest(v, u, k), k) <= q.maxCost || (u == cur && k >= d);
        }
      }
    }
  }

  lemma RelaxKeepsCap(v: View, q: Query, s: State, cur: nat, d: nat, least: bool)
    requires Ready(v, q) && Shaped(v, q, s) && cur < v.N() && d < v.Dirs() && s.g[cur] < G_INFINITE
    requires CapBooks(v, q, s, cur, d, least) && s.g[cur] <= q.maxCost && (least ==> Final(v, q, s, cur))
    ensures var t := Relax(v, q, s, cur, s.g[cur], d);
            CapBooks(v, q, t, cur, d + 1, least) && t.g[cur] == s.g[cur]
  {
    hide CanStep, Dest, EnterCost, F, Backed, Beyond, Fits, Final;
    RelaxTurns(v, q, s, cur, d);
    var t := Relax(v, q, s, cur, s.g[cur], d);
    if t.pruned && !s.pruned {
      PruneOversteps(v, q, s, cur, d, least);
      assert Fits(v, q, t, cur, d + 1) by { PrunedFits(v, q, t, cur, d + 1); }
    } else if CanStep(v, cur, d) && Improved(v, q, s, cur, d, t) {
      ImprovedHere(v, q, s, cur, d, t);
      ImprovedBacked(v, q, s, cur, d, t);
      ImprovedFits(v, q, s, cur, d, t);
    } else {
      UnchangedFits(v, q, s, cur, d, t);
    }
  }

  lemma PrunedFits(v: View, q: Query, t: State, cur: nat, k: nat)
    requires Ready(v, q) && Shaped(v, q, t) && t.pruned
    ensures Fits(v, q, t, cur, k)
  {
  }

  /** The three ways a step can turn out, as far as the cap is concerned. */
  lemma RelaxTurns(v: View, q: Query, s: State, cur: nat, d: nat)
    requires Ready(v, q) && Shaped(v, q, s) && cur < v.N() && d < v.Dirs()
    ensures var t := Relax(v, q, s, cur, s.g[cur], d);
            || (t == s.(pruned := true)
                && CanStep(v, cur, d) && q.maxCost < s.g[cur] + EnterCost(v, Dest(v, cur, d), d))
            || (t == s && (CanStep(v, cur, d) ==> s.g[cur] + EnterCost(v, Dest(v, cur, d), d) <= q.maxCost))
            || (CanStep(v, cur, d) && Improved(v, q, s, cur, d, t))
  {
    hide CanStep, Dest, F;
  }

  lemma UnchangedFits(v: View, q: Query, s: State, cur: nat, d: nat, t: State)
    requires Ready(v, q) && Shaped(v, q, s) && cur < v.N() && (t == s || (t == s.(pruned := true) && s.pruned))
    requires t == s && !s.pruned && CanStep(v, cur, d) ==>
               s.g[cur] + EnterCost(v, Dest(v, cur, d), d) <= q.maxCost
    requires Fits(v, q, s, cur, d)
    ensures Fits(v, q, t, cur, d + 1)
  {
    hide CanStep, Dest, EnterCost, F, Pending;
  }

  lemma {:induction false} RelaxFromKeepsCap(v: View, q: Query, s: State, cur: nat, d: nat, least: bool)
    requires Ready(v, q) && Shaped(v, q, s) && cur < v.N() && d <= v.Dirs() && s.g[cur] < G_INFINITE
    requires Booked(v, q, s) && Covered(v, q, s, cur, d) && Chained(v, q, s) && Closest(v, q, s) && Trailed(s.g)
    requires CapBooks(v, q, s, cur, d, least) && s.g[cur] <= q.maxCost && (least ==> Final(v, q, s, cur))
    ensures CapBooks(v, q, RelaxFrom(v, q, s, cur, s.g[cur], d), cur, v.Dirs(), least)
    decreases v.Dirs() - d
  {
    hide Booked, Covered, Chained, Closest, Trailed, Relax, CapBooks, Final;
    if d < v.Dirs() {
      RelaxKeeps(v, q, s, cur, d);
      RelaxKeepsCap(v, q, s, cur, d, least);
      if least {
        SameFinal(v, q, s, Relax(v, q, s, cur, s.g[cur], d), cur);
      }
      RelaxFromKeepsCap(v, q, Relax(v, q, s, cur, s.g[cur], d), cur, d + 1, least);
    }
  }

  // ---------- along a run ----------

  /** Tiles are only expanded at their least cost. */
  predicate Exactly(v: View, q: Query)
    requires v.Valid()
  {
    Sound(v) && q.eps == Q_ONE
  }

  lemma InitCap(v: View, q: Query, least: bool)
    requires Ready(v, q)
    ensures CapBooks(v, q, Init(v, q), 0, 8, least)
  {
    var s := Init(v, q);
    hide CanStep, Dest, EnterCost, F, H;
    assert Backs(v, q, s.g, q.start, Stop);
    assert Pending(v, q, s, q.start);
  }

  lemma PopKeepsCap(v: View, q: Query, s: State, t: State, cur: nat, k: nat, least: bool)
    requires Ready(v, q) && Shaped(v, q, s) && Shaped(v, q, t) && t.g == s.g && t.pruned == s.pruned
    requires forall u: nat | u < v.N() && Pending(v, q, s, u) :: Pending(v, q, t, u) || (u == cur && k == 0)
    requires CapBooks(v, q, s, 0, 8, least)
    ensures CapBooks(v, q, t, cur, k, least)
  {
    hide CanStep, Dest, EnterCost, Pending, Backed, Beyond;
    if !t.pruned {
      forall u: nat, d: nat | u < v.N() && t.g[u] < G_INFINITE && CanStep(v, u, d)
        ensures Pending(v, q, t, u) || t.g[u] + EnterCost(v, Dest(v, u, d), d) <= q.maxCost || (u == cur && d >= k)
      {
        DirectionBelow(v, u, d);
        assert Pending(v, q, s, u) || s.g[u] + EnterCost(v, Dest(v, u, d), d) <= q.maxCost;
      }
    }
  }

  lemma PendingAfterPop(v: View, q: Query, s: State, t: State, e: Entry, u: nat)
    requires Ready(v, q) && Shaped(v, q, s) && Shaped(v, q, t) && t.g == s.g && t.open == s.open - multiset{e}
    requires u < v.N() && Pending(v, q, s, u) && (e.idx != u || e.g != s.g[u])
    ensures Pending(v, q, t, u)
  {
    hide F;
  }

  lemma AllDirectionsFit(v: View, q: Query, s: State, cur: nat, least: bool)
    requires Ready(v, q) && Shaped(v, q, s) && cur < v.N() && CapBooks(v, q, s, cur, v.Dirs(), least)
    ensures CapBooks(v, q, s, 0, 8, least)
  {
    hide Dest, EnterCost, F, Pending, Backed, Beyond, InBounds, CornerForbidden;
  }

  lemma ExpandKeepsCap(v: View, q: Query, s: State)
    requires Ready(v, q) && Shaped(v, q, s) && s.open != multiset{} && First(s.open).idx < v.N()
    requires !Stale(s, First(s.open)) && Inv(v, q, s) && First(s.open).idx != q.goal
    requires CapBooks(v, q, s, 0, 8, Exactly(v, q))
    ensures CapBooks(v, q, Expanded(v, q, s), 0, 8, Exactly(v, q))
  {
    hide Covered, Chained, Closest, Trailed, RelaxFrom, CapBooks, Final, Settle, Popped, Sound, F, H, Pending;
    var e := First(s.open);
    if Exactly(v, q) {
      PoppedIsFinal(v, q, s);
    }
    SettleKeeps(v, q, s, e);
    LiveFits(v, q, s, e);
    hide Booked;
    var t := Settle(v, q, Popped(s), e);
    SettledOpen(v, q, s, e);
    forall u: nat | u < v.N() && Pending(v, q, s, u) ensures Pending(v, q, t, u) || u == e.idx {
      if u != e.idx {
        PendingAfterPop(v, q, s, t, e, u);
      }
    }
    PopKeepsCap(v, q, s, t, e.idx, 0, Exactly(v, q));
    if Exactly(v, q) {
      SameFinal(v, q, s, t, e.idx);
    }
    RelaxFromKeepsCap(v, q, t, e.idx, 0, Exactly(v, q));
    AllDirectionsFit(v, q, Expanded(v, q, s), e.idx, Exactly(v, q));
  }

  lemma LiveFits(v: View, q: Query, s: State, e: Entry)
    requires Ready(v, q) && Shaped(v, q, s) && e in s.open && e.idx < v.N() && !Stale(s, e) && Booked(v, q, s)
    ensures e.g == s.g[e.idx] <= q.maxCost && s.g[e.idx] < G_INFINITE
  {
  }

  lemma SettledOpen(v: View, q: Query, s: State, e: Entry)
    requires Ready(v, q) && s.open != multiset{} && e == First(s.open) && e.idx < v.N() && Shaped(v, q, Popped(s))
    ensures var t := Settle(v, q, Popped(s), e);
            t.g == s.g && t.open == s.open - multiset{e} && t.pruned == s.pruned && Shaped(v, q, t)
  {
    hide H;
  }

  lemma StaleKeepsCap(v: View, q: Query, s: State, least: bool)
    requires Ready(v, q) && Shaped(v, q, s) && s.open != multiset{} && First(s.open).idx < v.N()
    requires Stale(s, First(s.open)) && CapBooks(v, q, s, 0, 8, least) && Shaped(v, q, Popped(s))
    ensures CapBooks(v, q, Popped(s), 0, 8, least)
  {
    hide F, CapBooks, Pending;
    forall u: nat | u < v.N() && Pending(v, q, s, u) ensures Pending(v, q, Popped(s), u) {
      PendingAfterPop(v, q, s, Popped(s), First(s.open), u);
    }
    PopKeepsCap(v, q, s, Popped(s), 0, 8, least);
  }

  lemma {:induction false} RunKeepsCap(v: View, q: Query, s: State)
    requires Ready(v, q) && Shaped(v, q, s) && Inv(v, q, s) && CapBooks(v, q, s, 0, 8, Exactly(v, q))
    ensures CapBooks(v, q, Run(v, q, s).last, 0, 8, Exactly(v, q))
    decreases Sum(s.g), |s.open|
  {
    hide Inv, Expanded, CapBooks, Exactly;
    if s.open != multiset{} {
      var e := First(s.open);
      if SearchMachine.Stale(s, e) {
        StalePopKeeps(v, q, s);
        StaleKeepsCap(v, q, s, Exactly(v, q));
        RunKeepsCap(v, q, Popped(s));
      } else if e.idx != q.goal && s.expansions < q.maxExpansions {
        ExpandKeeps(v, q, s);
        ExpandKeepsCap(v, q, s);
        RunKeepsCap(v, q, Expanded(v, q, s));
      }
    }
  }

  // ---------- what that says of a search that ran dry ----------

  lemma SearchCap(v: View, q: Query)
    requires Ready(v, q)
    ensures CapBooks(v, q, Search(v, q).last, 0, 8, Exactly(v, q))
  {
    hide Inv, Run, CapBooks, Exactly;
    InitHolds(v, q);
    InitCap(v, q, Exactly(v, q));
    RunKeepsCap(v, q, Init(v, q));
  }

  /** The cap is blamed only if some route within it could have been taken one step too far. */
  lemma BlamedMeansBeyond(v: View, q: Query)
    requires Ready(v, q) && Search(v, q).last.pruned
    ensures Beyond(v, q, false) && (Exactly(v, q) ==> Beyond(v, q, true))
  {
    hide Search, Backed, Fits, Oversteps, Exactly;
    SearchCap(v, q);
    if Exactly(v, q) {
      var r: Route, d: nat :| Oversteps(v, q, r, d, true);
      LeastOrNot(v, q, r, d);
    }
  }

  lemma LeastOrNot(v: View, q: Query, r: Route, d: nat)
    requires Ready(v, q) && Oversteps(v, q, r, d, true)
    ensures Oversteps(v, q, r, d, false)
  {
    hide Simple, Cost;
  }

  /** And a dry search does blame it if some tile, at its least cost, has a step that exceeds it. */
  lemma BeyondMeansBlamed(v: View, q: Query)
    requires Ready(v, q) && Search(v, q).stop == Exhausted && Beyond(v, q, true)
    ensures Search(v, q).last.pruned
  {
    SearchHolds(v, q);
    SearchCap(v, q);
    var o := Search(v, q);
    hide Search, Inv, Stopped, CanStep, Dest, EnterCost, Backed, Simple;
    StopFacts(v, q, o);
    var r: Route, d: nat :| Oversteps(v, q, r, d, true);
    SimpleIsLegal(v, q.start, r);
    var u := End(v, q.start, r);
    ExhaustedExact(v, q, o.last, r);
    var p := Reachable(v, q, o.last, u);
    assert o.last.g[u] == Cost(v, q.start, r);
    NoneWaits(v, q, o.last, u);
  }

  lemma NoneWaits(v: View, q: Query, s: State, u: nat)
    requires Ready(v, q) && Shaped(v, q, s) && s.open == multiset{} && u < v.N()
    ensures !Pending(v, q, s, u)
  {
  }

  lemma SimpleIsLegal(v: View, i: nat, r: Route)
    requires v.Valid() && i < v.N() && Simple(v, i, r)
    ensures Legal(v, i, r)
  {
  }

  // ---------- no cap ----------

  ghost function TileSet(v: View, i: nat, r: Route): (s: set<nat>)
    requires v.Valid() && i < v.N() && Legal(v, i, r)
  {
    {i} + set u | u in Tiles(v, i, r)
  }

  /** A route without repeats has fewer steps than there are tiles, so it costs nowhere near 64 bits. */
  lemma {:induction false} SimpleCounts(v: View, i: nat, r: Route)
    requires v.Valid() && i < v.N() && Simple(v, i, r)
    ensures |TileSet(v, i, r)| == Length(r) + 1 && (forall u | u in TileSet(v, i, r) :: u < v.N())
    ensures Cost(v, i, r) <= Length(r) * U32_MAX
    decreases r
  {
    hide CanStep, Dest, View.Valid;
    match r
    case Stop =>
      assert TileSet(v, i, r) == {i};
    case Go(d, rest) =>
      var j := Dest(v, i, d);
      SimpleCounts(v, j, rest);
      TileSetGrows(v, i, d, rest);
  }

  lemma TileSetGrows(v: View, i: nat, d: nat, rest: Route)
    requires v.Valid() && i < v.N() && Legal(v, i, Go(d, rest)) && i !in Tiles(v, i, Go(d, rest))
    ensures var j := Dest(v, i, d);
            TileSet(v, i, Go(d, rest)) == {i} + TileSet(v, j, rest) && i !in TileSet(v, j, rest)
  {
    hide CanStep, Dest, View.Valid;
    assert Tiles(v, i, Go(d, rest)) == [Dest(v, i, d)] + Tiles(v, Dest(v, i, d), rest);
  }

  lemma SimpleIsCheap(v: View, i: nat, r: Route)
    requires v.Valid() && i < v.N() && Simple(v, i, r)
    ensures Legal(v, i, r) && Cost(v, i, r) + U32_MAX < G_INFINITE
  {
    hide Cost;
    SimpleCounts(v, i, r);
    SetBelow(TileSet(v, i, r), v.N());
    TileCount(v);
    ProductBound(Length(r), U32_MAX, 0x40_0000, U32_MAX);
  }

  lemma NothingBeyond(v: View, q: Query, r: Route, d: nat, least: bool)
    requires Ready(v, q) && q.maxCost == G_INFINITE
    ensures !Oversteps(v, q, r, d, least)
  {
    hide CanStep, Dest, Cost, Simple;
    if Simple(v, q.start, r) {
      SimpleIsCheap(v, q.start, r);
    }
  }

  /** Without a cap, or with one that no simple route exceeds, a dry search says UNREACHABLE. */
  lemma UncappedIsNotBlamed(v: View, q: Query)
    requires Ready(v, q) && q.maxCost == G_INFINITE
    ensures !Search(v, q).last.pruned
  {
    hide Search, Oversteps;
    if Search(v, q).last.pruned {
      BlamedMeansBeyond(v, q);
      var r: Route, d: nat :| Oversteps(v, q, r, d, false);
      NothingBeyond(v, q, r, d, false);
    }
  }
}
