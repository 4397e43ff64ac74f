/** Up to three expansions no search, whatever its epsilon, can leave the chain of its closest approach out of date: it
    takes a tile expanded too early, a child of it expanded, and a third tile that improves the first. */
module ShortSearch {
  import opened FixedPoint
  import opened Grid
  import opened Heuristic
  import opened OpenList
  import opened Trails
  import opened SearchMachine
  import opened SearchInvariant
  import opened SearchResults
  import opened SearchExact
  import opened SearchChains
  import opened SearchOnce

  /** Every parent is among the expanded tiles `done`, and only links from `late` ones may be out of date. */
  ghost predicate ParentsIn(v: View, q: Query, s: State, done: set<nat>, late: set<nat>)
    requires Ready(v, q) && Shaped(v, q, s)
  {
    forall u: nat | u < v.N() && s.g[u] < G_INFINITE && u != q.start ::
      s.from[u] in done && (s.from[u] !in late ==> SearchExact.ExactAt(v, q, s, u))
  }

  /** The `late` ones among the expanded tiles are those dearer than `cur`, which is being expanded. */
  ghost predicate Sorted(v: View, q: Query, s: State, done: set<nat>, late: set<nat>, cur: nat)
    requires Ready(v, q) && Shaped(v, q, s)
  {
    && cur in done && late <= done
    && (forall x | x in done :: x < v.N() && s.g[x] < G_INFINITE)
    && (forall x | x in done :: x in late <==> s.g[x] > s.g[cur])
  }

  /** Only a late tile can be improved. */
  lemma ImprovedSorted(v: View, q: Query, s: State, cur: nat, d: nat, t: State, done: set<nat>, late: set<nat>)
    requires Ready(v, q) && Shaped(v, q, s) && Shaped(v, q, t) && cur < v.N() && CanStep(v, cur, d)
    requires Improved(v, q, s, cur, d, t) && Sorted(v, q, s, done, late, cur)
    ensures Dest(v, cur, d) in done ==> Dest(v, cur, d) in late
    ensures Sorted(v, q, t, done, late, cur)
  {
    hide CanStep, Dest, F;
  }

  lemma ImprovedParents(v: View, q: Query, s: State, cur: nat, d: nat, t: State, done: set<nat>, late: set<nat>)
    requires Ready(v, q) && Shaped(v, q, s) && Shaped(v, q, t) && cur < v.N() && CanStep(v, cur, d)
    requires Improved(v, q, s, cur, d, t) && cur in done
    requires Dest(v, cur, d) in done ==> Dest(v, cur, d) in late
    requires ParentsIn(v, q, s, done, late)
    ensures ParentsIn(v, q, t, done, late)
  {
    hide CanStep, Dest, EnterCost, F, Parented;
    ImprovedHere(v, q, s, cur, d, t);
    var nb := Dest(v, cur, d);
    forall u: nat | u < v.N() && t.g[u] < G_INFINITE && u != q.start
      ensures t.from[u] in done && (t.from[u] !in late ==> SearchExact.ExactAt(v, q, t, u))
    {
      if u != nb && s.from[u] !in late {
        ExactStep(v, q, s, u);
        ImprovedParented(v, q, s, cur, d, t, u);
      }
    }
  }

  lemma SameParents(v: View, q: Query, s: State, t: State, done: set<nat>, late: set<nat>)
    requires Ready(v, q) && Shaped(v, q, s) && Shaped(v, q, t) && t.g == s.g && t.parent == s.parent && t.from == s.from
    requires ParentsIn(v, q, s, done, late)
    ensures ParentsIn(v, q, t, done, late)
    ensures forall cur | Sorted(v, q, s, done, late, cur) :: Sorted(v, q, t, done, late, cur)
  {
    hide CanStep, Dest, EnterCost, F, Parented;
    forall u: nat | u < v.N() && t.g[u] < G_INFINITE && u != q.start && t.from[u] !in late
      ensures SearchExact.ExactAt(v, q, t, u)
    {
      SameParented(v, q, s, t, u);
    }
  }

  lemma RelaxParents(v: View, q: Query, s: State, cur: nat, d: nat, done: set<nat>, late: set<nat>)
    requires Ready(v, q) && Shaped(v, q, s) && cur < v.N() && d < v.Dirs()
    requires ParentsIn(v, q, s, done, late) && Sorted(v, q, s, done, late, cur)
    ensures var t := Relax(v, q, s, cur, s.g[cur], d);
            ParentsIn(v, q, t, done, late) && Sorted(v, q, t, done, late, cur) && t.g[cur] == s.g[cur]
  {
    hide CanStep, Dest, EnterCost, F, H, Relax, Relaxed, Improved, ParentsIn, Sorted;
    RelaxCases(v, q, s, cur, d);
    SortedIn(v, q, s, done, late, cur);
    var t := Relax(v, q, s, cur, s.g[cur], d);
    if CanStep(v, cur, d) && Improved(v, q, s, cur, d, t) {
      ImprovedHere(v, q, s, cur, d, t);
      ImprovedSorted(v, q, s, cur, d, t, done, late);
      ImprovedParents(v, q, s, cur, d, t, done, late);
    } else {
      SameParents(v, q, s, t, done, late);
    }
  }

  lemma SortedIn(v: View, q: Query, s: State, done: set<nat>, late: set<nat>, cur: nat)
    requires Ready(v, q) && Shaped(v, q, s) && Sorted(v, q, s, done, late, cur)
    ensures cur in done && cur < v.N() && s.g[cur] < G_INFINITE
  {
  }

  lemma {:induction false} RelaxFromParents(v: View, q: Query, s: State, cur: nat, d: nat, done: set<nat>,
                                            late: set<nat>)
    requires Ready(v, q) && Shaped(v, q, s) && cur < v.N() && d <= v.Dirs()
    requires ParentsIn(v, q, s, done, late) && Sorted(v, q, s, done, late, cur)
    ensures var t := RelaxFrom(v, q, s, cur, s.g[cur], d);
            && ParentsIn(v, q, t, done, late) && Sorted(v, q, t, done, late, cur)
            && t.expansions == s.expansions && t.bestIdx == s.bestIdx
    decreases v.Dirs() - d
  {
    hide Relax, ParentsIn, Sorted;
    if d < v.Dirs() {
      RelaxParents(v, q, s, cur, d, done, late);
      RelaxBest(v, q, s, cur, d);
      RelaxFromParents(v, q, Relax(v, q, s, cur, s.g[cur], d), cur, d + 1, done, late);
    }
  }

  lemma RelaxBest(v: View, q: Query, s: State, cur: nat, d: nat)
    requires Ready(v, q) && Shaped(v, q, s) && cur < v.N()
    ensures var t := Relax(v, q, s, cur, s.g[cur], d); t.expansions == s.expansions && t.bestIdx == s.bestIdx
  {
    hide Sum, CanStep, F;
  }

  // ---------- the first three expansions ----------

  /** The start is not open any more. */
  ghost predicate Away(q: Query, s: State) { forall e | e in s.open :: e.idx != q.start }

  lemma RelaxAway(v: View, q: Query, s: State, cur: nat, d: nat)
    requires Ready(v, q) && Shaped(v, q, s) && cur < v.N() && s.g[q.start] == 0 && Away(q, s)
    ensures var t := Relax(v, q, s, cur, s.g[cur], d); t.g[q.start] == 0 && Away(q, t)
    ensures s.g[cur] < G_INFINITE ==> Relax(v, q, s, cur, s.g[cur], d).g[cur] == s.g[cur]
  {
    hide Sum, CanStep, F;
  }

  lemma {:induction false} RelaxFromAway(v: View, q: Query, s: State, cur: nat, d: nat)
    requires Ready(v, q) && Shaped(v, q, s) && cur < v.N() && s.g[q.start] == 0 && Away(q, s) && s.g[cur] < G_INFINITE
    requires d <= v.Dirs()
    ensures Away(q, RelaxFrom(v, q, s, cur, s.g[cur], d))
    decreases v.Dirs() - d
  {
    hide Relax, Away;
    if d < v.Dirs() {
      RelaxAway(v, q, s, cur, d);
      RelaxFromAway(v, q, Relax(v, q, s, cur, s.g[cur], d), cur, d + 1);
    }
  }

  /** Before the third expansion every link is up to date and at most two tiles have been expanded, the start first. */
  ghost predicate Early(v: View, q: Query, s: State, done: set<nat>)
    requires Ready(v, q) && Shaped(v, q, s)
  {
    && |done| <= s.expansions <= 2 && (s.expansions > 0 ==> q.start in done)
    && (s.expansions == 0 ==> |s.open| <= 1 && forall u: nat | u < v.N() && s.g[u] < G_INFINITE :: u == q.start)
    && (s.expansions > 0 ==> Away(q, s))
    && (s.bestIdx in done || s.bestIdx == q.start)
    && (forall x | x in done :: x < v.N() && s.g[x] < G_INFINITE)
    && ParentsIn(v, q, s, done, {})
  }

  /** The chain of the closest approach accounts exactly for its cost. */
  ghost predicate Current(v: View, q: Query, s: State) {
    && Linked(v, q, s) && SearchChains.Reached(v, s, s.bestIdx)
    && forall u: nat | u in Chain(v, q, s, s.bestIdx) :: !OutOfDate(v, q, s, u)
  }

  lemma EarlyIsCurrent(v: View, q: Query, s: State, done: set<nat>)
    requires Linked(v, q, s) && Early(v, q, s, done)
    ensures Current(v, q, s)
  {
    hide CanStep, Dest, EnterCost, Chained, SearchExact.ExactAt;
    StartFree(v, q, s);
  }

  /** With three tiles expanded no expanded tile hangs on a late one: it would be a fourth. */
  lemma ParentNotLate(v: View, q: Query, s: State, done: set<nat>, late: set<nat>, cur: nat, x: nat)
    requires Linked(v, q, s) && Sorted(v, q, s, done, late, cur) && SearchChains.Reached(v, s, x) && x in done
    requires q.start in done && |done| <= 3 && (cur == q.start ==> done == {q.start})
    requires x != q.start && s.from[x] in done
    ensures s.from[x] !in late
  {
    hide CanStep, Dest, EnterCost, Chained, Chain;
    StartFree(v, q, s);
    ChainBasics(v, q, s, x);
    if s.from[x] in late {
      FourDistinct(done, q.start, cur, s.from[x], x);
    }
  }

  /** After the expansion of `cur` the chains of all expanded tiles are up to date. */
  lemma {:induction false} ExpandedChains(v: View, q: Query, s: State, done: set<nat>, late: set<nat>, cur: nat, x: nat)
    requires Linked(v, q, s) && ParentsIn(v, q, s, done, late) && Sorted(v, q, s, done, late, cur)
    requires q.start in done && |done| <= 3 && (cur == q.start ==> done == {q.start}) && x in done
    ensures SearchChains.Reached(v, s, x) && forall u: nat | u in Chain(v, q, s, x) :: !OutOfDate(v, q, s, u)
    decreases if x < |s.g| then s.g[x] else 0
  {
    hide CanStep, Dest, EnterCost, Chained, SearchExact.ExactAt, Chain;
    ChainBasics(v, q, s, x);
    if x == q.start {
      StartChain(v, q, s);
    } else {
      ParentNotLate(v, q, s, done, late, cur, x);
      ExpandedChains(v, q, s, done, late, cur, s.from[x]);
    }
  }

  lemma StartChain(v: View, q: Query, s: State)
    requires Linked(v, q, s) && SearchChains.Reached(v, s, q.start)
    ensures Chain(v, q, s, q.start) == {q.start}
  {
  }

  lemma FourDistinct(done: set<nat>, a: nat, b: nat, c: nat, d: nat)
    requires |done| <= 3 && {a, b, c, d} <= done
    ensures a == b || a == c || a == d || b == c || b == d || c == d
  {
    if a != b && a != c && a != d && b != c && b != d && c != d {
      assert |{a, b, c, d}| == 4;
      SubsetSize({a, b, c, d}, done);
    }
  }

  lemma {:induction false} SubsetSize(a: set<nat>, b: set<nat>)
    requires a <= b
    ensures |a| <= |b|
  {
    assert b == a + (b - a);
  }

  ghost function Dearer(s: State, done: set<nat>, cur: nat): set<nat>
    requires cur < |s.g| && forall x | x in done :: x < |s.g|
  {
    set x | x in done && s.g[x] > s.g[cur]
  }

  /** The tiles expanded so far, sorted against the one expanded next. */
  lemma SettleSorts(v: View, q: Query, s: State, done: set<nat>, e: Entry, t: State)
    requires Ready(v, q) && Shaped(v, q, s) && e.idx < v.N() && s.g[e.idx] < G_INFINITE
    requires Early(v, q, s, done) && Shaped(v, q, t) && t.g == s.g && t.from == s.from && t.parent == s.parent
    ensures forall x | x in done :: x < |s.g|
    ensures var late := Dearer(s, done, e.idx);
            ParentsIn(v, q, t, done + {e.idx}, late) && Sorted(v, q, t, done + {e.idx}, late, e.idx)
  {
    hide SearchExact.ExactAt;
    SameParents(v, q, s, t, done, {});
  }

  /** The first tile expanded is the start, the second leaves nothing late, and the start never comes again. */
  lemma WhoIsNext(v: View, q: Query, s: State, done: set<nat>, e: Entry)
    requires Ready(v, q) && Shaped(v, q, s) && Early(v, q, s, done) && Chained(v, q, s) && e in s.open && e.idx < v.N()
    requires s.g[e.idx] < G_INFINITE
    ensures forall x | x in done :: x < |s.g|
    ensures s.expansions == 0 ==> e.idx == q.start && done == {}
    ensures s.expansions > 0 ==> q.start in done && e.idx != q.start
    ensures s.expansions < 2 ==> Dearer(s, done, e.idx) == {}
  {
    hide ParentsIn, Parented;
    if s.expansions == 1 {
      SubsetSize({q.start}, done);
      assert done - {q.start} == {} by {
        assert |done - {q.start}| == 0;
      }
    }
  }

  lemma ExpandEarly(v: View, q: Query, s: State, done: set<nat>)
    requires Ready(v, q) && Shaped(v, q, s) && Inv(v, q, s) && Early(v, q, s, done)
    requires s.open != multiset{} && First(s.open).idx < v.N() && !Stale(s, First(s.open))
             && First(s.open).idx != q.goal
    ensures var t := Expanded(v, q, s);
            && t.expansions == s.expansions + 1
            && (s.expansions < 2 ==> Early(v, q, t, done + {First(s.open).idx}))
            && (s.expansions == 2 ==> Current(v, q, t))
  {
    hide *;
    var e := First(s.open);
    Unfolded(v, q, s);
    var t0, t := Settle(v, q, Popped(s), e), Expanded(v, q, s);
    InvLinked(v, q, s);
    ExpandKeeps(v, q, s);
    InvLinked(v, q, t);
    SettleSorts(v, q, s, done, e, t0);
    WhoIsNext(v, q, s, done, e);
    var late := Dearer(s, done, e.idx);
    RelaxFromParents(v, q, t0, e.idx, 0, done + {e.idx}, late);
    SettleFirst(v, q, s, done, e);
    RelaxFromAway(v, q, t0, e.idx, 0);
    EarlyCount(v, q, s, done);
    if s.expansions < 2 {
      EarlyAgain(v, q, s, done, t, e.idx);
    } else {
      LastIsCurrent(v, q, s, done, t, e.idx);
    }
  }

  lemma InvLinked(v: View, q: Query, s: State)
    requires Ready(v, q) && Shaped(v, q, s) && Inv(v, q, s)
    ensures Linked(v, q, s) && Chained(v, q, s)
  {
    hide Booked, Covered, Chained, Closest, Trailed;
  }

  /** An expansion settles the popped entry and relaxes all its directions. */
  lemma Unfolded(v: View, q: Query, s: State)
    requires Ready(v, q) && Shaped(v, q, s) && s.open != multiset{}
    requires First(s.open).idx < v.N() && !Stale(s, First(s.open))
    ensures var e := First(s.open);
            && e in s.open && e.idx < |s.g| && s.g[e.idx] == e.g < G_INFINITE && Shaped(v, q, Popped(s))
            && var t0 := Settle(v, q, Popped(s), e);
            && Shaped(v, q, t0) && t0.g == s.g && t0.from == s.from && t0.parent == s.parent
            && t0.expansions == s.expansions + 1 && t0.open == s.open - multiset{e}
            && (t0.bestIdx == s.bestIdx || t0.bestIdx == e.idx)
            && Expanded(v, q, s) == RelaxFrom(v, q, t0, e.idx, s.g[e.idx], 0)
            && 0 <= v.Dirs()
  {
    hide H, RelaxFrom;
  }

  lemma SettleFirst(v: View, q: Query, s: State, done: set<nat>, e: Entry)
    requires Ready(v, q) && Shaped(v, q, s) && Early(v, q, s, done) && Chained(v, q, s)
    requires e in s.open && e.idx < v.N() && Shaped(v, q, Popped(s)) && e == First(s.open)
    requires Settle(v, q, Popped(s), e).g == s.g && Settle(v, q, Popped(s), e).open == s.open - multiset{e}
    ensures var t := Settle(v, q, Popped(s), e); t.g[q.start] == 0 && Away(q, t)
  {
    hide Settle, Popped, ParentsIn, Parented;
    if s.expansions == 0 {
      assert |s.open - multiset{e}| == 0;
      assert s.open - multiset{e} == multiset{};
    }
  }

  lemma EarlyAgain(v: View, q: Query, s: State, done: set<nat>, t: State, cur: nat)
    requires Ready(v, q) && Shaped(v, q, s) && Shaped(v, q, t) && Early(v, q, s, done) && s.expansions < 2
    requires cur < v.N() && t.expansions == s.expansions + 1 && Away(q, t)
             && (t.bestIdx == s.bestIdx || t.bestIdx == cur)
    requires q.start in done + {cur}
    requires ParentsIn(v, q, t, done + {cur}, {}) && Sorted(v, q, t, done + {cur}, {}, cur)
    ensures Early(v, q, t, done + {cur})
  {
    hide ParentsIn;
  }

  lemma LastIsCurrent(v: View, q: Query, s: State, done: set<nat>, t: State, cur: nat)
    requires Ready(v, q) && Shaped(v, q, s) && Shaped(v, q, t) && Early(v, q, s, done) && s.expansions == 2
    requires Linked(v, q, t) && cur < v.N() && cur != q.start && (t.bestIdx == s.bestIdx || t.bestIdx == cur)
    requires forall x | x in done :: x < |s.g|
    requires ParentsIn(v, q, t, done + {cur}, Dearer(s, done, cur))
             && Sorted(v, q, t, done + {cur}, Dearer(s, done, cur), cur)
    ensures Current(v, q, t)
  {
    hide ParentsIn, Chain, Linked, Sorted;
    ExpandedChains(v, q, t, done + {cur}, Dearer(s, done, cur), cur, t.bestIdx);
  }

  /** Stale pops change nothing a chain uses. */
  lemma PopStays(v: View, q: Query, s: State, done: set<nat>)
    requires Ready(v, q) && Shaped(v, q, s) && s.open != multiset{} && Shaped(v, q, Popped(s)) && Early(v, q, s, done)
    ensures Early(v, q, Popped(s), done)
  {
    hide ParentsIn, View.Valid, First;
    SameParents(v, q, s, Popped(s), done, {});
  }

  lemma PopStaysCurrent(v: View, q: Query, s: State)
    requires Linked(v, q, s) && s.open != multiset{} && Linked(v, q, Popped(s)) && Current(v, q, s)
    ensures Current(v, q, Popped(s))
  {
    hide Chained, SearchExact.ExactAt, Chain, Shaped, Ready;
    var t := Popped(s);
    SameChain(v, q, s, t, s.bestIdx);
    forall u: nat | u in Chain(v, q, s, s.bestIdx) ensures !OutOfDate(v, q, t, u) {
      Ancestor(v, q, s, u, s.bestIdx);
      if u != q.start {
        SameExact(v, q, s, t, u);
      }
    }
  }

  lemma SameExact(v: View, q: Query, s: State, t: State, u: nat)
    requires Ready(v, q) && Shaped(v, q, s) && Shaped(v, q, t) && t.g == s.g && t.parent == s.parent && t.from == s.from
    requires u < v.N() && SearchExact.ExactAt(v, q, s, u)
    ensures SearchExact.ExactAt(v, q, t, u)
  {
    hide Parented;
    ExactStep(v, q, s, u);
    SameParented(v, q, s, t, u);
  }

  lemma {:induction false} RunShort(v: View, q: Query, s: State, done: set<nat>)
    requires Ready(v, q) && q.maxExpansions <= 3 && Shaped(v, q, s) && Inv(v, q, s)
    requires Early(v, q, s, done) || (s.expansions == 3 && Current(v, q, s))
    ensures Current(v, q, Run(v, q, s).last)
    decreases Sum(s.g), |s.open|
  {
    hide Booked, Covered, Chained, Closest, Trailed, Expanded, Early, Current, Sum;
    if Early(v, q, s, done) {
      EarlyIsCurrent(v, q, s, done);
      EarlyCount(v, q, s, done);
    }
    if s.open != multiset{} {
      var e := First(s.open);
      if SearchMachine.Stale(s, e) {
        StalePopKeeps(v, q, s);
        if Early(v, q, s, done) {
          PopStays(v, q, s, done);
        } else {
          PopStaysCurrent(v, q, s);
        }
        RunShort(v, q, Popped(s), done);
      } else if e.idx != q.goal && s.expansions < q.maxExpansions {
        ExpandKeeps(v, q, s);
        ExpandEarly(v, q, s, done);
        RunShort(v, q, Expanded(v, q, s), done + {e.idx});
      }
    }
  }

  lemma EarlyCount(v: View, q: Query, s: State, done: set<nat>)
    requires Ready(v, q) && Shaped(v, q, s) && Early(v, q, s, done)
    ensures s.expansions <= 2
  {
  }

  /** A search of at most three expansions spells, for its closest approach, a route that costs exactly what is
      recorded. */
  lemma ShortIsExact(v: View, q: Query)
    requires Ready(v, q) && q.maxExpansions <= 3
    ensures var s := Search(v, q).last;
            && Inv(v, q, s) && s.g[s.bestIdx] < G_INFINITE
            && Connects(v, q.start, ParentRoute(v, q, s, s.bestIdx, Route.Stop), s.bestIdx)
            && Cost(v, q.start, ParentRoute(v, q, s, s.bestIdx, Route.Stop)) == s.g[s.bestIdx]
  {
    hide Booked, Covered, Chained, Closest, Trailed, Run, Chain;
    InitHolds(v, q);
    RunKeeps(v, q, Init(v, q));
    InitEarly(v, q);
    RunShort(v, q, Init(v, q), {});
    var s := Run(v, q, Init(v, q)).last;
    ParentRouteLegal(v, q, s, s.bestIdx, Route.Stop);
    CurrentChainCost(v, q, s, s.bestIdx, Route.Stop);
  }

  lemma InitEarly(v: View, q: Query)
    requires Ready(v, q)
    ensures Early(v, q, Init(v, q), {})
  {
    hide F, H;
  }
}
