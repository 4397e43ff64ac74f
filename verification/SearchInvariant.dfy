/** What every step of a search keeps, and what that says about each of the three ways a search can stop. */
module SearchInvariant {
  import opened FixedPoint
  import opened Grid
  import opened Heuristic
  import opened OpenList
  import opened Trails
  import opened SearchMachine

  /** `u` waits in the open list with its current tentative cost. */
  ghost predicate Pending(v: View, q: Query, s: State, u: nat)
    requires Ready(v, q) && Shaped(v, q, s) && u < v.N()
  {
    Entry(F(v, q, u, s.g[u]), s.g[u], u) in s.open
  }

  /** The step from `u` in direction `d` has nothing left to offer, as far as the cap lets it. */
  ghost predicate Relaxed(v: View, q: Query, s: State, u: nat, d: nat)
    requires Ready(v, q) && Shaped(v, q, s) && u < v.N() && CanStep(v, u, d)
  {
    var w := Dest(v, u, d);
    var c := EnterCost(v, w, d);
    s.g[u] + c <= q.maxCost || !s.pruned ==> s.g[w] <= s.g[u] + c
  }

  /** Every reached tile is pending or fully relaxed; `cur`, if being expanded, only in its first `k` directions. */
  ghost predicate Covered(v: View, q: Query, s: State, cur: nat, k: nat)
    requires Ready(v, q) && Shaped(v, q, s)
  {
    forall u: nat, d: nat | u < v.N() && s.g[u] < G_INFINITE && CanStep(v, u, d) ::
      Pending(v, q, s, u) || Relaxed(v, q, s, u, d) || (u == cur && d >= k)
  }

  /** The recorded parent is one legal step away and accounts for no more than the tentative cost. */
  ghost predicate Parented(v: View, q: Query, s: State, u: nat)
    requires Ready(v, q) && Shaped(v, q, s) && u < v.N()
  {
    && s.parent[u] > 0 && s.from[u] < v.N()
    && CanStep(v, s.from[u], s.parent[u] - 1) && Dest(v, s.from[u], s.parent[u] - 1) == u
    && s.g[s.from[u]] + EnterCost(v, u, s.parent[u] - 1) <= s.g[u]
  }

  ghost predicate Chained(v: View, q: Query, s: State)
    requires Ready(v, q) && Shaped(v, q, s)
  {
    && s.g[q.start] == 0
    && forall u | 0 <= u < v.N() && s.g[u] < G_INFINITE && u != q.start :: Parented(v, q, s, u)
  }

  predicate NotBetter(h: nat, g: nat, bestH: nat, bestG: nat) {
    bestH < h || (bestH == h && bestG <= g)
  }

  /** The closest approach so far beats every tile that has been expanded. */
  ghost predicate Closest(v: View, q: Query, s: State)
    requires Ready(v, q) && Shaped(v, q, s)
  {
    && s.bestH == H(v, s.bestIdx, q.goal) && s.g[s.bestIdx] <= s.bestG < G_INFINITE
    && forall u | 0 <= u < v.N() && s.g[u] < G_INFINITE ::
         Pending(v, q, s, u) || NotBetter(H(v, u, q.goal), s.g[u], s.bestH, s.bestG)
  }

  ghost predicate Booked(v: View, q: Query, s: State)
    requires Ready(v, q) && Shaped(v, q, s)
  {
    && (forall e | e in s.open :: e.f == F(v, q, e.idx, e.g))
    && (forall u | 0 <= u < v.N() && s.g[u] < G_INFINITE :: s.g[u] <= q.maxCost)
    && (s.g[q.goal] < G_INFINITE ==> Pending(v, q, s, q.goal))
  }

  ghost predicate Inv(v: View, q: Query, s: State)
    requires Ready(v, q) && Shaped(v, q, s)
  {
    Booked(v, q, s) && Covered(v, q, s, 0, 8) && Chained(v, q, s) && Closest(v, q, s) && Trailed(s.g)
  }

  // ---------- the invariant holds along every run ----------

  lemma InitHolds(v: View, q: Query)
    requires Ready(v, q)
    ensures Inv(v, q, Init(v, q))
  {
    var s := Init(v, q);
    assert Pending(v, q, s, q.start);
    StartTrailed(s.g, q.start);
    forall u | 0 <= u < v.N() && s.g[u] < G_INFINITE ensures u == q.start {
    }
  }

  /** `t` is `s` after the step from `cur` in direction `d` lowered its target. */
  ghost predicate Improved(v: View, q: Query, s: State, cur: nat, d: nat, t: State)
    requires Ready(v, q) && Shaped(v, q, s) && Shaped(v, q, t) && cur < v.N() && CanStep(v, cur, d)
  {
    var nb := Dest(v, cur, d);
    var ng := s.g[cur] + EnterCost(v, nb, d);
    && s.g[cur] < ng < s.g[nb] && ng <= q.maxCost
    && t.g == s.g[nb := ng] && t.parent == s.parent[nb := d + 1] && t.from == s.from[nb := cur]
    && t.open == s.open + multiset{Entry(F(v, q, nb, ng), ng, nb)}
    && t.bestH == s.bestH && t.bestG == s.bestG && t.bestIdx == s.bestIdx && t.pruned == s.pruned
  }

  lemma ImprovedFrame(v: View, q: Query, s: State, cur: nat, d: nat, t: State)
    requires Ready(v, q) && Shaped(v, q, s) && Shaped(v, q, t) && cur < v.N() && CanStep(v, cur, d)
    requires Improved(v, q, s, cur, d, t)
    ensures forall u: nat | u < v.N() :: t.g[u] <= s.g[u]
    ensures forall u: nat | u < v.N() && u != Dest(v, cur, d) ::
              t.g[u] == s.g[u] && t.from[u] == s.from[u] && t.parent[u] == s.parent[u] &&
              (Pending(v, q, s, u) ==> Pending(v, q, t, u))
    ensures Pending(v, q, t, Dest(v, cur, d))
  {
    hide CanStep, Dest, EnterCost, F;
  }

  lemma ImprovedBooked(v: View, q: Query, s: State, cur: nat, d: nat, t: State)
    requires Ready(v, q) && Shaped(v, q, s) && Shaped(v, q, t) && cur < v.N() && CanStep(v, cur, d)
    requires Improved(v, q, s, cur, d, t) && Booked(v, q, s)
    ensures Booked(v, q, t)
  {
    hide CanStep, Dest, EnterCost, F;
    ImprovedFrame(v, q, s, cur, d, t);
  }

  lemma ImprovedRelaxed(v: View, q: Query, s: State, cur: nat, d: nat, t: State, u: nat, k: nat)
    requires Ready(v, q) && Shaped(v, q, s) && Shaped(v, q, t) && cur < v.N() && CanStep(v, cur, d)
    requires Improved(v, q, s, cur, d, t) && u < v.N() && u != Dest(v, cur, d) && CanStep(v, u, k)
    requires Relaxed(v, q, s, u, k)
    ensures Relaxed(v, q, t, u, k)
  {
    hide CanStep, Dest, EnterCost, F, Pending;
    ImprovedFrame(v, q, s, cur, d, t);
  }

  lemma ImprovedCovered(v: View, q: Query, s: State, cur: nat, d: nat, t: State)
    requires Ready(v, q) && Shaped(v, q, s) && Shaped(v, q, t) && cur < v.N() && CanStep(v, cur, d)
    requires Improved(v, q, s, cur, d, t) && Covered(v, q, s, cur, d)
    ensures Covered(v, q, t, cur, d + 1)
  {
    hide CanStep, Dest, EnterCost, F, Pending, Relaxed, Improved;
    ImprovedFrame(v, q, s, cur, d, t);
    ImprovedHere(v, q, s, cur, d, t);
    forall u: nat, k: nat | u < v.N() && t.g[u] < G_INFINITE && CanStep(v, u, k)
      ensures Pending(v, q, t, u) || Relaxed(v, q, t, u, k) || (u == cur && k >= d + 1)
    {
      if u != Dest(v, cur, d) && Relaxed(v, q, s, u, k) {
        ImprovedRelaxed(v, q, s, cur, d, t, u, k);
      }
    }
  }

  lemma ImprovedHere(v: View, q: Query, s: State, cur: nat, d: nat, t: State)
    requires Ready(v, q) && Shaped(v, q, s) && Shaped(v, q, t) && cur < v.N() && CanStep(v, cur, d)
    requires Improved(v, q, s, cur, d, t)
    ensures Relaxed(v, q, t, cur, d) && cur != Dest(v, cur, d) && t.g[cur] == s.g[cur]
    ensures t.g[Dest(v, cur, d)] <= q.maxCost
    ensures Parented(v, q, t, Dest(v, cur, d))
  {
    hide CanStep, Dest, F;
  }

  lemma ImprovedParented(v: View, q: Query, s: State, cur: nat, d: nat, t: State, u: nat)
    requires Ready(v, q) && Shaped(v, q, s) && Shaped(v, q, t) && cur < v.N() && CanStep(v, cur, d)
    requires Improved(v, q, s, cur, d, t) && u < v.N() && u != Dest(v, cur, d) && Parented(v, q, s, u)
    ensures Parented(v, q, t, u)
  {
    hide CanStep, Dest, EnterCost, F, Pending;
    ImprovedFrame(v, q, s, cur, d, t);
  }

  lemma ImprovedChained(v: View, q: Query, s: State, cur: nat, d: nat, t: State)
    requires Ready(v, q) && Shaped(v, q, s) && Shaped(v, q, t) && cur < v.N() && CanStep(v, cur, d)
    requires Improved(v, q, s, cur, d, t) && Chained(v, q, s)
    ensures Chained(v, q, t)
  {
    hide CanStep, Dest, EnterCost, F, Pending, Parented, Improved;
    ImprovedFrame(v, q, s, cur, d, t);
    ImprovedHere(v, q, s, cur, d, t);
    forall u: nat | u < v.N() && t.g[u] < G_INFINITE && u != q.start ensures Parented(v, q, t, u) {
      if u != Dest(v, cur, d) {
        ImprovedParented(v, q, s, cur, d, t, u);
      }
    }
  }

  lemma ImprovedClosest(v: View, q: Query, s: State, cur: nat, d: nat, t: State)
    requires Ready(v, q) && Shaped(v, q, s) && Shaped(v, q, t) && cur < v.N() && CanStep(v, cur, d)
    requires Improved(v, q, s, cur, d, t) && Closest(v, q, s)
    ensures Closest(v, q, t)
  {
    hide CanStep, Dest, EnterCost, F, Pending, H;
    ImprovedFrame(v, q, s, cur, d, t);
  }

  lemma RelaxCases(v: View, q: Query, s: State, cur: nat, d: nat)
    requires Ready(v, q) && Shaped(v, q, s) && cur < v.N() && d < v.Dirs()
    ensures var t := Relax(v, q, s, cur, s.g[cur], d);
            || ((t == s || t == s.(pruned := true)) && (CanStep(v, cur, d) ==> Relaxed(v, q, t, cur, d)))
            || (CanStep(v, cur, d) && Improved(v, q, s, cur, d, t))
  {
    hide CanStep, Dest, F;
  }

  lemma RelaxKeeps(v: View, q: Query, s: State, cur: nat, d: nat)
    requires Ready(v, q) && Shaped(v, q, s) && cur < v.N() && d < v.Dirs()
    requires Booked(v, q, s) && Covered(v, q, s, cur, d) && Chained(v, q, s) && Closest(v, q, s) && Trailed(s.g)
    requires s.g[cur] < G_INFINITE
    ensures var t := Relax(v, q, s, cur, s.g[cur], d);
            && t.g[cur] == s.g[cur]
            && Booked(v, q, t) && Covered(v, q, t, cur, d + 1) && Chained(v, q, t) && Closest(v, q, t) && Trailed(t.g)
  {
    hide CanStep, Dest, EnterCost, F, H, Relax, Relaxed, Booked, Covered, Chained, Closest, Trailed, Improved;
    RelaxCases(v, q, s, cur, d);
    var t := Relax(v, q, s, cur, s.g[cur], d);
    if !(CanStep(v, cur, d) && Improved(v, q, s, cur, d, t)) {
      UnchangedKeeps(v, q, s, cur, d, t);
    } else {
      ImprovedBooked(v, q, s, cur, d, t);
      ImprovedCovered(v, q, s, cur, d, t);
      ImprovedChained(v, q, s, cur, d, t);
      ImprovedClosest(v, q, s, cur, d, t);
      ImprovedTrailed(v, q, s, cur, d, t);
    }
  }

  lemma ImprovedTrailed(v: View, q: Query, s: State, cur: nat, d: nat, t: State)
    requires Ready(v, q) && Shaped(v, q, s) && Shaped(v, q, t) && cur < v.N() && CanStep(v, cur, d)
    requires Improved(v, q, s, cur, d, t) && Trailed(s.g)
    ensures Trailed(t.g) && t.g[cur] == s.g[cur]
  {
    hide CanStep, Dest, F, Trailed;
    LowerKeepsTrails(s.g, cur, Dest(v, cur, d), EnterCost(v, Dest(v, cur, d), d));
  }

  lemma SameParented(v: View, q: Query, s: State, t: State, u: nat)
    requires Ready(v, q) && Shaped(v, q, s) && Shaped(v, q, t) && u < v.N()
    requires t.g == s.g && t.parent == s.parent && t.from == s.from
    requires Parented(v, q, s, u)
    ensures Parented(v, q, t, u)
  {
    hide CanStep, Dest, EnterCost;
  }

  lemma SameChained(v: View, q: Query, s: State, t: State)
    requires Ready(v, q) && Shaped(v, q, s) && Shaped(v, q, t) && Chained(v, q, s)
    requires t.g == s.g && t.parent == s.parent && t.from == s.from
    ensures Chained(v, q, t)
  {
    hide Parented;
    forall u: nat | u < v.N() && t.g[u] < G_INFINITE && u != q.start ensures Parented(v, q, t, u) {
      SameParented(v, q, s, t, u);
    }
  }

  /** Setting the flag only weakens what `Relaxed` asks. */
  lemma UnchangedKeeps(v: View, q: Query, s: State, cur: nat, d: nat, t: State)
    requires Ready(v, q) && Shaped(v, q, s) && cur < v.N() && d < v.Dirs()
    requires Booked(v, q, s) && Covered(v, q, s, cur, d) && Chained(v, q, s) && Closest(v, q, s)
    requires t == s || t == s.(pruned := true)
    requires CanStep(v, cur, d) ==> Relaxed(v, q, t, cur, d)
    ensures Booked(v, q, t) && Covered(v, q, t, cur, d + 1) && Chained(v, q, t) && Closest(v, q, t)
  {
    hide CanStep, Dest, EnterCost, F, H;
    forall u: nat | u < v.N() ensures Pending(v, q, t, u) <==> Pending(v, q, s, u) {
    }
    SameChained(v, q, s, t);
    forall u: nat, k: nat | u < v.N() && CanStep(v, u, k) && Relaxed(v, q, s, u, k) ensures Relaxed(v, q, t, u, k) {
    }
    hide Relaxed, Pending, Chained;
  }

  /** Relaxing every direction of an expanded tile leaves no special tile behind. */
  lemma {:induction false} RelaxFromKeeps(v: View, q: Query, s: State, cur: nat, d: nat)
    requires Ready(v, q) && Shaped(v, q, s) && cur < v.N() && d <= v.Dirs()
    requires Booked(v, q, s) && Covered(v, q, s, cur, d) && Chained(v, q, s) && Closest(v, q, s) && Trailed(s.g)
    requires s.g[cur] < G_INFINITE
    ensures Inv(v, q, RelaxFrom(v, q, s, cur, s.g[cur], d))
    decreases v.Dirs() - d
  {
    hide Booked, Covered, Chained, Closest, Trailed, Relax;
    if d < v.Dirs() {
      RelaxKeeps(v, q, s, cur, d);
      RelaxFromKeeps(v, q, Relax(v, q, s, cur, s.g[cur], d), cur, d + 1);
    } else {
      AllDirectionsCovered(v, q, s, cur);
    }
  }

  lemma AllDirectionsCovered(v: View, q: Query, s: State, cur: nat)
    requires Ready(v, q) && Shaped(v, q, s) && cur < v.N() && Covered(v, q, s, cur, v.Dirs())
    ensures Covered(v, q, s, 0, 8)
  {
    hide Dest, EnterCost, F, H, Relaxed, Pending;
  }

  /** The two states agree on everything but the open list and the closest approach. */
  ghost predicate SameBooks(s: State, t: State) {
    t.g == s.g && t.parent == s.parent && t.from == s.from && t.pruned == s.pruned
  }

  lemma SameRelaxed(v: View, q: Query, s: State, t: State, u: nat, k: nat)
    requires Ready(v, q) && Shaped(v, q, s) && Shaped(v, q, t) && SameBooks(s, t)
    requires u < v.N() && CanStep(v, u, k)
    ensures Relaxed(v, q, s, u, k) <==> Relaxed(v, q, t, u, k)
  {
    hide CanStep, Dest, EnterCost;
  }

  /** Pending tiles other than `cur` carry the coverage over; `cur` starts from its first direction. */
  lemma SameCovered(v: View, q: Query, s: State, t: State, cur: nat, k: nat)
    requires Ready(v, q) && Shaped(v, q, s) && Shaped(v, q, t) && SameBooks(s, t) && Covered(v, q, s, 0, 8)
    requires forall u: nat | u < v.N() && Pending(v, q, s, u) :: Pending(v, q, t, u) || (u == cur && k == 0)
    ensures Covered(v, q, t, cur, k)
  {
    hide CanStep, Dest, EnterCost, Pending, Relaxed;
    forall u: nat, d: nat | u < v.N() && t.g[u] < G_INFINITE && CanStep(v, u, d)
      ensures Pending(v, q, t, u) || Relaxed(v, q, t, u, d) || (u == cur && d >= k)
    {
      SameRelaxed(v, q, s, t, u, d);
      DirectionBelow(v, u, d);
      assert Pending(v, q, s, u) || Relaxed(v, q, s, u, d);
    }
  }

  lemma DirectionBelow(v: View, u: nat, d: nat)
    requires v.Valid() && u < v.N() && CanStep(v, u, d)
    ensures d < 8
  {
  }

  lemma SameClosest(v: View, q: Query, s: State, t: State)
    requires Ready(v, q) && Shaped(v, q, s) && Shaped(v, q, t) && SameBooks(s, t) && Closest(v, q, s)
    requires t.bestH == s.bestH && t.bestG == s.bestG && t.bestIdx == s.bestIdx
    requires forall u: nat | u < v.N() && Pending(v, q, s, u) ::
               Pending(v, q, t, u) || NotBetter(H(v, u, q.goal), t.g[u], t.bestH, t.bestG)
    ensures Closest(v, q, t)
  {
    hide Pending, H;
  }

  lemma NewClosest(v: View, q: Query, s: State, t: State, e: Entry)
    requires Ready(v, q) && Shaped(v, q, s) && Shaped(v, q, t) && SameBooks(s, t) && Closest(v, q, s)
    requires e.idx < v.N() && e.g == s.g[e.idx] < G_INFINITE
    requires !NotBetter(H(v, e.idx, q.goal), e.g, s.bestH, s.bestG)
    requires t.bestH == H(v, e.idx, q.goal) && t.bestG == e.g && t.bestIdx == e.idx
    requires forall u: nat | u < v.N() && Pending(v, q, s, u) :: Pending(v, q, t, u) || u == e.idx
    ensures Closest(v, q, t)
  {
    hide Pending, H;
  }

  lemma SameBooked(v: View, q: Query, s: State, t: State)
    requires Ready(v, q) && Shaped(v, q, s) && Shaped(v, q, t) && SameBooks(s, t) && Booked(v, q, s)
    requires t.open <= s.open && (Pending(v, q, s, q.goal) ==> Pending(v, q, t, q.goal))
    ensures Booked(v, q, t)
  {
    hide F, Pending;
  }

  /** Dropping a stale entry loses no pending tile. */
  lemma StalePopKeeps(v: View, q: Query, s: State)
    requires Ready(v, q) && Shaped(v, q, s) && s.open != multiset{} && First(s.open).idx < v.N()
    requires Stale(s, First(s.open)) && Inv(v, q, s)
    ensures Shaped(v, q, Popped(s)) && Inv(v, q, Popped(s))
  {
    hide CanStep, Dest, EnterCost, F, H, Trailed, Booked, Covered, Chained, Closest;
    var t := Popped(s);
    assert Shaped(v, q, t);
    forall u: nat | u < v.N() ensures Pending(v, q, s, u) ==> Pending(v, q, t, u) {
    }
    hide Pending;
    SameBooked(v, q, s, t);
    SameCovered(v, q, s, t, 0, 8);
    SameChained(v, q, s, t);
    SameClosest(v, q, s, t);
  }

  /** Popping the current entry of `e.idx` and noting its approach prepares the expansion. */
  lemma SettleKeeps(v: View, q: Query, s: State, e: Entry)
    requires Ready(v, q) && Shaped(v, q, s) && s.open != multiset{} && e == First(s.open) && e.idx < v.N()
    requires !Stale(s, e) && Inv(v, q, s) && e.idx != q.goal
    ensures Shaped(v, q, Popped(s))
    ensures var t := Settle(v, q, Popped(s), e);
            && t.g == s.g && t.g[e.idx] < G_INFINITE
            && Booked(v, q, t) && Covered(v, q, t, e.idx, 0) && Chained(v, q, t) && Closest(v, q, t) && Trailed(t.g)
  {
    hide CanStep, Dest, EnterCost, F, H, Trailed, Booked, Covered, Chained, Closest;
    assert Shaped(v, q, Popped(s));
    var t := Settle(v, q, Popped(s), e);
    forall u: nat | u < v.N() && u != e.idx ensures Pending(v, q, s, u) ==> Pending(v, q, t, u) {
    }
    hide Pending;
    SameBooked(v, q, s, t);
    SameCovered(v, q, s, t, e.idx, 0);
    SameChained(v, q, s, t);
    if NotBetter(H(v, e.idx, q.goal), e.g, s.bestH, s.bestG) {
      SameClosest(v, q, s, t);
    } else {
      NewClosest(v, q, s, t, e);
    }
  }

  lemma ExpandKeeps(v: View, q: Query, s: State)
    requires Ready(v, q) && Shaped(v, q, s) && s.open != multiset{} && !Stale(s, First(s.open))
    requires Inv(v, q, s) && First(s.open).idx != q.goal
    ensures Inv(v, q, Expanded(v, q, s))
  {
    hide Booked, Covered, Chained, Closest, Trailed, RelaxFrom;
    var e := First(s.open);
    SettleKeeps(v, q, s, e);
    RelaxFromKeeps(v, q, Settle(v, q, Popped(s), e), e.idx, 0);
  }

  /** Along every run the invariant holds, up to and including the state in which the run stops. */
  lemma {:induction false} RunKeeps(v: View, q: Query, s: State)
    requires Ready(v, q) && Shaped(v, q, s) && Inv(v, q, s)
    ensures var o := Run(v, q, s); Inv(v, q, o.last) && Stopped(v, q, o)
    decreases Sum(s.g), |s.open|
  {
    hide Inv, Expanded, Popped;
    if s.open != multiset{} {
      var e := First(s.open);
      if Stale(s, e) {
        StalePopKeeps(v, q, s);
        assert Popped(s).g == s.g && |Popped(s).open| < |s.open| by { PoppedShrinks(s); }
        RunKeeps(v, q, Popped(s));
      } else if e.idx != q.goal && s.expansions < q.maxExpansions {
        ExpandKeeps(v, q, s);
        RunKeeps(v, q, Expanded(v, q, s));
      }
    }
  }

  lemma PoppedShrinks(s: State)
    requires s.open != multiset{}
    ensures Popped(s).g == s.g && |Popped(s).open| < |s.open|
  {
  }

  /** What is known of the open list where a run stops. */
  ghost predicate Stopped(v: View, q: Query, o: Outcome)
    requires Ready(v, q) && Shaped(v, q, o.last)
  {
    match o.stop
    case Exhausted => o.last.open == multiset{}
    case Reached =>
      o.last.open != multiset{} && First(o.last.open).idx == q.goal && First(o.last.open).g == o.last.g[q.goal]
    case OutOfBudget => o.last.expansions >= q.maxExpansions
  }

  lemma SearchHolds(v: View, q: Query)
    requires Ready(v, q)
    ensures var o := Search(v, q); Inv(v, q, o.last) && Stopped(v, q, o)
  {
    hide Inv, Init, Run;
    InitHolds(v, q);
    RunKeeps(v, q, Init(v, q));
  }
}
