/** Why a found path costs exactly what is reported, for every epsilon.  Re-expansion can leave a tile cheaper than its
    recorded descendants account for; but such a tile is pending with a priority ahead of every pending descendant, so
    by the time the goal is popped no link of its parent chain is out of date. */
module SearchChains {
  import opened FixedPoint
  import opened Grid
  import opened Heuristic
  import opened OpenList
  import opened Trails
  import opened SearchMachine
  import opened SearchInvariant
  import opened SearchResults
  import opened SearchExact

  /** A state whose parents can be followed. */
  ghost predicate Linked(v: View, q: Query, s: State) {
    Ready(v, q) && Shaped(v, q, s) && Chained(v, q, s)
  }

  ghost predicate Reached(v: View, s: State, u: nat) {
    u < v.N() && |s.g| == v.N() && s.g[u] < G_INFINITE
  }

  /** `u` and its ancestors. */
  ghost function Chain(v: View, q: Query, s: State, u: nat): (c: set<nat>)
    requires Linked(v, q, s) && Reached(v, s, u)
    decreases s.g[u]
  {
    if u == q.start then {u}
    else
      ParentStep(v, q, s, u);
      {u} + Chain(v, q, s, s.from[u])
  }

  /** Priority of a reached tile at its current cost. */
  ghost function P(v: View, q: Query, s: State, u: nat): nat
    requires Linked(v, q, s) && Reached(v, s, u)
  {
    F(v, q, u, s.g[u])
  }

  /** Pending, or being expanded. */
  ghost predicate Live(v: View, q: Query, s: State, cur: nat, u: nat)
    requires Linked(v, q, s)
  {
    Reached(v, s, u) && (Pending(v, q, s, u) || u == cur)
  }

  /** The parent has become cheaper than the tile's cost accounts for. */
  ghost predicate OutOfDate(v: View, q: Query, s: State, u: nat)
    requires Linked(v, q, s)
  {
    Reached(v, s, u) && u != q.start && !ExactAt(v, q, s, u)
  }

  lemma ChainBasics(v: View, q: Query, s: State, u: nat)
    requires Linked(v, q, s) && Reached(v, s, u)
    ensures u in Chain(v, q, s, u) && |s.g| == |s.from| == |s.parent| == v.N()
    ensures u != q.start ==>
              && s.from[u] < v.N() && s.g[s.from[u]] < s.g[u]
              && Chain(v, q, s, u) == {u} + Chain(v, q, s, s.from[u])
  {
    hide CanStep, Dest, EnterCost, Chained;
    if u != q.start {
      ParentStep(v, q, s, u);
    }
  }

  /** Ancestors are reached, no dearer, and bring their own ancestors along. */
  lemma {:induction false} Ancestor(v: View, q: Query, s: State, a: nat, u: nat)
    requires Linked(v, q, s) && Reached(v, s, u) && a in Chain(v, q, s, u)
    ensures Reached(v, s, a) && s.g[a] <= s.g[u] && (s.g[a] == s.g[u] ==> a == u)
    ensures Chain(v, q, s, a) <= Chain(v, q, s, u)
    decreases s.g[u]
  {
    hide CanStep, Dest, EnterCost, Chained, Shaped;
    ChainBasics(v, q, s, u);
    if a != u {
      Ancestor(v, q, s, a, s.from[u]);
    }
  }

  // ---------- the invariants ----------

  /** A proper ancestor of one live tile that is no ancestor of another has a priority no later than one of theirs. */
  ghost predicate Ranked(v: View, q: Query, s: State, cur: nat, x: nat, y: nat, a: nat)
    requires Linked(v, q, s)
  {
    Live(v, q, s, cur, x) && Live(v, q, s, cur, y) && a in Chain(v, q, s, x) && a != x && a !in Chain(v, q, s, y) ==>
      Reached(v, s, a) && (P(v, q, s, x) >= P(v, q, s, a) || P(v, q, s, y) >= P(v, q, s, a))
  }

  /** The parent of an out-of-date link comes before every live tile that descends through the link. */
  ghost predicate Ahead(v: View, q: Query, s: State, cur: nat, u: nat, x: nat)
    requires Linked(v, q, s)
  {
    OutOfDate(v, q, s, u) && Live(v, q, s, cur, x) && u in Chain(v, q, s, x) ==>
      u < |s.from| && Reached(v, s, s.from[u]) && P(v, q, s, s.from[u]) < P(v, q, s, x)
  }

  ghost predicate Ordering(v: View, q: Query, s: State, cur: nat) {
    && Linked(v, q, s)
    && (forall x: nat, y: nat, a: nat :: Ranked(v, q, s, cur, x, y, a))
    && (forall u: nat, x: nat :: Ahead(v, q, s, cur, u, x))
  }

  /** While `cur` is expanded: it comes before everything live but its fresh children, and its own chain is up to
      date. */
  ghost predicate InFront(v: View, q: Query, s: State, cur: nat, y: nat)
    requires Linked(v, q, s) && Reached(v, s, cur)
  {
    Live(v, q, s, cur, y) ==>
      P(v, q, s, y) >= P(v, q, s, cur) || (y != q.start && y < |s.from| && s.from[y] == cur)
  }

  ghost predicate Fronting(v: View, q: Query, s: State, cur: nat) {
    && Ordering(v, q, s, cur) && Reached(v, s, cur)
    && (forall y: nat :: InFront(v, q, s, cur, y))
    && (forall u: nat | u in Chain(v, q, s, cur) :: !OutOfDate(v, q, s, u))
  }

  // ---------- how one improvement changes chains ----------

  /** The setting of one improvement: `t` lowers `nb` through `cur`. */
  ghost predicate Shift(v: View, q: Query, s: State, cur: nat, d: nat, t: State) {
    && Linked(v, q, s) && Linked(v, q, t) && Reached(v, s, cur)
    && CanStep(v, cur, d) && Improved(v, q, s, cur, d, t)
  }

  lemma ShiftFacts(v: View, q: Query, s: State, cur: nat, d: nat, t: State)
    requires Shift(v, q, s, cur, d, t)
    ensures var nb := Dest(v, cur, d);
            && nb < v.N() == |s.g| == |t.g| == |s.from| == |t.from| && nb != cur && nb != q.start
            && t.from[nb] == cur && Reached(v, t, nb) && t.g[nb] < s.g[nb] && !OutOfDate(v, q, t, nb)
            && (forall u: nat | u < v.N() && u != nb :: t.g[u] == s.g[u] && t.from[u] == s.from[u])
            && (forall u: nat | u < v.N() && u != nb :: Live(v, q, t, cur, u) ==> Live(v, q, s, cur, u))
            && (forall u: nat | u < v.N() && u != nb && Reached(v, s, u) :: P(v, q, t, u) == P(v, q, s, u))
            && (Reached(v, s, nb) ==> P(v, q, t, nb) < P(v, q, s, nb))
  {
    hide CanStep, Dest, EnterCost, H, Inflate;
    StartFree(v, q, s);
    ImprovedHere(v, q, s, cur, d, t);
  }

  lemma {:induction false} NotInOwnFuture(v: View, q: Query, s: State, cur: nat, d: nat, t: State)
    requires Shift(v, q, s, cur, d, t)
    ensures Dest(v, cur, d) !in Chain(v, q, s, cur)
  {
    hide CanStep, Dest, EnterCost, Chained, Chain, F;
    if Dest(v, cur, d) in Chain(v, q, s, cur) {
      Ancestor(v, q, s, Dest(v, cur, d), cur);
      assert false;
    }
  }

  /** Chains that avoid the lowered tile stay. */
  lemma {:induction false} ChainStays(v: View, q: Query, s: State, cur: nat, d: nat, t: State, u: nat)
    requires Shift(v, q, s, cur, d, t) && Reached(v, s, u) && Dest(v, cur, d) !in Chain(v, q, s, u)
    ensures Reached(v, t, u) && Chain(v, q, t, u) == Chain(v, q, s, u)
    decreases s.g[u]
  {
    hide Shift, Linked, Dest;
    ShiftLinked(v, q, s, cur, d, t);
    ShiftFacts(v, q, s, cur, d, t);
    ChainBasics(v, q, s, u);
    ChainBasics(v, q, t, u);
    if u != q.start {
      ChainStays(v, q, s, cur, d, t, s.from[u]);
    }
  }

  lemma ShiftLinked(v: View, q: Query, s: State, cur: nat, d: nat, t: State)
    requires Shift(v, q, s, cur, d, t)
    ensures Linked(v, q, s) && Linked(v, q, t) && v.Valid() && cur < v.N() && CanStep(v, cur, d) && Reached(v, s, cur)
  {
  }

  /** The chain of the lowered tile is now the one through `cur`. */
  lemma ChainOfLowered(v: View, q: Query, s: State, cur: nat, d: nat, t: State)
    requires Shift(v, q, s, cur, d, t)
    ensures Reached(v, t, Dest(v, cur, d))
    ensures Chain(v, q, t, Dest(v, cur, d)) == {Dest(v, cur, d)} + Chain(v, q, s, cur)
  {
    hide Shift, Linked, Dest;
    ShiftLinked(v, q, s, cur, d, t);
    ShiftFacts(v, q, s, cur, d, t);
    NotInOwnFuture(v, q, s, cur, d, t);
    ChainStays(v, q, s, cur, d, t, cur);
    ChainBasics(v, q, t, Dest(v, cur, d));
  }

  /** A chain through the lowered tile keeps its part below it and continues through `cur`. */
  lemma {:induction false} ChainReroutes(v: View, q: Query, s: State, cur: nat, d: nat, t: State, u: nat)
    requires Shift(v, q, s, cur, d, t) && Reached(v, s, u) && Dest(v, cur, d) in Chain(v, q, s, u)
    ensures Reached(v, t, u) && Chain(v, q, s, cur) <= Chain(v, q, t, u)
    ensures forall a | a in Chain(v, q, t, u) ::
              a in Chain(v, q, s, cur) || a == Dest(v, cur, d) || a in Chain(v, q, s, u)
    decreases s.g[u]
  {
    hide Shift, Linked, Dest;
    ShiftLinked(v, q, s, cur, d, t);
    ShiftFacts(v, q, s, cur, d, t);
    ChainOfLowered(v, q, s, cur, d, t);
    if u != Dest(v, cur, d) {
      ChainBasics(v, q, s, u);
      ChainBasics(v, q, t, u);
      ChainReroutes(v, q, s, cur, d, t, s.from[u]);
    }
  }

  // ---------- improvements keep the ordering ----------

  lemma FrontingParts(v: View, q: Query, s: State, cur: nat)
    requires Fronting(v, q, s, cur)
    ensures Linked(v, q, s) && Ordering(v, q, s, cur) && Reached(v, s, cur)
  {
  }

  /** What a live tile's ancestors outside the chain of `cur` must satisfy while `cur` is in front. */
  lemma OffChain(v: View, q: Query, s: State, cur: nat, x: nat, a: nat)
    requires Fronting(v, q, s, cur) && Linked(v, q, s) && Live(v, q, s, cur, x)
    requires a in Chain(v, q, s, x) && a != x && a !in Chain(v, q, s, cur)
    ensures Reached(v, s, a) && P(v, q, s, x) >= P(v, q, s, a)
  {
    hide Linked, Chain, P;
    assert Ranked(v, q, s, cur, x, cur, a);
    assert InFront(v, q, s, cur, x);
    ChainBasics(v, q, s, x);
  }

  /** What a live tile must satisfy against the ancestors of `cur` it does not share. */
  lemma BesideChain(v: View, q: Query, s: State, cur: nat, y: nat, a: nat)
    requires Fronting(v, q, s, cur) && Linked(v, q, s) && Live(v, q, s, cur, y)
    requires Reached(v, s, cur) && a in Chain(v, q, s, cur) && a !in Chain(v, q, s, y)
    ensures Reached(v, s, a) && P(v, q, s, y) >= P(v, q, s, a)
  {
    hide Linked, Chain, P;
    assert Ranked(v, q, s, cur, cur, y, a);
    assert InFront(v, q, s, cur, y);
    ChainBasics(v, q, s, y);
    ChainBasics(v, q, s, cur);
    assert Live(v, q, s, cur, cur);
  }

  lemma ShiftRanked(v: View, q: Query, s: State, cur: nat, d: nat, t: State, x: nat, y: nat, a: nat)
    requires Shift(v, q, s, cur, d, t) && Fronting(v, q, s, cur) && Linked(v, q, t)
    ensures Ranked(v, q, t, cur, x, y, a)
  {
    hide Shift, Linked, Dest, Chain, P, Fronting;
    ShiftLinked(v, q, s, cur, d, t);
    ShiftFacts(v, q, s, cur, d, t);
    ChainOfLowered(v, q, s, cur, d, t);
    var nb := Dest(v, cur, d);
    if Live(v, q, t, cur, x) && Live(v, q, t, cur, y) && a in Chain(v, q, t, x) && a != x && a !in Chain(v, q, t, y) {
      Ancestor(v, q, t, a, x);
      if a in Chain(v, q, s, cur) {
        if y != nb && nb in Chain(v, q, s, y) {
          ChainReroutes(v, q, s, cur, d, t, y);
        }
        NotInOwnFuture(v, q, s, cur, d, t);
        ChainStays(v, q, s, cur, d, t, y);
        BesideChain(v, q, s, cur, y, a);
      } else {
        AncestorBefore(v, q, s, cur, d, t, x, a);
        OffChain(v, q, s, cur, x, a);
      }
    }
  }

  /** A proper ancestor after the shift that is not on the chain of `cur` was one before. */
  lemma AncestorBefore(v: View, q: Query, s: State, cur: nat, d: nat, t: State, x: nat, a: nat)
    requires Shift(v, q, s, cur, d, t) && Linked(v, q, s) && Linked(v, q, t) && Reached(v, s, cur)
    requires Live(v, q, t, cur, x) && a in Chain(v, q, t, x) && a != x && a !in Chain(v, q, s, cur)
    ensures x != Dest(v, cur, d) && Live(v, q, s, cur, x) && a in Chain(v, q, s, x)
  {
    hide Shift, Linked, Dest, Chain, P;
    ShiftLinked(v, q, s, cur, d, t);
    ShiftFacts(v, q, s, cur, d, t);
    ChainOfLowered(v, q, s, cur, d, t);
    var nb := Dest(v, cur, d);
    if nb in Chain(v, q, s, x) {
      ChainReroutes(v, q, s, cur, d, t, x);
    } else {
      ChainStays(v, q, s, cur, d, t, x);
    }
  }

  lemma FrontingHas(v: View, q: Query, s: State, cur: nat, u: nat, x: nat)
    requires Fronting(v, q, s, cur) && Linked(v, q, s)
    ensures Ahead(v, q, s, cur, u, x) && (Reached(v, s, cur) && u in Chain(v, q, s, cur) ==> !OutOfDate(v, q, s, u))
  {
  }

  lemma OutOfDateParts(v: View, q: Query, s: State, u: nat)
    requires Linked(v, q, s) && OutOfDate(v, q, s, u)
    ensures Reached(v, s, u) && u < v.N() && u != q.start
  {
  }

  /** A link not touching the lowered tile is as up to date as before. */
  lemma OutOfDateBefore(v: View, q: Query, s: State, cur: nat, d: nat, t: State, u: nat)
    requires Shift(v, q, s, cur, d, t) && Linked(v, q, s) && Linked(v, q, t)
    requires v.Valid() && cur < v.N() && CanStep(v, cur, d)
    requires Reached(v, s, u) && Reached(v, t, u) && u != q.start && u != Dest(v, cur, d) && u < |s.from|
    requires s.from[u] != Dest(v, cur, d)
    ensures OutOfDate(v, q, s, u) <==> OutOfDate(v, q, t, u)
  {
    hide CanStep, Dest, EnterCost, F, Parented, Chained, Improved;
    ImprovedFrame(v, q, s, cur, d, t);
    ParentStep(v, q, s, u);
    ParentStep(v, q, t, u);
    ParentInRange(v, q, s, u);
  }

  /** A tile below the lowered one along an out-of-date link is off the chain of `cur`, and was there before. */
  lemma LinkBefore(v: View, q: Query, s: State, cur: nat, d: nat, t: State, u: nat, x: nat)
    requires Shift(v, q, s, cur, d, t) && Linked(v, q, s) && Linked(v, q, t) && Reached(v, s, cur)
    requires Live(v, q, t, cur, x) && u in Chain(v, q, t, x) && u !in Chain(v, q, s, cur) && u != Dest(v, cur, d)
    ensures x != Dest(v, cur, d) && Live(v, q, s, cur, x) && u in Chain(v, q, s, x)
  {
    hide Shift, Linked, Dest, Chain;
    ShiftLinked(v, q, s, cur, d, t);
    ShiftFacts(v, q, s, cur, d, t);
    if u == x {
      ChainBasics(v, q, s, x);
    } else {
      AncestorBefore(v, q, s, cur, d, t, x, u);
    }
  }

  lemma ShiftAhead(v: View, q: Query, s: State, cur: nat, d: nat, t: State, u: nat, x: nat)
    requires Shift(v, q, s, cur, d, t) && Fronting(v, q, s, cur) && Linked(v, q, t)
    ensures Ahead(v, q, t, cur, u, x)
  {
    hide Shift, Linked, Dest, Chain, P, Fronting, OutOfDate, Live;
    ShiftLinked(v, q, s, cur, d, t);
    ShiftFacts(v, q, s, cur, d, t);
    NotInOwnFuture(v, q, s, cur, d, t);
    var nb := Dest(v, cur, d);
    if OutOfDate(v, q, t, u) && Live(v, q, t, cur, x) {
      OutOfDateParts(v, q, t, u);
      LiveReached(v, q, t, cur, x);
      ChainBasics(v, q, t, u);
      if u in Chain(v, q, t, x) {
        if s.from[u] == nb {
          AheadThroughLowered(v, q, s, cur, d, t, u, x);
        } else {
          OutOfDateBefore(v, q, s, cur, d, t, u);
          FrontingHas(v, q, s, cur, u, x);
          LinkBefore(v, q, s, cur, d, t, u, x);
        }
      }
    }
  }

  lemma LiveReached(v: View, q: Query, s: State, cur: nat, x: nat)
    requires Linked(v, q, s) && Live(v, q, s, cur, x)
    ensures Reached(v, s, x)
  {
  }

  /** The links leaving the lowered tile go out of date; everything live below them comes later than it. */
  lemma AheadThroughLowered(v: View, q: Query, s: State, cur: nat, d: nat, t: State, u: nat, x: nat)
    requires Shift(v, q, s, cur, d, t) && Fronting(v, q, s, cur) && Linked(v, q, s) && Linked(v, q, t)
    requires Live(v, q, t, cur, x) && Reached(v, t, x) && u in Chain(v, q, t, x) && Reached(v, t, u)
    requires v.Valid() && cur < v.N() && CanStep(v, cur, d)
    requires u != Dest(v, cur, d) && u != q.start && u < |s.from| && s.from[u] == Dest(v, cur, d)
    ensures u < |t.from| && t.from[u] == Dest(v, cur, d) && Reached(v, t, Dest(v, cur, d))
    ensures P(v, q, t, Dest(v, cur, d)) < P(v, q, t, x)
  {
    hide Shift, Linked, Dest, Chain, P, Fronting, Live;
    ShiftFacts(v, q, s, cur, d, t);
    FrontingParts(v, q, s, cur);
    NotInOwnFuture(v, q, s, cur, d, t);
    ChainOfLowered(v, q, s, cur, d, t);
    var nb := Dest(v, cur, d);
    ChainBasics(v, q, t, u);
    ChainBasics(v, q, t, nb);
    Ancestor(v, q, t, u, x);
    Ancestor(v, q, t, nb, x);
    if x == nb {
      UpstreamClosed(v, q, s, cur, u);
      assert false;
    }
    AncestorBefore(v, q, s, cur, d, t, x, nb);
    OffChain(v, q, s, cur, x, nb);
    LiveReached(v, q, s, cur, x);
  }

  lemma UpstreamClosed(v: View, q: Query, s: State, cur: nat, u: nat)
    requires Linked(v, q, s) && Reached(v, s, cur) && u in Chain(v, q, s, cur) && u != q.start
    ensures u < |s.from| && s.from[u] in Chain(v, q, s, cur)
  {
    hide Chain, Linked;
    Ancestor(v, q, s, u, cur);
    ChainBasics(v, q, s, u);
    ChainBasics(v, q, s, s.from[u]);
  }

  lemma ShiftKeeps(v: View, q: Query, s: State, cur: nat, d: nat, t: State)
    requires Shift(v, q, s, cur, d, t) && Fronting(v, q, s, cur)
    ensures Fronting(v, q, t, cur)
  {
    hide Shift, Linked, Dest, Chain, P, OutOfDate, Live, Ranked, Ahead;
    ShiftLinked(v, q, s, cur, d, t);
    ShiftFacts(v, q, s, cur, d, t);
    NotInOwnFuture(v, q, s, cur, d, t);
    ChainStays(v, q, s, cur, d, t, cur);
    forall x: nat, y: nat, a: nat ensures Ranked(v, q, t, cur, x, y, a) {
      ShiftRanked(v, q, s, cur, d, t, x, y, a);
    }
    forall u: nat, x: nat ensures Ahead(v, q, t, cur, u, x) {
      ShiftAhead(v, q, s, cur, d, t, u, x);
    }
    forall u: nat | u in Chain(v, q, t, cur) ensures !OutOfDate(v, q, t, u) {
      FrontingHas(v, q, s, cur, u, cur);
      Ancestor(v, q, s, u, cur);
      Ancestor(v, q, t, u, cur);
      if u != q.start {
        UpstreamClosed(v, q, s, cur, u);
        OutOfDateBefore(v, q, s, cur, d, t, u);
      } else if OutOfDate(v, q, t, u) {
        OutOfDateParts(v, q, t, u);
      }
    }
    forall y: nat ensures InFront(v, q, t, cur, y) {
      ShiftInFront(v, q, s, cur, d, t, y);
    }
  }

  lemma ShiftInFront(v: View, q: Query, s: State, cur: nat, d: nat, t: State, y: nat)
    requires Shift(v, q, s, cur, d, t) && Fronting(v, q, s, cur) && Linked(v, q, t) && Reached(v, t, cur)
    ensures InFront(v, q, t, cur, y)
  {
    hide Shift, Linked, Dest, Chain, P, OutOfDate, Ranked, Ahead;
    ShiftLinked(v, q, s, cur, d, t);
    ShiftFacts(v, q, s, cur, d, t);
    assert InFront(v, q, s, cur, y);
  }

  // ---------- along a whole run ----------

  /** `t` has the tiles of `s`, and no more of them live. */
  ghost predicate SameTiles(v: View, q: Query, s: State, cur: nat, t: State, cur': nat) {
    && Linked(v, q, s) && Linked(v, q, t)
    && t.g == s.g && t.parent == s.parent && t.from == s.from
    && forall u: nat :: Live(v, q, t, cur', u) ==> Live(v, q, s, cur, u)
  }

  lemma {:induction false} SameChain(v: View, q: Query, s: State, t: State, u: nat)
    requires Linked(v, q, s) && Linked(v, q, t) && t.g == s.g && t.parent == s.parent && t.from == s.from
    requires Reached(v, s, u)
    ensures Reached(v, t, u) && Chain(v, q, t, u) == Chain(v, q, s, u) && P(v, q, t, u) == P(v, q, s, u)
    ensures OutOfDate(v, q, t, u) <==> OutOfDate(v, q, s, u)
    decreases s.g[u]
  {
    hide CanStep, Dest, EnterCost, Parented, Chained, F;
    ChainBasics(v, q, s, u);
    ChainBasics(v, q, t, u);
    if u != q.start {
      ParentStep(v, q, s, u);
      ParentStep(v, q, t, u);
      SameChain(v, q, s, t, s.from[u]);
    }
  }

  lemma SameOrdering(v: View, q: Query, s: State, cur: nat, t: State, cur': nat)
    requires SameTiles(v, q, s, cur, t, cur') && Ordering(v, q, s, cur)
    ensures Ordering(v, q, t, cur')
  {
    hide Linked, Chain, P, OutOfDate, Live;
    forall x: nat, y: nat, a: nat ensures Ranked(v, q, t, cur', x, y, a) {
      if Live(v, q, t, cur', x) && Live(v, q, t, cur', y) {
        LiveReached(v, q, s, cur, x);
        LiveReached(v, q, s, cur, y);
        SameChain(v, q, s, t, x);
        SameChain(v, q, s, t, y);
        assert Ranked(v, q, s, cur, x, y, a);
        if a in Chain(v, q, s, x) {
          Ancestor(v, q, s, a, x);
          SameChain(v, q, s, t, a);
        }
      }
    }
    forall u: nat, x: nat ensures Ahead(v, q, t, cur', u, x) {
      SameAhead(v, q, s, cur, t, cur', u, x);
    }
  }

  lemma SameAhead(v: View, q: Query, s: State, cur: nat, t: State, cur': nat, u: nat, x: nat)
    requires SameTiles(v, q, s, cur, t, cur') && Ordering(v, q, s, cur) && Linked(v, q, t)
    ensures Ahead(v, q, t, cur', u, x)
  {
    hide Linked, Chain, P, OutOfDate, Live, Ranked;
    if OutOfDate(v, q, t, u) && Live(v, q, t, cur', x) {
      OutOfDateParts(v, q, t, u);
      LiveReached(v, q, s, cur, x);
      SameChain(v, q, s, t, x);
      SameChain(v, q, s, t, u);
      ChainBasics(v, q, s, u);
      SameChain(v, q, s, t, s.from[u]);
      assert Ahead(v, q, s, cur, u, x);
    }
  }

  /** The parent of an out-of-date link is waiting to be expanded again. */
  lemma OutOfDateParentWaits(v: View, q: Query, s: State, u: nat)
    requires Linked(v, q, s) && Inv(v, q, s) && OutOfDate(v, q, s, u)
    ensures u < |s.from| && Reached(v, s, s.from[u]) && Pending(v, q, s, s.from[u])
  {
    hide CanStep, Dest, EnterCost, Chained, Inv, F, Pending;
    ParentStep(v, q, s, u);
    OutOfDateCheaper(v, q, s, u);
    if !Pending(v, q, s, s.from[u]) {
      RelaxedHere(v, q, s, s.from[u], s.parent[u] - 1);
      assert false;
    }
  }

  lemma OutOfDateCheaper(v: View, q: Query, s: State, u: nat)
    requires Linked(v, q, s) && Inv(v, q, s) && OutOfDate(v, q, s, u) && Parented(v, q, s, u)
    ensures s.parent[u] > 0 && s.from[u] < v.N()
    ensures s.g[s.from[u]] + EnterCost(v, u, s.parent[u] - 1) < s.g[u] <= q.maxCost && s.g[u] < G_INFINITE
  {
    hide CanStep, Dest, EnterCost, F, Covered, Closest, Trailed;
  }

  /** When the first entry is current, its chain is up to date: any parent still to be corrected would come first. */
  lemma FirstChainCurrent(v: View, q: Query, s: State, u: nat)
    requires Linked(v, q, s) && Inv(v, q, s) && Ordering(v, q, s, v.N()) && s.open != multiset{}
    requires First(s.open).idx < v.N() && !Stale(s, First(s.open)) && Reached(v, s, First(s.open).idx)
    requires Pending(v, q, s, First(s.open).idx) && u in Chain(v, q, s, First(s.open).idx)
    ensures !OutOfDate(v, q, s, u)
  {
    hide Inv, Chain, F, Linked, Shaped, OutOfDate, Ranked;
    var cur := First(s.open).idx;
    if OutOfDate(v, q, s, u) {
      OutOfDateParentWaits(v, q, s, u);
      assert Ahead(v, q, s, v.N(), u, cur);
      FirstPriority(v, q, s, s.from[u]);
      assert false;
    }
  }

  lemma FirstPriority(v: View, q: Query, s: State, w: nat)
    requires Linked(v, q, s) && Inv(v, q, s) && s.open != multiset{} && First(s.open).idx < v.N()
    requires Reached(v, s, w) && Pending(v, q, s, w) && !Stale(s, First(s.open)) && Reached(v, s, First(s.open).idx)
    ensures P(v, q, s, First(s.open).idx) <= P(v, q, s, w)
  {
    hide Inv, F;
    FirstBeforePending(v, q, s, w);
  }

  lemma FirstIsPending(v: View, q: Query, s: State)
    requires Linked(v, q, s) && Inv(v, q, s) && s.open != multiset{} && First(s.open).idx < v.N()
    requires !Stale(s, First(s.open))
    ensures Reached(v, s, First(s.open).idx) && Pending(v, q, s, First(s.open).idx)
  {
    hide F, Covered, Chained, Closest, Trailed;
    assert First(s.open) in s.open;
  }

  lemma SettleFronts(v: View, q: Query, s: State, e: Entry)
    requires Linked(v, q, s) && Inv(v, q, s) && Ordering(v, q, s, v.N()) && s.open != multiset{} && e == First(s.open)
    requires e.idx < v.N() && !Stale(s, e) && e.idx != q.goal
    ensures Shaped(v, q, Popped(s)) && Fronting(v, q, Settle(v, q, Popped(s), e), e.idx)
  {
    hide Inv, F, Chain, OutOfDate, Ranked, Ahead, P, Stale, Chained, Booked, Covered, Closest, Trailed, H;
    SettleKeeps(v, q, s, e);
    SettledBooks(v, q, s, e);
    FirstIsPending(v, q, s);
    var t := Settle(v, q, Popped(s), e);
    assert Linked(v, q, t);
    forall u: nat | Live(v, q, t, e.idx, u) ensures Live(v, q, s, v.N(), u) {
      SettledPending(v, q, s, e, u);
    }
    SameOrdering(v, q, s, v.N(), t, e.idx);
    SameChain(v, q, s, t, e.idx);
    forall u: nat | u in Chain(v, q, t, e.idx) ensures !OutOfDate(v, q, t, u) {
      FirstChainCurrent(v, q, s, u);
      Ancestor(v, q, s, u, e.idx);
      SameChain(v, q, s, t, u);
    }
    forall y: nat ensures InFront(v, q, t, e.idx, y) {
      if Live(v, q, t, e.idx, y) {
        SettledPending(v, q, s, e, y);
        FirstPriority(v, q, s, y);
        SameChain(v, q, s, t, y);
      }
    }
  }

  lemma SettledPending(v: View, q: Query, s: State, e: Entry, u: nat)
    requires Linked(v, q, s) && s.open != multiset{} && e == First(s.open) && e.idx < v.N()
    requires Shaped(v, q, Popped(s)) && Linked(v, q, Settle(v, q, Popped(s), e))
    requires Reached(v, s, e.idx) && Pending(v, q, s, e.idx) && Live(v, q, Settle(v, q, Popped(s), e), e.idx, u)
    ensures Live(v, q, s, v.N(), u) && Reached(v, s, u) && Pending(v, q, s, u)
  {
    hide F, H, Chained;
  }

  lemma RelaxFronts(v: View, q: Query, s: State, cur: nat, d: nat)
    requires Linked(v, q, s) && Fronting(v, q, s, cur) && cur < v.N() && d < v.Dirs() && s.g[cur] < G_INFINITE
    requires Chained(v, q, Relax(v, q, s, cur, s.g[cur], d))
    ensures Fronting(v, q, Relax(v, q, s, cur, s.g[cur], d), cur)
  {
    hide CanStep, Dest, EnterCost, F, Relax, Relaxed, Improved, Chain, OutOfDate, Ranked, Ahead, P, Chained, Fronting;
    RelaxCases(v, q, s, cur, d);
    var t := Relax(v, q, s, cur, s.g[cur], d);
    if CanStep(v, cur, d) && Improved(v, q, s, cur, d, t) {
      FrontingParts(v, q, s, cur);
      ShiftKeeps(v, q, s, cur, d, t);
    } else {
      SameFronting(v, q, s, t, cur);
    }
  }

  lemma SameFronting(v: View, q: Query, s: State, t: State, cur: nat)
    requires Linked(v, q, s) && Linked(v, q, t) && Fronting(v, q, s, cur)
    requires t == s || t == s.(pruned := true)
    ensures Fronting(v, q, t, cur)
  {
    hide F, Chain, OutOfDate, Ranked, Ahead, P, Chained;
    SameOrdering(v, q, s, cur, t, cur);
    SameChain(v, q, s, t, cur);
    forall u: nat | u in Chain(v, q, t, cur) ensures !OutOfDate(v, q, t, u) {
      Ancestor(v, q, s, u, cur);
      SameChain(v, q, s, t, u);
    }
    forall y: nat ensures InFront(v, q, t, cur, y) {
      assert InFront(v, q, s, cur, y);
      if Live(v, q, t, cur, y) {
        SameChain(v, q, s, t, y);
      }
    }
  }

  lemma {:induction false} RelaxFromFronts(v: View, q: Query, s: State, cur: nat, d: nat)
    requires Linked(v, q, s) && Fronting(v, q, s, cur) && cur < v.N() && d <= v.Dirs()
    requires Booked(v, q, s) && Covered(v, q, s, cur, d) && Closest(v, q, s) && Trailed(s.g) && s.g[cur] < G_INFINITE
    ensures Linked(v, q, RelaxFrom(v, q, s, cur, s.g[cur], d))
    ensures Ordering(v, q, RelaxFrom(v, q, s, cur, s.g[cur], d), v.N())
    decreases v.Dirs() - d
  {
    hide Booked, Covered, Chained, Closest, Trailed, Relax, Fronting, Ordering;
    if d < v.Dirs() {
      RelaxKeeps(v, q, s, cur, d);
      RelaxFronts(v, q, s, cur, d);
      RelaxFromFronts(v, q, Relax(v, q, s, cur, s.g[cur], d), cur, d + 1);
    } else {
      FrontingParts(v, q, s, cur);
      NoneExpanding(v, q, s, cur);
    }
  }

  lemma NoneExpanding(v: View, q: Query, s: State, cur: nat)
    requires Linked(v, q, s) && Ordering(v, q, s, cur)
    ensures Ordering(v, q, s, v.N())
  {
    hide F, Chain, OutOfDate, Ranked, Ahead, P, Chained, Ordering;
    SameOrdering(v, q, s, cur, s, v.N());
  }

  lemma ExpandOrders(v: View, q: Query, s: State)
    requires Linked(v, q, s) && Inv(v, q, s) && Ordering(v, q, s, v.N())
    requires s.open != multiset{} && First(s.open).idx < v.N()
    requires !Stale(s, First(s.open)) && First(s.open).idx != q.goal
    ensures Linked(v, q, Expanded(v, q, s)) && Ordering(v, q, Expanded(v, q, s), v.N())
  {
    hide Booked, Covered, Chained, Closest, Trailed, RelaxFrom, Settle, F, H, Fronting, Ordering, Chain;
    var e := First(s.open);
    SettleKeeps(v, q, s, e);
    SettleFronts(v, q, s, e);
    RelaxFromFronts(v, q, Settle(v, q, Popped(s), e), e.idx, 0);
  }

  lemma StalePopOrders(v: View, q: Query, s: State)
    requires Linked(v, q, s) && Inv(v, q, s) && Ordering(v, q, s, v.N())
    requires s.open != multiset{} && Linked(v, q, Popped(s))
    ensures Ordering(v, q, Popped(s), v.N())
  {
    hide F, H, Chain, Ordering, Inv;
    SameOrdering(v, q, s, v.N(), Popped(s), v.N());
  }

  lemma {:induction false} RunOrders(v: View, q: Query, s: State)
    requires Linked(v, q, s) && Inv(v, q, s) && Ordering(v, q, s, v.N())
    ensures Linked(v, q, Run(v, q, s).last) && Ordering(v, q, Run(v, q, s).last, v.N())
    decreases Sum(s.g), |s.open|
  {
    hide Booked, Covered, Chained, Closest, Trailed, Expanded, Ordering;
    if s.open != multiset{} {
      var e := First(s.open);
      if Stale(s, e) {
        StalePopKeeps(v, q, s);
        StalePopOrders(v, q, s);
        RunOrders(v, q, Popped(s));
      } else if e.idx != q.goal && s.expansions < q.maxExpansions {
        ExpandKeeps(v, q, s);
        ExpandOrders(v, q, s);
        RunOrders(v, q, Expanded(v, q, s));
      }
    }
  }

  lemma InitOrders(v: View, q: Query)
    requires Ready(v, q) && Linked(v, q, Init(v, q))
    ensures Ordering(v, q, Init(v, q), v.N())
  {
    hide F, H, Chained;
    var s := Init(v, q);
    forall u: nat | Reached(v, s, u) ensures u == q.start && Chain(v, q, s, u) == {u} {
    }
  }

  // ---------- the cost of a found path ----------

  lemma {:induction false} CurrentChainCost(v: View, q: Query, s: State, u: nat, acc: Route)
    requires Linked(v, q, s) && Reached(v, s, u) && Legal(v, u, acc)
    requires forall x: nat | x in Chain(v, q, s, u) :: !OutOfDate(v, q, s, x)
    ensures Legal(v, q.start, ParentRoute(v, q, s, u, acc))
    ensures Cost(v, q.start, ParentRoute(v, q, s, u, acc)) == s.g[u] + Cost(v, u, acc)
    decreases s.g[u]
  {
    hide CanStep, Dest, EnterCost, Chained, Chain, ExactAt;
    ParentRouteLegal(v, q, s, u, acc);
    ChainBasics(v, q, s, u);
    if u != q.start {
      ParentStep(v, q, s, u);
      assert !OutOfDate(v, q, s, u);
      assert s.g[s.from[u]] + EnterCost(v, u, s.parent[u] - 1) == s.g[u] by { ExactStep(v, q, s, u); }
      CurrentChainCost(v, q, s, s.from[u], Go(s.parent[u] - 1, acc));
    } else {
      assert s.g[u] == 0 by { StartFree(v, q, s); }
    }
  }

  /** Whatever epsilon was asked for, and however often tiles were re-expanded on the way: the cost a search reports
      for a goal it found is exactly the cost of the route its parents spell. */
  lemma FoundCostExact(v: View, q: Query)
    requires Ready(v, q) && SearchMachine.Search(v, q).stop == Stop.Reached
    ensures var s := SearchMachine.Search(v, q).last;
            && Inv(v, q, s) && q.goal < |s.g| && s.g[q.goal] < G_INFINITE
            && Connects(v, q.start, ParentRoute(v, q, s, q.goal, Route.Stop), q.goal)
            && Cost(v, q.start, ParentRoute(v, q, s, q.goal, Route.Stop)) == s.g[q.goal]
  {
    hide Booked, Covered, Chained, Closest, Trailed, Ordering, Run, Init, Chain;
    InitHolds(v, q);
    RunKeeps(v, q, Init(v, q));
    InitOrders(v, q);
    RunOrders(v, q, Init(v, q));
    SearchIsRun(v, q);
    FoundRoute(v, q, SearchMachine.Search(v, q));
  }

  lemma SearchIsRun(v: View, q: Query)
    requires Ready(v, q)
    ensures SearchMachine.Search(v, q) == Run(v, q, Init(v, q))
  {
  }

  lemma FoundRoute(v: View, q: Query, o: Outcome)
    requires Linked(v, q, o.last) && Inv(v, q, o.last) && Stopped(v, q, o) && Ordering(v, q, o.last, v.N())
    requires o.stop == Stop.Reached
    ensures q.goal < |o.last.g| && o.last.g[q.goal] < G_INFINITE
    ensures Connects(v, q.start, ParentRoute(v, q, o.last, q.goal, Route.Stop), q.goal)
    ensures Cost(v, q.start, ParentRoute(v, q, o.last, q.goal, Route.Stop)) == o.last.g[q.goal]
  {
    hide Inv, Ordering, Chain, F, OutOfDate, ParentRoute;
    var s := o.last;
    StopFacts(v, q, o);
    FirstIsPending(v, q, s);
    forall u: nat | u in Chain(v, q, s, q.goal) ensures !OutOfDate(v, q, s, u) {
      FirstChainCurrent(v, q, s, u);
    }
    ParentRouteLegal(v, q, s, q.goal, Route.Stop);
    CurrentChainCost(v, q, s, q.goal, Route.Stop);
  }
}
