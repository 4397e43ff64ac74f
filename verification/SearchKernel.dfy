/** The search as it runs: arrays reused across searches behind generation stamps, a heap sifted in place, and a
    path read back from the parents.  Its results are those of the abstract machine, whatever the arrays held. */
module SearchKernel {
  import opened FixedPoint
  import opened Grid
  import opened Heuristic
  import opened OpenList
  import opened Trails
  import opened SearchMachine
  import opened SearchInvariant
  import opened SearchResults

  datatype PathStatus = None | Found | Unreachable | BudgetExceeded | InvalidEndpoint

  datatype SearchResult = SearchResult(status: PathStatus, endIdx: nat, expansions: nat)

  /** How an outcome of the machine is reported. */
  function Report(q: Query, o: Outcome): SearchResult {
    match o.stop
    case Reached => SearchResult(Found, q.goal, Sat32(o.last.expansions))
    case OutOfBudget => SearchResult(BudgetExceeded, o.last.bestIdx, Sat32(o.last.expansions))
    case Exhausted =>
      SearchResult(if o.last.pruned then BudgetExceeded else Unreachable, o.last.bestIdx, Sat32(o.last.expansions))
  }

  /** What holds while `cur` is being expanded, its first `d` directions done. */
  ghost predicate Expanding(v: View, q: Query, s: State, cur: nat, d: nat)
    requires Ready(v, q) && Shaped(v, q, s) && cur < v.N()
  {
    && Booked(v, q, s) && Covered(v, q, s, cur, d) && Chained(v, q, s) && Closest(v, q, s) && Trailed(s.g)
    && s.g[cur] < G_INFINITE
  }

  class SearchContext {
    const g: array<nat>
    const stamp: array<nat>
    const parent: array<nat>
    const heap: Heap
    var stampGen: nat

    /** No stamp lies ahead of the generation counter: what makes advancing the counter a reset. */
    ghost predicate Valid(n: nat)
      reads this, stamp, heap, heap.h
    {
      && g.Length == stamp.Length == parent.Length == n
      && g != stamp && g != parent && stamp != parent
      && stampGen <= U32_MAX
      && (forall i | 0 <= i < n :: stamp[i] <= stampGen)
      && heap.Valid()
    }

    /** The arrays, read through the stamps, hold the costs and parents of `s`. */
    ghost predicate Holds(s: State)
      reads this, g, stamp, parent
    {
      && |s.g| == |s.parent| == g.Length == stamp.Length == parent.Length
      && (forall i | 0 <= i < |s.g| :: s.g[i] == if stamp[i] == stampGen then g[i] else G_INFINITE)
      && (forall i | 0 <= i < |s.g| && s.g[i] < G_INFINITE :: s.parent[i] == parent[i])
    }

    /** Arrays and heap together hold the machine state `s`. */
    ghost predicate Mirrors(n: nat, s: State)
      reads this, g, stamp, parent, heap, heap.h
    {
      Valid(n) && Holds(s) && heap.Contents() == s.open
    }

    constructor (n: nat)
      ensures Valid(n) && fresh(g) && fresh(stamp) && fresh(parent) && fresh(heap) && fresh(heap.h)
    {
      g := new nat[n](_ => 0);
      stamp := new nat[n](_ => 0);
      parent := new nat[n](_ => 0);
      heap := new Heap();
      stampGen := 0;
    }

    /** Constant-time reset; when the 32-bit counter wraps, the stamps are cleared for real. */
    method Reset(ghost n: nat)
      requires Valid(n)
      modifies this`stampGen, stamp
      ensures Valid(n) && stampGen > 0 && forall i | 0 <= i < n :: stamp[i] != stampGen
    {
      stampGen := if stampGen == U32_MAX then 0 else stampGen + 1;
      if stampGen == 0 {
        for i := 0 to stamp.Length
          invariant forall j | 0 <= j < i :: stamp[j] == 0
        {
          stamp[i] := 0;
        }
        stampGen := 1;
      }
    }

    method Touch(idx: nat, ghost n: nat, ghost s: State)
      requires Valid(n) && Holds(s) && idx < n
      modifies g, stamp, parent
      ensures Valid(n) && Holds(s) && stamp[idx] == stampGen
      ensures old(stamp[idx]) != stampGen ==> parent[idx] == 0
    {
      if stamp[idx] != stampGen {
        stamp[idx] := stampGen;
        g[idx] := G_INFINITE;
        parent[idx] := 0;
      }
    }

    /** Stores an improved cost and parent and queues the tile. */
    method Record(nb: nat, ng: nat, dir: nat, e: Entry, ghost n: nat, ghost s: State, ghost t: State)
      requires Mirrors(n, s) && nb < n && stamp[nb] == stampGen
      requires t.g == s.g[nb := ng] && t.parent == s.parent[nb := dir] && t.open == s.open + multiset{e}
      modifies g, parent, heap, heap.h
      ensures Mirrors(n, t) && (heap.h == old(heap.h) || fresh(heap.h))
    {
      hide Ordered, Less;
      g[nb] := ng;
      parent[nb] := dir;
      heap.Push(e);
    }

    /** One direction of an expansion: `s` becomes `Relax(s)`, and no sum leaves 64 bits. */
    method TryStep(v: View, q: Query, cur: nat, eg: nat, d: nat, pruned: bool, ghost s: State)
      returns (nowPruned: bool)
      requires Ready(v, q) && Shaped(v, q, s) && cur < v.N() && d < v.Dirs()
      requires Mirrors(v.N(), s) && pruned == s.pruned
      requires eg == s.g[cur] && Expanding(v, q, s, cur, d)
      modifies g, stamp, parent, heap, heap.h
      ensures heap.h == old(heap.h) || fresh(heap.h)
      ensures var t := Relax(v, q, s, cur, eg, d); Mirrors(v.N(), t) && nowPruned == t.pruned
    {
      nowPruned := pruned;
      if !InBounds(v, cur, d) {
        return;
      }
      var nb := Nbr(v, cur, d);
      if v.blocked[nb] {
        return;
      }
      if d >= 4 && CornerForbidden(v, cur, d) {
        return;
      }
      assert CanStep(v, cur, d) && nb == Dest(v, cur, d);
      nowPruned := Offer(v, q, cur, eg, d, pruned, nb, s);
    }

    /** The part of a step that follows once it is known to be legal. */
    method Offer(v: View, q: Query, cur: nat, eg: nat, d: nat, pruned: bool, nb: nat, ghost s: State)
      returns (nowPruned: bool)
      requires Ready(v, q) && Shaped(v, q, s) && cur < v.N() && d < v.Dirs()
      requires Mirrors(v.N(), s) && pruned == s.pruned
      requires eg == s.g[cur] && Expanding(v, q, s, cur, d)
      requires CanStep(v, cur, d) && nb == Dest(v, cur, d)
      modifies g, stamp, parent, heap, heap.h
      ensures heap.h == old(heap.h) || fresh(heap.h)
      ensures var t := Relax(v, q, s, cur, eg, d); Mirrors(v.N(), t) && nowPruned == t.pruned
    {
      hide CanStep, Dest, EnterCost, H, Expanding, View.Valid, Clamped, Ordered, Less, Relax, Inflate, Shaped;
      ghost var t := Relax(v, q, s, cur, eg, d);
      RelaxWhenLegal(v, q, s, cur, eg, d);
      ExpandingCostsLow(v, q, s, cur, d);
      PrioritiesFit(v, q, nb, eg + EnterCost(v, nb, d));
      nowPruned := pruned;
      var ng := eg + EnterCost(v, nb, d);
      assert ng < G_INFINITE;
      if ng > q.maxCost {
        nowPruned := true;
        return;
      }
      Touch(nb, v.N(), s);
      if ng >= g[nb] {
        return;
      }
      assert q.eps * H(v, nb, q.goal) < G_INFINITE;
      var f := ng + Inflate(q.eps, H(v, nb, q.goal));
      assert f < G_INFINITE;
      Record(nb, ng, d + 1, Entry(f, ng, nb), v.N(), s, t);
    }

    /** All directions of one expansion. */
    method Expand(v: View, q: Query, cur: nat, eg: nat, pruned: bool, ghost s: State)
      returns (nowPruned: bool)
      requires Ready(v, q) && Shaped(v, q, s) && cur < v.N()
      requires Mirrors(v.N(), s) && pruned == s.pruned
      requires eg == s.g[cur] && Expanding(v, q, s, cur, 0)
      modifies g, stamp, parent, heap, heap.h
      ensures heap.h == old(heap.h) || fresh(heap.h)
      ensures var t := RelaxFrom(v, q, s, cur, eg, 0); Mirrors(v.N(), t) && nowPruned == t.pruned
    {
      hide Relax, Mirrors, Expanding;
      nowPruned := pruned;
      ghost var t := s;
      for d := 0 to v.Dirs()
        invariant heap.h == old(heap.h) || fresh(heap.h)
        invariant Shaped(v, q, t) && Mirrors(v.N(), t)
        invariant nowPruned == t.pruned && eg == t.g[cur] && Expanding(v, q, t, cur, d)
        invariant RelaxFrom(v, q, t, cur, eg, d) == RelaxFrom(v, q, s, cur, eg, 0)
        modifies g, stamp, parent, heap, heap.h
      {
        ExpandingStep(v, q, t, cur, d);
        nowPruned := TryStep(v, q, cur, eg, d, nowPruned, t);
        t := Relax(v, q, t, cur, eg, d);
      }
    }

    lemma OpenCount(n: nat, s: State)
      requires Mirrors(n, s)
      ensures |s.open| == heap.len
    {
    }

    lemma Stored(s: State, i: nat)
      requires Holds(s) && i < |s.g| && s.g[i] < G_INFINITE
      ensures i < g.Length && g[i] == s.g[i]
    {
    }

    /** Pops the first entry; it is stale when its tile has been improved since it was queued. */
    method TakeFirst(v: View, q: Query, ghost s: State) returns (e: Entry, stale: bool)
      requires Ready(v, q) && Shaped(v, q, s) && Mirrors(v.N(), s) && heap.len > 0
      modifies heap, heap.h
      ensures heap.h == old(heap.h)
      ensures s.open != multiset{} && e == First(s.open) && e.idx < v.N()
      ensures stale == Stale(s, e) && Mirrors(v.N(), Popped(s)) && Valid(v.N()) && Holds(s)
    {
      hide Mirrors, Holds, Valid, Ordered, IsFirst, H, Shaped, View.Valid, Clamped;
      OpenCount(v.N(), s);
      FirstEntry(v, q, s);
      e := PopEntry(v.N(), s);
      Stored(s, e.idx);
      stale := e.g != g[e.idx];
    }

    method PopEntry(ghost n: nat, ghost s: State) returns (e: Entry)
      requires Mirrors(n, s) && s.open != multiset{} && heap.len > 0
      modifies heap, heap.h
      ensures heap.h == old(heap.h)
      ensures e == First(s.open) && Mirrors(n, Popped(s)) && Valid(n) && Holds(s)
    {
      hide Ordered, IsFirst, Less, OrderedAround, First, Holds, Heap.Contents;
      e := heap.Pop();
      FirstIsUnique(s.open, e);
      HoldsAlike(s, Popped(s));
    }

    lemma HoldsAlike(s: State, t: State)
      requires Holds(s) && t.g == s.g && t.parent == s.parent
      ensures Holds(t)
    {
    }

    /** Resets the context and queues the start tile. */
    method Begin(v: View, q: Query) returns (bestH: nat)
      requires Valid(v.N()) && Ready(v, q)
      modifies this`stampGen, g, stamp, parent, heap, heap.h
      ensures heap.h == old(heap.h) || fresh(heap.h)
      ensures Mirrors(v.N(), Init(v, q)) && bestH == Init(v, q).bestH
    {
      hide H, Ordered, Less, View.N, Holds;
      bestH := H(v, q.start, q.goal);
      Blank(v.N(), q.start, Init(v, q));
      heap.Clear();
      heap.Push(Entry(Inflate(q.eps, bestH), 0, q.start));
    }

    /** A new generation in which only the start has a cost. */
    method Blank(ghost n: nat, start: nat, ghost s: State)
      requires Valid(n) && start < n == |s.g| == |s.parent|
      requires forall u | 0 <= u < n :: s.g[u] == if u == start then 0 else G_INFINITE
      requires s.parent[start] == 0
      modifies this`stampGen, g, stamp, parent
      ensures Valid(n) && Holds(s)
    {
      Reset(n);
      Touch(start, n, s.(g := s.g[start := G_INFINITE]));
      g[start] := 0;
    }

    /** Counts the expansion, notes the closest approach and relaxes every direction of the popped tile. */
    method ExpandTile(v: View, q: Query, e: Entry, expansions: nat, pruned: bool, bestH: nat, bestG: nat,
                      bestIdx: nat, ghost s: State)
      returns (expansions': nat, pruned': bool, bestH': nat, bestG': nat, bestIdx': nat)
      requires Ready(v, q) && Shaped(v, q, s) && Inv(v, q, s) && s.open != multiset{} && e == First(s.open)
      requires e.idx < v.N() && !Stale(s, e) && e.idx != q.goal
      requires Shaped(v, q, Popped(s)) && Mirrors(v.N(), Popped(s))
      requires expansions == s.expansions && pruned == s.pruned
      requires bestH == s.bestH && bestG == s.bestG && bestIdx == s.bestIdx
      modifies g, stamp, parent, heap, heap.h
      ensures heap.h == old(heap.h) || fresh(heap.h)
      ensures var t := Expanded(v, q, s);
              && Mirrors(v.N(), t) && expansions' == t.expansions && pruned' == t.pruned
              && bestH' == t.bestH && bestG' == t.bestG && bestIdx' == t.bestIdx
    {
      hide H, Inv, Booked, Covered, Chained, Closest, Trailed, Holds, Valid, RelaxFrom, View.Valid, IsFirst, Mirrors,
        Shaped;
      SettleKeeps(v, q, s, e);
      ghost var t := Settle(v, q, Popped(s), e);
      MirrorsSettled(v, q, s, e);
      expansions' := expansions + 1;
      bestH', bestG', bestIdx' := bestH, bestG, bestIdx;
      var h := H(v, e.idx, q.goal);
      if h < bestH || (h == bestH && e.g < bestG) {
        bestH', bestG', bestIdx' := h, e.g, e.idx;
      }
      RelaxFromApproach(v, q, t, e.idx, e.g, 0);
      pruned' := Expand(v, q, e.idx, e.g, pruned, t);
    }

    lemma MirrorsSettled(v: View, q: Query, s: State, e: Entry)
      requires Ready(v, q) && s.open != multiset{} && Shaped(v, q, Popped(s)) && e.idx < v.N()
      requires Mirrors(v.N(), Popped(s))
      ensures Mirrors(v.N(), Settle(v, q, Popped(s), e))
    {
    }

    /** The weighted A* search.  The result is the machine's, and so does not depend on what earlier searches left in
        the arrays; `s` is the machine state it stopped in. */
    method Search(v: View, q: Query) returns (r: SearchResult, ghost s: State)
      requires Valid(v.N()) && Ready(v, q)
      modifies this`stampGen, g, stamp, parent, heap, heap.h
      ensures Valid(v.N()) && (heap.h == old(heap.h) || fresh(heap.h))
      ensures s == SearchMachine.Search(v, q).last && Holds(s)
      ensures r == Report(q, SearchMachine.Search(v, q))
    {
      hide Run, SearchMachine.Search, Expanded, H, Inv, Mirrors, Holds, Valid, Shaped, View.Valid, IsFirst, Init;
      var bestH := Begin(v, q);
      var expansions, pruned, bestG, bestIdx := 0, false, 0, q.start;
      s := Init(v, q);
      InitHolds(v, q);
      SearchStarts(v, q);
      while heap.len > 0
        invariant heap.h == old(heap.h) || fresh(heap.h)
        invariant Shaped(v, q, s) && Inv(v, q, s) && Mirrors(v.N(), s)
        invariant expansions == s.expansions && pruned == s.pruned
        invariant bestH == s.bestH && bestG == s.bestG && bestIdx == s.bestIdx
        invariant Run(v, q, s) == SearchMachine.Search(v, q)
        decreases Sum(s.g), |s.open|
      {
        RunUnfolds(v, q, s);
        ghost var was := s;
        var e, stale := TakeFirst(v, q, s);
        s := Popped(was);
        if stale {
          StalePopKeeps(v, q, was);
          PoppedShrinks(was);
          continue;
        }
        if e.idx == q.goal {
          s := was;
          return SearchResult(Found, q.goal, Sat32(expansions)), s;
        }
        if expansions >= q.maxExpansions {
          s := was;
          return SearchResult(BudgetExceeded, bestIdx, Sat32(expansions)), s;
        }
        expansions, pruned, bestH, bestG, bestIdx := ExpandTile(v, q, e, expansions, pruned, bestH, bestG, bestIdx,
            was);
        ExpandKeeps(v, q, was);
        s := Expanded(v, q, was);
      }
      OpenCount(v.N(), s);
      RunUnfolds(v, q, s);
      MirrorsParts(v.N(), s);
      r := SearchResult(if pruned then BudgetExceeded else Unreachable, bestIdx, Sat32(expansions));
    }

    lemma MirrorsParts(n: nat, s: State)
      requires Mirrors(n, s)
      ensures Valid(n) && Holds(s)
    {
    }
  }

  lemma FirstEntry(v: View, q: Query, s: State)
    requires Ready(v, q) && Shaped(v, q, s) && s.open != multiset{}
    ensures var e := First(s.open); e.idx < v.N() == |s.g| && s.g[e.idx] <= e.g < G_INFINITE
  {
  }

  lemma {:induction false} RelaxFromApproach(v: View, q: Query, s: State, cur: nat, eg: nat, d: nat)
    requires Ready(v, q) && Shaped(v, q, s) && cur < v.N() && d <= v.Dirs()
    ensures var t := RelaxFrom(v, q, s, cur, eg, d);
            && t.expansions == s.expansions
            && t.bestH == s.bestH && t.bestG == s.bestG && t.bestIdx == s.bestIdx
    decreases v.Dirs() - d
  {
    hide CanStep, Dest, EnterCost, F;
    if d < v.Dirs() {
      RelaxFromApproach(v, q, Relax(v, q, s, cur, eg, d), cur, eg, d + 1);
    }
  }

  lemma RelaxWhenLegal(v: View, q: Query, s: State, cur: nat, eg: nat, d: nat)
    requires Ready(v, q) && Shaped(v, q, s) && cur < v.N() && CanStep(v, cur, d)
    ensures var t := Relax(v, q, s, cur, eg, d);
            var nb := Dest(v, cur, d);
            var ng := eg + EnterCost(v, nb, d);
            if ng > q.maxCost then t == s.(pruned := true)
            else if ng >= s.g[nb] then t == s
            else
              && t.g == s.g[nb := ng] && t.parent == s.parent[nb := d + 1] && t.pruned == s.pruned
              && t.open == s.open + multiset{Entry(ng + Inflate(q.eps, H(v, nb, q.goal)), ng, nb)}
  {
    hide CanStep, Dest, EnterCost, H, Inflate;
  }

  lemma SearchStarts(v: View, q: Query)
    requires Ready(v, q)
    ensures var s := Init(v, q);
            && Run(v, q, s) == SearchMachine.Search(v, q)
            && s.expansions == 0 && !s.pruned && s.bestG == 0 && s.bestIdx == q.start
  {
  }

  /** One turn of the machine, spelled out. */
  lemma RunUnfolds(v: View, q: Query, s: State)
    requires Ready(v, q) && Shaped(v, q, s)
    ensures s.open == multiset{} ==> Run(v, q, s) == Outcome(Exhausted, s)
    ensures s.open != multiset{} ==>
              var e := First(s.open);
              && e.idx < v.N()
              && Shaped(v, q, Popped(s))
              && (Stale(s, e) ==> Run(v, q, s) == Run(v, q, Popped(s)))
              && (!Stale(s, e) && e.idx == q.goal ==> Run(v, q, s) == Outcome(Reached, s))
              && (!Stale(s, e) && e.idx != q.goal && s.expansions >= q.maxExpansions ==>
                    Run(v, q, s) == Outcome(OutOfBudget, s))
              && (!Stale(s, e) && e.idx != q.goal && s.expansions < q.maxExpansions ==>
                    Run(v, q, s) == Run(v, q, Expanded(v, q, s)))
  {
    hide H, F, Expanded;
  }

  lemma ExpandingStep(v: View, q: Query, s: State, cur: nat, d: nat)
    requires Ready(v, q) && Shaped(v, q, s) && cur < v.N() && d < v.Dirs() && Expanding(v, q, s, cur, d)
    ensures var t := Relax(v, q, s, cur, s.g[cur], d);
            t.g[cur] == s.g[cur] && Expanding(v, q, t, cur, d + 1)
  {
    hide Booked, Covered, Chained, Closest, Trailed, Relax;
    RelaxKeeps(v, q, s, cur, d);
  }

  /** Mid-expansion no sum leaves 64 bits either. */
  lemma ExpandingCostsLow(v: View, q: Query, s: State, cur: nat, d: nat)
    requires Ready(v, q) && Shaped(v, q, s) && cur < v.N() && Expanding(v, q, s, cur, d)
    ensures s.g[cur] <= COST_CEILING && s.g[cur] + U32_MAX < G_INFINITE
  {
    hide Chained, Covered, Closest, Booked, Trailed;
    TentativeCostBounded(s.g, cur);
    TileCount(v);
  }
}
