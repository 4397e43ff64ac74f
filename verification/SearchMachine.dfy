/** Weighted A* as a machine on abstract states: tentative costs, parents and the multiset of open entries.
    The imperative search refines it; everything promised about a search is proved here. */
module SearchMachine {
  import opened FixedPoint
  import opened Grid
  import opened Heuristic
  import opened OpenList
  import opened Trails

  datatype Query = Query(start: nat, goal: nat, eps: nat, maxExpansions: nat, maxCost: nat)

  /** `from` repeats what `parent` encodes (the tile the recorded direction leaves); `pruned` says whether the cost
      cap ever cut a step. */
  datatype State = State(
    g: seq<nat>, parent: seq<nat>, from: seq<nat>, open: multiset<Entry>,
    expansions: nat, bestH: nat, bestG: nat, bestIdx: nat, pruned: bool)

  ghost predicate Ready(v: View, q: Query) {
    && v.Valid() && Clamped(v)
    && q.start < v.N() && q.goal < v.N() && q.maxCost <= G_INFINITE
    && q.eps <= Q_EPS_MAX && v.hD <= Q_TILE_MAX
  }

  /** The truncated eps-multiple of a heuristic value. */
  function Inflate(eps: nat, h: nat): (p: nat)
  {
    NonNegative(eps, h);
    eps * h / 256
  }

  lemma NonNegative(a: nat, b: nat)
    ensures a * b >= 0
  {
  }

  function F(v: View, q: Query, u: nat, g: nat): nat
    requires Ready(v, q)
  {
    g + Inflate(q.eps, H(v, u, q.goal))
  }

  ghost predicate Shaped(v: View, q: Query, s: State)
    requires Ready(v, q)
  {
    && |s.g| == |s.parent| == |s.from| == v.N()
    && (forall u | 0 <= u < v.N() :: s.g[u] <= G_INFINITE)
    && (forall e | e in s.open :: e.idx < v.N() && s.g[e.idx] <= e.g < G_INFINITE)
    && s.bestIdx < v.N()
  }

  ghost function Init(v: View, q: Query): (s: State)
    requires Ready(v, q)
    ensures Shaped(v, q, s)
  {
    State(
      seq(v.N(), _ => G_INFINITE)[q.start := 0], seq(v.N(), _ => 0), seq(v.N(), _ => 0),
      multiset{Entry(F(v, q, q.start, 0), 0, q.start)},
      0, H(v, q.start, q.goal), 0, q.start, false)
  }

  /** One direction of an expansion, in the order the source tests it. */
  ghost function Relax(v: View, q: Query, s: State, cur: nat, eg: nat, d: nat): (t: State)
    requires Ready(v, q) && Shaped(v, q, s) && cur < v.N()
    ensures Shaped(v, q, t)
    ensures t == s || t == s.(pruned := true) || Sum(t.g) < Sum(s.g)
  {
    if !CanStep(v, cur, d) then s
    else
      var nb := Dest(v, cur, d);
      var ng := eg + EnterCost(v, nb, d);
      if ng > q.maxCost then s.(pruned := true)
      else if ng >= s.g[nb] then s
      else
        SumUpdate(s.g, nb, ng);
        s.(g := s.g[nb := ng], parent := s.parent[nb := d + 1], from := s.from[nb := cur],
           open := s.open + multiset{Entry(F(v, q, nb, ng), ng, nb)})
  }

  ghost function RelaxFrom(v: View, q: Query, s: State, cur: nat, eg: nat, d: nat): (t: State)
    requires Ready(v, q) && Shaped(v, q, s) && cur < v.N() && d <= v.Dirs()
    ensures Shaped(v, q, t)
    ensures Sum(t.g) < Sum(s.g) || (Sum(t.g) == Sum(s.g) && t.open == s.open)
    decreases v.Dirs() - d
  {
    if d == v.Dirs() then s else RelaxFrom(v, q, Relax(v, q, s, cur, eg, d), cur, eg, d + 1)
  }

  /** Closest-approach bookkeeping when `e` is expanded. */
  ghost function Settle(v: View, q: Query, s: State, e: Entry): (t: State)
    requires Ready(v, q) && Shaped(v, q, s) && e.idx < v.N()
    ensures Shaped(v, q, t)
  {
    var h := H(v, e.idx, q.goal);
    var t := s.(expansions := s.expansions + 1);
    if h < s.bestH || (h == s.bestH && e.g < s.bestG) then t.(bestH := h, bestG := e.g, bestIdx := e.idx) else t
  }

  ghost function Popped(s: State): (t: State)
    requires s.open != multiset{}
  {
    s.(open := s.open - multiset{First(s.open)})
  }

  datatype Stop = Reached | OutOfBudget | Exhausted

  datatype Outcome = Outcome(stop: Stop, last: State)

  ghost predicate Stale(s: State, e: Entry)
    requires e.idx < |s.g|
  {
    e.g != s.g[e.idx]
  }

  /** The whole search.  Every improvement lowers the sum of tentative costs and every stale pop shrinks the open
      multiset, so it terminates however often tiles are re-expanded. */
  ghost function Run(v: View, q: Query, s: State): (o: Outcome)
    requires Ready(v, q) && Shaped(v, q, s)
    ensures Shaped(v, q, o.last)
    decreases Sum(s.g), |s.open|
  {
    if s.open == multiset{} then Outcome(Exhausted, s)
    else
      var e := First(s.open);
      if Stale(s, e) then Run(v, q, Popped(s))
      else if e.idx == q.goal then Outcome(Reached, s)
      else if s.expansions >= q.maxExpansions then Outcome(OutOfBudget, s)
      else Run(v, q, Expanded(v, q, s))
  }

  ghost function Expanded(v: View, q: Query, s: State): (t: State)
    requires Ready(v, q) && Shaped(v, q, s) && s.open != multiset{}
    ensures Shaped(v, q, t)
    ensures Sum(t.g) < Sum(s.g) || (Sum(t.g) == Sum(s.g) && |t.open| < |s.open|)
  {
    var e := First(s.open);
    RelaxFrom(v, q, Settle(v, q, Popped(s), e), e.idx, e.g, 0)
  }

  ghost function Search(v: View, q: Query): (o: Outcome)
    requires Ready(v, q)
    ensures Shaped(v, q, o.last)
  {
    Run(v, q, Init(v, q))
  }
}
