/** What a search expanded: how many times, and how near it came. */
module Expansions {
  import opened FixedPoint
  import opened Grid
  import opened Heuristic
  import opened OpenList
  import opened Trails
  import opened SearchMachine
  import opened SearchInvariant

  /** The entries expanded from `s` on, in order, each with the cost its tile had then. */
  ghost function Log(v: View, q: Query, s: State): seq<Entry>
    requires Ready(v, q) && Shaped(v, q, s)
    decreases Sum(s.g), |s.open|
  {
    if s.open == multiset{} then []
    else
      var e := First(s.open);
      if Stale(s, e) then Log(v, q, Popped(s))
      else if e.idx == q.goal || s.expansions >= q.maxExpansions then []
      else [e] + Log(v, q, Expanded(v, q, s))
  }

  /** Between `s` and `t` the approach became that of one of the entries, and none of them is nearer, or as near and
      cheaper. */
  ghost predicate NearestOf(v: View, q: Query, log: seq<Entry>, s: State, t: State)
    requires Ready(v, q)
  {
    && NotBetter(s.bestH, s.bestG, t.bestH, t.bestG)
    && (forall e | e in log :: e.idx < v.N() && NotBetter(H(v, e.idx, q.goal), e.g, t.bestH, t.bestG))
    && ((t.bestH == s.bestH && t.bestG == s.bestG && t.bestIdx == s.bestIdx)
        || exists e :: e in log && e.idx == t.bestIdx && e.g == t.bestG)
  }

  lemma {:induction false} ApproachStays(v: View, q: Query, s: State, cur: nat, eg: nat, d: nat)
    requires Ready(v, q) && Shaped(v, q, s) && cur < v.N() && d <= v.Dirs()
    ensures var t := RelaxFrom(v, q, s, cur, eg, d);
            && t.expansions == s.expansions && t.bestH == s.bestH && t.bestG == s.bestG && t.bestIdx == s.bestIdx
    decreases v.Dirs() - d
  {
    hide CanStep, Dest, EnterCost, F;
    if d < v.Dirs() {
      ApproachStays(v, q, Relax(v, q, s, cur, eg, d), cur, eg, d + 1);
    }
  }

  lemma ExpandedApproach(v: View, q: Query, s: State)
    requires Ready(v, q) && Shaped(v, q, s) && s.open != multiset{} && First(s.open).idx < v.N()
    ensures var t, e := Expanded(v, q, s), First(s.open);
            && t.expansions == s.expansions + 1
            && if NotBetter(H(v, e.idx, q.goal), e.g, s.bestH, s.bestG)
               then t.bestH == s.bestH && t.bestG == s.bestG && t.bestIdx == s.bestIdx
               else t.bestH == H(v, e.idx, q.goal) && t.bestG == e.g && t.bestIdx == e.idx
  {
    hide H, RelaxFrom;
    var e := First(s.open);
    ApproachStays(v, q, Settle(v, q, Popped(s), e), e.idx, e.g, 0);
  }

  lemma NearestOfMore(v: View, q: Query, e: Entry, log: seq<Entry>, s: State, m: State, t: State)
    requires Ready(v, q) && e.idx < v.N() && NearestOf(v, q, log, m, t)
    requires if NotBetter(H(v, e.idx, q.goal), e.g, s.bestH, s.bestG)
             then m.bestH == s.bestH && m.bestG == s.bestG && m.bestIdx == s.bestIdx
             else m.bestH == H(v, e.idx, q.goal) && m.bestG == e.g && m.bestIdx == e.idx
    ensures NearestOf(v, q, [e] + log, s, t)
  {
    hide H;
    assert forall x | x in [e] + log :: x == e || x in log;
    assert e in [e] + log;
    if exists x :: x in log && x.idx == t.bestIdx && x.g == t.bestG {
      var x :| x in log && x.idx == t.bestIdx && x.g == t.bestG;
      assert x in [e] + log;
    }
  }

  /** A run counts its expansions, stops exactly at its budget, and ends with the nearest approach among them. */
  lemma {:induction false} RunLogs(v: View, q: Query, s: State)
    requires Ready(v, q) && Shaped(v, q, s) && s.expansions <= q.maxExpansions
    ensures var o, log := Run(v, q, s), Log(v, q, s);
            && o.last.expansions == s.expansions + |log| <= q.maxExpansions
            && (o.stop == OutOfBudget ==> o.last.expansions == q.maxExpansions)
            && NearestOf(v, q, log, s, o.last)
    decreases Sum(s.g), |s.open|
  {
    hide Expanded, H;
    if s.open != multiset{} {
      var e := First(s.open);
      OpenInside(v, q, s);
      if SearchMachine.Stale(s, e) {
        RunLogs(v, q, Popped(s));
      } else if e.idx != q.goal && s.expansions < q.maxExpansions {
        ExpandedApproach(v, q, s);
        var t := Expanded(v, q, s);
        RunLogs(v, q, t);
        NearestOfMore(v, q, e, Log(v, q, t), s, t, Run(v, q, t).last);
      }
    }
  }

  lemma OpenInside(v: View, q: Query, s: State)
    requires Ready(v, q) && Shaped(v, q, s) && s.open != multiset{}
    ensures First(s.open).idx < v.N() == |s.g|
  {
  }

  /** What a whole search expanded. */
  ghost function SearchLog(v: View, q: Query): seq<Entry>
    requires Ready(v, q)
  {
    Log(v, q, Init(v, q))
  }

  /** The search's count is the number of expansions; its approach is the start, or the first of the nearest tiles
      expanded.  No expanded tile is nearer to the goal. */
  lemma SearchLogs(v: View, q: Query)
    requires Ready(v, q)
    ensures var o, log := Search(v, q), SearchLog(v, q);
            && o.last.expansions == |log| <= q.maxExpansions
            && (o.stop == OutOfBudget ==> |log| == q.maxExpansions)
            && (o.last.bestIdx == q.start || exists e :: e in log && e.idx == o.last.bestIdx)
            && (forall e | e in log :: e.idx < v.N() && o.last.bestH <= H(v, e.idx, q.goal))
            && o.last.bestH <= H(v, q.start, q.goal)
  {
    hide H, Run, Log;
    SearchStartsAt(v, q);
    RunLogs(v, q, Init(v, q));
  }

  lemma SearchStartsAt(v: View, q: Query)
    requires Ready(v, q)
    ensures var s := Init(v, q);
            && Search(v, q) == Run(v, q, s) && s.expansions == 0
            && s.bestIdx == q.start && s.bestH == H(v, q.start, q.goal)
  {
    hide H, Run;
  }
}
