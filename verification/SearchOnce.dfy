/** At epsilon 1 with a sound heuristic no tile is expanded twice, so a search never needs more expansions than the map
    has tiles, and an unlimited budget really is one. */
module SearchOnce {
  import opened FixedPoint
  import opened Grid
  import opened Heuristic
  import opened OpenList
  import opened Trails
  import opened SearchMachine
  import opened SearchInvariant
  import opened SearchResults
  import opened SearchExact

  ghost function LiveEntry(v: View, q: Query, s: State, u: nat): Entry
    requires Ready(v, q) && Shaped(v, q, s) && u < v.N()
  {
    Entry(F(v, q, u, s.g[u]), s.g[u], u)
  }

  /** No tile's current entry is open twice. */
  ghost predicate Single(v: View, q: Query, s: State)
    requires Ready(v, q) && Shaped(v, q, s)
  {
    forall u: nat | u < v.N() :: s.open[LiveEntry(v, q, s, u)] <= 1
  }

  /** The tiles in `done` are expanded for good: final and not open. */
  ghost predicate Shut(v: View, q: Query, s: State, done: set<nat>)
    requires Ready(v, q) && Shaped(v, q, s)
  {
    forall u | u in done :: u < v.N() && u != q.goal && s.g[u] < G_INFINITE && Final(v, q, s, u) && !Pending(v, q, s, u)
  }

  lemma ImprovedSingle(v: View, q: Query, s: State, cur: nat, d: nat, t: State)
    requires Ready(v, q) && Shaped(v, q, s) && Shaped(v, q, t) && cur < v.N() && CanStep(v, cur, d)
    requires Improved(v, q, s, cur, d, t) && Single(v, q, s)
    ensures Single(v, q, t)
  {
    hide CanStep, Dest, EnterCost, F;
    var nb := Dest(v, cur, d);
    var added := LiveEntry(v, q, t, nb);
    assert added !in s.open;
    forall u: nat | u < v.N() ensures t.open[LiveEntry(v, q, t, u)] <= 1 {
      if u != nb {
        assert LiveEntry(v, q, t, u) == LiveEntry(v, q, s, u) && LiveEntry(v, q, t, u) != added;
      }
    }
  }

  lemma ImprovedShut(v: View, q: Query, s: State, cur: nat, d: nat, t: State, done: set<nat>)
    requires Ready(v, q) && Shaped(v, q, s) && Shaped(v, q, t) && cur < v.N() && CanStep(v, cur, d)
    requires Improved(v, q, s, cur, d, t) && Chained(v, q, s) && s.g[cur] < G_INFINITE && Shut(v, q, s, done)
    ensures Shut(v, q, t, done)
  {
    hide CanStep, Dest, EnterCost, F, Chained, Final;
    FinalStays(v, q, s, cur, d, t);
    forall u | u in done
      ensures u < v.N() && u != q.goal && t.g[u] < G_INFINITE && Final(v, q, t, u) && !Pending(v, q, t, u)
    {
      assert u != Dest(v, cur, d);
      SameFinal(v, q, s, t, u);
    }
  }

  lemma RelaxShut(v: View, q: Query, s: State, cur: nat, d: nat, done: set<nat>)
    requires Ready(v, q) && Shaped(v, q, s) && cur < v.N() && d < v.Dirs()
    requires Chained(v, q, s) && s.g[cur] < G_INFINITE && Shut(v, q, s, done) && Single(v, q, s)
    ensures var t := Relax(v, q, s, cur, s.g[cur], d);
            Shut(v, q, t, done) && Single(v, q, t) && t.g[cur] == s.g[cur] && t.expansions == s.expansions
  {
    RelaxBooks(v, q, s, cur, d);
    hide CanStep, Dest, EnterCost, F, H, Relax, Relaxed, Chained, Improved, Final, Pending;
    RelaxCases(v, q, s, cur, d);
    var t := Relax(v, q, s, cur, s.g[cur], d);
    if CanStep(v, cur, d) && Improved(v, q, s, cur, d, t) {
      ImprovedHere(v, q, s, cur, d, t);
      ImprovedSingle(v, q, s, cur, d, t);
      ImprovedShut(v, q, s, cur, d, t, done);
    } else {
      SameShut(v, q, s, t, done);
    }
  }

  lemma RelaxBooks(v: View, q: Query, s: State, cur: nat, d: nat)
    requires Ready(v, q) && Shaped(v, q, s) && cur < v.N()
    ensures Relax(v, q, s, cur, s.g[cur], d).expansions == s.expansions
  {
    hide Sum, CanStep, F;
  }

  lemma SameShut(v: View, q: Query, s: State, t: State, done: set<nat>)
    requires Ready(v, q) && Shaped(v, q, s) && Shaped(v, q, t) && t.g == s.g && t.open <= s.open
    requires Shut(v, q, s, done) && Single(v, q, s)
    ensures Shut(v, q, t, done) && Single(v, q, t)
  {
    hide F, Final;
    forall u | u in done ensures u < v.N() && t.g[u] < G_INFINITE && Final(v, q, t, u) && !Pending(v, q, t, u) {
      SameFinal(v, q, s, t, u);
    }
    forall u: nat | u < v.N() ensures t.open[LiveEntry(v, q, t, u)] <= 1 {
      assert LiveEntry(v, q, t, u) == LiveEntry(v, q, s, u);
      SubCount(t.open, s.open, LiveEntry(v, q, s, u));
    }
  }

  lemma SubCount(a: multiset<Entry>, b: multiset<Entry>, e: Entry)
    requires a <= b
    ensures a[e] <= b[e]
  {
  }

  lemma {:induction false} RelaxFromShut(v: View, q: Query, s: State, cur: nat, d: nat, done: set<nat>)
    requires Ready(v, q) && Shaped(v, q, s) && cur < v.N() && d <= v.Dirs()
    requires Booked(v, q, s) && Covered(v, q, s, cur, d) && Chained(v, q, s) && Closest(v, q, s) && Trailed(s.g)
    requires s.g[cur] < G_INFINITE && Shut(v, q, s, done) && Single(v, q, s)
    ensures var t := RelaxFrom(v, q, s, cur, s.g[cur], d);
            Shut(v, q, t, done) && Single(v, q, t) && t.expansions == s.expansions
    decreases v.Dirs() - d
  {
    hide Booked, Covered, Chained, Closest, Trailed, Relax, Shut, Single;
    if d < v.Dirs() {
      RelaxKeeps(v, q, s, cur, d);
      RelaxShut(v, q, s, cur, d, done);
      RelaxFromShut(v, q, Relax(v, q, s, cur, s.g[cur], d), cur, d + 1, done);
    }
  }

  /** Popping a tile's only current entry closes it. */
  lemma PopCloses(v: View, q: Query, s: State, done: set<nat>, e: Entry)
    requires Ready(v, q) && Shaped(v, q, s) && s.open != multiset{} && e == First(s.open) && e.idx < v.N()
             && !Stale(s, e)
    requires Booked(v, q, s) && Shut(v, q, s, done) && Single(v, q, s) && Final(v, q, s, e.idx) && e.idx != q.goal
    requires Shaped(v, q, Popped(s))
    ensures e.idx !in done && s.g[e.idx] < G_INFINITE
    ensures var t := Settle(v, q, Popped(s), e);
            Shut(v, q, t, done + {e.idx}) && Single(v, q, t) && t.expansions == s.expansions + 1
  {
    hide F, H, Final, Settle, Popped, Booked, First, Shut, Single, Shaped, Ready;
    SettleOpen(v, q, s, e);
    var t := Settle(v, q, Popped(s), e);
    OnlyEntry(v, q, s, e);
    SameShut(v, q, s, t, done);
    SameFinal(v, q, s, t, e.idx);
    NotAmong(v, q, s, done, e.idx);
    ShutMore(v, q, t, done, e.idx);
  }

  lemma NotAmong(v: View, q: Query, s: State, done: set<nat>, u: nat)
    requires Ready(v, q) && Shaped(v, q, s) && Shut(v, q, s, done) && u < v.N() && Pending(v, q, s, u)
    ensures u !in done
  {
    hide Pending, Final;
  }

  lemma ShutMore(v: View, q: Query, s: State, done: set<nat>, u: nat)
    requires Ready(v, q) && Shaped(v, q, s) && Shut(v, q, s, done)
    requires u < v.N() && u != q.goal && s.g[u] < G_INFINITE && Final(v, q, s, u) && !Pending(v, q, s, u)
    ensures Shut(v, q, s, done + {u})
  {
    hide Pending, Final, Ready, Shaped;
  }

  lemma SettleOpen(v: View, q: Query, s: State, e: Entry)
    requires Ready(v, q) && s.open != multiset{} && e == First(s.open) && e.idx < v.N() && Shaped(v, q, Popped(s))
    ensures var t := Settle(v, q, Popped(s), e);
            t.g == s.g && t.open == s.open - multiset{e} <= s.open && t.expansions == s.expansions + 1
                && Shaped(v, q, t)
  {
    hide H;
  }

  lemma OnlyEntry(v: View, q: Query, s: State, e: Entry)
    requires Ready(v, q) && Shaped(v, q, s) && e in s.open && e.idx < v.N() && !Stale(s, e)
    requires Booked(v, q, s) && Single(v, q, s)
    ensures s.g[e.idx] < G_INFINITE && e == LiveEntry(v, q, s, e.idx) && Pending(v, q, s, e.idx)
    ensures e !in s.open - multiset{e} && |s.g| == v.N()
  {
    hide F;
  }

  lemma ExpandShut(v: View, q: Query, s: State, done: set<nat>)
    requires Ready(v, q) && Sound(v) && q.eps == Q_ONE
    requires Shaped(v, q, s) && s.open != multiset{} && First(s.open).idx < v.N() && !Stale(s, First(s.open))
    requires Inv(v, q, s) && First(s.open).idx != q.goal && Shut(v, q, s, done) && Single(v, q, s)
    ensures var u, t := First(s.open).idx, Expanded(v, q, s);
            u !in done && Shut(v, q, t, done + {u}) && Single(v, q, t) && t.expansions == s.expansions + 1
  {
    hide Booked, Covered, Chained, Closest, Trailed, RelaxFrom, Shut, Single, Final, Settle, Sound, Popped, F, H;
    PoppedIsFinal(v, q, s);
    var e := First(s.open);
    SettleKeeps(v, q, s, e);
    PopCloses(v, q, s, done, e);
    SettledBooks(v, q, s, e);
    RelaxFromShut(v, q, Settle(v, q, Popped(s), e), e.idx, 0, done + {e.idx});
  }

  /** Closed tiles are none of the goal and the tile to be expanded, so they leave room for both. */
  lemma RoomForTwo(v: View, q: Query, s: State, done: set<nat>, u: nat)
    requires Ready(v, q) && Shaped(v, q, s) && Shut(v, q, s, done)
    ensures |done| + 1 <= v.N()
    ensures u < v.N() && u !in done && u != q.goal ==> |done| + 2 <= v.N()
  {
    SetBelow(done + {q.goal}, v.N());
    if u < v.N() && u !in done && u != q.goal {
      SetBelow(done + {q.goal, u}, v.N());
    }
  }

  lemma {:induction false} RunOnce(v: View, q: Query, s: State, done: set<nat>)
    requires Ready(v, q) && Sound(v) && q.eps == Q_ONE
    requires Shaped(v, q, s) && Inv(v, q, s) && Shut(v, q, s, done) && Single(v, q, s) && |done| == s.expansions
    ensures Run(v, q, s).last.expansions < v.N()
    ensures v.N() <= q.maxExpansions + 1 ==> Run(v, q, s).stop != OutOfBudget
    decreases Sum(s.g), |s.open|
  {
    hide Inv, Expanded, Sound, Shut, Single;
    RoomForTwo(v, q, s, done, if s.open == multiset{} then 0 else First(s.open).idx);
    if s.open != multiset{} {
      var e := First(s.open);
      if SearchMachine.Stale(s, e) {
        StalePopKeeps(v, q, s);
        SameShut(v, q, s, Popped(s), done);
        RunOnce(v, q, Popped(s), done);
      } else if e.idx != q.goal {
        ExpandKeeps(v, q, s);
        ExpandShut(v, q, s, done);
        if s.expansions < q.maxExpansions {
          RunOnce(v, q, Expanded(v, q, s), done + {e.idx});
        }
      }
    }
  }

  /** At epsilon 1 with sound floors every tile but the goal is expanded at most once, so a budget of one expansion per
      tile never ends a search. */
  lemma ExpandsOnce(v: View, q: Query)
    requires Ready(v, q) && Sound(v) && q.eps == Q_ONE
    ensures Search(v, q).last.expansions < v.N()
    ensures v.N() <= q.maxExpansions + 1 ==> Search(v, q).stop != OutOfBudget
  {
    hide Inv, Run, Sound;
    InitHolds(v, q);
    RunOnce(v, q, Init(v, q), {});
  }
}
