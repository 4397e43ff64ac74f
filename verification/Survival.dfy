/** When an edit cannot matter to a field: nothing changed in or next to the region the field covers. */
module Survival {
  import opened FixedPoint
  import opened Grid
  import opened FieldMachine
  import opened FieldExact
  import opened Trails
  import opened OpenList

  /** The two tiles are the same or touch, corners included. */
  predicate Near(v: View, i: nat, j: nat)
    requires 0 < v.w
  {
    -1 <= X(v, i) - X(v, j) <= 1 && -1 <= Y(v, i) - Y(v, j) <= 1
  }

  /** Same map, same movement rules; terrain may differ. */
  predicate SameRules(a: View, b: View) {
    a.w == b.w && a.h == b.h && a.conn4 == b.conn4 && a.corner == b.corner
  }

  predicate SameTile(a: View, b: View, i: nat)
    requires a.Valid() && b.Valid() && i < a.N() && i < b.N()
  {
    a.blocked[i] == b.blocked[i] && a.straight[i] == b.straight[i] && a.diagonal[i] == b.diagonal[i]
  }

  /** No tile that changed is in, or touches, the region with finite distances. */
  ghost predicate Undisturbed(a: View, b: View, dist: seq<nat>)
    requires a.Valid() && b.Valid() && SameRules(a, b) && |dist| == a.N()
  {
    forall i: nat, j: nat | i < a.N() && j < a.N() && !SameTile(a, b, i) && Near(a, i, j) :: dist[j] == G_INFINITE
  }

  lemma UndisturbedSymmetric(a: View, b: View, dist: seq<nat>)
    requires a.Valid() && b.Valid() && SameRules(a, b) && |dist| == a.N() && Undisturbed(a, b, dist)
    ensures Undisturbed(b, a, dist)
  {
    forall i: nat, j: nat | i < b.N() && j < b.N() && !SameTile(b, a, i) && Near(b, i, j)
      ensures dist[j] == G_INFINITE
    {
      assert !SameTile(a, b, i) && Near(a, i, j);
    }
  }

  /** A tile touching a finite one has not changed. */
  lemma NearFiniteSame(a: View, b: View, dist: seq<nat>, i: nat, j: nat)
    requires a.Valid() && b.Valid() && SameRules(a, b) && |dist| == a.N() && Undisturbed(a, b, dist)
    requires i < a.N() && j < a.N() && Near(a, i, j) && dist[j] < G_INFINITE
    ensures SameTile(a, b, i)
  {
  }

  lemma SameGeometry(a: View, b: View, i: nat, d: nat)
    requires a.Valid() && b.Valid() && SameRules(a, b) && i < a.N() && d < 8
    ensures InBounds(a, i, d) <==> InBounds(b, i, d)
    ensures InBounds(a, i, d) ==> Nbr(a, i, d) == Nbr(b, i, d)
    ensures InBounds(a, i, d) && d >= 4 ==> FlankA(a, i, d) == FlankA(b, i, d) && FlankB(a, i, d) == FlankB(b, i, d)
  {
  }

  /** Both flanks of a diagonal step touch its target. */
  lemma FlanksTouchTarget(v: View, i: nat, d: nat)
    requires v.Valid() && i < v.N() && 4 <= d < 8 && InBounds(v, i, d)
    ensures Near(v, FlankA(v, i, d), Nbr(v, i, d)) && Near(v, FlankB(v, i, d), Nbr(v, i, d))
  {
    hide X, Y;
  }

  /** Steps onto finite tiles are the same before and after, at the same cost. */
  lemma SameStep(a: View, b: View, dist: seq<nat>, i: nat, d: nat)
    requires a.Valid() && b.Valid() && SameRules(a, b) && |dist| == a.N() && Undisturbed(a, b, dist)
    requires i < a.N() && CanStep(a, i, d) && dist[Dest(a, i, d)] < G_INFINITE
    ensures CanStep(b, i, d) && Dest(b, i, d) == Dest(a, i, d)
    ensures EnterCost(b, Dest(a, i, d), d) == EnterCost(a, Dest(a, i, d), d)
  {
    var u := Dest(a, i, d);
    SameGeometry(a, b, i, d);
    NearFiniteSame(a, b, dist, u, u);
    if d >= 4 {
      FlanksTouchTarget(a, i, d);
      NearFiniteSame(a, b, dist, FlankA(a, i, d), u);
      NearFiniteSame(a, b, dist, FlankB(a, i, d), u);
    }
  }

  /** The sources themselves are finite, so they have not changed either. */
  lemma SameSource(a: View, b: View, t: Target, s: FieldState, i: nat)
    requires a.Valid() && b.Valid() && SameRules(a, b) && ValidTarget(a, t) && ValidTarget(b, t) && Usable(a, t, s)
    requires Undisturbed(a, b, s.dist) && i < a.N() && (t.Tile? ==> !a.blocked[t.goal])
    ensures Source(a, t, i) <==> Source(b, t, i)
    ensures t.Tile? ==> !b.blocked[t.goal]
  {
    if t.Tile? {
      SourceIsZero(a, t, s, t.goal);
      NearFiniteSame(a, b, s.dist, t.goal, t.goal);
    }
  }

  lemma SameTargets(a: View, b: View, t: Target)
    requires a.Valid() && b.Valid() && SameRules(a, b) && ValidTarget(a, t)
    ensures a.N() == b.N() && SameRules(b, a) && ValidTarget(b, t)
  {
  }

  /** What a step onto a finite tile accounted for before, it accounts for after. */
  lemma StillTensed(a: View, b: View, t: Target, s: FieldState, i: nat, d: nat)
    requires a.Valid() && b.Valid() && SameRules(a, b) && SameRules(b, a) && ValidTarget(a, t) && Usable(a, t, s)
    requires Formed(b, s) && Undisturbed(a, b, s.dist) && i < b.N()
    requires CanStep(b, i, d) && s.dist[Dest(b, i, d)] < G_INFINITE
    ensures Tensed(b, s, i, d)
  {
    hide CanStep, Dest, EnterCost, Finished, SameRules, Undisturbed;
    assert a.N() == b.N() by { SameTargets(a, b, t); }
    UndisturbedSymmetric(a, b, s.dist);
    SameStep(b, a, s.dist, i, d);
    FinishedStep(a, t, s, i, d);
  }

  lemma StillDirected(a: View, b: View, t: Target, s: FieldState, i: nat)
    requires a.Valid() && b.Valid() && SameRules(a, b) && ValidTarget(a, t) && Usable(a, t, s) && Formed(b, s)
    requires Undisturbed(a, b, s.dist) && i < a.N() == b.N() && s.dist[i] < G_INFINITE && !Source(a, t, i)
    ensures Directed(b, s, i)
  {
    hide CanStep, Dest, EnterCost, Finished, SameRules, Undisturbed, Source;
    NextIsTight(a, t, s, i);
    SameStep(a, b, s.dist, i, s.next[i] - 1);
  }

  /** The heart of targeted invalidation: a finished field stays finished, with the same distances and directions,
      through edits that leave its region and the tiles around it alone. */
  lemma UndisturbedStaysUsable(a: View, b: View, t: Target, s: FieldState)
    requires a.Valid() && b.Valid() && SameRules(a, b) && ValidTarget(a, t) && Usable(a, t, s)
    requires Undisturbed(a, b, s.dist) && (t.Tile? ==> !a.blocked[t.goal])
    ensures ValidTarget(b, t) && Usable(b, t, s) && (t.Tile? ==> !b.blocked[t.goal])
  {
    hide CanStep, Dest, EnterCost, SameRules, Undisturbed, Source, Tensed, Directed, Trailed;
    SameTargets(a, b, t);
    forall i: nat, d: nat | i < b.N() && CanStep(b, i, d) && s.dist[Dest(b, i, d)] < G_INFINITE
      ensures Tensed(b, s, i, d)
    {
      StillTensed(a, b, t, s, i, d);
    }
    forall i: nat | i < b.N() ensures Source(a, t, i) <==> Source(b, t, i) {
      SameSource(a, b, t, s, i);
    }
    forall i: nat | i < b.N() && s.dist[i] < G_INFINITE && !Source(b, t, i) ensures Directed(b, s, i) {
      StillDirected(a, b, t, s, i);
    }
    if t.Tile? {
      SameSource(a, b, t, s, t.goal);
    }
  }

  // ---------- the build never looks beyond tiles next to finite ones ----------

  /** Everything in or next to `u` is the same. */
  ghost predicate SameAround(a: View, b: View, u: nat)
    requires a.Valid() && b.Valid() && SameRules(a, b)
  {
    forall j: nat | j < a.N() && Near(a, j, u) :: SameTile(a, b, j)
  }

  /** A tile, its neighbours and the flanks between them are near it. */
  lemma NeighboursNear(v: View, u: nat, d: nat)
    requires v.Valid() && u < v.N() && d < 8 && InBounds(v, u, d)
    ensures Near(v, u, u) && Near(v, Nbr(v, u, d), u)
    ensures d >= 4 ==> Near(v, FlankA(v, u, d), u) && Near(v, FlankB(v, u, d), u)
  {
    hide X, Y;
  }

  lemma SamePull(a: View, b: View, s: FieldState, u: nat, d: nat)
    requires a.Valid() && b.Valid() && SameRules(a, b) && a.N() == b.N() && u < a.N() && SameAround(a, b, u)
    requires Formed(a, s) && Formed(b, s)
    ensures Pull(a, s, u, d) == Pull(b, s, u, d)
  {
    hide Pulls, Puller, EnterCost, Formed, SameAround, SameRules;
    SamePulls(a, b, u, d);
  }

  lemma SamePulls(a: View, b: View, u: nat, d: nat)
    requires a.Valid() && b.Valid() && SameRules(a, b) && a.N() == b.N() && u < a.N() && SameAround(a, b, u)
    ensures Pulls(a, u, d) <==> Pulls(b, u, d)
    ensures Pulls(a, u, d) ==> Puller(a, u, d) == Puller(b, u, d) < a.N() && d < 8
    ensures Pulls(a, u, d) ==> EnterCost(a, u, d) == EnterCost(b, u, d)
    ensures Pulls(a, u, d) ==> a.blocked[Puller(a, u, d)] == b.blocked[Puller(b, u, d)]
  {
    hide Near, X, Y, GridInBounds, GridNbr;
    if d < 8 {
      SameGeometry(a, b, u, d);
      if InBounds(a, u, d) {
        NeighboursNear(a, u, d);
      }
    }
  }

  lemma {:induction false} SamePullFrom(a: View, b: View, s: FieldState, u: nat, d: nat)
    requires a.Valid() && b.Valid() && SameRules(a, b) && a.N() == b.N() && u < a.N() && SameAround(a, b, u)
    requires Formed(a, s) && Formed(b, s) && d <= a.Dirs()
    ensures PullFrom(a, s, u, d) == PullFrom(b, s, u, d)
    decreases a.Dirs() - d
  {
    hide SameAround, Formed, Pull;
    if d < a.Dirs() {
      SamePull(a, b, s, u, d);
      SamePullFrom(a, b, Pull(a, s, u, d), u, d + 1);
    }
  }

  ghost predicate Lower(g: seq<nat>, k: seq<nat>) {
    |g| == |k| && forall i | 0 <= i < |g| :: g[i] <= k[i]
  }

  lemma LowerChain(a: seq<nat>, b: seq<nat>, c: seq<nat>)
    requires Lower(a, b) && Lower(b, c)
    ensures Lower(a, c)
  {
  }

  lemma PullLowers(v: View, s: FieldState, u: nat, d: nat)
    requires v.Valid() && Formed(v, s) && u < v.N()
    ensures Lower(Pull(v, s, u, d).dist, s.dist)
  {
    hide EnterCost, Pulls, Puller;
  }

  lemma {:induction false} PullFromLowers(v: View, s: FieldState, u: nat, d: nat)
    requires v.Valid() && Formed(v, s) && u < v.N() && d <= v.Dirs()
    ensures Lower(PullFrom(v, s, u, d).dist, s.dist)
    decreases v.Dirs() - d
  {
    hide Formed, Pull;
    if d < v.Dirs() {
      PullLowers(v, s, u, d);
      PullFromLowers(v, Pull(v, s, u, d), u, d + 1);
      LowerChain(PullFrom(v, s, u, d).dist, Pull(v, s, u, d).dist, s.dist);
    }
  }

  lemma OpenInside(v: View, s: FieldState)
    requires v.Valid() && Formed(v, s) && s.open != multiset{}
    ensures var e := First(s.open);
            e in s.open && e.idx < v.N() == |s.dist| && Formed(v, Dropped(s))
                && (e.f == s.dist[e.idx] ==> s.dist[e.idx] < G_INFINITE)
  {
  }

  lemma {:induction false} BuildLowers(v: View, s: FieldState)
    requires v.Valid() && Formed(v, s)
    ensures Lower(Build(v, s).dist, s.dist)
    decreases Sum(s.dist), |s.open|
  {
    hide Formed, PullFrom, Lower, First;
    if s.open == multiset{} {
      LowerSelf(s.dist);
    } else {
      OpenInside(v, s);
      var e := First(s.open);
      if e.f != s.dist[e.idx] {
        BuildLowers(v, Dropped(s));
      } else {
        PullFromLowers(v, Dropped(s), e.idx, 0);
        BuildLowers(v, Settled(v, s));
        LowerChain(Build(v, s).dist, Settled(v, s).dist, s.dist);
      }
    }
  }

  lemma LowerSelf(g: seq<nat>)
    ensures Lower(g, g)
  {
  }

  /** A well-formed state before the edits is one after them: open entries are finite. */
  lemma StillFormed(a: View, b: View, s: FieldState, last: seq<nat>)
    requires a.Valid() && b.Valid() && SameRules(a, b) && a.N() == b.N() == |last| && Formed(a, s)
    requires Undisturbed(a, b, last) && Lower(last, s.dist)
    ensures Formed(b, s)
  {
    hide Undisturbed, X, Y;
    forall e | e in s.open ensures !b.blocked[e.idx] {
      assert Near(a, e.idx, e.idx);
      NearFiniteSame(a, b, last, e.idx, e.idx);
    }
  }

  lemma AllAround(a: View, b: View, last: seq<nat>, u: nat)
    requires a.Valid() && b.Valid() && SameRules(a, b) && |last| == a.N() && Undisturbed(a, b, last)
    requires u < a.N() && last[u] < G_INFINITE
    ensures SameAround(a, b, u)
  {
    hide Near, SameTile;
    forall j: nat | j < a.N() && Near(a, j, u) ensures SameTile(a, b, j) {
      NearFiniteSame(a, b, last, j, u);
    }
  }

  /** The tile settled next is the same, and so is everything around it. */
  lemma SameSettled(a: View, b: View, s: FieldState, last: seq<nat>)
    requires a.Valid() && b.Valid() && SameRules(a, b) && a.N() == b.N() == |last| && Formed(a, s) && Formed(b, s)
    requires Undisturbed(a, b, last) && Lower(last, s.dist)
    requires s.open != multiset{} && First(s.open).f == s.dist[First(s.open).idx]
    ensures Settled(a, s) == Settled(b, s)
  {
    hide Undisturbed, PullFrom, SameAround, Near, SameTile, SameRules, Formed, First;
    OpenInside(a, s);
    OpenInside(b, s);
    var u := First(s.open).idx;
    assert last[u] <= s.dist[u];
    AllAround(a, b, last, u);
    SamePullFrom(a, b, Dropped(s), u, 0);
  }

  lemma {:induction false} SameBuild(a: View, b: View, s: FieldState)
    requires a.Valid() && b.Valid() && SameRules(a, b) && a.N() == b.N() && Formed(a, s)
    requires Undisturbed(a, b, Build(a, s).dist)
    ensures Formed(b, s) && Build(b, s) == Build(a, s)
    decreases Sum(s.dist), |s.open|
  {
    hide Undisturbed, Build, Settled, SameRules, Formed, First, Lower, View.Valid, Dropped;
    BuildShape(a, s);
    BuildLowers(a, s);
    StillFormed(a, b, s, Build(a, s).dist);
    BuildStep(a, s);
    BuildStep(b, s);
    if s.open != multiset{} {
      if First(s.open).f != s.dist[First(s.open).idx] {
        SameBuild(a, b, Dropped(s));
      } else {
        SameSettled(a, b, s, Build(a, s).dist);
        SameBuild(a, b, Settled(a, s));
      }
    }
  }

  /** One turn of the build's loop. */
  lemma BuildStep(v: View, s: FieldState)
    requires v.Valid() && Formed(v, s)
    ensures s.open == multiset{} ==> Build(v, s) == s
    ensures s.open != multiset{} ==>
              && First(s.open).idx < |s.dist| && Formed(v, Dropped(s)) && Dropped(s).dist == s.dist
              && |Dropped(s).open| < |s.open|
              && Build(v, s) == if First(s.open).f != s.dist[First(s.open).idx] then Build(v, Dropped(s))
                 else Build(v, Settled(v, s))
  {
    hide PullFrom;
  }

  lemma BuildShape(v: View, s: FieldState)
    requires v.Valid() && Formed(v, s)
    ensures |Build(v, s).dist| == v.N()
  {
    hide Build;
  }

  lemma {:induction false} SameEntries(a: View, b: View, t: Target, k: nat)
    requires a.Valid() && b.Valid() && a.N() == b.N() && ValidTarget(a, t) && k <= a.N()
    requires forall i: nat | i < a.N() :: Source(a, t, i) == Source(b, t, i)
    requires forall i: nat | i < a.N() && Source(a, t, i) :: a.blocked[i] == b.blocked[i]
    ensures ValidTarget(b, t) && SourceEntries(a, t, k) == SourceEntries(b, t, k)
  {
    hide Source, View.Valid;
    if k > 0 {
      SameEntries(a, b, t, k - 1);
    }
  }

  /** Edits that leave alone the region a field covers, and the tiles next to it, leave the whole build alone: a fresh
      build on the edited terrain gives the same distances and the same directions. */
  lemma UndisturbedSameField(a: View, b: View, t: Target)
    requires a.Valid() && b.Valid() && SameRules(a, b) && ValidTarget(a, t) && (t.Tile? ==> !a.blocked[t.goal])
    requires Undisturbed(a, b, Field(a, t).dist)
    ensures ValidTarget(b, t) && (t.Tile? ==> !b.blocked[t.goal]) && Field(b, t) == Field(a, t)
  {
    hide Undisturbed, Build, SameRules, SameTile, Near, Finished;
    SameTargets(a, b, t);
    FieldFinished(a, t);
    forall i: nat | i < a.N()
      ensures Source(a, t, i) == Source(b, t, i)
              && (Source(a, t, i) ==> a.blocked[i] == b.blocked[i])
    {
      SameSource(a, b, t, Field(a, t), i);
      if Source(a, t, i) {
        SourceUnchanged(a, b, t, i);
      }
    }
    SameStart(a, b, t);
    SameBuild(a, b, Start(a, t));
  }

  lemma SourceUnchanged(a: View, b: View, t: Target, i: nat)
    requires a.Valid() && b.Valid() && SameRules(a, b) && ValidTarget(a, t) && i < a.N() == b.N() && Source(a, t, i)
    requires Undisturbed(a, b, Field(a, t).dist)
    ensures a.blocked[i] == b.blocked[i]
  {
    hide Undisturbed, Build, Finished, Field, X, Y;
    FieldFinished(a, t);
    SourceIsZero(a, t, Field(a, t), i);
    assert Near(a, i, i);
    NearFiniteSame(a, b, Field(a, t).dist, i, i);
  }

  lemma SameStart(a: View, b: View, t: Target)
    requires a.Valid() && b.Valid() && a.N() == b.N() && ValidTarget(a, t) && ValidTarget(b, t)
    requires forall i: nat | i < a.N() :: Source(a, t, i) == Source(b, t, i)
    requires forall i: nat | i < a.N() && Source(a, t, i) :: a.blocked[i] == b.blocked[i]
    ensures Start(a, t) == Start(b, t)
  {
    hide Source, SourceEntries;
    SameEntries(a, b, t, a.N());
  }
}
