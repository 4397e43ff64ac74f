/** A finished field is exact: infinite where no route leads to a source, and elsewhere the least cost of one,
    attained by following the recorded directions. */
module FieldExact {
  import opened FixedPoint
  import opened Grid
  import opened OpenList
  import opened Trails
  import opened FieldMachine

  // ---------- what exact means, with no reference to how a field is built ----------

  ghost predicate Leads(v: View, t: Target, i: nat, r: Route)
    requires v.Valid() && ValidTarget(v, t) && i < v.N()
  {
    Legal(v, i, r) && Source(v, t, End(v, i, r))
  }

  ghost predicate ExactAt(v: View, t: Target, i: nat, dist: nat)
    requires v.Valid() && ValidTarget(v, t) && i < v.N()
  {
    if dist == G_INFINITE then forall r: Route :: !Leads(v, t, i, r)
    else
      && (exists r: Route :: Leads(v, t, i, r) && Cost(v, i, r) == dist)
      && (forall r: Route | Leads(v, t, i, r) :: dist <= Cost(v, i, r))
  }

  ghost predicate ExactField(v: View, t: Target, dist: seq<nat>)
    requires v.Valid() && ValidTarget(v, t)
  {
    |dist| == v.N() && forall i: nat | i < v.N() :: ExactAt(v, t, i, dist[i])
  }

  /** Exactness fixes the distances: a cached field that is exact is the field a fresh build would give. */
  lemma ExactIsUnique(v: View, t: Target, a: seq<nat>, b: seq<nat>)
    requires v.Valid() && ValidTarget(v, t) && ExactField(v, t, a) && ExactField(v, t, b)
    ensures a == b
  {
    hide Leads;
    forall i: nat | i < v.N() ensures a[i] == b[i] {
      assert ExactAt(v, t, i, a[i]) && ExactAt(v, t, i, b[i]);
    }
  }

  // ---------- the invariant of a build ----------

  ghost predicate Waiting(v: View, s: FieldState, u: nat)
    requires v.Valid() && Formed(v, s) && u < v.N()
  {
    Entry(s.dist[u], s.dist[u], u) in s.open
  }

  /** The opposite direction. */
  function Turned(d: nat): nat { if d < 8 then OPPOSITE[d] else 0 }

  /** The step from `i` along `d` has been accounted for. */
  ghost predicate Tensed(v: View, s: FieldState, i: nat, d: nat)
    requires v.Valid() && Formed(v, s) && i < v.N() && CanStep(v, i, d)
  {
    var u := Dest(v, i, d);
    s.dist[i] <= s.dist[u] + EnterCost(v, u, d)
  }

  /** Every step onto a tile with a distance is accounted for, unless that tile waits, or is being settled and the
      direction towards the step has not been looked at. */
  ghost predicate Spread(v: View, s: FieldState, cur: nat, k: nat)
    requires v.Valid() && Formed(v, s)
  {
    forall i: nat, d: nat | i < v.N() && CanStep(v, i, d) && s.dist[Dest(v, i, d)] < G_INFINITE ::
      Waiting(v, s, Dest(v, i, d)) || Tensed(v, s, i, d) || (Dest(v, i, d) == cur && Turned(d) >= k)
  }

  /** The recorded direction leads along a legal step to a tile that accounts for the distance. */
  ghost predicate Directed(v: View, s: FieldState, i: nat)
    requires v.Valid() && Formed(v, s) && i < v.N()
  {
    && s.next[i] > 0 && CanStep(v, i, s.next[i] - 1)
    && s.dist[Dest(v, i, s.next[i] - 1)] + EnterCost(v, Dest(v, i, s.next[i] - 1), s.next[i] - 1) <= s.dist[i]
  }

  ghost predicate Guided(v: View, t: Target, s: FieldState)
    requires v.Valid() && ValidTarget(v, t) && Formed(v, s)
  {
    && (forall i: nat | i < v.N() && Source(v, t, i) :: s.dist[i] == 0 && s.next[i] == 0)
    && (forall i: nat | i < v.N() && s.dist[i] < G_INFINITE && !Source(v, t, i) :: Directed(v, s, i))
  }

  ghost predicate FieldInv(v: View, t: Target, s: FieldState, cur: nat, k: nat)
    requires v.Valid() && ValidTarget(v, t) && Formed(v, s)
  {
    Spread(v, s, cur, k) && Guided(v, t, s) && Trailed(s.dist)
  }

  lemma StartHolds(v: View, t: Target)
    requires v.Valid() && ValidTarget(v, t)
    ensures FieldInv(v, t, Start(v, t), 0, 8)
  {
    hide CanStep, Dest, EnterCost, Source, Start, Waiting, Tensed, Trailed;
    var s := Start(v, t);
    StartFacts(v, t);
    forall i: nat, d: nat | i < v.N() && CanStep(v, i, d) && s.dist[Dest(v, i, d)] < G_INFINITE
      ensures Waiting(v, s, Dest(v, i, d))
    {
      StepEnters(v, i, d);
    }
    ZeroOrInfinite(s.dist);
  }

  lemma ZeroOrInfinite(g: seq<nat>)
    requires forall u: nat | u < |g| :: g[u] == 0 || g[u] == G_INFINITE
    ensures Trailed(g)
  {
    hide Trail;
    forall u: nat | u < |g| && g[u] < G_INFINITE ensures exists p, k :: Trail(g, u, p, k) {
      StartTrailed(g, u);
    }
  }

  lemma StepEnters(v: View, i: nat, d: nat)
    requires v.Valid() && i < v.N() && CanStep(v, i, d)
    ensures !v.blocked[Dest(v, i, d)] && d < 8 && Turned(d) < v.Dirs()
  {
  }

  lemma StartFacts(v: View, t: Target)
    requires v.Valid() && ValidTarget(v, t)
    ensures var s := Start(v, t);
            forall i: nat | i < v.N() ::
              && s.next[i] == 0
              && s.dist[i] == (if Source(v, t, i) then 0 else G_INFINITE)
              && (Source(v, t, i) && !v.blocked[i] ==> Waiting(v, s, i))
  {
    forall i: nat | i < v.N() && Source(v, t, i) && !v.blocked[i] ensures Waiting(v, Start(v, t), i) {
      SourceEntry(v, t, v.N(), Entry(0, 0, i));
    }
  }

  /** What one improvement does. */
  ghost predicate Lowered(v: View, s: FieldState, u: nat, d: nat, t: FieldState)
    requires v.Valid() && Formed(v, s) && Formed(v, t) && u < v.N() && Pulls(v, u, d) && d < 8
  {
    var i := Puller(v, u, d);
    var cand := s.dist[u] + EnterCost(v, u, d);
    && s.dist[u] < cand < s.dist[i]
    && t.dist == s.dist[i := cand] && t.next == s.next[i := OPPOSITE[d] + 1]
    && t.open == if v.blocked[i] then s.open else s.open + multiset{Entry(cand, cand, i)}
  }

  lemma PullCases(v: View, s: FieldState, u: nat, d: nat)
    requires v.Valid() && Formed(v, s) && u < v.N() && d < v.Dirs()
    ensures var t := Pull(v, s, u, d);
            || (t == s && (Pulls(v, u, d) ==> s.dist[Puller(v, u, d)] <= s.dist[u] + EnterCost(v, u, d)))
            || (Pulls(v, u, d) && Lowered(v, s, u, d, t))
  {
    hide Pulls, Puller;
  }

  lemma LoweredFrame(v: View, s: FieldState, u: nat, d: nat, t: FieldState)
    requires v.Valid() && Formed(v, s) && Formed(v, t) && u < v.N() && Pulls(v, u, d) && d < 8
    requires Lowered(v, s, u, d, t)
    ensures Puller(v, u, d) != u && t.dist[u] == s.dist[u]
    ensures forall x: nat | x < v.N() :: t.dist[x] <= s.dist[x]
    ensures forall x: nat | x < v.N() && x != Puller(v, u, d) ::
              t.dist[x] == s.dist[x] && t.next[x] == s.next[x] && (Waiting(v, s, x) ==> Waiting(v, t, x))
    ensures !v.blocked[Puller(v, u, d)] ==> Waiting(v, t, Puller(v, u, d))
  {
    hide Pulls, Puller;
  }

  lemma LoweredTensed(v: View, s: FieldState, u: nat, d: nat, t: FieldState, i: nat, k: nat)
    requires v.Valid() && Formed(v, s) && Formed(v, t) && u < v.N() && Pulls(v, u, d) && d < 8
    requires Lowered(v, s, u, d, t) && i < v.N() && CanStep(v, i, k) && Dest(v, i, k) != Puller(v, u, d)
    requires Tensed(v, s, i, k)
    ensures Tensed(v, t, i, k)
  {
    hide Pulls, Puller, CanStep, Dest, EnterCost;
    LoweredFrame(v, s, u, d, t);
  }

  /** The step that was just looked at is accounted for afterwards. */
  lemma JustTensed(v: View, s: FieldState, u: nat, d: nat, t: FieldState, i: nat, k: nat)
    requires v.Valid() && Formed(v, s) && Formed(v, t) && u < v.N() && d < v.Dirs() && t == Pull(v, s, u, d)
    requires i < v.N() && CanStep(v, i, k) && Dest(v, i, k) == u && k < 8 && Turned(k) == d
    ensures Tensed(v, t, i, k)
  {
    StepIsPull(v, i, k);
    hide Pulls, Puller, CanStep, Dest;
  }

  lemma PullSpread(v: View, s: FieldState, u: nat, d: nat)
    requires v.Valid() && Formed(v, s) && u < v.N() && d < v.Dirs() && s.dist[u] < G_INFINITE
    requires Spread(v, s, u, d)
    ensures Spread(v, Pull(v, s, u, d), u, d + 1)
  {
    hide Pulls, Puller, CanStep, Dest, EnterCost, Tensed, Waiting, Lowered, Pull, View.Dirs, Turned;
    var t := Pull(v, s, u, d);
    forall i: nat, k: nat | i < v.N() && CanStep(v, i, k) && t.dist[Dest(v, i, k)] < G_INFINITE
      ensures Waiting(v, t, Dest(v, i, k)) || Tensed(v, t, i, k) || (Dest(v, i, k) == u && Turned(k) >= d + 1)
    {
      PullSpreadAt(v, s, u, d, i, k);
    }
  }

  lemma PullSpreadAt(v: View, s: FieldState, u: nat, d: nat, i: nat, k: nat)
    requires v.Valid() && Formed(v, s) && u < v.N() && d < v.Dirs() && s.dist[u] < G_INFINITE
    requires Spread(v, s, u, d) && i < v.N() && CanStep(v, i, k)
    requires Pull(v, s, u, d).dist[Dest(v, i, k)] < G_INFINITE
    ensures var t := Pull(v, s, u, d);
            Waiting(v, t, Dest(v, i, k)) || Tensed(v, t, i, k) || (Dest(v, i, k) == u && Turned(k) >= d + 1)
  {
    hide Pulls, Puller, CanStep, Dest, EnterCost, Tensed, Waiting, Lowered, Pull;
    var t := Pull(v, s, u, d);
    StepEnters(v, i, k);
    if Dest(v, i, k) == u && Turned(k) == d {
      JustTensed(v, s, u, d, t, i, k);
    } else {
      PullCases(v, s, u, d);
      if t != s {
        LoweredFrame(v, s, u, d, t);
        if Dest(v, i, k) != Puller(v, u, d) && Tensed(v, s, i, k) {
          LoweredTensed(v, s, u, d, t, i, k);
        }
      }
    }
  }

  lemma LoweredDirected(v: View, s: FieldState, u: nat, d: nat, t: FieldState, i: nat)
    requires v.Valid() && Formed(v, s) && Formed(v, t) && u < v.N() && Pulls(v, u, d) && d < 8
    requires Lowered(v, s, u, d, t) && !v.blocked[u] && i < v.N()
    requires i == Puller(v, u, d) || Directed(v, s, i)
    ensures Directed(v, t, i)
  {
    PullIsStep(v, u, d);
    LoweredFrame(v, s, u, d, t);
    hide Pulls, Puller, CanStep, Dest;
  }

  lemma PullGuided(v: View, tg: Target, s: FieldState, u: nat, d: nat)
    requires v.Valid() && ValidTarget(v, tg) && Formed(v, s) && u < v.N() && d < v.Dirs()
    requires s.dist[u] < G_INFINITE && !v.blocked[u] && Guided(v, tg, s) && Trailed(s.dist)
    ensures Guided(v, tg, Pull(v, s, u, d)) && Trailed(Pull(v, s, u, d).dist)
    ensures Pull(v, s, u, d).dist[u] == s.dist[u]
  {
    hide Pulls, Puller, CanStep, Dest, EnterCost, Directed, Source, Trailed, Pull;
    var t := Pull(v, s, u, d);
    PullCases(v, s, u, d);
    if t != s {
      LoweredFrame(v, s, u, d, t);
      assert !Source(v, tg, Puller(v, u, d));
      forall i: nat | i < v.N() && t.dist[i] < G_INFINITE && !Source(v, tg, i) ensures Directed(v, t, i) {
        LoweredDirected(v, s, u, d, t, i);
      }
      LowerKeepsTrails(s.dist, u, Puller(v, u, d), EnterCost(v, u, d));
    }
  }

  lemma {:induction false} PullFromKeeps(v: View, tg: Target, s: FieldState, u: nat, d: nat)
    requires v.Valid() && ValidTarget(v, tg) && Formed(v, s) && u < v.N() && d <= v.Dirs()
    requires s.dist[u] < G_INFINITE && !v.blocked[u] && FieldInv(v, tg, s, u, d)
    ensures FieldInv(v, tg, PullFrom(v, s, u, d), 0, 8)
    decreases v.Dirs() - d
  {
    hide Spread, Guided, Trailed, Pull;
    if d < v.Dirs() {
      PullSpread(v, s, u, d);
      PullGuided(v, tg, s, u, d);
      PullFromKeeps(v, tg, Pull(v, s, u, d), u, d + 1);
    } else {
      AllPulled(v, s, u);
    }
  }

  lemma AllPulled(v: View, s: FieldState, u: nat)
    requires v.Valid() && Formed(v, s) && u < v.N() && Spread(v, s, u, v.Dirs())
    ensures Spread(v, s, 0, 8)
  {
    hide Dest, EnterCost, Tensed, Waiting;
    forall i: nat, k: nat | i < v.N() && CanStep(v, i, k) ensures k < 8 && OPPOSITE[k] < v.Dirs() {
    }
  }

  /** Taking the first entry out leaves only its own tile to be settled, and not even that when it was stale. */
  lemma DropKeeps(v: View, tg: Target, s: FieldState)
    requires v.Valid() && ValidTarget(v, tg) && Formed(v, s) && s.open != multiset{} && FieldInv(v, tg, s, 0, 8)
    ensures var e := First(s.open);
            && e.idx < v.N() && !v.blocked[e.idx] && s.dist[e.idx] < G_INFINITE && Formed(v, Dropped(s))
            && FieldInv(v, tg, Dropped(s), e.idx, 0)
            && (e.f != s.dist[e.idx] ==> FieldInv(v, tg, Dropped(s), 0, 8))
  {
    hide CanStep, Dest, EnterCost, Source, Trailed, Waiting, Spread, Guided;
    var e, t := First(s.open), Dropped(s);
    assert Formed(v, t);
    DropWaiting(v, s);
    SameSpread(v, s, t, e.idx, 0);
    SameGuided(v, tg, s, t);
    if e.f != s.dist[e.idx] {
      SameSpread(v, s, t, 0, 8);
    }
  }

  lemma SameSpread(v: View, s: FieldState, t: FieldState, cur: nat, k: nat)
    requires v.Valid() && Formed(v, s) && Formed(v, t) && t.dist == s.dist && Spread(v, s, 0, 8)
    requires forall u: nat | u < v.N() && Waiting(v, s, u) :: Waiting(v, t, u) || (u == cur && k == 0)
    ensures Spread(v, t, cur, k)
  {
    hide CanStep, Dest, EnterCost, Waiting, Turned;
    forall i: nat, d: nat | i < v.N() && CanStep(v, i, d) && t.dist[Dest(v, i, d)] < G_INFINITE
      ensures Waiting(v, t, Dest(v, i, d)) || Tensed(v, t, i, d) || (Dest(v, i, d) == cur && Turned(d) >= k)
    {
      TurnedSmall(d);
      assert Waiting(v, s, Dest(v, i, d)) || Tensed(v, s, i, d);
    }
  }

  lemma TurnedSmall(d: nat)
    ensures Turned(d) < 8
  {
  }

  lemma SameGuided(v: View, tg: Target, s: FieldState, t: FieldState)
    requires v.Valid() && ValidTarget(v, tg) && Formed(v, s) && Formed(v, t) && t.dist == s.dist && t.next == s.next
    requires Guided(v, tg, s)
    ensures Guided(v, tg, t)
  {
    hide CanStep, Dest, EnterCost, Source;
    forall i: nat | i < v.N() && t.dist[i] < G_INFINITE && !Source(v, tg, i) ensures Directed(v, t, i) {
      assert Directed(v, s, i);
    }
  }

  lemma DropWaiting(v: View, s: FieldState)
    requires v.Valid() && Formed(v, s) && s.open != multiset{} && Formed(v, Dropped(s))
    ensures var e := First(s.open);
            forall u: nat | u < v.N() && Waiting(v, s, u) && (u != e.idx || e.f != s.dist[e.idx]) ::
              Waiting(v, Dropped(s), u)
  {
  }

  lemma {:induction false} BuildKeeps(v: View, tg: Target, s: FieldState)
    requires v.Valid() && ValidTarget(v, tg) && Formed(v, s) && FieldInv(v, tg, s, 0, 8)
    ensures FieldInv(v, tg, Build(v, s), 0, 8)
    decreases Sum(s.dist), |s.open|
  {
    hide FieldInv;
    if s.open != multiset{} {
      DropKeeps(v, tg, s);
      var e := First(s.open);
      if e.f != s.dist[e.idx] {
        BuildKeeps(v, tg, Dropped(s));
      } else {
        PullFromKeeps(v, tg, Dropped(s), e.idx, 0);
        BuildKeeps(v, tg, Settled(v, s));
      }
    }
  }

  // ---------- what a finished build gives ----------

  /** The state a build ends in: nothing waits and everything is accounted for. */
  ghost predicate Finished(v: View, t: Target, s: FieldState)
    requires v.Valid() && ValidTarget(v, t) && Formed(v, s)
  {
    s.open == multiset{} && FieldInv(v, t, s, 0, 8)
  }

  ghost predicate Usable(v: View, t: Target, s: FieldState)
    requires v.Valid() && ValidTarget(v, t)
  {
    Formed(v, s) && Finished(v, t, s)
  }

  /** A cached field as the build left it. */
  ghost function Stored(dist: seq<nat>, next: seq<nat>): FieldState { FieldState(dist, next, multiset{}) }

  lemma FieldFinished(v: View, t: Target)
    requires v.Valid() && ValidTarget(v, t)
    ensures Finished(v, t, Field(v, t))
  {
    hide FieldInv, Start, Build;
    StartHolds(v, t);
    BuildKeeps(v, t, Start(v, t));
  }

  /** In a finished field no distance comes near 64 bits. */
  lemma DistancesStayLow(v: View, t: Target, s: FieldState, i: nat)
    requires v.Valid() && ValidTarget(v, t) && Formed(v, s) && Finished(v, t, s) && i < v.N() && s.dist[i] < G_INFINITE
    ensures s.dist[i] + U32_MAX < G_INFINITE
  {
    hide Spread, Guided, Trailed;
    TentativeCostBounded(s.dist, i);
    TileCount(v);
  }

  lemma FinishedStep(v: View, t: Target, s: FieldState, i: nat, d: nat)
    requires v.Valid() && ValidTarget(v, t) && Formed(v, s) && Finished(v, t, s) && i < v.N() && CanStep(v, i, d)
    requires s.dist[Dest(v, i, d)] < G_INFINITE
    ensures s.dist[i] <= s.dist[Dest(v, i, d)] + EnterCost(v, Dest(v, i, d), d)
  {
    hide CanStep, Dest, EnterCost, Guided, Trailed;
    TurnedSmall(d);
    assert !Waiting(v, s, Dest(v, i, d));
    assert Tensed(v, s, i, d);
  }

  /** No route to a source beats the recorded distance. */
  lemma {:induction false} NoRouteBeats(v: View, t: Target, s: FieldState, i: nat, r: Route)
    requires v.Valid() && ValidTarget(v, t) && Formed(v, s) && Finished(v, t, s) && i < v.N() && Leads(v, t, i, r)
    ensures s.dist[i] < G_INFINITE && s.dist[i] <= Cost(v, i, r)
    decreases r
  {
    hide CanStep, Dest, EnterCost, Finished;
    match r
    case Stop => SourceIsZero(v, t, s, i);
    case Go(d, rest) =>
      var u := Dest(v, i, d);
      NoRouteBeats(v, t, s, u, rest);
      DistancesStayLow(v, t, s, u);
      FinishedStep(v, t, s, i, d);
  }

  lemma SourceIsZero(v: View, t: Target, s: FieldState, i: nat)
    requires v.Valid() && ValidTarget(v, t) && Formed(v, s) && Finished(v, t, s) && i < v.N() && Source(v, t, i)
    ensures s.dist[i] == 0 && s.next[i] == 0
  {
    hide Source, Spread, Trailed;
  }

  /** Away from the sources the recorded direction is legal and exactly accounts for the distance. */
  lemma NextIsTight(v: View, t: Target, s: FieldState, i: nat)
    requires v.Valid() && ValidTarget(v, t) && Formed(v, s) && Finished(v, t, s) && i < v.N()
    requires s.dist[i] < G_INFINITE && !Source(v, t, i)
    ensures Directed(v, s, i)
    ensures s.dist[Dest(v, i, s.next[i] - 1)] + EnterCost(v, Dest(v, i, s.next[i] - 1), s.next[i] - 1) == s.dist[i]
  {
    hide CanStep, Dest, EnterCost, Source, Spread, Trailed;
    assert Directed(v, s, i);
    FinishedStep(v, t, s, i, s.next[i] - 1);
  }

  /** The tile one step along the recorded direction. */
  ghost function Onward(v: View, t: Target, s: FieldState, i: nat): (u: nat)
    requires v.Valid() && ValidTarget(v, t) && Formed(v, s) && Finished(v, t, s)
    requires i < v.N() && s.dist[i] < G_INFINITE && !Source(v, t, i)
    ensures u < v.N() && s.dist[u] < s.dist[i]
  {
    NextIsTight(v, t, s, i);
    Dest(v, i, s.next[i] - 1)
  }

  /** The route that follows the recorded directions. */
  ghost function NextRoute(v: View, t: Target, s: FieldState, i: nat): Route
    requires v.Valid() && ValidTarget(v, t) && Formed(v, s) && Finished(v, t, s) && i < v.N() && s.dist[i] < G_INFINITE
    decreases s.dist[i]
  {
    if Source(v, t, i) then Stop
    else
      NextIsTight(v, t, s, i);
      Go(s.next[i] - 1, NextRoute(v, t, s, Onward(v, t, s, i)))
  }

  /** The recorded directions spell a legal route to a source that costs exactly the distance. */
  lemma {:induction false} NextRouteLeads(v: View, t: Target, s: FieldState, i: nat)
    requires v.Valid() && ValidTarget(v, t) && Formed(v, s) && Finished(v, t, s) && i < v.N() && s.dist[i] < G_INFINITE
    ensures Leads(v, t, i, NextRoute(v, t, s, i)) && Cost(v, i, NextRoute(v, t, s, i)) == s.dist[i]
    decreases s.dist[i]
  {
    hide CanStep, Dest, EnterCost, Source, Finished;
    if Source(v, t, i) {
      SourceIsZero(v, t, s, i);
    } else {
      NextIsTight(v, t, s, i);
      NextRouteLeads(v, t, s, Onward(v, t, s, i));
    }
  }

  /** Reverse Dijkstra is exact: a finished field gives each tile the least cost of a legal route to the goal or the
      nearest seed, and is infinite precisely where there is none. */
  lemma FieldIsExact(v: View, t: Target)
    requires v.Valid() && ValidTarget(v, t)
    ensures ExactField(v, t, Field(v, t).dist)
  {
    hide Finished, Field, Leads, Cost;
    FieldFinished(v, t);
    FinishedIsExact(v, t, Field(v, t));
  }

  lemma FinishedIsExact(v: View, t: Target, s: FieldState)
    requires v.Valid() && ValidTarget(v, t) && Formed(v, s) && Finished(v, t, s)
    ensures ExactField(v, t, s.dist)
  {
    hide Finished, Cost, Source, CanStep;
    forall i: nat | i < v.N() ensures ExactAt(v, t, i, s.dist[i]) {
      forall r: Route | Leads(v, t, i, r) ensures s.dist[i] < G_INFINITE && s.dist[i] <= Cost(v, i, r) {
        NoRouteBeats(v, t, s, i, r);
      }
      if s.dist[i] < G_INFINITE {
        NextRouteLeads(v, t, s, i);
      }
    }
  }

  /** An enterable single goal is the one source, so its field measures routes to it. */
  lemma SingleGoalRoutes(v: View, goal: nat, i: nat, r: Route)
    requires v.Valid() && goal < v.N() && i < v.N() && !v.blocked[goal]
    ensures Leads(v, Tile(goal), i, r) <==> Connects(v, i, r, goal)
  {
  }
}
