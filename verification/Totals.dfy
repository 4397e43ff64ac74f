/** True durations are summed in 64 bits: over the fewer steps than tiles of any emitted path they never come near
    that. */
module Totals {
  import opened FixedPoint
  import opened Grid
  import opened Trails
  import opened Profiles
  import opened SearchMachine
  import opened SearchInvariant
  import opened SearchResults
  import opened SearchKernel
  import opened Emit
  import opened Solve
  import opened FieldMachine
  import opened FieldExact
  import opened FieldAnswers

  /** No single step lasts longer than 32 bits can say. */
  ghost predicate Lasting(v: View)
    requires v.Valid()
  {
    forall u | 0 <= u < v.N() :: v.trueStraight[u] <= U32_MAX && v.trueDiagonal[u] <= U32_MAX
  }

  lemma BeheldLasts(t: Terrain, p: Profile)
    requires t.Valid() && Sized(p)
    ensures Behold(t, p).Valid() && Lasting(Behold(t, p))
  {
    hide FoldWord, PerceivedStep;
    BeholdValid(t, p);
  }

  lemma {:induction false} DurationBounded(v: View, i: nat, r: Route)
    requires v.Valid() && i < v.N() && Legal(v, i, r) && Lasting(v)
    ensures Duration(v, i, r) <= FullPrice(Length(r))
    decreases r
  {
    hide CanStep;
    match r
    case Stop =>
    case Go(d, rest) =>
      DurationBounded(v, Dest(v, i, d), rest);
  }

  /** A route of fewer steps than tiles. */
  lemma ShortLasts(v: View, i: nat, r: Route)
    requires v.Valid() && i < v.N() && Legal(v, i, r) && Lasting(v) && Length(r) < v.N()
    ensures Duration(v, i, r) <= COST_CEILING < 0x40_0000_0000_0000
  {
    DurationBounded(v, i, r);
    TileCount(v);
  }

  lemma ChainLasts(v: View, q: Query, s: State, end: nat)
    requires Ready(v, q) && Shaped(v, q, s) && Chained(v, q, s) && end < v.N() && s.g[end] < G_INFINITE && Lasting(v)
    ensures Legal(v, q.start, ParentRoute(v, q, s, end, Stop))
    ensures Duration(v, q.start, ParentRoute(v, q, s, end, Stop)) <= COST_CEILING
  {
    hide ParentRoute, Duration, Lasting, Chained, CanStep, Dest;
    ParentRouteLegal(v, q, s, end, Stop);
    ParentRouteShort(v, q, s, end, Stop, {});
    ShortLasts(v, q.start, ParentRoute(v, q, s, end, Stop));
  }

  lemma ReportedFits(v: View, q: Query, partial: bool)
    requires Ready(v, q) && Lasting(v)
    ensures Reported(v, q, partial).trueQ <= COST_CEILING
  {
    hide SearchMachine.Search, ParentRoute, Inv, Steps, Duration, Legal, End, Lasting, Chained, Shaped, F, View.Valid;
    SearchHolds(v, q);
    var o := SearchMachine.Search(v, q);
    InvChained(v, q, o.last);
    EndReached(v, q);
    ChainLasts(v, q, o.last, Report(q, o).endIdx);
  }

  /** The duration reported by a search. */
  lemma SearchTotalFits(t: Terrain, p: Profile, req: Request)
    requires t.Valid() && Sized(p) && Answerable(Behold(t, p), req)
    ensures SearchAnswer(Behold(t, p), req).trueQ <= COST_CEILING
  {
    hide Behold, Reported, Lasting, StartOf, GoalOf, EpsQ, MaxCostQ;
    BeheldLasts(t, p);
    var v := Behold(t, p);
    if EndpointsInside(v, req) {
      LimitsNeverLoosen(req);
      ReportedFits(v, QueryOf(v, req, StartOf(v, req), GoalOf(v, req)), req.partial);
    }
  }

  /** The duration reported from a field. */
  lemma FieldTotalFits(t: Terrain, p: Profile, target: Target, s: FieldState, req: Request)
    requires t.Valid() && Sized(p) && Answerable(Behold(t, p), req) && ValidTarget(Behold(t, p), target)
    requires Usable(Behold(t, p), target, s) && req.startX < t.w && req.startY < t.h
    requires Behold(t, p).w == t.w && Behold(t, p).h == t.h
    ensures FieldAnswer(Behold(t, p), target, s, req).trueQ <= COST_CEILING
  {
    hide Behold, SearchAnswer, Lasting, StartOf, MaxCostQ, NextRoute, Steps, Duration, Finished, Legal, End;
    BeheldLasts(t, p);
    SearchTotalFits(t, p, req);
    var v := Behold(t, p);
    var start := StartOf(v, req);
    UsableShape(v, target, s);
    if s.dist[start] < G_INFINITE {
      NextRouteLeads(v, target, s, start);
      NextRouteShort(v, target, s, start, {});
      ShortLasts(v, start, NextRoute(v, target, s, start));
    }
  }
}
