/** What the answer of a search says when no path was found: which status, how far it came, and after how much work. */
module Reports {
  import opened FixedPoint
  import opened Grid
  import opened Heuristic
  import opened OpenList
  import opened Trails
  import opened SearchMachine
  import opened SearchInvariant
  import opened SearchResults
  import opened SearchExact
  import opened Effort
  import opened Pruning
  import opened Expansions
  import opened SearchKernel
  import opened Emit
  import opened Solve

  /** The request is left to a search: it has somewhere to go, and a goal to enter or an approach to report. */
  predicate Searched(v: View, req: Request)
    requires v.Valid()
  {
    && EndpointsInside(v, req) && StartOf(v, req) != GoalOf(v, req)
    && (!v.blocked[GoalOf(v, req)] || req.partial)
  }

  function Asked(v: View, req: Request): Query
    requires v.Valid() && EndpointsInside(v, req)
  {
    QueryOf(v, req, StartOf(v, req), GoalOf(v, req))
  }

  lemma AskedIsReady(v: View, req: Request)
    requires Answerable(v, req) && EndpointsInside(v, req)
    ensures Ready(v, Asked(v, req)) && Asked(v, req).maxCost == MaxCostQ(req)
    ensures Asked(v, req).maxExpansions == BudgetOf(req)
  {
    LimitsNeverLoosen(req);
  }

  /** The search's own budget ended it. */
  ghost predicate CutShort(v: View, req: Request)
    requires Answerable(v, req) && EndpointsInside(v, req)
  {
    AskedIsReady(v, req);
    SearchMachine.Search(v, Asked(v, req)).stop == OutOfBudget
  }

  /** The cap could have been exceeded: a route within it that comes to no tile twice has a legal step that takes it
      over.  With `least`, the route is the cheapest to where it ends. */
  ghost predicate CapExceeded(v: View, req: Request, least: bool)
    requires Answerable(v, req) && EndpointsInside(v, req)
  {
    AskedIsReady(v, req);
    Beyond(v, Asked(v, req), least)
  }

  /** The steps lead as near to the goal as any tile within the cap is, and as cheaply as the nearest of them can be
      reached; there are none only if that is the start. */
  ghost predicate Nearest(v: View, req: Request, a: Answer)
    requires Answerable(v, req) && EndpointsInside(v, req)
  {
    var start, goal := StartOf(v, req), GoalOf(v, req);
    exists r: Route, end: nat ::
      && Connects(v, start, r, end) && Cost(v, start, r) == a.perceivedQ <= MaxCostQ(req)
      && a.steps == Steps(v, start, r) && a.trueQ == Duration(v, start, r)
      && forall o: Route | Legal(v, start, o) && Cost(v, start, o) <= MaxCostQ(req) ::
           NotBetter(H(v, End(v, start, o), goal), Cost(v, start, o), H(v, end, goal), a.perceivedQ)
  }

  /** The steps lead to a tile the search expanded, or nowhere, and no tile it expanded is nearer to the goal. */
  ghost predicate NearestSoFar(v: View, req: Request, a: Answer)
    requires Answerable(v, req) && EndpointsInside(v, req)
  {
    AskedIsReady(v, req);
    var start, goal, log := StartOf(v, req), GoalOf(v, req), SearchLog(v, Asked(v, req));
    exists r: Route, end: nat ::
      && Connects(v, start, r, end) && a.steps == Steps(v, start, r) && a.trueQ == Duration(v, start, r)
      && (end == start || exists e :: e in log && e.idx == end)
      && H(v, end, goal) <= H(v, start, goal)
      && forall e | e in log :: e.idx < v.N() && H(v, end, goal) <= H(v, e.idx, goal)
  }

  // ---------- status ----------

  lemma StatusOf(v: View, req: Request)
    requires Answerable(v, req) && Searched(v, req)
    ensures Ready(v, Asked(v, req))
    ensures var o, a := SearchMachine.Search(v, Asked(v, req)), SearchAnswer(v, req);
            && a.status == (if o.stop == Stop.Reached then Found
                            else if o.stop == Exhausted && !o.last.pruned then Unreachable else BudgetExceeded)
            && a.expansions == Sat32(o.last.expansions)
  {
    hide SearchMachine.Search, ParentRoute, Steps, Duration, H, StartOf, GoalOf, EpsQ, MaxCostQ;
    AskedIsReady(v, req);
  }

  /** Without a cap a search its budget did not end says UNREACHABLE if and only if there is no way. */
  lemma UnreachableIff(v: View, req: Request)
    requires Answerable(v, req) && Searched(v, req) && !CutShort(v, req) && req.maxPerceived == 0.0
    ensures SearchAnswer(v, req).status == Unreachable <==>
              forall r: Route :: !Connects(v, StartOf(v, req), r, GoalOf(v, req))
    ensures SearchAnswer(v, req).status in {Found, Unreachable}
  {
    hide SearchMachine.Search, Connects, Cost, StartOf, GoalOf, EpsQ, SearchAnswer;
    StatusOf(v, req);
    var q := Asked(v, req);
    UncappedIsNotBlamed(v, q);
    FoundIffAffordable(v, q);
    if SearchMachine.Search(v, q).stop == Exhausted {
      forall r: Route ensures !Connects(v, q.start, r, q.goal) {
        UnreachableIsTrue(v, q, r);
      }
    }
  }

  /** With a cap, a search its budget did not end blames the cap only if some route within it has a step that exceeds
      it; and it does so if such a route is the cheapest to its end.  At epsilon 1 with sound floors that is all. */
  lemma CapIsBlamed(v: View, req: Request)
    requires Answerable(v, req) && Searched(v, req) && !CutShort(v, req) && SearchAnswer(v, req).status != Found
    ensures SearchAnswer(v, req).status == BudgetExceeded ==> CapExceeded(v, req, false)
    ensures CapExceeded(v, req, true) ==> SearchAnswer(v, req).status == BudgetExceeded
    ensures EpsQ(req) == Q_ONE && Sound(v) ==>
              (SearchAnswer(v, req).status == BudgetExceeded <==> CapExceeded(v, req, true))
  {
    hide SearchMachine.Search, StartOf, GoalOf, EpsQ, MaxCostQ, SearchAnswer, Beyond, Sound;
    StatusOf(v, req);
    var q := Asked(v, req);
    if SearchMachine.Search(v, q).last.pruned {
      BlamedMeansBeyond(v, q);
    } else if Beyond(v, q, true) {
      BeyondMeansBlamed(v, q);
    }
  }

  // ---------- approach ----------

  /** The closest approach of a partial request whose search ran dry. */
  lemma DryIsNearest(v: View, req: Request)
    requires Answerable(v, req) && Searched(v, req) && req.partial && !CutShort(v, req)
    requires SearchAnswer(v, req).status != Found
    ensures Nearest(v, req, SearchAnswer(v, req))
  {
    hide SearchMachine.Search, StartOf, GoalOf, EpsQ, MaxCostQ, Cost, Legal, End, Steps, Duration, H, SearchAnswer;
    StatusOf(v, req);
    var q := Asked(v, req);
    var r, end := ApproachRoute(v, req);
    var s := SearchMachine.Search(v, q).last;
    SearchHolds(v, q);
    StopFacts(v, q, SearchMachine.Search(v, q));
    DryRouteCost(v, q, s, end);
    forall o: Route | Legal(v, q.start, o) && Cost(v, q.start, o) <= q.maxCost
      ensures NotBetter(H(v, End(v, q.start, o), q.goal), Cost(v, q.start, o), H(v, end, q.goal), s.g[end])
    {
      var best := ClosestApproach(v, q, o);
    }
  }

  /** The route a partial answer spells: the parents' of the closest approach. */
  lemma ApproachRoute(v: View, req: Request) returns (r: Route, end: nat)
    requires Answerable(v, req) && Searched(v, req) && req.partial && SearchAnswer(v, req).status != Found
    ensures Ready(v, Asked(v, req))
    ensures var q, a := Asked(v, req), SearchAnswer(v, req);
            var s := SearchMachine.Search(v, q).last;
            && Inv(v, q, s) && Chained(v, q, s) && end == s.bestIdx && s.g[end] < G_INFINITE
            && r == ParentRoute(v, q, s, end, Stop) && Connects(v, q.start, r, end) && s.g[end] <= q.maxCost
            && a.steps == Steps(v, q.start, r) && a.trueQ == Duration(v, q.start, r) && a.perceivedQ == s.g[end]
  {
    hide SearchMachine.Search, StartOf, GoalOf, EpsQ, MaxCostQ, Cost, ParentRoute, H, Covered, Closest, Booked, Trailed;
    StatusOf(v, req);
    var q := Asked(v, req);
    SearchHolds(v, q);
    EndReached(v, q);
    var s := SearchMachine.Search(v, q).last;
    end := s.bestIdx;
    r := ParentRoute(v, q, s, end, Stop);
    InvChained(v, q, s);
    RouteTo(v, q, s, end);
    if end == q.start {
      StartRoute(v, q, s);
    }
  }

  lemma StartRoute(v: View, q: Query, s: State)
    requires Ready(v, q) && Shaped(v, q, s) && Chained(v, q, s)
    ensures s.g[q.start] == 0 && ParentRoute(v, q, s, q.start, Stop) == Stop
    ensures Legal(v, q.start, Stop) && Steps(v, q.start, Stop) == [] && Duration(v, q.start, Stop) == 0
  {
  }

  /** Cut short or not, nothing it expanded is nearer than where the steps lead. */
  lemma SearchIsNearestSoFar(v: View, req: Request)
    requires Answerable(v, req) && Searched(v, req) && req.partial && SearchAnswer(v, req).status != Found
    ensures NearestSoFar(v, req, SearchAnswer(v, req))
  {
    hide SearchMachine.Search, StartOf, GoalOf, EpsQ, MaxCostQ, Cost, Legal, End, Steps, Duration, H, SearchAnswer,
      SearchLog, ParentRoute, Booked, Covered, Chained, Trailed;
    AskedIsReady(v, req);
    var q := Asked(v, req);
    SearchLogs(v, q);
    var r, end := ApproachRoute(v, req);
    assert SearchMachine.Search(v, q).last.bestH == H(v, end, q.goal);
  }

  // ---------- work ----------

  /** The number reported is that of the tiles expanded, and all of its budget if that ended the search. */
  lemma ExpansionsCounted(v: View, req: Request)
    requires Answerable(v, req) && Searched(v, req)
    ensures Ready(v, Asked(v, req))
    ensures SearchAnswer(v, req).expansions == Sat32(|SearchLog(v, Asked(v, req))|) <= Sat32(BudgetOf(req))
    ensures CutShort(v, req) ==> SearchAnswer(v, req).expansions == Sat32(BudgetOf(req))
  {
    hide SearchMachine.Search, StartOf, GoalOf, EpsQ, MaxCostQ, SearchAnswer, SearchLog, H;
    StatusOf(v, req);
    AskedIsReady(v, req);
    SearchLogs(v, Asked(v, req));
  }
}
