/** What a caller may rely on: every answer a kept call delivers, whether searched, read off a field, or given at once,
    is right about the map as it is now. */
module Promise {
  import opened FixedPoint
  import opened Grid
  import opened Profiles
  import opened Heuristic
  import opened SearchMachine
  import opened SearchInvariant
  import opened SearchResults
  import opened SearchKernel
  import opened Solve
  import opened Pruning
  import opened Reports
  import opened FieldMachine
  import opened FieldExact
  import opened FieldAnswers
  import opened Emit
  import opened Labels
  import opened GoalSets
  import opened Invalidation
  import opened Recency
  import opened FieldCache
  import opened Reconcile
  import opened Planner
  import opened Calls
  import opened Registration
  import opened Degenerate
  import opened Schedule
  import opened Delivery
  import opened Prices

  /** Some legal route from start to goal costs no more than the request's cap. */
  ghost predicate Affordable(v: View, start: nat, goal: nat, cap: nat)
    requires v.Valid() && start < v.N()
  {
    exists r: Route :: Connects(v, start, r, goal) && Cost(v, start, r) <= cap
  }

  /** The answer spells a legal route and reports exactly its duration and cost. */
  ghost predicate Spells(v: View, start: nat, goal: nat, a: Answer)
    requires v.Valid() && start < v.N()
  {
    exists r: Route ::
      && Connects(v, start, r, goal)
      && a.steps == Steps(v, start, r) && a.trueQ == Duration(v, start, r) && a.perceivedQ == Cost(v, start, r)
  }

  /** Found at no more than epsilon times the cost of any route within the cap. */
  ghost predicate Within(v: View, req: Request, a: Answer)
    requires Answerable(v, req) && EndpointsInside(v, req)
  {
    forall r: Route | Connects(v, StartOf(v, req), r, GoalOf(v, req)) && Cost(v, StartOf(v, req), r) <= MaxCostQ(req) ::
      a.perceivedQ as real <= EpsilonOf(req) * (Cost(v, StartOf(v, req), r) as real)
  }

  /** A partial answer's steps are a legal route that costs no more than reported, and no more than the cap. */
  ghost predicate Approaches(v: View, req: Request, a: Answer)
    requires Answerable(v, req) && EndpointsInside(v, req)
  {
    exists r: Route, end: nat ::
      && Connects(v, StartOf(v, req), r, end)
      && a.steps == Steps(v, StartOf(v, req), r) && a.trueQ == Duration(v, StartOf(v, req), r)
      && Cost(v, StartOf(v, req), r) <= a.perceivedQ <= MaxCostQ(req)
      && (TotalsExact(v, req) ==> Cost(v, StartOf(v, req), r) == a.perceivedQ)
  }

  /** Whatever an answer says is true: a found route is legal, within the cap, and reported exactly; it is within
      epsilon where floors are sound; unreachable means no route at all; a partial path is legal. */
  ghost predicate Truthful(v: View, req: Request, a: Answer)
    requires Answerable(v, req) && EndpointsInside(v, req)
  {
    var start, goal := StartOf(v, req), GoalOf(v, req);
    && a.status in {Found, Unreachable, BudgetExceeded}
    && (a.status == Found ==> Spells(v, start, goal, a) && a.perceivedQ <= MaxCostQ(req))
    && (a.status == Found && Sound(v) ==> Within(v, req, a))
    && (a.status == Unreachable ==> forall r: Route :: !Connects(v, start, r, goal))
    && (a.status != Found && a.steps != [] ==> req.partial && Approaches(v, req, a))
  }

  /** What can be afforded is found. */
  ghost predicate Complete(v: View, req: Request, a: Answer)
    requires Answerable(v, req) && EndpointsInside(v, req)
  {
    Affordable(v, StartOf(v, req), GoalOf(v, req), MaxCostQ(req)) ==> a.status == Found
  }

  /** What an answer without a path says.  UNREACHABLE is said exactly when there is no way, by anything but a search
      under a cap or cut short by its budget; a search not cut short blames the cap only if it could be exceeded, and
      does so if it is exceeded at least cost; a partial request gets the closest approach. */
  ghost predicate Reasoned(v: View, req: Request, searched: bool, a: Answer)
    requires Answerable(v, req) && EndpointsInside(v, req)
  {
    && ((!searched && !req.partial) || (req.maxPerceived == 0.0 && !CutShort(v, req)) ==>
          (a.status == Unreachable <==> forall r: Route :: !Connects(v, StartOf(v, req), r, GoalOf(v, req))))
    && (req.maxPerceived == 0.0 && !CutShort(v, req) ==> a.status in {Found, Unreachable})
    && ((searched || req.partial) && a.status != Found && !CutShort(v, req) ==>
          && (a.status == BudgetExceeded ==> CapExceeded(v, req, false))
          && (CapExceeded(v, req, true) ==> a.status == BudgetExceeded))
    && (req.partial && a.status != Found ==> NearestSoFar(v, req, a) && (!CutShort(v, req) ==> Nearest(v, req, a)))
    && (a.status != Found && a.steps == [] ==> a.trueQ == 0 && a.perceivedQ == 0)
    && (!searched && (!req.partial || a.status == Found) ==> a.expansions == 0)
  }

  /** A right answer for a set of goals: the cheapest route to any seed, if it is affordable. */
  ghost predicate RightForSet(v: View, target: Target, req: Request, a: Answer)
    requires Answerable(v, req) && ValidTarget(v, target) && req.startX < v.w && req.startY < v.h
  {
    var start, cap := StartOf(v, req), MaxCostQ(req);
    && a.status in {Found, Unreachable, BudgetExceeded} && a.expansions == 0
    && (a.status != Found ==> a.steps == [] && a.trueQ == 0 && a.perceivedQ == 0)
    && (a.status == Unreachable <==> forall r: Route :: !Leads(v, target, start, r))
    && (a.status == Found <==> exists r: Route :: Leads(v, target, start, r) && Cost(v, start, r) <= cap)
    && (a.status == Found ==>
          && (exists r: Route ::
                && Leads(v, target, start, r) && a.steps == Steps(v, start, r) && a.trueQ == Duration(v, start, r)
                && a.perceivedQ == Cost(v, start, r))
          && forall r: Route | Leads(v, target, start, r) :: a.perceivedQ <= Cost(v, start, r))
  }

  // ---------- one answer ----------

  lemma StatusTells(v: View, q: Query, partial: bool)
    requires Ready(v, q)
    ensures var a, o := Reported(v, q, partial), SearchMachine.Search(v, q);
            && a.status in {Found, Unreachable, BudgetExceeded}
            && (a.status == Found ==> o.stop == Stop.Reached) && (a.status == Unreachable ==> o.stop == Exhausted)
            && (a.status != Found && a.steps != [] ==> partial)
  {
    hide SearchMachine.Search, ParentRoute, Steps, Duration;
  }

  lemma SearchReasons(v: View, req: Request)
    requires Answerable(v, req) && Searched(v, req)
    ensures Reasoned(v, req, true, SearchAnswer(v, req))
  {
    hide StartOf, GoalOf, SearchAnswer, CutShort, CapExceeded, Nearest, NearestSoFar, Connects, ValidLimits;
    var a := SearchAnswer(v, req);
    if !CutShort(v, req) {
      if req.maxPerceived == 0.0 {
        UnreachableIff(v, req);
      }
      if a.status != Found {
        CapIsBlamed(v, req);
      }
    }
    if req.partial && a.status != Found {
      SearchIsNearestSoFar(v, req);
      if !CutShort(v, req) {
        DryIsNearest(v, req);
      }
    }
    NothingWithoutSteps(v, req);
  }

  lemma NothingWithoutSteps(v: View, req: Request)
    requires Answerable(v, req) && Searched(v, req)
    ensures var a := SearchAnswer(v, req);
            a.status != Found && a.steps == [] ==> a.trueQ == 0 && a.perceivedQ == 0
  {
    hide SearchMachine.Search, ParentRoute, Inv, Steps, Duration, Cost, Legal, End, StartOf, GoalOf, EpsQ, MaxCostQ;
    if req.partial && SearchAnswer(v, req).status != Found && SearchAnswer(v, req).steps == [] {
      var r, end := ApproachRoute(v, req);
      NoStepsNoRoute(v, Asked(v, req), SearchMachine.Search(v, Asked(v, req)).last, r, end);
    } else {
      StatusOf(v, req);
    }
  }

  lemma NoStepsNoRoute(v: View, q: Query, s: SearchMachine.State, r: Route, end: nat)
    requires Ready(v, q) && Shaped(v, q, s) && Chained(v, q, s) && Connects(v, q.start, r, end)
    requires Steps(v, q.start, r) == []
    ensures end == q.start && s.g[end] == 0 && Duration(v, q.start, r) == 0
  {
  }

  /** Whether its budget stops it or not, a search never says what is not so. */
  lemma SearchIsTruthful(v: View, req: Request)
    requires Answerable(v, req) && EndpointsInside(v, req)
    requires StartOf(v, req) != GoalOf(v, req) && (!v.blocked[GoalOf(v, req)] || req.partial)
    ensures Truthful(v, req, SearchAnswer(v, req))
  {
    hide StartOf, GoalOf, EpsQ, MaxCostQ, SearchMachine.Search, Reported, Cost, Legal, End, Sound, EpsilonOf, Spells,
      View.Valid, Clamped, ValidLimits, Approaches, TotalsExact, Within;
    LimitsNeverLoosen(req);
    var start, goal, a := StartOf(v, req), GoalOf(v, req), SearchAnswer(v, req);
    var q := QueryOf(v, req, start, goal);
    StatusTells(v, q, req.partial);
    if a.status == Found {
      SearchSpells(v, req);
      if Sound(v) {
        SearchWithin(v, req);
      }
    } else if a.status == Unreachable {
      SearchVersusRoutes(v, q, req.partial);
    }
    if a.status != Found && a.steps != [] {
      SearchApproaches(v, req);
    }
  }

  lemma SearchSpells(v: View, req: Request)
    requires Answerable(v, req) && EndpointsInside(v, req) && StartOf(v, req) != GoalOf(v, req)
    requires SearchAnswer(v, req).status == Found
    ensures Spells(v, StartOf(v, req), GoalOf(v, req), SearchAnswer(v, req))
    ensures SearchAnswer(v, req).perceivedQ <= MaxCostQ(req)
  {
    hide StartOf, GoalOf, EpsQ, MaxCostQ, SearchMachine.Search, SearchAnswer, Cost, Legal, End, Steps, Duration, Sound,
      View.Valid, Clamped, ValidLimits, TotalsExact;
    var r, end := EmittedPathIsLegal(v, req);
  }

  lemma SearchWithin(v: View, req: Request)
    requires Answerable(v, req) && EndpointsInside(v, req) && StartOf(v, req) != GoalOf(v, req) && Sound(v)
    requires SearchAnswer(v, req).status == Found
    ensures Within(v, req, SearchAnswer(v, req))
  {
    hide StartOf, GoalOf, MaxCostQ, SearchAnswer, Cost, Legal, End, Sound, EpsilonOf, View.Valid, Clamped, ValidLimits;
    forall r: Route | Connects(v, StartOf(v, req), r, GoalOf(v, req)) && Cost(v, StartOf(v, req), r) <= MaxCostQ(req)
      ensures SearchAnswer(v, req).perceivedQ as real <= EpsilonOf(req) * (Cost(v, StartOf(v, req), r) as real)
    {
      FoundWithinEpsilon(v, req, r);
    }
  }

  lemma SearchApproaches(v: View, req: Request)
    requires Answerable(v, req) && EndpointsInside(v, req) && StartOf(v, req) != GoalOf(v, req)
    requires SearchAnswer(v, req).status != Found && SearchAnswer(v, req).steps != []
    ensures Approaches(v, req, SearchAnswer(v, req))
  {
    hide StartOf, GoalOf, EpsQ, MaxCostQ, SearchMachine.Search, SearchAnswer, Cost, Legal, End, Steps, Duration, Sound,
      View.Valid, Clamped, ValidLimits, TotalsExact;
    var r, end := EmittedPathIsLegal(v, req);
  }

  lemma AmpleMeansUncut(v: View, req: Request)
    requires Answerable(v, req) && EndpointsInside(v, req) && NeverCut(v, req)
    ensures !CutShort(v, req)
  {
    hide SearchMachine.Search, NeverCut, StartOf, GoalOf, EpsQ, MaxCostQ;
    LimitsNeverLoosen(req);
    NeverCutIsNot(v, req, StartOf(v, req), GoalOf(v, req));
  }

  /** For a registered profile an unlimited budget never stops a search: on every terrain, at every epsilon. */
  lemma UnlimitedIsNeverCut(t: Terrain, p: Profile, req: Request)
    requires t.Valid() && Sized(p) && FromDesc(p) && Answerable(Behold(t, p), req)
    ensures req.maxExpansions == 0 ==> NeverCut(Behold(t, p), req)
    ensures req.maxExpansions == 0 && EndpointsInside(Behold(t, p), req) ==> !CutShort(Behold(t, p), req)
  {
    hide Behold, CutShort, Registered;
    FloorsSeen(t, p);
    var d: ProfileDesc :| DescValid(d) && p == Registered(d);
    RegisteredFloors(d);
    if req.maxExpansions == 0 && EndpointsInside(Behold(t, p), req) {
      AmpleMeansUncut(Behold(t, p), req);
    }
  }

  /** Under limits that cannot stop a search it finds the goal exactly when that can be afforded. */
  lemma FindsExactly(v: View, req: Request)
    requires Answerable(v, req) && EndpointsInside(v, req) && NeverCut(v, req)
    ensures SearchAnswer(v, req).status == Found <==>
              Affordable(v, StartOf(v, req), GoalOf(v, req), MaxCostQ(req))
  {
    hide SearchMachine.Search, Cost, Reported, Truthful, CutShort, NeverCut, StartOf, GoalOf, Legal, End;
    if StartOf(v, req) == GoalOf(v, req) {
      StopStays(v, StartOf(v, req));
    } else if v.blocked[GoalOf(v, req)] && !req.partial {
      forall r: Route ensures !Connects(v, StartOf(v, req), r, GoalOf(v, req)) {
        NoneIntoBlocked(v, StartOf(v, req), r, GoalOf(v, req));
      }
    } else {
      SearchIsTruthful(v, req);
      SearchIsComplete(v, req);
      if SearchAnswer(v, req).status == Found {
        FoundIsAffordable(v, req, SearchAnswer(v, req));
      }
    }
  }

  /** So an unlimited search for a registered profile does, on every terrain and at every epsilon. */
  lemma UnlimitedFindsExactly(t: Terrain, p: Profile, req: Request)
    requires t.Valid() && Sized(p) && FromDesc(p) && Answerable(Behold(t, p), req) && req.maxExpansions == 0
    requires EndpointsInside(Behold(t, p), req)
    ensures var v := Behold(t, p);
            SearchAnswer(v, req).status == Found <==>
              Affordable(v, StartOf(v, req), GoalOf(v, req), MaxCostQ(req))
  {
    hide Behold, Answerable, SearchAnswer, Affordable, FromDesc, StartOf, GoalOf, NeverCut, CutShort;
    UnlimitedIsNeverCut(t, p, req);
    FindsExactly(Behold(t, p), req);
  }

  lemma FoundIsAffordable(v: View, req: Request, a: Answer)
    requires Answerable(v, req) && EndpointsInside(v, req) && Truthful(v, req, a) && a.status == Found
    ensures Affordable(v, StartOf(v, req), GoalOf(v, req), MaxCostQ(req))
  {
  }

  /** A search finds what can be afforded whenever its limits never stop one, or its budget at least did not. */
  lemma SearchIsComplete(v: View, req: Request)
    requires Answerable(v, req) && EndpointsInside(v, req) && (NeverCut(v, req) || !CutShort(v, req))
    requires StartOf(v, req) != GoalOf(v, req) && (!v.blocked[GoalOf(v, req)] || req.partial)
    ensures Complete(v, req, SearchAnswer(v, req))
  {
    hide StartOf, GoalOf, EpsQ, MaxCostQ, SearchMachine.Search, Reported, Cost, Legal, End, View.Valid, Clamped,
      ValidLimits, NeverCut;
    LimitsNeverLoosen(req);
    if NeverCut(v, req) {
      AmpleMeansUncut(v, req);
    }
    SearchVersusRoutes(v, QueryOf(v, req, StartOf(v, req), GoalOf(v, req)), req.partial);
  }

  /** What a usable field answers for a start inside the map. */
  lemma FieldIsRight(v: View, target: Target, s: FieldState, req: Request)
    requires Answerable(v, req) && ValidTarget(v, target) && Usable(v, target, s)
    requires req.startX < v.w && req.startY < v.h && !req.partial
    ensures RightForSet(v, target, req, FieldAnswer(v, target, s, req))
  {
    hide StartOf, MaxCostQ, Cost, Legal, End, Source, Steps, Duration, Finished, NextRoute;
    LimitsNeverLoosen(req);
    var start := StartOf(v, req);
    UsableShape(v, target, s);
    forall r: Route | Leads(v, target, start, r)
      ensures s.dist[start] < G_INFINITE
              && s.dist[start] <= Cost(v, start, r)
    {
      RouteCost(v, target, s, start, r);
    }
    if s.dist[start] < G_INFINITE {
      NextRouteLeads(v, target, s, start);
      LeadsAlong(v, target, s, start);
    }
  }

  lemma RouteCost(v: View, target: Target, s: FieldState, start: nat, r: Route)
    requires v.Valid() && ValidTarget(v, target) && Usable(v, target, s) && start < v.N() && Leads(v, target, start, r)
    ensures s.dist[start] < G_INFINITE && s.dist[start] <= Cost(v, start, r)
  {
    hide Finished, Cost, Legal, End, Source;
    NoRouteBeats(v, target, s, start, r);
  }

  lemma LeadsAlong(v: View, target: Target, s: FieldState, start: nat)
    requires v.Valid() && ValidTarget(v, target) && Usable(v, target, s) && start < v.N() && s.dist[start] < G_INFINITE
    ensures Leads(v, target, start, NextRoute(v, target, s, start))
    ensures Cost(v, start, NextRoute(v, target, s, start)) == s.dist[start]
  {
    hide Finished, Cost, Legal, End, Source, NextRoute;
    NextRouteLeads(v, target, s, start);
  }

  /** For a single enterable goal that is all a search promises, with nothing lost to epsilon. */
  lemma SetOfOneGoal(v: View, req: Request, a: Answer)
    requires Answerable(v, req) && EndpointsInside(v, req) && !v.blocked[GoalOf(v, req)]
    requires ValidTarget(v, Tile(GoalOf(v, req))) && RightForSet(v, Tile(GoalOf(v, req)), req, a)
    requires a.status != Found ==> a.steps == []
    ensures Truthful(v, req, a) && Complete(v, req, a)
  {
    hide StartOf, GoalOf, MaxCostQ, Cost, Legal, End, Source, Steps, Duration, Sound, EpsilonOf;
    var start, goal := StartOf(v, req), GoalOf(v, req);
    forall r: Route ensures Leads(v, Tile(goal), start, r) <==> Connects(v, start, r, goal) {
      SingleGoalRoutes(v, goal, start, r);
    }
    forall r: Route | a.status == Found && Connects(v, start, r, goal)
      ensures a.perceivedQ as real <= EpsilonOf(req) * (Cost(v, start, r) as real)
    {
      assert Leads(v, Tile(goal), start, r);
      NoDearer(req, a.perceivedQ, Cost(v, start, r));
    }
  }

  lemma NoDearer(req: Request, a: nat, c: nat)
    requires ValidLimits(req) && a <= c
    ensures a as real <= EpsilonOf(req) * (c as real)
  {
    assert EpsilonOf(req) >= 1.0;
  }

  /** An answer from the goal's field, partial paths included: no budget enters, except for a closest approach. */
  lemma GoalFieldIsRight(v: View, s: FieldState, req: Request)
    requires Answerable(v, req) && EndpointsInside(v, req)
    requires StartOf(v, req) != GoalOf(v, req) && !v.blocked[GoalOf(v, req)] && req.goalset == 0
    requires ValidTarget(v, Tile(GoalOf(v, req))) && Usable(v, Tile(GoalOf(v, req)), s)
    ensures var a := FieldAnswer(v, Tile(GoalOf(v, req)), s, req);
            && Truthful(v, req, a) && Complete(v, req, a)
            && (req.partial && a.status != Found ==> a == SearchAnswer(v, req))
  {
    hide SearchAnswer, SearchMachine.Search, Usable, NextRoute, Steps, Duration, Cost, RightForSet, Truthful,
      ValidLimits;
    var target, plain := Tile(GoalOf(v, req)), req.(partial := false);
    SameLimits(req, plain);
    UsableShape(v, target, s);
    FieldIsRight(v, target, s, plain);
    var b := FieldAnswer(v, target, s, plain);
    NothingUnlessFound(v, target, s, plain);
    SetOfOneGoal(v, plain, b);
    SearchIsTruthful(v, req);
    PartialAside(v, req, b);
  }

  lemma FieldReasons(v: View, s: FieldState, req: Request)
    requires Answerable(v, req) && EndpointsInside(v, req)
    requires StartOf(v, req) != GoalOf(v, req) && !v.blocked[GoalOf(v, req)] && req.goalset == 0
    requires ValidTarget(v, Tile(GoalOf(v, req))) && Usable(v, Tile(GoalOf(v, req)), s)
    ensures Reasoned(v, req, false, FieldAnswer(v, Tile(GoalOf(v, req)), s, req))
  {
    hide SearchAnswer, NextRoute, Steps, Duration, Cost, Truthful, ValidLimits, StartOf, GoalOf, CutShort, CapExceeded,
      Nearest, NearestSoFar, Connects, Leads, Finished, Formed;
    var target, a := Tile(GoalOf(v, req)), FieldAnswer(v, Tile(GoalOf(v, req)), s, req);
    if req.partial && a.status != Found {
      SearchReasons(v, req);
      assert a == SearchAnswer(v, req);
    } else {
      FieldSaysIff(v, s, req);
    }
  }

  lemma FieldSaysIff(v: View, s: FieldState, req: Request)
    requires Answerable(v, req) && EndpointsInside(v, req)
    requires StartOf(v, req) != GoalOf(v, req) && !v.blocked[GoalOf(v, req)] && req.goalset == 0
    requires ValidTarget(v, Tile(GoalOf(v, req))) && Usable(v, Tile(GoalOf(v, req)), s)
    requires !req.partial || FieldAnswer(v, Tile(GoalOf(v, req)), s, req).status == Found
    ensures var a := FieldAnswer(v, Tile(GoalOf(v, req)), s, req);
            && (a.status == Unreachable <==> forall r: Route :: !Connects(v, StartOf(v, req), r, GoalOf(v, req)))
            && (req.maxPerceived == 0.0 ==> a.status in {Found, Unreachable})
            && (a.status != Found ==> a.trueQ == 0 && a.perceivedQ == 0) && a.expansions == 0
  {
    hide SearchAnswer, NextRoute, Steps, Duration, Cost, ValidLimits, StartOf, GoalOf, Legal, End, Source, Finished;
    var start, goal := StartOf(v, req), GoalOf(v, req);
    UsableShape(v, Tile(goal), s);
    forall r: Route | Connects(v, start, r, goal)
      ensures s.dist[start] < G_INFINITE && s.dist[start] <= Cost(v, start, r)
    {
      SingleGoalRoutes(v, goal, start, r);
      RouteCost(v, Tile(goal), s, start, r);
    }
    if req.partial {
      SearchIsTruthful(v, req);
    }
    if s.dist[start] < G_INFINITE {
      LeadsAlong(v, Tile(goal), s, start);
      SingleGoalRoutes(v, goal, start, NextRoute(v, Tile(goal), s, start));
    }
  }

  lemma NothingUnlessFound(v: View, target: Target, s: FieldState, req: Request)
    requires Answerable(v, req) && ValidTarget(v, target) && Usable(v, target, s)
    requires req.startX < v.w && req.startY < v.h && !req.partial
    ensures FieldAnswer(v, target, s, req).status != Found ==> FieldAnswer(v, target, s, req).steps == []
  {
    hide Usable, NextRoute, Steps, Duration, Cost, MaxCostQ, StartOf;
    UsableShape(v, target, s);
  }

  lemma SameLimits(req: Request, plain: Request)
    requires plain == req.(partial := false)
    ensures ValidLimits(req) <==> ValidLimits(plain)
    ensures MaxCostQ(req) == MaxCostQ(plain) && EpsilonOf(req) == EpsilonOf(plain)
  {
  }

  lemma PartialAside(v: View, req: Request, a: Answer)
    requires Answerable(v, req) && Answerable(v, req.(partial := false)) && EndpointsInside(v, req)
    requires Truthful(v, req.(partial := false), a) && Complete(v, req.(partial := false), a)
    ensures Truthful(v, req, a) && Complete(v, req, a)
  {
    hide Cost, Legal, End, Steps, Duration, Sound, ValidLimits, Approaches;
    SameLimits(req, req.(partial := false));
  }

  /** A status given at once, as an answer. */
  lemma SettledAnswerIsRight(t: Terrain, p: Profile, req: Request, c: Comp)
    requires t.Valid() && Sized(p) && Answerable(Behold(t, p), req) && CompFits(Behold(t, p), c) && req.goalset == 0
    requires c.Labelled? ==> NamesComponents(Superset(t, p.blockMask, p.requireMask), c.comp)
    requires EndpointsInside(Behold(t, p), req) && WishOf(Behold(t, p), req, c).Settled?
    ensures var a := Answer(WishOf(Behold(t, p), req, c).status, 0, [], 0, 0);
            Truthful(Behold(t, p), req, a) && Complete(Behold(t, p), req, a) && Reasoned(Behold(t, p), req, false, a)
  {
    hide Behold, StartOf, GoalOf, MaxCostQ, Sound, EpsilonOf, NamesComponents, Superset, ShownApart, Approaches,
      CutShort, CapExceeded, Nearest, NearestSoFar;
    var v := Behold(t, p);
    var start, goal := StartOf(v, req), GoalOf(v, req);
    if start == goal {
      StayingPut(v, req);
    } else {
      forall r: Route ensures !Connects(v, start, r, goal) {
        NoWay(t, p, req, c, r);
      }
    }
  }

  lemma StayingPut(v: View, req: Request)
    requires Answerable(v, req) && EndpointsInside(v, req) && StartOf(v, req) == GoalOf(v, req)
    ensures Truthful(v, req, Answer(Found, 0, [], 0, 0)) && Complete(v, req, Answer(Found, 0, [], 0, 0))
    ensures Reasoned(v, req, false, Answer(Found, 0, [], 0, 0))
  {
    hide CutShort, CapExceeded, Nearest, NearestSoFar, Sound, MaxCostQ, ValidLimits, View.Valid, Clamped, Cost, Legal,
      End, Steps, Duration, StartOf, GoalOf, EpsilonOf;
    var start := StartOf(v, req);
    StopStays(v, start);
    forall r: Route | Connects(v, start, r, start) ensures 0.0 <= EpsilonOf(req) * (Cost(v, start, r) as real) {
      NoDearer(req, 0, Cost(v, start, r));
    }
  }

  lemma StopStays(v: View, i: nat)
    requires v.Valid() && i < v.N()
    ensures Connects(v, i, Stop, i) && Cost(v, i, Stop) == 0 && Steps(v, i, Stop) == [] && Duration(v, i, Stop) == 0
  {
  }

  /** Routes end on tiles that may be entered. */
  lemma {:induction false} EndsOpen(v: View, i: nat, r: Route)
    requires v.Valid() && i < v.N() && Legal(v, i, r) && r != Stop
    ensures !v.blocked[End(v, i, r)]
    decreases r
  {
    hide CanStep;
    StepIsEnterable(v, i, r.d);
    if r.rest != Stop {
      EndsOpen(v, Dest(v, i, r.d), r.rest);
    }
  }

  lemma NoneIntoBlocked(v: View, i: nat, r: Route, e: nat)
    requires v.Valid() && i < v.N() && e < v.N() && e != i && v.blocked[e]
    ensures !Connects(v, i, r, e)
  {
    hide View.Valid, CanStep;
    if Connects(v, i, r, e) {
      EndsOpen(v, i, r);
    }
  }

  lemma NoWay(t: Terrain, p: Profile, req: Request, c: Comp, r: Route)
    requires t.Valid() && Sized(p) && Answerable(Behold(t, p), req) && CompFits(Behold(t, p), c) && req.goalset == 0
    requires c.Labelled? ==> NamesComponents(Superset(t, p.blockMask, p.requireMask), c.comp)
    requires EndpointsInside(Behold(t, p), req) && WishOf(Behold(t, p), req, c).Settled?
    requires StartOf(Behold(t, p), req) != GoalOf(Behold(t, p), req)
    ensures !Connects(Behold(t, p), StartOf(Behold(t, p), req), r, GoalOf(Behold(t, p), req))
  {
    hide Behold, ValidLimits, NamesComponents, Superset, TouchesLabel, Connects, Clamped, View.Valid, StartOf, GoalOf;
    var v := Behold(t, p);
    var start, goal := StartOf(v, req), GoalOf(v, req);
    BeholdValid(t, p);
    BlockedIsByClass(t, p, goal);
    if v.blocked[goal] {
      NoneIntoBlocked(v, start, r, goal);
    } else {
      FloorsSeen(t, p);
      NoMeansUnreachable(t, p, c.comp, start, goal, r);
    }
  }

  // ---------- a whole call ----------

  /** What a delivered answer to request `j` is, whatever decided how it was resolved.  Only a request left to its own
      search can miss a route it could afford, and only if it set a budget and that stops the search. */
  lemma GoalDelivered(t: Terrain, sets: seq<GoalSet>, profiles: seq<Profile>, labels: seq<LabelClass>,
                      reqs: seq<Request>, wishes: seq<Wish>, cached: seq<CachedField>, threshold: nat, cache: Cache,
                      answers: seq<Answer>, j: nat)
    requires AllFinal(t, sets, profiles, reqs, wishes, cached, threshold, cache, answers)
    requires AllLookedAt(t, sets, profiles, labels, reqs, wishes) && j < |reqs| && reqs[j].goalset == 0
    requires Answerable(Behold(t, profiles[reqs[j].profileId]), reqs[j])
    requires EndpointsInside(Behold(t, profiles[reqs[j].profileId]), reqs[j])
    ensures Truthful(Behold(t, profiles[reqs[j].profileId]), reqs[j], answers[j])
    ensures Reasoned(Behold(t, profiles[reqs[j].profileId]), reqs[j],
                     BatchFate(wishes, cached, threshold, cache, j) == BySearch, answers[j])
    ensures NeverCut(Behold(t, profiles[reqs[j].profileId]), reqs[j]) || reqs[j].maxExpansions == 0 ==>
              !CutShort(Behold(t, profiles[reqs[j].profileId]), reqs[j])
    ensures BatchFate(wishes, cached, threshold, cache, j) != BySearch
            || !CutShort(Behold(t, profiles[reqs[j].profileId]), reqs[j]) ==>
              Complete(Behold(t, profiles[reqs[j].profileId]), reqs[j], answers[j])
    ensures NeverCut(Behold(t, profiles[reqs[j].profileId]), reqs[j]) || reqs[j].maxExpansions == 0 ==>
              Complete(Behold(t, profiles[reqs[j].profileId]), reqs[j], answers[j])
    ensures reqs[j].partial && answers[j].status != Found ==>
              answers[j] == SearchAnswer(Behold(t, profiles[reqs[j].profileId]), reqs[j])
  {
    hide Behold, ShownApart, NamesComponents, Superset, Answerable, SearchAnswer, Truthful, Complete, FieldAnswer,
      Finished, Field, SearchMachine.Search, WorthField, CutShort, NeverCut, FromDesc, Reasoned;
    var req, w, a := reqs[j], wishes[j], answers[j];
    var p := profiles[req.profileId];
    assert Sized(p);
    var v := Behold(t, p);
    BeholdValid(t, p);
    assert LookedAt(t, profiles, labels, req, w);
    var c: Comp :| CompFits(v, c) && (c.Labelled? ==> NamesComponents(Superset(t, p.blockMask, p.requireMask), c.comp))
                   && w == WishOf(v, req, c);
    assert FinalAnswer(t, sets, profiles, req, BatchFate(wishes, cached, threshold, cache, j), a);
    UnlimitedIsNeverCut(t, p, req);
    if NeverCut(v, req) {
      AmpleMeansUncut(v, req);
    }
    match BatchFate(wishes, cached, threshold, cache, j) {
      case ByStatus(s) => SettledAnswerIsRight(t, p, req, c);
      case BySearch =>
        SearchIsTruthful(v, req);
        SearchReasons(v, req);
        if NeverCut(v, req) || !CutShort(v, req) {
          SearchIsComplete(v, req);
        }
      case ByField(k) =>
        assert AnswerOfField(t, sets, p, req, k, a);
        FieldFinished(v, TargetOf(k, sets));
        GoalFieldIsRight(v, Field(v, TargetOf(k, sets)), req);
        FieldReasons(v, Field(v, TargetOf(k, sets)), req);
      case ByError =>
    }
  }

  /** Goal sets are answered from fields alone, never by searches. */
  lemma SetDelivered(t: Terrain, sets: seq<GoalSet>, profiles: seq<Profile>, labels: seq<LabelClass>,
                     reqs: seq<Request>, wishes: seq<Wish>, cached: seq<CachedField>, threshold: nat, cache: Cache,
                     answers: seq<Answer>, j: nat)
    requires AllFinal(t, sets, profiles, reqs, wishes, cached, threshold, cache, answers)
    requires AllLookedAt(t, sets, profiles, labels, reqs, wishes) && j < |reqs| && reqs[j].goalset != 0
    requires Answerable(Behold(t, profiles[reqs[j].profileId]), reqs[j])
    requires StartInside(Behold(t, profiles[reqs[j].profileId]), reqs[j])
    ensures ValidTarget(Behold(t, profiles[reqs[j].profileId]), SetTarget(sets, reqs[j]))
    ensures RightForSet(Behold(t, profiles[reqs[j].profileId]), SetTarget(sets, reqs[j]), reqs[j], answers[j])
  {
    hide Behold, ShownApart, NamesComponents, Superset, Answerable, SearchAnswer, RightForSet, FieldAnswer, Finished,
      Field, WorthField, ValidTarget;
    var req, w, a := reqs[j], wishes[j], answers[j];
    var p := profiles[req.profileId];
    var v := Behold(t, p);
    BeholdValid(t, p);
    assert LookedAt(t, profiles, labels, req, w);
    var k := Key(0, req.goalset, req.profileId);
    assert w == Shared(k);
    assert FinalAnswer(t, sets, profiles, req, BatchFate(wishes, cached, threshold, cache, j), a);
    assert AnswerOfField(t, sets, p, req, k, a);
    FieldFinished(v, TargetOf(k, sets));
    FieldIsRight(v, TargetOf(k, sets), Field(v, TargetOf(k, sets)), req);
  }

  predicate StartInside(v: View, req: Request) { req.startX < v.w && req.startY < v.h }

  function SetTarget(sets: seq<GoalSet>, req: Request): Target
    requires 0 < req.goalset <= |sets|
  {
    Seeds(sets[req.goalset - 1].seeds)
  }

  /** A right answer to any request: an invalid endpoint where one is off the map, else right for its set or goal.  For
      an honest profile a found path is within epsilon.  A route that can be afforded is never missed under limits that
      cannot stop a search, an unlimited budget among them; it is missed at all only by a request left to its own search
      (`searched`) which its own budget stopped.  A closest approach is the search's own, and the nearest there is. */
  ghost predicate Right(t: Terrain, sets: seq<GoalSet>, profiles: seq<Profile>, req: Request, searched: bool, a: Answer)
    requires req.profileId < |profiles| && Sized(profiles[req.profileId]) && t.Valid() && req.goalset <= |sets|
  {
    var v := Behold(t, profiles[req.profileId]);
    && Answerable(v, req)
    && if !StartInside(v, req) || (req.goalset == 0 && !EndpointsInside(v, req))
       then a == Answer(InvalidEndpoint, 0, [], 0, 0)
       else if req.goalset != 0
       then ValidTarget(v, SetTarget(sets, req)) && RightForSet(v, SetTarget(sets, req), req, a)
       else
         && Truthful(v, req, a)
         && (Honest(profiles[req.profileId]) && a.status == Found ==> Within(v, req, a))
         && (req.maxExpansions == 0 || NeverCut(v, req) ==> Complete(v, req, a))
         && (!searched || !CutShort(v, req) ==> Complete(v, req, a))
         && (req.maxExpansions == 0 || NeverCut(v, req) ==> !CutShort(v, req)) && Reasoned(v, req, searched, a)
         && (req.partial && a.status != Found ==> a == SearchAnswer(v, req))
  }

  /** Everything a kept call delivers is right for the map, its sets and its profiles as they are now. */
  lemma CallKeepsPromise(st: Store, reqs: seq<Request>, wishes: seq<Wish>, cached: seq<CachedField>, threshold: nat,
                         rows: seq<ResRow>, steps: seq<Step>, answers: seq<Answer>, plan: Plan)
    requires Delivered(st, reqs, wishes, cached, threshold, rows, steps, answers, plan)
    ensures Results(rows, steps) == Ideal(answers) && |answers| == |reqs| == |wishes| && st.m.Now().Valid()
    ensures forall j | 0 <= j < |reqs| ::
              && RequestFits(reqs[j], st.sets, st.m.interner.profiles)
              && Sized(st.m.interner.profiles[reqs[j].profileId])
              && Right(st.m.Now(), st.sets, st.m.interner.profiles, reqs[j],
                       BatchFate(wishes, cached, threshold, st.cache, j) == BySearch, answers[j])
  {
    hide Right, Ideal, FinalAnswer, LookedAt, ValidLimits, BatchFate, FromDesc;
    forall j | 0 <= j < |reqs|
      ensures
        && RequestFits(reqs[j], st.sets, st.m.interner.profiles) && Sized(st.m.interner.profiles[reqs[j].profileId])
        && Right(st.m.Now(), st.sets, st.m.interner.profiles, reqs[j],
                 BatchFate(wishes, cached, threshold, st.cache, j) == BySearch, answers[j])
    {
      OneRight(st.m.Now(), st.sets, st.m.interner.profiles, st.labels, reqs, wishes, cached, threshold, st.cache,
               answers, j);
    }
  }

  lemma OneRight(t: Terrain, sets: seq<GoalSet>, profiles: seq<Profile>, labels: seq<LabelClass>,
                 reqs: seq<Request>, wishes: seq<Wish>, cached: seq<CachedField>, threshold: nat, cache: Cache,
                 answers: seq<Answer>, j: nat)
    requires AllFinal(t, sets, profiles, reqs, wishes, cached, threshold, cache, answers)
    requires AllLookedAt(t, sets, profiles, labels, reqs, wishes) && j < |reqs|
    ensures RequestFits(reqs[j], sets, profiles) && Sized(profiles[reqs[j].profileId])
    ensures Right(t, sets, profiles, reqs[j], BatchFate(wishes, cached, threshold, cache, j) == BySearch, answers[j])
  {
    hide Behold, RightForSet, Truthful, Complete, Reasoned, Within, ValidTarget, SearchAnswer, CutShort, NeverCut,
      AnswerOfField, ShownApart, NamesComponents, Superset, WorthField, ValidLimits, Honest, FromDesc;
    var req, w := reqs[j], wishes[j];
    var v := Behold(t, profiles[req.profileId]);
    BeholdValid(t, profiles[req.profileId]);
    FloorsSeen(t, profiles[req.profileId]);
    if !StartInside(v, req) || (req.goalset == 0 && !EndpointsInside(v, req)) {
      assert LookedAt(t, profiles, labels, req, w);
      assert w == Settled(InvalidEndpoint);
      assert FinalAnswer(t, sets, profiles, req, BatchFate(wishes, cached, threshold, cache, j), answers[j]);
    } else if req.goalset != 0 {
      SetDelivered(t, sets, profiles, labels, reqs, wishes, cached, threshold, cache, answers, j);
    } else {
      GoalDelivered(t, sets, profiles, labels, reqs, wishes, cached, threshold, cache, answers, j);
      if Honest(profiles[req.profileId]) && answers[j].status == Found {
        HonestWithin(t, profiles[req.profileId], req, answers[j]);
      }
    }
  }

  /** A registered profile that is honest has sound floors on every terrain. */
  lemma HonestWithin(t: Terrain, p: Profile, req: Request, a: Answer)
    requires t.Valid() && Sized(p) && FromDesc(p) && Honest(p) && a.status == Found
    requires Answerable(Behold(t, p), req) && EndpointsInside(Behold(t, p), req) && Truthful(Behold(t, p), req, a)
    ensures Within(Behold(t, p), req, a)
  {
    hide Behold, Honest, Registered, Sound, Within, StartOf, GoalOf, Spells;
    var d: ProfileDesc :| DescValid(d) && p == Registered(d);
    HonestIsSound(d, t);
  }

  /** In the map's own terms: the steps delivered are a walk the unit may take, of the duration reported; a found one
      comes to its goal, or to a seed of its set, at the price reported. */
  lemma RightIsWalk(t: Terrain, sets: seq<GoalSet>, profiles: seq<Profile>, req: Request, searched: bool, a: Answer)
    requires req.profileId < |profiles| && Sized(profiles[req.profileId]) && t.Valid() && req.goalset <= |sets|
    requires Right(t, sets, profiles, req, searched, a) && a.status != InvalidEndpoint
    ensures var v, p := Behold(t, profiles[req.profileId]), profiles[req.profileId];
            && v.Valid() && StartInside(v, req) && StartOf(v, req) < |t.cost|
            && Walks(t, p, StartOf(v, req), a.steps) && a.trueQ == TicksOf(a.steps)
            && (a.status == Found ==>
                  && a.perceivedQ == PriceOf(t, p, StartOf(v, req), a.steps)
                  && var end := LastTile(StartOf(v, req), a.steps);
                  if req.goalset == 0 then EndpointsInside(v, req) && end == GoalOf(v, req)
                  else end < v.N() && Source(v, SetTarget(sets, req), end))
  {
    hide Behold, RightForSet, Truthful, Reasoned, CutShort, Complete, Within, StartOf, GoalOf, Honest, NeverCut, Source,
      SearchAnswer, Walks, PriceOf, ValidTarget, ValidLimits;
    BeholdValid(t, profiles[req.profileId]);
    if req.goalset != 0 {
      SetIsWalk(t, profiles[req.profileId], SetTarget(sets, req), req, a);
    } else {
      GoalIsWalk(t, profiles[req.profileId], req, searched, a);
    }
  }

  lemma SetIsWalk(t: Terrain, p: Profile, target: Target, req: Request, a: Answer)
    requires t.Valid() && Sized(p) && Answerable(Behold(t, p), req) && ValidTarget(Behold(t, p), target)
    requires StartInside(Behold(t, p), req) && RightForSet(Behold(t, p), target, req, a)
    ensures var v, start := Behold(t, p), StartOf(Behold(t, p), req);
            && start < |t.cost| && Walks(t, p, start, a.steps) && a.trueQ == TicksOf(a.steps)
            && (a.status == Found ==>
                  && a.perceivedQ == PriceOf(t, p, start, a.steps)
                  && LastTile(start, a.steps) < v.N() && Source(v, target, LastTile(start, a.steps)))
  {
    hide Behold, StartOf, MaxCostQ, Cost, Legal, End, Source, Walks, PriceOf, Steps, Duration, ValidLimits;
    BeholdValid(t, p);
    var v, start := Behold(t, p), StartOf(Behold(t, p), req);
    if a.status == Found {
      var r: Route :| Leads(v, target, start, r) && a.steps == Steps(v, start, r)
                      && a.trueQ == Duration(v, start, r) && a.perceivedQ == Cost(v, start, r);
      LeadsLegally(v, target, start, r);
      RouteIsWalk(t, p, start, r);
    } else {
      StandsStill(t, p, start);
    }
  }

  lemma GoalIsWalk(t: Terrain, p: Profile, req: Request, searched: bool, a: Answer)
    requires t.Valid() && Sized(p) && Answerable(Behold(t, p), req) && EndpointsInside(Behold(t, p), req)
    requires Truthful(Behold(t, p), req, a) && Reasoned(Behold(t, p), req, searched, a)
    ensures var v, start := Behold(t, p), StartOf(Behold(t, p), req);
            && start < |t.cost| && Walks(t, p, start, a.steps) && a.trueQ == TicksOf(a.steps)
            && (a.status == Found ==>
                  && a.perceivedQ == PriceOf(t, p, start, a.steps)
                  && LastTile(start, a.steps) == GoalOf(v, req))
  {
    hide Behold, StartOf, GoalOf, MaxCostQ, Cost, Legal, End, Walks, PriceOf, Steps, Duration, ValidLimits, CutShort,
      CapExceeded, Nearest, NearestSoFar, Within, Approaches, Sound;
    BeholdValid(t, p);
    var v, start := Behold(t, p), StartOf(Behold(t, p), req);
    if a.status == Found {
      SpelledIsWalk(t, p, start, GoalOf(v, req), a);
    } else if a.steps == [] {
      StandsStill(t, p, start);
    } else {
      var r := PartialRoute(v, req, a);
      RouteIsWalk(t, p, start, r);
    }
  }

  lemma SpelledIsWalk(t: Terrain, p: Profile, start: nat, goal: nat, a: Answer)
    requires t.Valid() && Sized(p) && start < |t.cost|
    requires Behold(t, p).Valid() && start < Behold(t, p).N() && Spells(Behold(t, p), start, goal, a)
    ensures Walks(t, p, start, a.steps) && a.trueQ == TicksOf(a.steps)
    ensures a.perceivedQ == PriceOf(t, p, start, a.steps) && LastTile(start, a.steps) == goal
  {
    hide Behold, Cost, Legal, End, Walks, PriceOf, Steps, Duration;
    var v := Behold(t, p);
    var r: Route :| Connects(v, start, r, goal) && a.steps == Steps(v, start, r)
                    && a.trueQ == Duration(v, start, r) && a.perceivedQ == Cost(v, start, r);
    RouteIsWalk(t, p, start, r);
  }

  lemma PartialRoute(v: View, req: Request, a: Answer) returns (r: Route)
    requires Answerable(v, req) && EndpointsInside(v, req) && NearestSoFar(v, req, a)
    ensures Legal(v, StartOf(v, req), r) && a.steps == Steps(v, StartOf(v, req), r)
    ensures a.trueQ == Duration(v, StartOf(v, req), r)
  {
    hide StartOf, GoalOf, Steps, Duration, Legal, End, H, Asked;
    var o: Route, end: nat :| Connects(v, StartOf(v, req), o, end) && a.steps == Steps(v, StartOf(v, req), o)
                              && a.trueQ == Duration(v, StartOf(v, req), o);
    r := o;
  }

  lemma LeadsLegally(v: View, target: Target, i: nat, r: Route)
    requires v.Valid() && ValidTarget(v, target) && i < v.N() && Leads(v, target, i, r)
    ensures Legal(v, i, r) && Source(v, target, End(v, i, r))
  {
  }

  lemma StandsStill(t: Terrain, p: Profile, i: nat)
    requires t.Valid() && i < |t.cost|
    ensures Walks(t, p, i, []) && TicksOf([]) == 0
  {
  }
}
