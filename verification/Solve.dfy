/** One request answered by its own search: the decisions around the search, and what the caller is promised. */
module Solve {
  import opened FixedPoint
  import opened Grid
  import opened Heuristic
  import opened OpenList
  import opened SearchMachine
  import opened SearchInvariant
  import opened SearchResults
  import opened SearchExact
  import opened SearchChains
  import opened SearchOnce
  import opened ShortSearch
  import opened Effort
  import opened SearchKernel
  import opened Emit

  /** `goalset` 0 means an ordinary single-goal request; a zero in the three limits means their default. */
  datatype Request = Request(
    startX: nat, startY: nat, goalX: nat, goalY: nat, profileId: nat, partial: bool,
    maxExpansions: nat, maxPerceived: real, epsilon: real, goalset: nat)

  const MAX_PATH_TICKS: real := 70368744177664.0

  /** The checks on a request that do not depend on the map. */
  predicate ValidLimits(req: Request) {
    && (req.epsilon == 0.0 || 1.0 <= req.epsilon <= 256.0)
    && 0.0 <= req.maxPerceived <= MAX_PATH_TICKS
  }

  function EpsQ(req: Request): nat {
    if req.epsilon == 0.0 then Q_EPS_DEFAULT else Floor(req.epsilon * 256.0, Q_EPS_MAX)
  }

  function MaxCostQ(req: Request): nat {
    if req.maxPerceived == 0.0 then G_INFINITE else Floor(req.maxPerceived * 256.0, G_INFINITE - 1)
  }

  function QueryOf(v: View, req: Request, start: nat, goal: nat): Query {
    Query(start, goal, EpsQ(req), if req.maxExpansions == 0 then G_INFINITE else req.maxExpansions, MaxCostQ(req))
  }

  predicate EndpointsInside(v: View, req: Request) {
    req.startX < v.w && req.startY < v.h && req.goalX < v.w && req.goalY < v.h
  }

  function StartOf(v: View, req: Request): (i: nat)
    requires v.Valid() && req.startX < v.w && req.startY < v.h
    ensures i < v.N()
  {
    IndexOfCoords(v, req.startX, req.startY);
    req.startY * v.w + req.startX
  }

  function GoalOf(v: View, req: Request): (i: nat)
    requires v.Valid() && req.goalX < v.w && req.goalY < v.h
    ensures i < v.N()
  {
    IndexOfCoords(v, req.goalX, req.goalY);
    req.goalY * v.w + req.goalX
  }

  /** What the caller of a batch gets to see of one request. */
  datatype Answer = Answer(status: PathStatus, expansions: nat, steps: seq<Step>, trueQ: nat, perceivedQ: nat)

  ghost predicate Answerable(v: View, req: Request) {
    v.Valid() && Clamped(v) && v.hD <= Q_TILE_MAX && ValidLimits(req)
  }

  /** The answer of a per-request search: a function of the request and the profile's view alone. */
  ghost function SearchAnswer(v: View, req: Request): Answer
    requires Answerable(v, req)
  {
    if !EndpointsInside(v, req) then Answer(InvalidEndpoint, 0, [], 0, 0)
    else
      var start, goal := StartOf(v, req), GoalOf(v, req);
      if start == goal then Answer(Found, 0, [], 0, 0)
      else if v.blocked[goal] && !req.partial then Answer(Unreachable, 0, [], 0, 0)
      else Reported(v, QueryOf(v, req, start, goal), req.partial)
  }

  ghost function Reported(v: View, q: Query, partial: bool): Answer
    requires Ready(v, q)
  {
    SearchHolds(v, q);
    var o := SearchMachine.Search(v, q);
    var r := Report(q, o);
    EndReached(v, q);
    if r.status != Found && (!partial || r.endIdx == q.start) then Answer(r.status, r.expansions, [], 0, 0)
    else
      var route := ParentRoute(v, q, o.last, r.endIdx, Stop);
      ParentRouteLegal(v, q, o.last, r.endIdx, Stop);
      Answer(r.status, r.expansions, Steps(v, q.start, route), Duration(v, q.start, route), o.last.g[r.endIdx])
  }

  /** The reported endpoint has always been reached. */
  lemma EndReached(v: View, q: Query)
    requires Ready(v, q)
    ensures var o := SearchMachine.Search(v, q);
            var r := Report(q, o);
            r.endIdx < v.N() && o.last.g[r.endIdx] < G_INFINITE
  {
    hide Inv, SearchMachine.Search;
    SearchHolds(v, q);
    BestReached(v, q, SearchMachine.Search(v, q));
  }

  lemma BestReached(v: View, q: Query, o: Outcome)
    requires Ready(v, q) && Shaped(v, q, o.last) && Inv(v, q, o.last) && Stopped(v, q, o)
    ensures o.last.bestIdx < v.N() && o.last.g[o.last.bestIdx] < G_INFINITE
    ensures o.stop == Reached ==> o.last.g[q.goal] < G_INFINITE
  {
    hide F, H, Covered, Chained;
  }

  /** The row a worker fills in for a request: where the steps lie in its own buffer. */
  datatype Row = Row(status: PathStatus, expansions: nat, len: nat, worker: nat, localOff: nat, trueQ: nat,
      perceivedQ: nat)

  const BLANK_ROW: Row := Row(None, 0, 0, 0, 0, 0, 0)

  /** `row` and the buffer grown from `before` to `after` carry exactly `a`. */
  ghost predicate Carries(row: Row, before: seq<Step>, after: seq<Step>, a: Answer) {
    && row.status == a.status && row.expansions == a.expansions
    && row.trueQ == a.trueQ && row.perceivedQ == a.perceivedQ
    && row.len == |a.steps| && after == before + a.steps
    && (row.len > 0 ==> row.localOff == |before|)
  }

  /** Answers one request by its own search, into row and output buffer. */
  method SolveRequest(v: View, ctx: SearchContext, buf: OutBuffer, worker: nat, req: Request) returns (row: Row)
    requires Answerable(v, req) && ctx.Valid(v.N()) && buf.Valid()
    modifies ctx`stampGen, ctx.g, ctx.stamp, ctx.parent, ctx.heap, ctx.heap.h, buf, buf.steps
    ensures ctx.Valid(v.N()) && (ctx.heap.h == old(ctx.heap.h) || fresh(ctx.heap.h))
    ensures buf.Valid() && (buf.steps == old(buf.steps) || fresh(buf.steps))
    ensures Carries(row, old(buf.Contents()), buf.Contents(), SearchAnswer(v, req)) && row.worker == worker
  {
    row := BLANK_ROW.(worker := worker, status := InvalidEndpoint);
    if req.startX >= v.w || req.startY >= v.h || req.goalX >= v.w || req.goalY >= v.h {
      return;
    }
    var start, goal := StartOf(v, req), GoalOf(v, req);
    if start == goal {
      return row.(status := Found);
    }
    if v.blocked[goal] && !req.partial {
      return row.(status := Unreachable);
    }
    row := RunAndReport(v, ctx, buf, worker, QueryOf(v, req, start, goal), req.partial);
  }

  method RunAndReport(v: View, ctx: SearchContext, buf: OutBuffer, worker: nat, q: Query, partial: bool)
    returns (row: Row)
    requires Ready(v, q) && ctx.Valid(v.N()) && buf.Valid()
    modifies ctx`stampGen, ctx.g, ctx.stamp, ctx.parent, ctx.heap, ctx.heap.h, buf, buf.steps
    ensures ctx.Valid(v.N()) && (ctx.heap.h == old(ctx.heap.h) || fresh(ctx.heap.h))
    ensures buf.Valid() && (buf.steps == old(buf.steps) || fresh(buf.steps))
    ensures Carries(row, old(buf.Contents()), buf.Contents(), Reported(v, q, partial)) && row.worker == worker
  {
    hide SearchMachine.Search, Inv, Stopped, ParentRoute, Shaped, Chained, SearchContext.Valid, SearchContext.Holds,
      Legal, Duration, Steps, Clamped;
    var r, s := ctx.Search(v, q);
    SearchHolds(v, q);
    EndReached(v, q);
    row := BLANK_ROW.(worker := worker, status := r.status, expansions := r.expansions);
    if r.status != Found && (!partial || r.endIdx == q.start) {
      return;
    }
    InvChained(v, q, s);
    var len, off, trueQ := EmitPath(v, ctx, buf, q.start, r.endIdx, q, s);
    ctx.Stored(s, r.endIdx);
    row := row.(len := len, localOff := off, trueQ := trueQ, perceivedQ := ctx.g[r.endIdx]);
  }

  lemma InvChained(v: View, q: Query, s: State)
    requires Ready(v, q) && Shaped(v, q, s) && Inv(v, q, s)
    ensures Chained(v, q, s) && |s.g| == v.N()
  {
  }

  // ---------- what the caller is promised ----------

  function EpsilonOf(req: Request): real {
    if req.epsilon == 0.0 then 1.25 else req.epsilon
  }

  /** Quantisation only ever tightens what was asked for. */
  lemma LimitsNeverLoosen(req: Request)
    requires ValidLimits(req)
    ensures Q_ONE <= EpsQ(req) <= Q_EPS_MAX && EpsQ(req) as real <= EpsilonOf(req) * 256.0
    ensures MaxCostQ(req) <= G_INFINITE
    ensures req.maxPerceived != 0.0 ==> MaxCostQ(req) as real <= req.maxPerceived * 256.0
  {
  }

  /** And never by a whole unit: 2^-8 ticks, or a 256th of the factor. */
  lemma LimitsTight(req: Request)
    requires ValidLimits(req)
    ensures EpsilonOf(req) * 256.0 - 1.0 < EpsQ(req) as real
    ensures req.maxPerceived == 0.0 <==> MaxCostQ(req) == G_INFINITE
    ensures req.maxPerceived != 0.0 ==> req.maxPerceived * 256.0 - 1.0 < MaxCostQ(req) as real
  {
    assert MAX_PATH_TICKS * 256.0 <= (G_INFINITE - 1) as real;
    assert req.maxPerceived * 256.0 <= MAX_PATH_TICKS * 256.0;
  }

  lemma ScaledBound(p: nat, eps: nat, c: nat, e: real)
    requires p <= eps * c / 256 && eps as real <= e * 256.0
    ensures p as real <= e * (c as real)
  {
    assert 256 * p <= eps * c;
    assert (eps * c) as real == (eps as real) * (c as real);
    assert (eps as real) * (c as real) <= (e * 256.0) * (c as real);
  }

  /** The documented promise: a found path is reported at no more than epsilon times the cost of any legal route
      within the cap, epsilon being the caller's number (or 1.25), not its rounding. */
  lemma FoundWithinEpsilon(v: View, req: Request, r: Route)
    requires Answerable(v, req) && Sound(v) && EndpointsInside(v, req) && StartOf(v, req) != GoalOf(v, req)
    requires SearchAnswer(v, req).status == Found
    requires Connects(v, StartOf(v, req), r, GoalOf(v, req)) && Cost(v, StartOf(v, req), r) <= MaxCostQ(req)
    ensures SearchAnswer(v, req).perceivedQ as real <= EpsilonOf(req) * (Cost(v, StartOf(v, req), r) as real)
  {
    hide Sound, Cost, StartOf, GoalOf, EpsQ, MaxCostQ, EpsilonOf, Reported, View.Valid, Clamped;
    LimitsNeverLoosen(req);
    var q := QueryOf(v, req, StartOf(v, req), GoalOf(v, req));
    ReportedWithin(v, q, req.partial, EpsilonOf(req), r);
  }

  lemma ReportedWithin(v: View, q: Query, partial: bool, e: real, r: Route)
    requires Ready(v, q) && Sound(v) && Q_ONE <= q.eps && q.eps as real <= e * 256.0
    requires Reported(v, q, partial).status == Found
    requires Connects(v, q.start, r, q.goal) && Cost(v, q.start, r) <= q.maxCost
    ensures Reported(v, q, partial).perceivedQ as real <= e * (Cost(v, q.start, r) as real)
  {
    hide Sound, Cost, Reported, SearchMachine.Search, Legal;
    FoundIsReached(v, q, partial);
    EpsilonBound(v, q, r);
    ScaledBound(Reported(v, q, partial).perceivedQ, q.eps, Cost(v, q.start, r), e);
  }

  lemma FoundIsReached(v: View, q: Query, partial: bool)
    requires Ready(v, q)
    ensures var a, o := Reported(v, q, partial), SearchMachine.Search(v, q);
            a.status == Found ==> o.stop == Reached && a.perceivedQ == o.last.g[q.goal]
  {
    hide SearchMachine.Search, ParentRoute, Inv, Steps, Duration, H;
  }

  // ---------- which totals are exact ----------

  function BudgetOf(req: Request): nat { if req.maxExpansions == 0 then G_INFINITE else req.maxExpansions }

  /** Limits under which a search is never stopped by its expansion budget: none, with floors as registration leaves
      them; or enough for every tile as often as it can be expanded; or, at epsilon 1 under sound floors, for once. */
  ghost predicate NeverCut(v: View, req: Request)
    requires v.Valid()
  {
    || (req.maxExpansions == 0 && v.hD <= Q_ONE)
    || AmpleFor(v, EpsQ(req)) <= BudgetOf(req)
    || (EpsQ(req) == Q_ONE && Sound(v) && v.N() <= BudgetOf(req) + 1)
  }

  /** Limits under which reported totals are exact: no partial paths, or epsilon 1 under sound floors, or at most three
      expansions, or a budget that never stops a search. */
  ghost predicate TotalsExact(v: View, req: Request)
    requires v.Valid()
  {
    !req.partial || (EpsQ(req) == Q_ONE && Sound(v)) || BudgetOf(req) <= 3 || NeverCut(v, req)
  }

  lemma NeverCutIsNot(v: View, req: Request, start: nat, goal: nat)
    requires Ready(v, QueryOf(v, req, start, goal)) && NeverCut(v, req)
    ensures SearchMachine.Search(v, QueryOf(v, req, start, goal)).stop != OutOfBudget
  {
    hide SearchMachine.Search, Sound, AmpleFor;
    var q := QueryOf(v, req, start, goal);
    UnlimitedIsAmple(v, q.eps);
    AmpleBudget(v, q);
    if AmpleFor(v, q.eps) > q.maxExpansions {
      ExpandsOnce(v, q);
    }
  }

  /** Every emitted path is a legal route from the start: its steps and true total are the route's own, it costs no
      more than reported and no more than the cap, and a found one ends on the goal.  The reported perceived total is
      exactly the route's cost for every found path, whatever epsilon, and for every partial one under limits that make
      totals exact. */
  lemma EmittedPathIsLegal(v: View, req: Request) returns (r: Route, end: nat)
    requires Answerable(v, req) && EndpointsInside(v, req) && StartOf(v, req) != GoalOf(v, req)
    requires SearchAnswer(v, req).status == Found || SearchAnswer(v, req).steps != []
    ensures var a := SearchAnswer(v, req);
            && Connects(v, StartOf(v, req), r, end)
            && a.steps == Steps(v, StartOf(v, req), r) && a.trueQ == Duration(v, StartOf(v, req), r)
            && Cost(v, StartOf(v, req), r) <= a.perceivedQ <= MaxCostQ(req)
            && (a.status == Found ==> end == GoalOf(v, req))
            && (a.status == Found || TotalsExact(v, req) ==> Cost(v, StartOf(v, req), r) == a.perceivedQ)
  {
    hide Sound, Cost, StartOf, GoalOf, EpsQ, MaxCostQ, Steps, Duration, Reported, Legal, End, NeverCut;
    LimitsNeverLoosen(req);
    var q := QueryOf(v, req, StartOf(v, req), GoalOf(v, req));
    if NeverCut(v, req) {
      NeverCutIsNot(v, req, StartOf(v, req), GoalOf(v, req));
    }
    if !req.partial && SearchAnswer(v, req).status != Found {
      NoPartial(v, q);
    }
    r, end := ReportedRoute(v, q, req.partial);
  }

  lemma NoPartial(v: View, q: Query)
    requires Ready(v, q) && Reported(v, q, false).status != Found
    ensures Reported(v, q, false).steps == []
  {
    hide SearchMachine.Search, ParentRoute;
  }

  lemma ReportedRoute(v: View, q: Query, partial: bool) returns (r: Route, end: nat)
    requires Ready(v, q)
    requires Reported(v, q, partial).status == Found || Reported(v, q, partial).steps != []
    ensures var a := Reported(v, q, partial);
            && Connects(v, q.start, r, end)
            && a.steps == Steps(v, q.start, r) && a.trueQ == Duration(v, q.start, r)
            && Cost(v, q.start, r) <= a.perceivedQ <= q.maxCost
            && (a.status == Found ==> end == q.goal)
    ensures Reported(v, q, partial).status == Found || SearchMachine.Search(v, q).stop != OutOfBudget
              || (Sound(v) && q.eps == Q_ONE) || q.maxExpansions <= 3 ==>
              Cost(v, q.start, r) == Reported(v, q, partial).perceivedQ
  {
    hide Sound, Cost, SearchMachine.Search, ParentRoute, Inv, Steps, Duration, H, Shaped, Chained;
    SearchHolds(v, q);
    EndReached(v, q);
    var s := SearchMachine.Search(v, q).last;
    InvChained(v, q, s);
    end := Report(q, SearchMachine.Search(v, q)).endIdx;
    r := ParentRoute(v, q, s, end, Stop);
    RouteTo(v, q, s, end);
    if SearchMachine.Search(v, q).stop == Stop.Reached {
      FoundCostExact(v, q);
    } else if SearchMachine.Search(v, q).stop == Exhausted {
      DryRouteCost(v, q, s, end);
    } else if Sound(v) && q.eps == Q_ONE {
      ReportedCostExact(v, q, end);
    } else if q.maxExpansions <= 3 {
      ShortIsExact(v, q);
    }
  }

  lemma RouteTo(v: View, q: Query, s: State, u: nat)
    requires Ready(v, q) && Shaped(v, q, s) && Inv(v, q, s) && u < v.N() && s.g[u] < G_INFINITE
    ensures Connects(v, q.start, ParentRoute(v, q, s, u, Stop), u)
    ensures Cost(v, q.start, ParentRoute(v, q, s, u, Stop)) <= s.g[u] <= q.maxCost
  {
    hide CanStep, Dest, EnterCost, Covered, Closest, ParentRoute, Parented;
    ParentRouteLegal(v, q, s, u, Stop);
  }
}
