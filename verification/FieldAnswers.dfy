/** Answering requests from a finished field, and why such answers refine those of a search. */
module FieldAnswers {
  import opened FixedPoint
  import opened Grid
  import opened Heuristic
  import opened Trails
  import opened SearchMachine
  import opened SearchInvariant
  import opened SearchResults
  import opened SearchKernel
  import opened Emit
  import opened Solve
  import opened FieldMachine
  import opened FieldExact
  import opened FieldKernel

  /** The answer read off a finished field; only closest approaches to a single goal still need a search. */
  ghost function FieldAnswer(v: View, t: Target, s: FieldState, req: Request): Answer
    requires Answerable(v, req) && ValidTarget(v, t) && Usable(v, t, s) && req.startX < v.w && req.startY < v.h
  {
    var start := StartOf(v, req);
    if s.dist[start] == G_INFINITE then
      if req.partial && req.goalset == 0 then SearchAnswer(v, req) else Answer(Unreachable, 0, [], 0, 0)
    else if s.dist[start] > MaxCostQ(req) then
      if req.partial && req.goalset == 0 then SearchAnswer(v, req) else Answer(BudgetExceeded, 0, [], 0, 0)
    else
      NextRouteLeads(v, t, s, start);
      var r := NextRoute(v, t, s, start);
      Answer(Found, 0, Steps(v, start, r), Duration(v, start, r), s.dist[start])
  }

  /** Distances fall strictly along the recorded directions, so the walk visits fewer than n tiles. */
  lemma {:induction false} NextRouteShort(v: View, t: Target, s: FieldState, i: nat, seen: set<nat>)
    requires v.Valid() && ValidTarget(v, t) && Formed(v, s) && Finished(v, t, s)
    requires i < v.N() && s.dist[i] < G_INFINITE
    requires forall x | x in seen :: x < v.N() && s.dist[x] > s.dist[i]
    ensures |seen| + Length(NextRoute(v, t, s, i)) < v.N()
    decreases s.dist[i]
  {
    hide CanStep, Dest, EnterCost, Source, Finished, Onward;
    assert i !in seen;
    if Source(v, t, i) {
      SetBelow(seen + {i}, v.N());
    } else {
      NextRouteShort(v, t, s, Onward(v, t, s, i), seen + {i});
    }
  }

  /** Standing off the sources, the walk takes one legal step and what remains is the rest of the route. */
  lemma WalkStep(v: View, t: Target, s: FieldState, i: nat)
    requires v.Valid() && ValidTarget(v, t) && Formed(v, s) && Finished(v, t, s)
    requires i < v.N() && s.dist[i] < G_INFINITE
    ensures s.next[i] == 0 <==> Source(v, t, i)
    ensures s.next[i] == 0 ==> s.dist[i] == 0 && NextRoute(v, t, s, i) == Stop
    ensures s.next[i] != 0 ==>
              var d, u := s.next[i] - 1, Onward(v, t, s, i);
              && d < 8 && u == i + DX[d] + DY[d] * v.w
              && NextRoute(v, t, s, i) == Go(d, NextRoute(v, t, s, u))
              && Legal(v, i, NextRoute(v, t, s, i)) && Legal(v, u, NextRoute(v, t, s, u))
              && Steps(v, i, NextRoute(v, t, s, i)) ==
                   [Step(u, TrueCost(v, u, d))] + Steps(v, u, NextRoute(v, t, s, u))
              && Duration(v, i, NextRoute(v, t, s, i)) == TrueCost(v, u, d) + Duration(v, u, NextRoute(v, t, s, u))
  {
    hide EnterCost, Source, Finished, TrueCost, X, Y, InBounds, CornerForbidden, CanStep;
    if Source(v, t, i) {
      SourceIsZero(v, t, s, i);
    } else {
      NextIsTight(v, t, s, i);
      assert s.next[i] - 1 < 8 by { StepEnters(v, i, s.next[i] - 1); }
      NextRouteLeads(v, t, s, i);
      NextRouteLeads(v, t, s, Onward(v, t, s, i));
    }
  }

  /** Emits the walk along the recorded directions, one step at a time. */
  method Walk(v: View, f: GoalField, buf: OutBuffer, start: nat, ghost t: Target, ghost s: FieldState)
    returns (depth: nat, trueQ: nat)
    requires v.Valid() && ValidTarget(v, t) && Formed(v, s) && Finished(v, t, s) && f.Shows(s)
    requires start < v.N() && s.dist[start] < G_INFINITE && buf.Valid()
    modifies buf, buf.steps
    ensures buf.Valid() && (buf.steps == old(buf.steps) || fresh(buf.steps))
    ensures var r := NextRoute(v, t, s, start);
            && Legal(v, start, r) && depth == Length(r) < v.N()
            && buf.Contents() == old(buf.Contents()) + Steps(v, start, r) && trueQ == Duration(v, start, r)
  {
    hide Finished, NextRoute, Onward, Legal, Steps, Duration, TrueCost, Source, View.Valid, Formed, GoalField.Shows;
    NextRouteShort(v, t, s, start, {});
    NextRouteLegal(v, t, s, start);
    f.ShowsAt(s, start);
    ghost var r := NextRoute(v, t, s, start);
    ghost var before := buf.Contents();
    ghost var done: seq<Step> := [];
    var idx: nat := start;
    depth, trueQ := 0, 0;
    while f.next[idx] != 0 && depth < v.N()
      invariant idx < v.N() == |s.dist| == |s.next| && s.dist[idx] < G_INFINITE
      invariant buf.Valid() && (buf.steps == old(buf.steps) || fresh(buf.steps))
      invariant f.Shows(s) && f.next.Length == f.dist.Length == v.N() && buf.Contents() == before + done
      invariant Legal(v, idx, NextRoute(v, t, s, idx))
      invariant depth + Length(NextRoute(v, t, s, idx)) == Length(r)
      invariant done + Steps(v, idx, NextRoute(v, t, s, idx)) == Steps(v, start, r)
      invariant trueQ + Duration(v, idx, NextRoute(v, t, s, idx)) == Duration(v, start, r)
      decreases v.N() - depth
    {
      WalkStep(v, t, s, idx);
      f.ShowsAt(s, idx);
      var d := f.next[idx] - 1;
      idx := idx + DX[d] + DY[d] * v.w;
      var ticks := TrueCost(v, idx, d);
      EmitStep(buf, Step(idx, ticks));
      done := done + [Step(idx, ticks)];
      trueQ := trueQ + ticks;
      depth := depth + 1;
    }
    WalkStep(v, t, s, idx);
    f.ShowsAt(s, idx);
    WalkEnds(v, idx);
    assert f.dist[idx] == 0;
  }

  lemma NextRouteLegal(v: View, t: Target, s: FieldState, i: nat)
    requires v.Valid() && ValidTarget(v, t) && Formed(v, s) && Finished(v, t, s) && i < v.N() && s.dist[i] < G_INFINITE
    ensures Legal(v, i, NextRoute(v, t, s, i)) && |s.dist| == |s.next| == v.N()
  {
    NextRouteLeads(v, t, s, i);
  }

  lemma WalkEnds(v: View, i: nat)
    requires v.Valid() && i < v.N()
    ensures Legal(v, i, Stop) && Steps(v, i, Stop) == [] && Duration(v, i, Stop) == 0
  {
  }

  method EmitStep(buf: OutBuffer, step: Step)
    requires buf.Valid()
    modifies buf, buf.steps
    ensures buf.Valid() && (buf.steps == old(buf.steps) || fresh(buf.steps))
    ensures buf.Contents() == old(buf.Contents()) + [step]
  {
    buf.Reserve(1);
    buf.steps[buf.len] := step;
    buf.len := buf.len + 1;
  }

  /** Answers one request from a finished field, falling back to a search for closest approaches. */
  method Extract(v: View, f: GoalField, ctx: SearchContext, buf: OutBuffer, worker: nat, req: Request,
                 ghost t: Target, ghost s: FieldState) returns (row: Row)
    requires Answerable(v, req) && ValidTarget(v, t) && Usable(v, t, s) && req.startX < v.w && req.startY < v.h
    requires f.Shows(s) && ctx.Valid(v.N()) && buf.Valid()
    modifies ctx`stampGen, ctx.g, ctx.stamp, ctx.parent, ctx.heap, ctx.heap.h, buf, buf.steps
    ensures ctx.Valid(v.N()) && (ctx.heap.h == old(ctx.heap.h) || fresh(ctx.heap.h))
    ensures buf.Valid() && (buf.steps == old(buf.steps) || fresh(buf.steps))
    ensures Carries(row, old(buf.Contents()), buf.Contents(), FieldAnswer(v, t, s, req)) && row.worker == worker
  {
    hide Finished, NextRoute, Legal, Steps, Duration, Source, SearchAnswer, SearchContext.Valid;
    row := BLANK_ROW.(worker := worker);
    var start := StartOf(v, req);
    var dist := f.dist[start];
    if dist == G_INFINITE {
      if req.partial && req.goalset == 0 {
        row := SolveRequest(v, ctx, buf, worker, req);
        return;
      }
      return row.(status := Unreachable);
    }
    if dist > MaxCostQ(req) {
      if req.partial && req.goalset == 0 {
        row := SolveRequest(v, ctx, buf, worker, req);
        return;
      }
      return row.(status := BudgetExceeded);
    }
    var off := buf.len;
    var depth, trueQ := Walk(v, f, buf, start, t, s);
    row := Row(Found, 0, depth, worker, off, trueQ, dist);
  }

  // ---------- field answers refine search answers ----------

  /** What an exact single-goal field says about the routes a search looks for. */
  lemma FieldVersusRoutes(v: View, s: FieldState, start: nat, goal: nat, cap: nat)
    requires v.Valid() && start < v.N() && goal < v.N() && !v.blocked[goal] && cap <= G_INFINITE
    requires ValidTarget(v, Tile(goal)) && Usable(v, Tile(goal), s)
    ensures s.dist[start] < G_INFINITE <==> exists r: Route :: Connects(v, start, r, goal)
    ensures s.dist[start] < G_INFINITE && s.dist[start] <= cap <==>
              exists r: Route :: Connects(v, start, r, goal) && Cost(v, start, r) <= cap
    ensures forall r: Route | Connects(v, start, r, goal) :: s.dist[start] <= Cost(v, start, r)
  {
    hide Finished, Cost, Legal, End, Source, NextRoute;
    var t := Tile(goal);
    forall r: Route ensures Leads(v, t, start, r) <==> Connects(v, start, r, goal) {
      SingleGoalRoutes(v, goal, start, r);
    }
    forall r: Route | Connects(v, start, r, goal)
      ensures s.dist[start] < G_INFINITE && s.dist[start] <= Cost(v, start, r)
    {
      NoRouteBeats(v, t, s, start, r);
    }
    if s.dist[start] < G_INFINITE {
      NextRouteLeads(v, t, s, start);
      assert Connects(v, start, NextRoute(v, t, s, start), goal);
    }
  }

  /** For a request without partial paths, if its limits never stop a search or at least do not stop this one, the field
      finds a path exactly when the search does, never a dearer one; and where the two disagree, the field proves
      unreachable what the search could only report as beyond the cap. */
  lemma FieldRefinesSearch(v: View, req: Request, s: FieldState)
    requires Answerable(v, req) && EndpointsInside(v, req) && !req.partial
    requires StartOf(v, req) != GoalOf(v, req) && !v.blocked[GoalOf(v, req)]
    requires ValidTarget(v, Tile(GoalOf(v, req))) && Usable(v, Tile(GoalOf(v, req)), s)
    requires NeverCut(v, req)
             || SearchMachine.Search(v, QueryOf(v, req, StartOf(v, req), GoalOf(v, req))).stop != OutOfBudget
    ensures var fa, sa := FieldAnswer(v, Tile(GoalOf(v, req)), s, req), SearchAnswer(v, req);
            && (fa.status == Found <==> sa.status == Found)
            && (fa.status == Found ==> fa.perceivedQ <= sa.perceivedQ)
            && (fa.status != sa.status ==> fa.status == Unreachable && sa.status == BudgetExceeded)
  {
    hide Usable, StartOf, GoalOf, EpsQ, MaxCostQ, SearchMachine.Search, ParentRoute, Reported, NextRoute, Steps,
      Duration, Cost, Legal, End, NeverCut;
    LimitsNeverLoosen(req);
    var start, goal := StartOf(v, req), GoalOf(v, req);
    var q := QueryOf(v, req, start, goal);
    if NeverCut(v, req) {
      NeverCutIsNot(v, req, start, goal);
    }
    FieldVersusRoutes(v, s, start, goal, q.maxCost);
    SearchVersusRoutes(v, q, req.partial);
    UsableShape(v, Tile(goal), s);
  }

  lemma UsableShape(v: View, t: Target, s: FieldState)
    requires v.Valid() && ValidTarget(v, t) && Usable(v, t, s)
    ensures |s.dist| == |s.next| == v.N() && forall i | 0 <= i < v.N() :: s.dist[i] <= G_INFINITE
  {
  }

  lemma SearchVersusRoutes(v: View, q: Query, partial: bool)
    requires Ready(v, q) && SearchMachine.Search(v, q).stop != OutOfBudget
    ensures var a := Reported(v, q, partial);
            && a.status in {Found, Unreachable, BudgetExceeded}
            && (a.status == Found <==>
                 exists r: Route :: Connects(v, q.start, r, q.goal) && Cost(v, q.start, r) <= q.maxCost)
            && (a.status == Unreachable ==> !exists r: Route :: Connects(v, q.start, r, q.goal))
            && (a.status == Found ==>
                  exists r: Route :: Connects(v, q.start, r, q.goal) && Cost(v, q.start, r) <= a.perceivedQ)
  {
    hide SearchMachine.Search, ParentRoute, Inv, Steps, Duration, Cost, Legal, End;
    FoundUnlessCut(v, q);
    if Reported(v, q, partial).status == Unreachable {
      forall r: Route ensures !Connects(v, q.start, r, q.goal) {
        UnreachableIsTrue(v, q, r);
      }
    }
    if Reported(v, q, partial).status == Found {
      var r, end := ReportedRoute(v, q, partial);
    }
  }
}
