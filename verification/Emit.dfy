/** Reading a path back from the parents into a context's output buffer. */
module Emit {
  import opened FixedPoint
  import opened Grid
  import opened Trails
  import opened SearchMachine
  import opened SearchInvariant
  import opened SearchResults
  import opened SearchKernel

  /** An entered tile and the true duration of the step onto it. */
  datatype Step = Step(tile: nat, ticks: nat)

  function Steps(v: View, i: nat, r: Route): (s: seq<Step>)
    requires v.Valid() && i < v.N() && Legal(v, i, r)
    ensures |s| == Length(r)
    decreases r
  {
    match r
    case Stop => []
    case Go(d, rest) => [Step(Dest(v, i, d), TrueCost(v, Dest(v, i, d), d))] + Steps(v, Dest(v, i, d), rest)
  }

  class OutBuffer {
    var steps: array<Step>
    var len: nat

    ghost predicate Valid()
      reads this
    {
      len <= steps.Length
    }

    ghost function Contents(): seq<Step>
      reads this, steps
      requires Valid()
    {
      steps[..len]
    }

    constructor ()
      ensures Valid() && Contents() == [] && fresh(steps)
    {
      steps := new Step[0];
      len := 0;
    }

    /** Room for `extra` more steps: capacity doubles from 256 until it suffices; contents stay. */
    method Reserve(extra: nat)
      requires Valid()
      modifies this`steps
      ensures Valid() && Contents() == old(Contents()) && len + extra <= steps.Length
      ensures steps == old(steps) || fresh(steps)
    {
      var need := len + extra;
      if need <= steps.Length {
        return;
      }
      var cap := if steps.Length == 0 then 256 else steps.Length;
      while cap < need
        invariant cap > 0
        decreases need - cap
      {
        cap := cap * 2;
      }
      var bigger := new Step[cap](_ => Step(0, 0));
      var was := steps;
      for i := 0 to len
        invariant bigger[..i] == was[..i]
      {
        bigger[i] := was[i];
      }
      steps := bigger;
    }
  }

  /** One tile back along the recorded direction. */
  lemma BackOneTile(v: View, q: Query, s: State, u: nat)
    requires Ready(v, q) && Shaped(v, q, s) && u < v.N() && Parented(v, q, s, u)
    ensures s.parent[u] - 1 < 8 && s.from[u] == u - (DX[s.parent[u] - 1] + DY[s.parent[u] - 1] * v.w)
  {
    DirectionBelow(v, s.from[u], s.parent[u] - 1);
  }

  /** Parent chains visit no tile twice, so they are shorter than the map. */
  lemma {:induction false} ParentRouteShort(v: View, q: Query, s: State, u: nat, acc: Route, seen: set<nat>)
    requires Ready(v, q) && Shaped(v, q, s) && Chained(v, q, s) && u < v.N() && s.g[u] < G_INFINITE
    requires |seen| == Length(acc) && forall x | x in seen :: x < v.N() && s.g[x] > s.g[u]
    ensures Length(ParentRoute(v, q, s, u, acc)) < v.N()
    decreases s.g[u]
  {
    hide CanStep, Dest, EnterCost, Chained;
    if u == q.start {
      assert u !in seen;
      SetBelow(seen + {u}, v.N());
    } else {
      ParentStep(v, q, s, u);
      ParentRouteShort(v, q, s, s.from[u], Go(s.parent[u] - 1, acc), seen + {u});
    }
  }

  /** Counts the steps from `start` to `end`; the walk follows strictly falling costs, so it ends. */
  method CountSteps(v: View, ctx: SearchContext, start: nat, end: nat, ghost q: Query, ghost s: State)
    returns (depth: nat)
    requires Ready(v, q) && Shaped(v, q, s) && Chained(v, q, s) && q.start == start
    requires ctx.Holds(s) && end < v.N() && s.g[end] < G_INFINITE
    ensures depth == Length(ParentRoute(v, q, s, end, Stop)) < v.N()
  {
    hide Ready, Shaped, Chained, CanStep, ParentRoute, View.Valid, View.N;
    ParentRouteShort(v, q, s, end, Stop, {});
    RoomForAll(v, q, s);
    var idx: nat := end;
    depth := 0;
    ghost var acc := Stop;
    while idx != start
      invariant idx < v.N() && s.g[idx] < G_INFINITE && Length(acc) == depth
      invariant ParentRoute(v, q, s, idx, acc) == ParentRoute(v, q, s, end, Stop)
      decreases s.g[idx]
    {
      UnwindOne(v, q, s, idx, acc);
      var d := ctx.parent[idx] - 1;
      depth := depth + 1;
      acc := Go(d, acc);
      idx := idx - (DX[d] + DY[d] * v.w);
    }
    UnwoundAll(v, q, s, acc);
  }

  lemma RoomForAll(v: View, q: Query, s: State)
    requires Ready(v, q) && Shaped(v, q, s)
    ensures |s.g| == |s.parent| == |s.from| == v.N() && q.start < v.N()
  {
  }

  /** One step of the back-walk: the recorded direction leads back to the recorded parent, which is strictly cheaper. */
  lemma UnwindOne(v: View, q: Query, s: State, u: nat, acc: Route)
    requires Ready(v, q) && Shaped(v, q, s) && Chained(v, q, s) && u < v.N() && s.g[u] < G_INFINITE && u != q.start
    ensures 0 < s.parent[u] <= 8 && s.from[u] < v.N() && s.g[s.from[u]] < s.g[u]
    ensures s.from[u] == u - (DX[s.parent[u] - 1] + DY[s.parent[u] - 1] * v.w)
    ensures ParentRoute(v, q, s, u, acc) == ParentRoute(v, q, s, s.from[u], Go(s.parent[u] - 1, acc))
  {
    hide CanStep, Dest, EnterCost, Chained, Parented;
    ParentStep(v, q, s, u);
    BackOneTile(v, q, s, u);
    ParentPositive(v, q, s, u);
  }

  lemma UnwoundAll(v: View, q: Query, s: State, acc: Route)
    requires Ready(v, q) && Shaped(v, q, s) && Chained(v, q, s) && s.g[q.start] < G_INFINITE
    ensures ParentRoute(v, q, s, q.start, acc) == acc
  {
  }

  lemma ParentPositive(v: View, q: Query, s: State, u: nat)
    requires Ready(v, q) && Shaped(v, q, s) && u < v.N() && Parented(v, q, s, u)
    ensures s.parent[u] > 0 && s.from[u] < v.N() && CanStep(v, s.from[u], s.parent[u] - 1)
    ensures Dest(v, s.from[u], s.parent[u] - 1) == u
  {
  }

  lemma {:induction false} RouteOnlyGrows(v: View, q: Query, s: State, u: nat, acc: Route)
    requires Ready(v, q) && Shaped(v, q, s) && Chained(v, q, s) && u < v.N() && s.g[u] < G_INFINITE
    ensures Length(ParentRoute(v, q, s, u, acc)) >= Length(acc)
    ensures Length(ParentRoute(v, q, s, u, acc)) == Length(acc) <==> u == q.start
    decreases s.g[u]
  {
    hide CanStep, Dest, EnterCost, Chained;
    if u != q.start {
      ParentStep(v, q, s, u);
      RouteOnlyGrows(v, q, s, s.from[u], Go(s.parent[u] - 1, acc));
    }
  }

  /** Prepending the step that enters `u` extends everything said about the route so far. */
  lemma RouteGrows(v: View, q: Query, s: State, u: nat, acc: Route)
    requires Ready(v, q) && Shaped(v, q, s) && Chained(v, q, s) && u < v.N() && s.g[u] < G_INFINITE && u != q.start
    requires Legal(v, u, acc)
    ensures Parented(v, q, s, u) && s.parent[u] > 0 && s.from[u] < v.N() && s.g[s.from[u]] < s.g[u]
    ensures var d, p := s.parent[u] - 1, s.from[u];
            && d < 8 && p == u - (DX[d] + DY[d] * v.w)
            && Legal(v, p, Go(d, acc))
            && ParentRoute(v, q, s, p, Go(d, acc)) == ParentRoute(v, q, s, u, acc)
            && Steps(v, p, Go(d, acc)) == [Step(u, TrueCost(v, u, d))] + Steps(v, u, acc)
            && Duration(v, p, Go(d, acc)) == TrueCost(v, u, d) + Duration(v, u, acc)
  {
    hide CanStep, Dest, EnterCost, Chained, TrueCost;
    ParentStep(v, q, s, u);
    BackOneTile(v, q, s, u);
  }

  /** Emits the path from `start` to `end`, start tile excluded, at the end of the buffer, and sums its true
      durations.  What was in the buffer stays where it was. */
  method EmitPath(v: View, ctx: SearchContext, buf: OutBuffer, start: nat, end: nat, ghost q: Query, ghost s: State)
    returns (len: nat, off: nat, trueQ: nat)
    requires Ready(v, q) && Shaped(v, q, s) && Chained(v, q, s) && q.start == start
    requires ctx.Holds(s) && end < v.N() && s.g[end] < G_INFINITE && buf.Valid()
    modifies buf, buf.steps
    ensures buf.Valid() && (buf.steps == old(buf.steps) || fresh(buf.steps))
    ensures var r := ParentRoute(v, q, s, end, Stop);
            && Legal(v, start, r)
            && buf.Contents() == old(buf.Contents()) + Steps(v, start, r)
            && len == Length(r) < v.N() && off == old(buf.len)
            && trueQ == Duration(v, start, r)
  {
    hide Ready, Shaped, Chained, CanStep, Dest, Legal, ParentRoute, Steps, Duration, Cost, View.Valid, View.N,
      SearchContext.Holds;
    StopIsLegal(v, q, s, end);
    ParentRouteLegal(v, q, s, end, Stop);
    len := CountSteps(v, ctx, start, end, q, s);
    buf.Reserve(len);
    off := buf.len;
    trueQ := FillBack(v, ctx, buf.steps, off, len, start, end, q, s);
    buf.len := buf.len + len;
  }

  /** Writes the steps backwards from the end of the path into slots `off` to `off + len`. */
  method FillBack(v: View, ctx: SearchContext, steps: array<Step>, off: nat, len: nat, start: nat, end: nat,
                  ghost q: Query, ghost s: State) returns (trueQ: nat)
    requires Ready(v, q) && Shaped(v, q, s) && Chained(v, q, s) && q.start == start
    requires ctx.Holds(s) && end < v.N() && s.g[end] < G_INFINITE
    requires len == Length(ParentRoute(v, q, s, end, Stop)) && off + len <= steps.Length
    modifies steps
    ensures steps[..off] == old(steps[..off])
    ensures var r := ParentRoute(v, q, s, end, Stop);
            Legal(v, start, r) && steps[off..off + len] == Steps(v, start, r) && trueQ == Duration(v, start, r)
  {
    hide Chained, CanStep, Dest, EnterCost, Parented, TrueCost, ParentRoute, Legal, Shaped, View.Valid, Steps, Duration;
    trueQ := 0;
    var idx: nat := end;
    ghost var acc := Stop;
    StopIsLegal(v, q, s, end);
    for pos := len downto 0
      invariant idx < v.N() == |s.g| == |s.from| && s.g[idx] < G_INFINITE && Legal(v, idx, acc)
                && Length(acc) + pos == len
      invariant ParentRoute(v, q, s, idx, acc) == ParentRoute(v, q, s, end, Stop)
      invariant steps[..off] == old(steps[..off]) && steps[off + pos..off + len] == Steps(v, idx, acc)
      invariant trueQ == Duration(v, idx, acc)
    {
      RouteOnlyGrows(v, q, s, idx, acc);
      RouteGrows(v, q, s, idx, acc);
      ghost var was := steps[off + pos + 1..off + len];
      ghost var p := s.from[idx];
      var d := ctx.parent[idx] - 1;
      assert d == s.parent[idx] - 1;
      var ticks := TrueCost(v, idx, d);
      steps[off + pos] := Step(idx, ticks);
      trueQ := trueQ + ticks;
      acc := Go(d, acc);
      assert steps[off + pos..off + len] == [Step(idx, ticks)] + was;
      idx := idx - (DX[d] + DY[d] * v.w);
      assert idx == p;
    }
    RouteOnlyGrows(v, q, s, idx, acc);
    HomeRoute(v, q, s, acc);
  }

  lemma StopIsLegal(v: View, q: Query, s: State, i: nat)
    requires Ready(v, q) && Shaped(v, q, s) && i < v.N()
    ensures Legal(v, i, Stop) && |s.g| == |s.from| == |s.parent| == v.N()
    ensures Steps(v, i, Stop) == [] && Duration(v, i, Stop) == 0
  {
  }

  lemma HomeRoute(v: View, q: Query, s: State, acc: Route)
    requires Ready(v, q) && Shaped(v, q, s) && Chained(v, q, s)
    ensures s.g[q.start] == 0 && ParentRoute(v, q, s, q.start, acc) == acc
  {
  }
}
