/** Building a goal field in place, with the search's heap, and answering requests from a finished one. */
module FieldKernel {
  import opened FixedPoint
  import opened Grid
  import opened OpenList
  import opened Trails
  import opened FieldMachine
  import opened FieldExact

  class GoalField {
    const dist: array<nat>
    const next: array<nat>
    var ok: bool

    constructor (n: nat)
      ensures dist.Length == next.Length == n && dist != next && fresh(dist) && fresh(next) && !ok
    {
      dist := new nat[n];
      next := new nat[n];
      ok := false;
    }

    /** Arrays and heap together hold the machine state `s`. */
    ghost predicate Mirrors(heap: Heap, s: FieldState)
      reads dist, next, heap, heap.h
    {
      && dist != next && heap.Valid()
      && dist[..] == s.dist && next[..] == s.next && heap.Contents() == s.open
    }

    /** The finished arrays. */
    ghost predicate Shows(s: FieldState)
      reads dist, next
    {
      dist[..] == s.dist && next[..] == s.next
    }

    lemma ShowsAt(s: FieldState, i: nat)
      requires Shows(s) && i < |s.dist| == |s.next|
      ensures dist.Length == next.Length == |s.dist| && dist[i] == s.dist[i] && next[i] == s.next[i]
    {
      assert dist[..][i] == dist[i] && next[..][i] == next[i];
    }

    method Wipe()
      requires dist.Length == next.Length && dist != next
      modifies dist, next
      ensures forall i | 0 <= i < dist.Length :: dist[i] == G_INFINITE && next[i] == 0
    {
      for i := 0 to dist.Length
        invariant forall j | 0 <= j < i :: dist[j] == G_INFINITE && next[j] == 0
      {
        dist[i] := G_INFINITE;
        next[i] := 0;
      }
    }

    /** Every seed starts at 0; blocked seeds keep their zero but are never queued. */
    method Seed(v: View, bits: seq<bool>, heap: Heap)
      requires v.Valid() && |bits| == v.N() == dist.Length == next.Length && dist != next
      requires heap.Valid() && heap.Contents() == multiset{}
      requires forall i | 0 <= i < dist.Length :: dist[i] == G_INFINITE && next[i] == 0
      modifies dist, heap, heap.h
      ensures heap.h == old(heap.h) || fresh(heap.h)
      ensures Mirrors(heap, Start(v, Seeds(bits)))
    {
      hide Ordered, Less, Start, SourceEntries, Heap.Contents;
      SourceEntriesGrow(v, Seeds(bits), 0);
      for i := 0 to v.N()
        invariant heap.Valid() && (heap.h == old(heap.h) || fresh(heap.h))
        invariant heap.Contents() == SourceEntries(v, Seeds(bits), i)
        invariant forall j | 0 <= j < v.N() :: dist[j] == if j < i && bits[j] then 0 else G_INFINITE
      {
        SourceEntriesGrow(v, Seeds(bits), i);
        if bits[i] {
          dist[i] := 0;
          if !v.blocked[i] {
            heap.Push(Entry(0, 0, i));
          }
        }
      }
      StartIs(v, Seeds(bits), dist[..], next[..]);
    }

    method Begin(v: View, t: Target, heap: Heap)
      requires v.Valid() && ValidTarget(v, t) && v.N() == dist.Length == next.Length && dist != next && heap.Valid()
      modifies dist, next, heap, heap.h
      ensures heap.h == old(heap.h) || fresh(heap.h)
      ensures Mirrors(heap, Start(v, t))
    {
      hide Ordered, Less, Start;
      heap.Clear();
      Wipe();
      match t {
        case Seeds(bits) => Seed(v, bits, heap);
        case Tile(goal) =>
          SingleEntry(v, goal, v.N());
          if !v.blocked[goal] {
            dist[goal] := 0;
            heap.Push(Entry(0, 0, goal));
          }
          StartIs(v, t, dist[..], next[..]);
      }
    }

    /** One direction of settling `u`; no sum leaves 64 bits. */
    method TryPull(v: View, heap: Heap, u: nat, d: nat, ghost tg: Target, ghost s: FieldState)
      requires v.Valid() && ValidTarget(v, tg) && Formed(v, s) && Mirrors(heap, s)
      requires u < v.N() && d < v.Dirs() && s.dist[u] < G_INFINITE && FieldInv(v, tg, s, u, d)
      modifies dist, next, heap, heap.h
      ensures heap.h == old(heap.h) || fresh(heap.h)
      ensures Mirrors(heap, Pull(v, s, u, d))
    {
      hide Pull, FieldInv, Mirrors, X, Y, FlankA, FlankB;
      PullWhen(v, s, u, d);
      if !InBounds(v, u, d) {
        return;
      }
      var i := Nbr(v, u, d);
      if d >= 4 && CornerForbidden(v, u, d) {
        return;
      }
      assert Pulls(v, u, d) && i == Puller(v, u, d);
      Lower(v, heap, u, d, i, tg, s);
    }

    method Lower(v: View, heap: Heap, u: nat, d: nat, i: nat, ghost tg: Target, ghost s: FieldState)
      requires v.Valid() && ValidTarget(v, tg) && Formed(v, s) && Mirrors(heap, s)
      requires u < v.N() && d < v.Dirs() && s.dist[u] < G_INFINITE && FieldInv(v, tg, s, u, d)
      requires Pulls(v, u, d) && i == Puller(v, u, d)
      modifies dist, next, heap, heap.h
      ensures heap.h == old(heap.h) || fresh(heap.h)
      ensures Mirrors(heap, Pull(v, s, u, d))
    {
      hide Pulls, Puller, EnterCost, Ordered, Less, FieldInv, Pull, Heap.Contents;
      CandidateFits(v, tg, s, u, d);
      PullWhen(v, s, u, d);
      ghost var t := Pull(v, s, u, d);
      var cand := dist[u] + EnterCost(v, u, d);
      assert cand < G_INFINITE;
      if cand >= dist[i] {
        return;
      }
      dist[i] := cand;
      next[i] := OPPOSITE[d] + 1;
      assert dist[..] == t.dist && next[..] == t.next;
      if !v.blocked[i] {
        heap.Push(Entry(cand, cand, i));
      }
    }

    method Settle(v: View, heap: Heap, u: nat, ghost tg: Target, ghost s: FieldState)
      requires v.Valid() && ValidTarget(v, tg) && Formed(v, s) && Mirrors(heap, s)
      requires u < v.N() && !v.blocked[u] && s.dist[u] < G_INFINITE && FieldInv(v, tg, s, u, 0)
      modifies dist, next, heap, heap.h
      ensures heap.h == old(heap.h) || fresh(heap.h)
      ensures Mirrors(heap, PullFrom(v, s, u, 0))
    {
      hide Pull, Mirrors, FieldInv;
      ghost var t := s;
      for d := 0 to v.Dirs()
        invariant heap.h == old(heap.h) || fresh(heap.h)
        invariant Formed(v, t) && Mirrors(heap, t) && t.dist[u] < G_INFINITE && FieldInv(v, tg, t, u, d)
        invariant PullFrom(v, t, u, d) == PullFrom(v, s, u, 0)
        modifies dist, next, heap, heap.h
      {
        PullStep(v, tg, t, u, d);
        TryPull(v, heap, u, d, tg, t);
        t := Pull(v, t, u, d);
      }
    }

    /** Reverse Dijkstra.  What it leaves in the arrays is the machine's field. */
    method Build(v: View, t: Target, heap: Heap)
      requires v.Valid() && ValidTarget(v, t) && v.N() == dist.Length == next.Length && dist != next && heap.Valid()
      modifies this`ok, dist, next, heap, heap.h
      ensures heap.Valid() && (heap.h == old(heap.h) || fresh(heap.h))
      ensures ok && Shows(Field(v, t))
    {
      hide FieldMachine.Build, Field, Start, Settled, FieldInv, Mirrors, Shows, View.Valid, IsFirst, Formed, Ordered;
      Begin(v, t, heap);
      ghost var s := Start(v, t);
      StartHolds(v, t);
      FieldStarts(v, t);
      MirrorsCount(heap, s);
      while heap.len > 0
        invariant heap.h == old(heap.h) || fresh(heap.h)
        invariant Formed(v, s) && Mirrors(heap, s) && FieldInv(v, t, s, 0, 8) && |s.open| == heap.len
        invariant FieldMachine.Build(v, s) == Field(v, t)
        decreases Sum(s.dist), |s.open|
      {
        BuildUnfolds(v, s);
        DropKeeps(v, t, s);
        ghost var was := s;
        var e, stale := TakeFirst(v, heap, s);
        s := Dropped(was);
        if !stale {
          PullFromKeeps(v, t, s, e.idx, 0);
          Settle(v, heap, e.idx, t, s);
          s := Settled(v, was);
          SettledIs(v, was);
        }
        MirrorsCount(heap, s);
      }
      BuildUnfolds(v, s);
      MirrorsCount(heap, s);
      MirrorsShow(heap, s);
      ok := true;
    }

    method TakeFirst(v: View, heap: Heap, ghost s: FieldState) returns (e: Entry, stale: bool)
      requires v.Valid() && Formed(v, s) && Mirrors(heap, s) && heap.len > 0 && s.open != multiset{}
      modifies heap, heap.h
      ensures heap.h == old(heap.h)
      ensures e == First(s.open) && e.idx < v.N() == |s.dist| && stale == (e.f != s.dist[e.idx])
      ensures Mirrors(heap, Dropped(s))
    {
      hide Ordered, IsFirst, View.Valid, Less;
      FirstFormed(v, s);
      e := heap.Pop();
      FirstIsUnique(s.open, e);
      stale := e.f != dist[e.idx];
    }

    lemma MirrorsCount(heap: Heap, s: FieldState)
      requires Mirrors(heap, s)
      ensures |s.open| == heap.len && heap.Valid()
    {
    }

    lemma MirrorsShow(heap: Heap, s: FieldState)
      requires Mirrors(heap, s)
      ensures Shows(s)
    {
    }
  }

  /** The arrays a build starts from. */
  lemma StartIs(v: View, t: Target, dist: seq<nat>, next: seq<nat>)
    requires v.Valid() && ValidTarget(v, t) && |dist| == |next| == v.N()
    requires forall i: nat | i < v.N() :: dist[i] == (if Source(v, t, i) then 0 else G_INFINITE) && next[i] == 0
    ensures Start(v, t).dist == dist && Start(v, t).next == next && Start(v, t).open == SourceEntries(v, t, v.N())
  {
  }

  lemma SourceEntriesGrow(v: View, t: Target, k: nat)
    requires v.Valid() && ValidTarget(v, t) && k <= v.N()
    ensures SourceEntries(v, t, 0) == multiset{}
    ensures k < v.N() && Source(v, t, k) && !v.blocked[k] ==>
              SourceEntries(v, t, k + 1) == SourceEntries(v, t, k) + multiset{Entry(0, 0, k)}
    ensures k < v.N() && !(Source(v, t, k) && !v.blocked[k]) ==>
              SourceEntries(v, t, k + 1) == SourceEntries(v, t, k)
  {
  }

  lemma PullWhen(v: View, s: FieldState, u: nat, d: nat)
    requires v.Valid() && Formed(v, s) && u < v.N()
    ensures !Pulls(v, u, d) ==> Pull(v, s, u, d) == s
    ensures Pulls(v, u, d) ==>
              var t, i := Pull(v, s, u, d), Puller(v, u, d);
              var cand := s.dist[u] + EnterCost(v, u, d);
              && d < 8
              && (cand >= s.dist[i] ==> t == s)
              && (cand < s.dist[i] ==>
                    && t.dist == s.dist[i := cand] && t.next == s.next[i := OPPOSITE[d] + 1]
                    && t.open == if v.blocked[i] then s.open else s.open + multiset{Entry(cand, cand, i)})
  {
    hide Puller, EnterCost;
  }

  lemma {:induction false} SingleEntry(v: View, goal: nat, k: nat)
    requires v.Valid() && goal < v.N() && k <= v.N()
    ensures SourceEntries(v, Tile(goal), k) ==
            if goal < k && !v.blocked[goal] then multiset{Entry(0, 0, goal)} else multiset{}
  {
    if k > 0 {
      SingleEntry(v, goal, k - 1);
    }
  }

  lemma CandidateFits(v: View, tg: Target, s: FieldState, u: nat, d: nat)
    requires v.Valid() && ValidTarget(v, tg) && Formed(v, s) && u < v.N() && s.dist[u] < G_INFINITE
    requires FieldInv(v, tg, s, u, d)
    ensures s.dist[u] + U32_MAX < G_INFINITE
  {
    hide Spread, Guided, Trailed;
    TentativeCostBounded(s.dist, u);
    TileCount(v);
  }

  lemma PullStep(v: View, tg: Target, s: FieldState, u: nat, d: nat)
    requires v.Valid() && ValidTarget(v, tg) && Formed(v, s) && u < v.N() && d < v.Dirs()
    requires s.dist[u] < G_INFINITE && !v.blocked[u] && FieldInv(v, tg, s, u, d)
    ensures var t := Pull(v, s, u, d); t.dist[u] == s.dist[u] && FieldInv(v, tg, t, u, d + 1)
  {
    hide Spread, Guided, Trailed, Pull;
    PullSpread(v, s, u, d);
    PullGuided(v, tg, s, u, d);
  }

  lemma FirstFormed(v: View, s: FieldState)
    requires v.Valid() && Formed(v, s) && s.open != multiset{}
    ensures First(s.open).idx < v.N() == |s.dist|
  {
  }

  lemma FieldStarts(v: View, t: Target)
    requires v.Valid() && ValidTarget(v, t)
    ensures FieldMachine.Build(v, Start(v, t)) == Field(v, t)
  {
  }

  lemma SettledIs(v: View, s: FieldState)
    requires v.Valid() && Formed(v, s) && s.open != multiset{} && Formed(v, Dropped(s)) && First(s.open).idx < v.N()
    ensures Settled(v, s) == PullFrom(v, Dropped(s), First(s.open).idx, 0)
  {
  }

  lemma BuildUnfolds(v: View, s: FieldState)
    requires v.Valid() && Formed(v, s)
    ensures s.open == multiset{} ==> FieldMachine.Build(v, s) == s
    ensures s.open != multiset{} ==>
              var e := First(s.open);
              && e.idx < v.N() && |s.dist| == v.N() && Formed(v, Dropped(s))
              && Dropped(s).dist == s.dist && |Dropped(s).open| < |s.open|
              && (e.f != s.dist[e.idx] ==> FieldMachine.Build(v, s) == FieldMachine.Build(v, Dropped(s)))
              && (e.f == s.dist[e.idx] ==> FieldMachine.Build(v, s) == FieldMachine.Build(v, Settled(v, s)))
  {
    hide Settled;
  }
}
