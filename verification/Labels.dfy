/** Component labels for one blocking class, by flood fill over the 8-connected graph without corner rules, and why a
    label mismatch proves that no profile of the class can get through. */
module Labels {
  import opened FixedPoint
  import opened Grid
  import opened Profiles
  import Trails

  /** Enterable for a blocking class, whatever the weights. */
  predicate ClassEnterable(t: Terrain, block: Word, need: Word, i: nat)
    requires |t.tags| == |t.cost| && i < |t.cost|
  {
    t.cost[i] != 0 && t.tags[i] * block == {} && (need == {} || t.tags[i] * need != {})
  }

  /** The superset graph of a class: every profile of the class moves within it. */
  ghost function Superset(t: Terrain, block: Word, need: Word): (v: View)
    requires t.Valid()
    ensures v.Valid() && v.N() == |t.cost| && v.w == t.w && !v.conn4 && v.corner == Allow
    ensures forall i | 0 <= i < |t.cost| :: v.blocked[i] <==> !ClassEnterable(t, block, need, i)
  {
    var n := |t.cost|;
    View(t.w, t.h, false, Allow, seq(n, i requires 0 <= i < n => !ClassEnterable(t, block, need, i)),
         seq(n, _ => 1), seq(n, _ => 1), seq(n, _ => 1), seq(n, _ => 1), 1, 1)
  }

  ghost predicate Joined(v: View, i: nat, j: nat)
    requires v.Valid() && i < v.N()
  {
    exists r: Route :: Connects(v, i, r, j)
  }

  /** Labels name the components: 0 for tiles that cannot be entered, and equal labels exactly where a route exists. */
  ghost predicate NamesComponents(v: View, comp: seq<nat>)
    requires v.Valid()
  {
    && |comp| == v.N()
    && (forall i | 0 <= i < v.N() :: comp[i] == 0 <==> v.blocked[i])
    && (forall i: nat, j: nat | i < v.N() && j < v.N() && !v.blocked[i] && !v.blocked[j] ::
          comp[i] == comp[j] <==> Joined(v, i, j))
  }

  // ---------- routes in the superset graph can be joined and reversed ----------

  lemma JoinedTransitive(v: View, i: nat, j: nat, k: nat)
    requires v.Valid() && i < v.N() && j < v.N() && Joined(v, i, j) && Joined(v, j, k)
    ensures Joined(v, i, k)
  {
    hide Legal;
    var r: Route :| Connects(v, i, r, j);
    var s: Route :| Connects(v, j, s, k);
    AppendConnects(v, i, r, s);
  }

  /** Without corner rules a step between enterable tiles can be taken back. */
  lemma StepReverses(v: View, i: nat, d: nat)
    requires v.Valid() && !v.conn4 && v.corner == Allow && i < v.N() && !v.blocked[i] && CanStep(v, i, d)
    ensures d < 8 && CanStep(v, Dest(v, i, d), OPPOSITE[d]) && Dest(v, Dest(v, i, d), OPPOSITE[d]) == i
  {
    hide X, Y;
    OppositeOffset(d);
    StepBack(v, i, d);
  }

  lemma JoinedByStep(v: View, i: nat, d: nat)
    requires v.Valid() && i < v.N() && CanStep(v, i, d)
    ensures Joined(v, i, Dest(v, i, d))
  {
    hide CanStep, Dest;
    var u := Dest(v, i, d);
    assert Legal(v, u, Stop) && End(v, u, Stop) == u;
    assert Connects(v, i, Go(d, Stop), u);
  }

  lemma {:induction false} Reversed(v: View, i: nat, r: Route)
    requires v.Valid() && !v.conn4 && v.corner == Allow && i < v.N() && !v.blocked[i] && Legal(v, i, r)
    ensures Joined(v, End(v, i, r), i) && !v.blocked[End(v, i, r)]
    decreases r
  {
    match r
    case Stop =>
      assert Connects(v, i, Stop, i);
    case Go(d, rest) =>
      var u := Dest(v, i, d);
      StepReverses(v, i, d);
      Reversed(v, u, rest);
      JoinedByStep(v, u, OPPOSITE[d]);
      JoinedTransitive(v, End(v, i, r), u, i);
  }

  // ---------- flood fill ----------

  /** The in-bounds, enterable neighbours of `i` carry its label. */
  ghost predicate Flooded(v: View, comp: seq<nat>, i: nat)
    requires v.Valid() && |comp| == v.N() && i < v.N()
  {
    forall d: nat | CanStep(v, i, d) :: comp[Dest(v, i, d)] == comp[i]
  }

  /** Each component's first tile carries its number. */
  ghost predicate Opened(v: View, comp: seq<nat>, reps: seq<nat>)
    requires v.Valid() && |comp| == v.N()
  {
    forall k | 0 <= k < |reps| :: reps[k] < v.N() && !v.blocked[reps[k]] && comp[reps[k]] == k + 1
  }

  /** A labelled tile is enterable and can be reached from its component's first tile. */
  ghost predicate Hangs(v: View, comp: seq<nat>, reps: seq<nat>, i: nat)
    requires v.Valid() && |comp| == v.N() && i < v.N() && comp[i] != 0
  {
    !v.blocked[i] && comp[i] <= |reps| && reps[comp[i] - 1] < v.N() && Joined(v, reps[comp[i] - 1], i)
  }

  /** What holds between the rounds of a fill: labelled tiles are enterable and hang on their component's first tile,
      and all but the queued ones are flooded. */
  ghost predicate Filling(v: View, comp: seq<nat>, reps: seq<nat>, queued: set<nat>)
    requires v.Valid()
  {
    && |comp| == v.N()
    && Opened(v, comp, reps)
    && (forall i: nat | i < v.N() && comp[i] != 0 :: Hangs(v, comp, reps, i))
    && (forall i: nat | i < v.N() && comp[i] != 0 && i !in queued :: Flooded(v, comp, i))
  }

  lemma {:induction false} LabelAlongRoute(v: View, comp: seq<nat>, reps: seq<nat>, i: nat, r: Route)
    requires v.Valid() && Filling(v, comp, reps, {}) && i < v.N() && comp[i] != 0 && Legal(v, i, r)
    ensures comp[End(v, i, r)] == comp[i]
    decreases r
  {
    hide CanStep, Dest;
    match r
    case Stop =>
    case Go(d, rest) =>
      assert Flooded(v, comp, i);
      LabelAlongRoute(v, comp, reps, Dest(v, i, d), rest);
  }

  /** A finished fill names the components. */
  lemma FilledNames(v: View, comp: seq<nat>, reps: seq<nat>)
    requires v.Valid() && !v.conn4 && v.corner == Allow && Filling(v, comp, reps, {})
    requires forall i | 0 <= i < v.N() && !v.blocked[i] :: comp[i] != 0
    ensures NamesComponents(v, comp)
  {
    hide Flooded, Legal, End;
    forall i: nat, j: nat | i < v.N() && j < v.N() && !v.blocked[i] && !v.blocked[j]
      ensures comp[i] == comp[j] <==> Joined(v, i, j)
    {
      if Joined(v, i, j) {
        var r: Route :| Connects(v, i, r, j);
        LabelAlongRoute(v, comp, reps, i, r);
      }
      if comp[i] == comp[j] {
        assert Hangs(v, comp, reps, i) && Hangs(v, comp, reps, j);
        var rep := reps[comp[i] - 1];
        var r: Route :| Connects(v, rep, r, i);
        Reversed(v, rep, r);
        JoinedTransitive(v, i, rep, j);
      }
    }
  }

  /** Steps of the superset graph, in the map's own terms. */
  lemma SupersetStep(t: Terrain, block: Word, need: Word, i: nat, d: nat)
    requires t.Valid() && i < |t.cost| && d < 8
    ensures var v := Superset(t, block, need);
            && (CanStep(v, i, d) <==>
                 GridInBounds(t.w, t.h, i, d) && ClassEnterable(t, block, need, GridNbr(t.w, t.h, i, d)))
            && (CanStep(v, i, d) ==> Dest(v, i, d) == GridNbr(t.w, t.h, i, d))
  {
  }

  lemma SupersetDirections(t: Terrain, block: Word, need: Word, i: nat, d: nat)
    requires t.Valid() && i < |t.cost| && CanStep(Superset(t, block, need), i, d)
    ensures d < 8
  {
  }

  /** Labelling a fresh neighbour of a labelled tile keeps the fill in order, the neighbour now being queued. */
  lemma LabelNeighbour(v: View, comp: seq<nat>, reps: seq<nat>, queued: set<nat>, cur: nat, d: nat)
    requires v.Valid() && Filling(v, comp, reps, queued) && cur < v.N() && comp[cur] == |reps| > 0
    requires CanStep(v, cur, d) && comp[Dest(v, cur, d)] == 0
    ensures Filling(v, comp[Dest(v, cur, d) := |reps|], reps, queued + {Dest(v, cur, d)})
  {
    StepIsEnterable(v, cur, d);
    hide CanStep, Dest, Joined, Flooded;
    var nb := Dest(v, cur, d);
    var next := comp[nb := |reps|];
    JoinedByStep(v, cur, d);
    assert Hangs(v, comp, reps, cur);
    JoinedTransitive(v, reps[|reps| - 1], cur, nb);
    forall i: nat | i < v.N() && next[i] != 0 ensures Hangs(v, next, reps, i) {
      assert i != nb ==> Hangs(v, comp, reps, i);
    }
    forall i: nat | i < v.N() && next[i] != 0 && i !in queued + {nb} ensures Flooded(v, next, i) {
      FreshKeepsFlooded(v, comp, i, nb, |reps|);
    }
    hide Hangs;
  }

  /** A flooded tile has no unlabelled neighbour, so labelling one leaves it flooded. */
  lemma FreshKeepsFlooded(v: View, comp: seq<nat>, i: nat, nb: nat, l: nat)
    requires v.Valid() && |comp| == v.N() && i < v.N() && nb < v.N() && i != nb && comp[i] != 0 && comp[nb] == 0
    requires Flooded(v, comp, i)
    ensures Flooded(v, comp[nb := l], i)
  {
    hide CanStep, Dest;
  }

  lemma StepIsEnterable(v: View, i: nat, d: nat)
    requires v.Valid() && i < v.N() && CanStep(v, i, d)
    ensures !v.blocked[Dest(v, i, d)]
  {
  }

  /** A neighbour that already has a label has the right one: an older component would have claimed `cur` too. */
  lemma LabelledNeighbour(v: View, comp: seq<nat>, reps: seq<nat>, queued: set<nat>, cur: nat, d: nat)
    requires v.Valid() && !v.conn4 && v.corner == Allow && Filling(v, comp, reps, queued)
    requires cur < v.N() && comp[cur] == |reps| > 0
    requires forall i | i in queued :: i < v.N() && comp[i] == |reps|
    requires CanStep(v, cur, d) && comp[Dest(v, cur, d)] != 0
    ensures comp[Dest(v, cur, d)] == |reps|
  {
    var nb := Dest(v, cur, d);
    StepReverses(v, cur, d);
    if nb !in queued {
      assert Flooded(v, comp, nb);
    }
  }

  /** A fresh seed opens a new component. */
  lemma OpenComponent(v: View, comp: seq<nat>, reps: seq<nat>, seed: nat)
    requires v.Valid() && Filling(v, comp, reps, {}) && seed < v.N() && !v.blocked[seed] && comp[seed] == 0
    requires !v.conn4 && v.corner == Allow
    ensures Filling(v, comp[seed := |reps| + 1], reps + [seed], {seed})
  {
    var next, reps' := comp[seed := |reps| + 1], reps + [seed];
    assert Connects(v, seed, Stop, seed);
    assert Joined(v, reps'[|reps|], seed);
    hide CanStep, Dest, Joined, Flooded;
    forall i: nat | i < v.N() && next[i] != 0 ensures Hangs(v, next, reps', i) {
      assert i != seed ==> Hangs(v, comp, reps, i);
    }
    forall i: nat | i < v.N() && next[i] != 0 && i != seed ensures Flooded(v, next, i) {
      FreshKeepsFlooded(v, comp, i, seed, |reps| + 1);
    }
    hide Hangs;
  }

  /** The queued tiles still to be flooded. */
  ghost function Waiting(queue: seq<nat>, head: nat, tail: nat): set<nat>
    requires head <= tail <= |queue|
  {
    set k | head <= k < tail :: queue[k]
  }

  lemma WaitingMoves(queue: seq<nat>, head: nat, tail: nat, nb: nat)
    requires head <= tail <= |queue|
    ensures tail < |queue| ==> Waiting(queue[tail := nb], head, tail + 1) == Waiting(queue, head, tail) + {nb}
    ensures head < tail ==> Waiting(queue, head, tail) == {queue[head]} + Waiting(queue, head + 1, tail)
    ensures Waiting(queue, head, head) == {}
  {
    if tail < |queue| {
      var next := queue[tail := nb];
      forall x | x in Waiting(queue, head, tail) + {nb} ensures x in Waiting(next, head, tail + 1) {
        if x == nb {
          assert next[tail] == nb;
        } else {
          var k :| head <= k < tail && queue[k] == x;
          assert next[k] == x;
        }
      }
    }
  }

  class Flood {
    const comp: array<nat>
    const queue: array<nat>

    constructor (n: nat)
      ensures comp.Length == queue.Length == n && comp != queue && fresh(comp) && fresh(queue)
      ensures forall i | 0 <= i < n :: comp[i] == 0
    {
      comp := new nat[n](_ => 0);
      queue := new nat[n];
    }

    /** The queue holds distinct tiles, all of the newest component; those from `head` on are still to be flooded. */
    ghost predicate Queued(n: nat, head: nat, tail: nat, l: nat)
      reads comp, queue
    {
      && comp.Length == queue.Length == n && comp != queue && head <= tail <= n
      && (forall k | 0 <= k < tail :: queue[k] < n && comp[queue[k]] == l)
      && (forall j, k | 0 <= j < k < tail :: queue[j] != queue[k])
    }

    /** Labels and queues an enterable neighbour, unless it already has its label. */
    method Visit(ghost v: View, ghost cur: nat, ghost d: nat, nb: nat, l: nat, head: nat, tail0: nat,
                 ghost reps: seq<nat>)
      returns (tail: nat)
      requires v.Valid() && !v.conn4 && v.corner == Allow && Queued(v.N(), head, tail0, l) && l == |reps| > 0
      requires cur < v.N() && comp[cur] == l && CanStep(v, cur, d) && nb == Dest(v, cur, d)
      requires Filling(v, comp[..], reps, Waiting(queue[..], head, tail0) + {cur})
      modifies comp, queue
      ensures Queued(v.N(), head, tail, l) && comp[nb] == l
      ensures Filling(v, comp[..], reps, Waiting(queue[..], head, tail) + {cur})
      ensures forall i | 0 <= i < comp.Length && old(comp[i]) != 0 :: comp[i] == old(comp[i])
    {
      hide Filling, CanStep, Dest;
      ghost var queued := Waiting(queue[..], head, tail0) + {cur};
      tail := tail0;
      if comp[nb] == 0 {
        LabelNeighbour(v, comp[..], reps, queued, cur, d);
        RoomToQueue(queue[..tail], nb, v.N());
        Enqueue(nb, l, head, tail, v.N());
        tail := tail + 1;
        assert Waiting(queue[..], head, tail) + {cur} == queued + {nb};
      } else {
        LabelledNeighbour(v, comp[..], reps, queued, cur, d);
      }
    }

    /** Looks at the eight neighbours of `cur`. */
    method Spread(t: Terrain, block: Word, need: Word, cur: nat, l: nat, head: nat, tail0: nat, ghost reps: seq<nat>)
      returns (tail: nat)
      requires t.Valid() && Queued(|t.cost|, head, tail0, l) && l > 0 && l == |reps| && cur < |t.cost|
      requires comp[cur] == l
      requires Filling(Superset(t, block, need), comp[..], reps, Waiting(queue[..], head, tail0) + {cur})
      modifies comp, queue
      ensures Queued(|t.cost|, head, tail, l)
      ensures Filling(Superset(t, block, need), comp[..], reps, Waiting(queue[..], head, tail))
      ensures forall i | 0 <= i < comp.Length && old(comp[i]) != 0 :: comp[i] == old(comp[i])
    {
      hide Filling, ClassEnterable, Superset, CanStep, Dest, GridInBounds, GridNbr;
      ghost var v := Superset(t, block, need);
      tail := tail0;
      for d := 0 to 8
        invariant Queued(|t.cost|, head, tail, l) && comp[cur] == l
        invariant Filling(v, comp[..], reps, Waiting(queue[..], head, tail) + {cur})
        invariant forall e: nat | e < d && CanStep(v, cur, e) :: comp[Dest(v, cur, e)] == l
        invariant forall i | 0 <= i < comp.Length && old(comp[i]) != 0 :: comp[i] == old(comp[i])
      {
        SupersetStep(t, block, need, cur, d);
        if GridInBounds(t.w, t.h, cur, d) && ClassEnterable(t, block, need, GridNbr(t.w, t.h, cur, d)) {
          tail := Visit(v, cur, d, GridNbr(t.w, t.h, cur, d), l, head, tail, reps);
        }
      }
      CloseTile(t, block, need, comp[..], reps, Waiting(queue[..], head, tail), cur);
    }

    method Enqueue(nb: nat, l: nat, head: nat, tail: nat, ghost n: nat)
      requires Queued(n, head, tail, l) && nb < n && tail < n && comp[nb] == 0 && l > 0
      modifies comp, queue
      ensures Queued(n, head, tail + 1, l) && comp[..] == old(comp[..])[nb := l]
      ensures Waiting(queue[..], head, tail + 1) == old(Waiting(queue[..], head, tail)) + {nb}
    {
      WaitingMoves(queue[..], head, tail, nb);
      comp[nb] := l;
      queue[tail] := nb;
      assert queue[..] == old(queue[..])[tail := nb];
    }

    /** Floods the component of a fresh seed. */
    method FloodFrom(t: Terrain, block: Word, need: Word, seed: nat, l: nat, ghost reps: seq<nat>)
      requires t.Valid() && comp.Length == queue.Length == |t.cost| && comp != queue
      requires seed < |t.cost| && comp[seed] == 0 && ClassEnterable(t, block, need, seed) && l == |reps| + 1
      requires Filling(Superset(t, block, need), comp[..], reps, {})
      modifies comp, queue
      ensures Filling(Superset(t, block, need), comp[..], reps + [seed], {}) && comp[seed] != 0
      ensures forall i | 0 <= i < comp.Length && old(comp[i]) != 0 :: comp[i] == old(comp[i])
    {
      OpenComponent(Superset(t, block, need), comp[..], reps, seed);
      hide Filling, Superset, ClassEnterable, Terrain.Valid;
      ghost var v := Superset(t, block, need);
      ghost var was := comp[..];
      comp[seed] := l;
      queue[0] := seed;
      assert comp[..] == was[seed := l];
      var head, tail := 0, 1;
      assert Waiting(queue[..], 0, 1) == {seed};
      while head < tail
        invariant Queued(|t.cost|, head, tail, l)
        invariant Filling(v, comp[..], reps + [seed], Waiting(queue[..], head, tail))
        invariant comp[seed] == l && forall i | 0 <= i < comp.Length && old(comp[i]) != 0 :: comp[i] == old(comp[i])
        decreases |t.cost| - head
      {
        WaitingMoves(queue[..], head, tail, 0);
        var cur := queue[head];
        head := head + 1;
        assert Waiting(queue[..], head, tail) + {cur} == Waiting(queue[..], head - 1, tail);
        tail := Spread(t, block, need, cur, l, head, tail, reps + [seed]);
      }
      WaitingMoves(queue[..], head, tail, 0);
    }

    /** The whole fill, seed by seed. */
    method Fill(t: Terrain, block: Word, need: Word)
      requires t.Valid() && comp.Length == queue.Length == |t.cost| && comp != queue
      requires forall i | 0 <= i < comp.Length :: comp[i] == 0
      modifies comp, queue
      ensures NamesComponents(Superset(t, block, need), comp[..])
    {
      ghost var v := Superset(t, block, need);
      ghost var reps: seq<nat> := [];
      var next := 0;
      assert Filling(v, comp[..], reps, {});
      hide Filling, Superset, ClassEnterable, Terrain.Valid, NamesComponents;
      for seed := 0 to |t.cost|
        invariant Filling(v, comp[..], reps, {}) && next == |reps|
        invariant forall i | 0 <= i < seed && ClassEnterable(t, block, need, i) :: comp[i] != 0
      {
        if comp[seed] == 0 && ClassEnterable(t, block, need, seed) {
          next := next + 1;
          FloodFrom(t, block, need, seed, next, reps);
          reps := reps + [seed];
        }
      }
      FilledNames(v, comp[..], reps);
    }
  }

  lemma RoomToQueue(queue: seq<nat>, nb: nat, n: nat)
    requires nb < n && nb !in queue
    requires forall k | 0 <= k < |queue| :: queue[k] < n
    requires forall j, k | 0 <= j < k < |queue| :: queue[j] != queue[k]
    ensures |queue| < n
  {
    Trails.Pigeonhole(queue + [nb], n);
  }

  /** Once all eight directions carry its label, a tile no longer needs to wait. */
  lemma CloseTile(t: Terrain, block: Word, need: Word, comp: seq<nat>, reps: seq<nat>, queued: set<nat>, cur: nat)
    requires t.Valid() && cur < |t.cost| == |comp|
    requires Filling(Superset(t, block, need), comp, reps, queued + {cur})
    requires var v := Superset(t, block, need);
             forall e: nat | e < 8 && CanStep(v, cur, e) :: comp[Dest(v, cur, e)] == comp[cur]
    ensures Filling(Superset(t, block, need), comp, reps, queued)
  {
    var v := Superset(t, block, need);
    forall d: nat | CanStep(v, cur, d) ensures comp[Dest(v, cur, d)] == comp[cur] {
      SupersetDirections(t, block, need, cur, d);
    }
    hide CanStep, Dest, Joined, Superset;
    assert Flooded(v, comp, cur);
  }

  // ---------- the quick no ----------

  /** The test planning applies to two tiles' labels; a blocked start may leave through any neighbour. */
  method ProveUnreachable(w: nat, h: nat, comp: seq<nat>, start: nat, goal: nat) returns (proved: bool)
    requires 0 < w && 0 < h && |comp| == w * h && start < |comp| && goal < |comp|
    ensures proved <==> comp[start] != comp[goal] && (comp[start] != 0 || !TouchesLabel(w, h, comp, start, comp[goal]))
  {
    var lg, ls := comp[goal], comp[start];
    if ls == lg {
      return false;
    }
    if ls != 0 {
      return true;
    }
    for d := 0 to 8
      invariant forall e: nat | e < d && GridInBounds(w, h, start, e) :: comp[GridNbr(w, h, start, e)] != lg
    {
      if GridInBounds(w, h, start, d) && comp[GridNbr(w, h, start, d)] == lg {
        return false;
      }
    }
    proved := true;
  }

  ghost predicate TouchesLabel(w: nat, h: nat, comp: seq<nat>, i: nat, l: nat)
    requires w > 0 && |comp| == w * h
  {
    exists d: nat :: d < 8 && GridInBounds(w, h, i, d) && comp[GridNbr(w, h, i, d)] == l
  }

  /** A profile sees as blocked exactly the tiles its class cannot enter. */
  lemma BlockedIsByClass(t: Terrain, p: Profile, i: nat)
    requires t.Valid() && Sized(p) && i < |t.cost|
    ensures Behold(t, p).Valid() && Behold(t, p).N() == |t.cost|
    ensures Behold(t, p).blocked[i] <==> !ClassEnterable(t, p.blockMask, p.requireMask, i)
  {
    BeholdValid(t, p);
    SentinelMeansBlocked(p, t.tags[i]);
  }

  /** Whatever its connectivity and corner rule, a profile's legal step is one of the superset graph. */
  lemma StepInSuperset(t: Terrain, p: Profile, i: nat, d: nat)
    requires t.Valid() && Sized(p) && i < |t.cost| && Behold(t, p).Valid() && CanStep(Behold(t, p), i, d)
    ensures var v := Superset(t, p.blockMask, p.requireMask);
            CanStep(v, i, d) && Dest(v, i, d) == Dest(Behold(t, p), i, d)
  {
    BlockedIsByClass(t, p, Dest(Behold(t, p), i, d));
    hide ClassEnterable, FoldWord, PerceivedStep, TrueStep;
    var v := Superset(t, p.blockMask, p.requireMask);
    assert v.w == t.w && v.h == t.h;
    assert d < 8;
    SupersetStep(t, p.blockMask, p.requireMask, i, d);
  }

  /** Every legal step of `a` is one of `b`. */
  ghost predicate Within(a: View, b: View)
    requires a.Valid() && b.Valid() && a.N() == b.N()
  {
    forall i: nat, d: nat | i < a.N() && CanStep(a, i, d) :: CanStep(b, i, d) && Dest(b, i, d) == Dest(a, i, d)
  }

  lemma {:induction false} RouteWithin(a: View, b: View, i: nat, r: Route)
    requires a.Valid() && b.Valid() && a.N() == b.N() && Within(a, b) && i < a.N() && Legal(a, i, r)
    ensures Connects(b, i, r, End(a, i, r))
    decreases r
  {
    hide CanStep, Dest, View.Valid, View.N;
    match r
    case Stop =>
    case Go(d, rest) => RouteWithin(a, b, Dest(a, i, d), rest);
  }

  lemma BeholdWithinSuperset(t: Terrain, p: Profile)
    requires t.Valid() && Sized(p)
    ensures Behold(t, p).Valid() && Behold(t, p).N() == Superset(t, p.blockMask, p.requireMask).N() == |t.cost|
    ensures Within(Behold(t, p), Superset(t, p.blockMask, p.requireMask))
  {
    BeholdValid(t, p);
    hide CanStep, Dest, Behold, Superset, View.Valid, View.N;
    var a, b := Behold(t, p), Superset(t, p.blockMask, p.requireMask);
    forall i: nat, d: nat | i < a.N() && CanStep(a, i, d) ensures CanStep(b, i, d) && Dest(b, i, d) == Dest(a, i, d) {
      StepInSuperset(t, p, i, d);
    }
  }

  /** When the test says no, no profile of the class has any legal route to an enterable goal: not with either
      connectivity, not under any corner rule, and not from a blocked start. */
  lemma NoMeansUnreachable(t: Terrain, p: Profile, comp: seq<nat>, start: nat, goal: nat, r: Route)
    requires t.Valid() && Sized(p) && NamesComponents(Superset(t, p.blockMask, p.requireMask), comp)
    requires start < |t.cost| && goal < |t.cost| && ClassEnterable(t, p.blockMask, p.requireMask, goal)
    requires comp[start] != comp[goal] && (comp[start] != 0 || !TouchesLabel(t.w, t.h, comp, start, comp[goal]))
    ensures Behold(t, p).Valid() && !Connects(Behold(t, p), start, r, goal)
  {
    BeholdWithinSuperset(t, p);
    GoalIsOpen(t, p, goal);
    hide Superset, Within, Connects, NamesComponents, TouchesLabel, ClassEnterable, View.Valid;
    if Connects(Behold(t, p), start, r, goal) {
      NoRouteAcross(Behold(t, p), Superset(t, p.blockMask, p.requireMask), comp, start, goal, r);
    }
  }

  /** The same on views: labels of a graph that contains all steps separate what they tell apart. */
  lemma NoRouteAcross(b: View, v: View, comp: seq<nat>, start: nat, goal: nat, r: Route)
    requires b.Valid() && v.Valid() && b.N() == v.N() && b.w == v.w
    requires b.h == v.h && Within(b, v) && NamesComponents(v, comp)
    requires start < v.N() && goal < v.N() && !v.blocked[goal] && Connects(b, start, r, goal)
    ensures comp[start] == comp[goal] || (comp[start] == 0 && TouchesLabel(v.w, v.h, comp, start, comp[goal]))
  {
    hide CanStep, Dest, View.Valid, View.N, Within, TouchesLabel, NamesComponents, Legal, End;
    EnterableHasLabel(v, comp, start);
    if comp[start] != 0 {
      RouteWithin(b, v, start, r);
      SameLabel(v, comp, start, r, goal);
    } else if r.Go? {
      FirstStep(b, start, r, goal);
      assert CanStep(v, start, r.d) && Dest(v, start, r.d) == Dest(b, start, r.d) by { WithinAt(b, v, start, r.d); }
      StepIsEnterable(v, start, r.d);
      RouteWithin(b, v, Dest(b, start, r.d), r.rest);
      EnterableHasLabel(v, comp, Dest(b, start, r.d));
      SameLabel(v, comp, Dest(b, start, r.d), r.rest, goal);
      Touches(v, comp, start, r.d);
    } else {
      StopEnds(b, start, goal);
    }
  }

  /** In the superset graph itself labels tell exactly whether there is a route, from a blocked start as well. */
  lemma ApartMeansCutOff(v: View, comp: seq<nat>, start: nat, goal: nat)
    requires v.Valid() && !v.conn4 && v.corner == Allow && NamesComponents(v, comp)
    requires start < v.N() && goal < v.N() && !v.blocked[goal]
    ensures |comp| == v.N()
    ensures comp[start] != comp[goal] && (comp[start] != 0 || !TouchesLabel(v.w, v.h, comp, start, comp[goal])) <==>
            forall r: Route :: !Connects(v, start, r, goal)
  {
    hide CanStep, Dest, NamesComponents, Legal, End;
    EnterableHasLabel(v, comp, start);
    EnterableHasLabel(v, comp, goal);
    forall r: Route | Connects(v, start, r, goal)
      ensures comp[start] == comp[goal] || (comp[start] == 0 && TouchesLabel(v.w, v.h, comp, start, comp[goal]))
    {
      WithinItself(v);
      NoRouteAcross(v, v, comp, start, goal, r);
    }
    if comp[start] == comp[goal] {
      LabelJoins(v, comp, start, goal);
    } else if comp[start] == 0 && TouchesLabel(v.w, v.h, comp, start, comp[goal]) {
      var d: nat :| d < 8 && GridInBounds(v.w, v.h, start, d) && comp[GridNbr(v.w, v.h, start, d)] == comp[goal];
      var r := WayOut(v, comp, start, d, goal);
    }
  }

  lemma WithinItself(v: View)
    requires v.Valid()
    ensures Within(v, v)
  {
  }

  lemma LabelJoins(v: View, comp: seq<nat>, i: nat, j: nat)
    requires v.Valid() && NamesComponents(v, comp) && i < v.N() == |comp| && j < v.N() && !v.blocked[j]
    requires comp[i] == comp[j]
    ensures exists r: Route :: Connects(v, i, r, j)
  {
    assert Joined(v, i, j);
  }

  lemma WayOut(v: View, comp: seq<nat>, i: nat, d: nat, goal: nat) returns (r: Route)
    requires v.Valid() && !v.conn4 && v.corner == Allow && NamesComponents(v, comp) && |comp| == v.N()
    requires i < v.N() && goal < v.N() && !v.blocked[goal] && d < 8 && GridInBounds(v.w, v.h, i, d)
    requires comp[GridNbr(v.w, v.h, i, d)] == comp[goal]
    ensures Connects(v, i, r, goal)
  {
    var j := GridNbr(v.w, v.h, i, d);
    EnterableHasLabel(v, comp, j);
    EnterableHasLabel(v, comp, goal);
    FreeStep(v, i, d);
    hide CanStep, Dest, NamesComponents;
    LabelJoins(v, comp, j, goal);
    var rest: Route :| Connects(v, j, rest, goal);
    r := Go(d, rest);
  }

  lemma FreeStep(v: View, i: nat, d: nat)
    requires v.Valid() && !v.conn4 && v.corner == Allow && i < v.N() && d < 8 && GridInBounds(v.w, v.h, i, d)
    requires !v.blocked[GridNbr(v.w, v.h, i, d)]
    ensures CanStep(v, i, d) && Dest(v, i, d) == GridNbr(v.w, v.h, i, d)
  {
  }

  lemma StopEnds(v: View, i: nat, j: nat)
    requires v.Valid() && i < v.N() && Connects(v, i, Stop, j)
    ensures i == j
  {
  }

  lemma WithinAt(a: View, b: View, i: nat, d: nat)
    requires a.Valid() && b.Valid() && a.N() == b.N() && Within(a, b) && i < a.N() && CanStep(a, i, d)
    ensures CanStep(b, i, d) && Dest(b, i, d) == Dest(a, i, d)
  {
  }

  lemma FirstStep(v: View, i: nat, r: Route, j: nat)
    requires v.Valid() && i < v.N() && r.Go? && Connects(v, i, r, j)
    ensures CanStep(v, i, r.d) && r.d < 8 && Connects(v, Dest(v, i, r.d), r.rest, j)
  {
  }

  lemma EnterableHasLabel(v: View, comp: seq<nat>, i: nat)
    requires v.Valid() && NamesComponents(v, comp) && i < v.N()
    ensures |comp| == v.N() && (comp[i] != 0 <==> !v.blocked[i])
  {
  }

  lemma SameLabel(v: View, comp: seq<nat>, i: nat, r: Route, j: nat)
    requires v.Valid() && NamesComponents(v, comp) && i < v.N() == |comp| && j < v.N() && comp[i] != 0 && !v.blocked[j]
    requires Connects(v, i, r, j)
    ensures comp[i] == comp[j]
  {
    assert Joined(v, i, j);
  }

  lemma Touches(v: View, comp: seq<nat>, i: nat, d: nat)
    requires v.Valid() && |comp| == v.N() && i < v.N() && CanStep(v, i, d)
    ensures TouchesLabel(v.w, v.h, comp, i, comp[Dest(v, i, d)])
  {
    assert GridInBounds(v.w, v.h, i, d) && GridNbr(v.w, v.h, i, d) == Dest(v, i, d);
  }

  lemma GoalIsOpen(t: Terrain, p: Profile, goal: nat)
    requires t.Valid() && Sized(p) && goal < |t.cost| && ClassEnterable(t, p.blockMask, p.requireMask, goal)
    ensures |Superset(t, p.blockMask, p.requireMask).blocked| == |t.cost|
    ensures !Superset(t, p.blockMask, p.requireMask).blocked[goal]
  {
  }

  /** Labels stay right as long as no passability changed and no flipped bit belongs to the class. */
  lemma LabelsOutlive(was: Terrain, now: Terrain, block: Word, need: Word, comp: seq<nat>)
    requires was.Valid() && now.Valid() && was.w == now.w && was.h == now.h && now.cost == was.cost
    requires forall i | 0 <= i < |was.tags| :: was.tags[i] * (block + need) == now.tags[i] * (block + need)
    requires NamesComponents(Superset(was, block, need), comp)
    ensures NamesComponents(Superset(now, block, need), comp)
  {
    forall i: nat | i < |was.cost| ensures ClassEnterable(was, block, need, i) == ClassEnterable(now, block, need, i) {
      assert was.tags[i] * block == (was.tags[i] * (block + need)) * block;
      assert now.tags[i] * block == (now.tags[i] * (block + need)) * block;
      assert was.tags[i] * need == (was.tags[i] * (block + need)) * need;
      assert now.tags[i] * need == (now.tags[i] * (block + need)) * need;
    }
    assert Superset(was, block, need).blocked == Superset(now, block, need).blocked;
    assert Superset(was, block, need) == Superset(now, block, need);
  }
}
