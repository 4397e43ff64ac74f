/** Goal fields as a machine: reverse Dijkstra from one goal or from every seed of a goal set.  A finished field is
    exact, whatever order tiles were settled in. */
module FieldMachine {
  import opened FixedPoint
  import opened Grid
  import opened OpenList
  import opened Trails

  /** What a field leads to: one tile, or the seed bitmap of a goal set. */
  datatype Target = Tile(goal: nat) | Seeds(bits: seq<bool>)

  predicate ValidTarget(v: View, t: Target) {
    match t
    case Tile(goal) => goal < v.N()
    case Seeds(bits) => |bits| == v.N()
  }

  /** Where routes may end.  An unenterable single goal is no source; a blocked seed is one. */
  predicate Source(v: View, t: Target, i: nat)
    requires v.Valid() && ValidTarget(v, t) && i < v.N()
  {
    match t
    case Tile(goal) => i == goal && !v.blocked[goal]
    case Seeds(bits) => bits[i]
  }

  datatype FieldState = FieldState(dist: seq<nat>, next: seq<nat>, open: multiset<Entry>)

  /** From `u` looking backwards along `d`: the tile there may step onto `u`, corners permitting. */
  predicate Pulls(v: View, u: nat, d: nat)
    requires v.Valid() && u < v.N()
  {
    d < v.Dirs() && InBounds(v, u, d) && !(d >= 4 && CornerForbidden(v, u, d))
  }

  function Puller(v: View, u: nat, d: nat): (i: nat)
    requires v.Valid() && u < v.N() && Pulls(v, u, d)
    ensures i < v.N()
  {
    Nbr(v, u, d)
  }

  /** Looking backwards from an enterable tile sees exactly the legal forward steps onto it. */
  lemma PullIsStep(v: View, u: nat, d: nat)
    requires v.Valid() && u < v.N() && Pulls(v, u, d) && !v.blocked[u]
    ensures d < 8 && OPPOSITE[d] < 8 && OPPOSITE[OPPOSITE[d]] == d && (OPPOSITE[d] >= 4 <==> d >= 4)
    ensures CanStep(v, Puller(v, u, d), OPPOSITE[d]) && Dest(v, Puller(v, u, d), OPPOSITE[d]) == u
  {
    hide X, Y, CornerForbidden;
    OppositeOffset(d);
    StepBack(v, u, d);
    if d >= 4 {
      CornerSymmetric(v, u, d);
    }
  }

  lemma StepIsPull(v: View, i: nat, d: nat)
    requires v.Valid() && i < v.N() && CanStep(v, i, d)
    ensures d < 8 && OPPOSITE[d] < 8 && OPPOSITE[OPPOSITE[d]] == d && (OPPOSITE[d] >= 4 <==> d >= 4)
    ensures var u := Dest(v, i, d); !v.blocked[u] && Pulls(v, u, OPPOSITE[d]) && Puller(v, u, OPPOSITE[d]) == i
  {
    hide X, Y, CornerForbidden;
    OppositeOffset(d);
    StepBack(v, i, d);
    if d >= 4 {
      CornerSymmetric(v, i, d);
    }
  }

  ghost predicate Formed(v: View, s: FieldState)
    requires v.Valid()
  {
    && |s.dist| == |s.next| == v.N()
    && (forall u | 0 <= u < v.N() :: s.dist[u] <= G_INFINITE)
    && (forall e | e in s.open ::
          e.idx < v.N() && !v.blocked[e.idx] && e.f == e.g && s.dist[e.idx] <= e.g < G_INFINITE)
  }

  /** Entries of the enterable sources below `k`. */
  ghost function SourceEntries(v: View, t: Target, k: nat): multiset<Entry>
    requires v.Valid() && ValidTarget(v, t) && k <= v.N()
  {
    if k == 0 then multiset{}
    else if Source(v, t, k - 1) && !v.blocked[k - 1] then SourceEntries(v, t, k - 1) + multiset{Entry(0, 0, k - 1)}
    else SourceEntries(v, t, k - 1)
  }

  lemma {:induction false} SourceEntry(v: View, t: Target, k: nat, e: Entry)
    requires v.Valid() && ValidTarget(v, t) && k <= v.N()
    ensures e in SourceEntries(v, t, k) <==>
              e.idx < k && e == Entry(0, 0, e.idx) && Source(v, t, e.idx) && !v.blocked[e.idx]
  {
    if k > 0 {
      SourceEntry(v, t, k - 1, e);
    }
  }

  ghost function Start(v: View, t: Target): (s: FieldState)
    requires v.Valid() && ValidTarget(v, t)
    ensures Formed(v, s)
  {
    forall e ensures e in SourceEntries(v, t, v.N()) <==>
              e.idx < v.N() && e == Entry(0, 0, e.idx) && Source(v, t, e.idx) && !v.blocked[e.idx]
    {
      SourceEntry(v, t, v.N(), e);
    }
    FieldState(
      seq(v.N(), i requires 0 <= i < v.N() => if Source(v, t, i) then 0 else G_INFINITE), seq(v.N(), _ => 0),
      SourceEntries(v, t, v.N()))
  }

  /** One direction of settling `u`.  A blocked tile receives a distance but never passes one on. */
  ghost function Pull(v: View, s: FieldState, u: nat, d: nat): (t: FieldState)
    requires v.Valid() && Formed(v, s) && u < v.N()
    ensures Formed(v, t)
    ensures t == s || Sum(t.dist) < Sum(s.dist)
  {
    if !Pulls(v, u, d) then s
    else
      var i := Puller(v, u, d);
      var cand := s.dist[u] + EnterCost(v, u, d);
      if cand >= s.dist[i] then s
      else
        SumUpdate(s.dist, i, cand);
        FieldState(s.dist[i := cand], s.next[i := OPPOSITE[d] + 1],
                   if v.blocked[i] then s.open else s.open + multiset{Entry(cand, cand, i)})
  }

  ghost function PullFrom(v: View, s: FieldState, u: nat, d: nat): (t: FieldState)
    requires v.Valid() && Formed(v, s) && u < v.N() && d <= v.Dirs()
    ensures Formed(v, t)
    ensures t == s || Sum(t.dist) < Sum(s.dist)
    decreases v.Dirs() - d
  {
    if d == v.Dirs() then s else PullFrom(v, Pull(v, s, u, d), u, d + 1)
  }

  ghost function Dropped(s: FieldState): FieldState
    requires s.open != multiset{}
  {
    s.(open := s.open - multiset{First(s.open)})
  }

  /** The whole build. */
  ghost function Build(v: View, s: FieldState): (t: FieldState)
    requires v.Valid() && Formed(v, s)
    ensures Formed(v, t) && t.open == multiset{}
    decreases Sum(s.dist), |s.open|
  {
    if s.open == multiset{} then s
    else
      var e := First(s.open);
      if e.f != s.dist[e.idx] then Build(v, Dropped(s)) else Build(v, Settled(v, s))
  }

  ghost function Settled(v: View, s: FieldState): (t: FieldState)
    requires v.Valid() && Formed(v, s) && s.open != multiset{}
    ensures Formed(v, t)
    ensures Sum(t.dist) < Sum(s.dist) || (Sum(t.dist) == Sum(s.dist) && |t.open| < |s.open|)
  {
    PullFrom(v, Dropped(s), First(s.open).idx, 0)
  }

  ghost function Field(v: View, t: Target): (s: FieldState)
    requires v.Valid() && ValidTarget(v, t)
    ensures Formed(v, s) && s.open == multiset{}
  {
    Build(v, Start(v, t))
  }
}
