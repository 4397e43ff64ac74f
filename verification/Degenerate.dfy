/** The one kind of profile whose heuristic overestimates: which profiles are free of it, why they keep the epsilon
    promise on every terrain, and why every other profile breaks it on some terrain. */
module Degenerate {
  import opened FixedPoint
  import opened Grid
  import opened Heuristic
  import opened Profiles
  import opened Registration
  import opened SearchMachine
  import opened SearchInvariant
  import opened SearchResults
  import opened Effort
  import opened Bottleneck
  import opened Detour

  /** No word a tile may have folds so low that a diagonal step costs less than the diagonal floor. */
  ghost predicate Honest(p: Profile)
    requires Sized(p)
  {
    p.conn4 || p.diagQ < 512 || FloorQ(p.mult) > 0
    || forall word: Word :: BlocksWord(p, word) || FoldWord(p, word).multQ > 0 || FoldWord(p, word).addQ > 1
  }

  /** The epsilon promise for one terrain, query and competing route. */
  ghost predicate Kept(p: Profile, t: Terrain, q: Query, r: Route)
    requires Sized(p)
  {
    t.Valid() && Ready(Behold(t, p), q) && q.eps >= Q_ONE && Search(Behold(t, p), q).stop == Reached
    && Connects(Behold(t, p), q.start, r, q.goal) && Cost(Behold(t, p), q.start, r) <= q.maxCost
    ==> Search(Behold(t, p), q).last.g[q.goal] <= q.eps * Cost(Behold(t, p), q.start, r) / 256
  }

  // ---------- honest profiles keep the promise ----------

  /** A multiplier of at least 1/256, or a penalty of at least 2/256, keeps a dear diagonal at 2/256 or more. */
  lemma DiagonalAtLeastTwo(q: nat, f: Fold, diagQ: nat)
    requires Q_ONE <= q <= Q_TILE_MAX && 512 <= diagQ <= Q_DIAG_MAX && (f.multQ > 0 || f.addQ > 1)
    ensures PerceivedStep(q, f, diagQ, true) >= 2
  {
    ScaleGrows(q, diagQ, Q_ONE, 512);
    ScaleByOne(512);
    ProductBound(q, diagQ, Q_TILE_MAX, Q_DIAG_MAX);
    if f.multQ > 0 {
      ScaleGrows(TrueStep(q, diagQ, true), f.multQ, 512, 1);
    }
  }

  lemma HonestIsSound(d: ProfileDesc, t: Terrain)
    requires DescValid(d) && t.Valid() && Honest(Registered(d))
    ensures Behold(t, Registered(d)).Valid() && Sound(Behold(t, Registered(d)))
  {
    hide FoldWord, PerceivedStep, FloorQ, Registered, BlocksWord;
    var p := Registered(d);
    if !Registration.Degenerate(p) {
      RegisteredIsSound(d, t);
    } else {
      var v := Behold(t, p);
      RegisteredFloors(d);
      BeholdValid(t, p);
      forall u | 0 <= u < v.N() && !v.blocked[u] ensures v.hD <= v.straight[u] && v.hD2 <= v.diagonal[u] {
        SentinelMeansBlocked(p, t.tags[u]);
        StraightAboveFloor(t.cost[u], FoldWord(p, t.tags[u]), 0, p.diagQ);
        DiagonalAtLeastTwo(t.cost[u], FoldWord(p, t.tags[u]), p.diagQ);
      }
    }
  }

  lemma HonestKeeps(d: ProfileDesc, t: Terrain, q: Query, r: Route)
    requires DescValid(d) && Honest(Registered(d))
    ensures Kept(Registered(d), t, q, r)
  {
    hide Honest, Registered, Behold, Search, Sound, Cost, Legal, End;
    if t.Valid() && Ready(Behold(t, Registered(d)), q) && q.eps >= Q_ONE
       && Search(Behold(t, Registered(d)), q).stop == Reached
       && Connects(Behold(t, Registered(d)), q.start, r, q.goal)
       && Cost(Behold(t, Registered(d)), q.start, r) <= q.maxCost
    {
      HonestIsSound(d, t);
      EpsilonBound(Behold(t, Registered(d)), q, r);
    }
  }

  // ---------- the others break it ----------

  /** The maze as terrain, every tile carrying the same word. */
  function DetourTerrain(word: Word): (t: Terrain)
    ensures t.Valid()
  {
    Terrain(4, 6, seq(24, i requires 0 <= i < 24 => if Free(i % 4, i / 4) then 256 else 0), seq(24, _ => word))
  }

  lemma StepsCostOne(p: Profile, word: Word, q: nat, diagonal: bool)
    requires Sized(p) && FoldWord(p, word).multQ == 0 && FoldWord(p, word).addQ <= 1
    ensures PerceivedStep(q, FoldWord(p, word), p.diagQ, diagonal) == 1
  {
  }

  /** A dishonest profile sees the terrain as the maze. */
  lemma DetourShown(d: ProfileDesc, word: Word)
    requires DescValid(d)
    requires var p := Registered(d);
             && !p.conn4 && p.diagQ >= 512 && FloorQ(p.mult) == 0
             && !BlocksWord(p, word) && FoldWord(p, word).multQ == 0 && FoldWord(p, word).addQ <= 1
    ensures Shows(Behold(DetourTerrain(word), Registered(d)), Registered(d).corner)
  {
    hide FoldWord, PerceivedStep, FloorQ, Registered, BlocksWord, Free;
    var p, t := Registered(d), DetourTerrain(word);
    RegisteredFloors(d);
    BeholdValid(t, p);
    assert DiagonalFloor(p.diagQ, 1) == 2;
    StepsCostOne(p, word, 256, false);
    StepsCostOne(p, word, 256, true);
  }

  /** A search over the shown maze does find the goal, and reports more than a route costs. */
  lemma DetourBreaks(v: View, q: Query, c: CornerRule)
    requires Shows(v, c) && q == Query(START, GOAL, 256, G_INFINITE, G_INFINITE)
    ensures Ready(v, q) && Search(v, q).stop == Reached && Connects(v, q.start, Shorter(c), q.goal)
    ensures Cost(v, q.start, Shorter(c)) == FirstSteps(c) - 1 < FirstSteps(c) <= Search(v, q).last.g[q.goal]
  {
    hide Search, Walk, Below, Potential, Legal, End, Cost, CanStep, Reach, FirstFound, Shorter;
    assert X(v, START) == 2 && Y(v, START) == 0;
    Walks(c);
    WalkIsRoute(v, q, c, START, 0, FirstFound(c), 7, FirstSteps(c));
    WalkIsRoute(v, q, c, START, 0, Shorter(c), 8, FirstSteps(c) - 1);
    ReachIsPotential(v, q, c);
    ReportedAbove(v, q, Spread(v, c), FirstFound(c), 7);
    UnlimitedIsAmple(v, q.eps);
    FoundIffAffordable(v, q);
  }

  /** The epsilon promise holds on every terrain, for every query, exactly for honest profiles. */
  lemma PromiseIffHonest(d: ProfileDesc)
    requires DescValid(d)
    ensures Honest(Registered(d)) <==> forall t: Terrain, q: Query, r: Route :: Kept(Registered(d), t, q, r)
  {
    hide Kept, Registered, FoldWord, BlocksWord, FloorQ;
    var p := Registered(d);
    if Honest(p) {
      forall t: Terrain, q: Query, r: Route ensures Kept(p, t, q, r) {
        HonestKeeps(d, t, q, r);
      }
    } else {
      var word: Word :| !BlocksWord(p, word) && FoldWord(p, word).multQ == 0 && FoldWord(p, word).addQ <= 1;
      DetourShown(d, word);
      var t, q := DetourTerrain(word), Query(START, GOAL, 256, G_INFINITE, G_INFINITE);
      DetourBreaks(Behold(t, p), q, p.corner);
      NotKept(p, t, q, Shorter(p.corner));
    }
  }

  lemma NotKept(p: Profile, t: Terrain, q: Query, r: Route)
    requires Sized(p) && t.Valid() && Ready(Behold(t, p), q) && q.eps == 256 && Search(Behold(t, p), q).stop == Reached
    requires Connects(Behold(t, p), q.start, r, q.goal) && Cost(Behold(t, p), q.start, r) <= q.maxCost
    requires Cost(Behold(t, p), q.start, r) < Search(Behold(t, p), q).last.g[q.goal]
    ensures !Kept(p, t, q, r)
  {
    hide Search, Behold, Cost, Legal, End;
  }

  // ---------- and there are such profiles ----------

  /** One tag that makes tiles nearly free, and diagonals at twice a straight step. */
  const CHEAP: ProfileDesc :=
    ProfileDesc(false, Strict, 2.0, {}, {}, seq(64, b => if b == 0 then 0.001 else 0.0), seq(64, b => 0.0))

  lemma {:induction false} CheapFolds(p: Profile, b: nat)
    requires Sized(p) && 1 <= b <= 64 && p.mult[0] == 0.001 && forall k | 1 <= k < 64 :: p.mult[k] == 1.0
    requires forall k | 0 <= k < 64 :: p.add[k] == 0.0
    ensures FloorBelow(p.mult, b) == MultBelow(p, {0}, b) == 0.001 && AddBelow(p, {0}, b) == 0.0
  {
    if b > 1 {
      CheapFolds(p, b - 1);
    } else {
      assert FloorBelow(p.mult, 0) == MultBelow(p, {0}, 0) == 1.0;
    }
  }

  /** A valid descriptor whose profile is not honest: the tag's product rounds to nothing. */
  lemma CheapIsDishonest()
    ensures DescValid(CHEAP) && !Honest(Registered(CHEAP))
  {
    hide RelevantBelow, DiagonalFloor;
    var p := Registered(CHEAP);
    assert p.mult[0] == 0.001 && p.diagQ == 512;
    CheapFolds(p, 64);
    assert FloorQ(p.mult) == 0;
    assert FoldWord(p, {0}) == Fold(0, 0);
  }

  /** So the epsilon promise fails for a profile the library accepts. */
  lemma PromiseFails()
    ensures exists d: ProfileDesc, t: Terrain, q: Query, r: Route :: DescValid(d) && !Kept(Registered(d), t, q, r)
  {
    hide Kept, Registered, Honest;
    CheapIsDishonest();
    PromiseIffHonest(CHEAP);
    var t: Terrain, q: Query, r: Route :| !Kept(Registered(CHEAP), t, q, r);
  }
}
