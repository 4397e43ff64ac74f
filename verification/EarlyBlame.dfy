/** The cap blamed too early: an inflated search may expand a tile before it has its least cost, and find a step beyond
    the cap that is within it once the cost is right.

        z x # G        z costs 511/256 ticks to enter, b 600/256, s ten, all others one; diagonals three times as much
        s b # #        s is the start, the goal G cannot be reached
*/
module EarlyBlame {
  import opened FixedPoint
  import opened Grid
  import opened Heuristic
  import opened OpenList
  import opened Trails
  import opened Profiles
  import opened Registration
  import opened SearchMachine
  import opened SearchInvariant
  import opened SearchResults
  import opened SearchKernel
  import opened Solve
  import opened Degenerate
  import opened Pruning
  import opened Reports
  import opened Lane
  import BudgetCut

  const YARD: seq<nat> := [511, 256, 0, 256, 2560, 600, 0, 0]

  /** The dearest step anywhere at least cost: from x, reached by way of z, back to s. */
  const CAP: nat := 767 + 7680

  function YardTerrain(): (t: Terrain)
    ensures t.Valid()
  {
    Terrain(4, 2, YARD, seq(8, _ => {}))
  }

  ghost predicate Yard(v: View) {
    && v.Valid() && v.w == 4 && v.h == 2 && !v.conn4 && v.corner == Strict && v.hD == 256 && v.hD2 == 512
    && forall i: nat | i < 8 :: i < |v.blocked| && i < |v.straight| && i < |v.diagonal|
         && (v.blocked[i] <==> YARD[i] == 0)
         && (YARD[i] > 0 ==> v.straight[i] == YARD[i] && v.diagonal[i] == 3 * YARD[i])
  }

  lemma YardIsSeen()
    ensures DescValid(PLAIN) && Yard(Behold(YardTerrain(), Registered(PLAIN)))
  {
    hide FoldWord, Registered, PerceivedStep, FloorQ;
    PlainProfile();
    var t, p := YardTerrain(), Registered(PLAIN);
    BeholdValid(t, p);
    var v := Behold(t, p);
    forall i: nat | i < 8
      ensures i < |v.blocked| && i < |v.straight| && i < |v.diagonal| && (v.blocked[i] <==> YARD[i] == 0)
              && (YARD[i] > 0 ==> v.straight[i] == YARD[i] && v.diagonal[i] == 3 * YARD[i])
    {
      PlainStep(YARD[i]);
    }
  }

  // ---------- steps in the yard ----------

  predicate InYard(i: nat) { i == 0 || i == 1 || i == 4 || i == 5 }

  /** Where direction `d` leads from a tile of the yard, or 8. */
  function Target(i: nat, d: nat): nat {
    match (i, d)
    case (4, 0) => 5 case (4, 3) => 0 case (4, 5) => 1
    case (0, 0) => 1 case (0, 2) => 4 case (0, 4) => 5
    case (1, 1) => 0 case (1, 2) => 5 case (1, 6) => 4
    case (5, 1) => 4 case (5, 3) => 1 case (5, 7) => 0
    case (_, _) => 8
  }

  lemma YardStep(v: View, i: nat, d: nat)
    requires Yard(v) && InYard(i)
    ensures i < v.N() == 8
    ensures CanStep(v, i, d) <==> Target(i, d) < 8
    ensures CanStep(v, i, d) ==> d < 8 && Dest(v, i, d) == Target(i, d) && InYard(Target(i, d))
    ensures CanStep(v, i, d) ==>
              EnterCost(v, Dest(v, i, d), d) == (if d < 4 then 1 else 3) * YARD[Target(i, d)]
  {
    assert v.N() == 8 && X(v, i) == i % 4 && Y(v, i) == i / 4;
    if d < 8 && InBounds(v, i, d) {
      var j := Nbr(v, i, d);
      assert j == i + DX[d] + DY[d] * 4;
    }
  }

  lemma YardValid(v: View)
    requires Yard(v)
    ensures v.Valid() && v.N() == 8
  {
    assert v.N() == 8;
  }

  lemma {:induction false} YardEnds(v: View, i: nat, r: Route)
    requires Yard(v) && InYard(i) && i < v.N() && Legal(v, i, r)
    ensures InYard(End(v, i, r))
    decreases r
  {
    hide CanStep, Dest, Yard;
    YardValid(v);
    if r.Go? {
      YardStep(v, i, r.d);
      YardEnds(v, Dest(v, i, r.d), r.rest);
    }
  }

  /** A cheapest way from s. */
  function Way(i: nat): Route {
    if i == 0 then Go(3, Stop) else if i == 5 then Go(0, Stop) else if i == 1 then Go(3, Go(0, Stop)) else Stop
  }

  function WayCost(i: nat): nat { if i == 0 then 511 else if i == 5 then 600 else if i == 1 then 767 else 0 }

  lemma WayIs(v: View, i: nat)
    requires Yard(v) && InYard(i)
    ensures 4 < v.N() && Connects(v, 4, Way(i), i) && Cost(v, 4, Way(i)) == WayCost(i)
  {
    hide CanStep, Dest, EnterCost, Yard;
    YardValid(v);
    YardStep(v, 4, 0);
    YardStep(v, 4, 3);
    YardStep(v, 0, 0);
    assert Legal(v, 1, Stop) && Legal(v, 0, Stop) && Legal(v, 5, Stop) && Legal(v, 4, Stop);
    assert Legal(v, 0, Go(0, Stop));
  }

  /** No step is beyond the cap where costs are least. */
  lemma NoneBeyond(v: View, q: Query, r: Route, d: nat)
    requires Yard(v) && Ready(v, q) && q.start == 4 && q.maxCost == CAP
    ensures !Oversteps(v, q, r, d, true)
  {
    hide CanStep, Dest, EnterCost, Yard, Simple, Cost, Legal;
    if Simple(v, 4, r) {
      SimpleIsLegal(v, 4, r);
      YardEnds(v, 4, r);
      var u := End(v, 4, r);
      WayIs(v, u);
      YardStep(v, u, d);
    }
  }

  // ---------- two expansions ----------

  /** An inflated query from s to G. */
  ghost predicate Asks(v: View, q: Query) {
    && Yard(v) && Ready(v, q) && q.start == 4 && q.goal == 3 && q.maxCost == CAP
    && 257 <= q.eps && q.maxExpansions >= 2
  }

  function Far(i: nat): nat { if i == 0 then 3 else if i == 1 then 2 else if i == 4 then 4 else 3 }

  lemma Height(v: View, q: Query, i: nat, g: nat)
    requires Asks(v, q) && InYard(i)
    ensures i < v.N() && F(v, q, i, g) == g + q.eps * Far(i)
  {
    assert v.N() == 8 && X(v, i) == i % 4 && Y(v, i) == i / 4 && X(v, 3) == 3 && Y(v, 3) == 0;
    BudgetCut.Shifted(q.eps, Far(i));
  }

  function Open(i: nat, g: nat, eps: nat): Entry { Entry(g + eps * Far(i), g, i) }

  lemma NotThere(v: View, q: Query, s: State, d: nat)
    requires Asks(v, q) && Shaped(v, q, s) && d < 8 && Target(4, d) == 8
    ensures 4 < v.N() && BudgetCut.Idle(v, q, s, 4, 0, d)
  {
    hide CanStep, Dest, EnterCost, Yard, F, Shaped;
    YardSize(v, q);
    YardStep(v, 4, d);
  }

  lemma YardSize(v: View, q: Query)
    requires Asks(v, q)
    ensures Yard(v) && Ready(v, q) && v.N() == 8 && v.Dirs() == 8
  {
    YardValid(v);
  }

  ghost function Fanned(v: View, q: Query, s: State): State
    requires Ready(v, q) && |s.g| == |s.parent| == |s.from| == 8
  {
    BudgetCut.Put(v, q, BudgetCut.Put(v, q, BudgetCut.Put(v, q, s, 4, 0, 5, 600), 4, 3, 0, 511), 4, 5, 1, 768)
  }

  lemma RelaxStart(v: View, q: Query, s: State)
    requires Asks(v, q) && Shaped(v, q, s) && |s.g| == |s.parent| == |s.from| == 8 == v.N()
    requires s.g[5] == s.g[0] == s.g[1] == G_INFINITE
    ensures RelaxFrom(v, q, s, 4, 0, 0) == Fanned(v, q, s) && Shaped(v, q, Fanned(v, q, s))
  {
    hide CanStep, Dest, EnterCost, F, RelaxFrom, Yard, Shaped, BudgetCut.Put, BudgetCut.Idle, View.Valid;
    YardSize(v, q);
    YardStep(v, 4, 0);
    BudgetCut.PutStep(v, q, s, 4, 0, 0, 5, 600);
    var t1 := BudgetCut.Put(v, q, s, 4, 0, 5, 600);
    NotThere(v, q, t1, 1);
    BudgetCut.IdleStep(v, q, t1, 4, 0, 1);
    NotThere(v, q, t1, 2);
    BudgetCut.IdleStep(v, q, t1, 4, 0, 2);
    YardStep(v, 4, 3);
    BudgetCut.PutStep(v, q, t1, 4, 0, 3, 0, 511);
    var t2 := BudgetCut.Put(v, q, t1, 4, 3, 0, 511);
    NotThere(v, q, t2, 4);
    BudgetCut.IdleStep(v, q, t2, 4, 0, 4);
    YardStep(v, 4, 5);
    BudgetCut.PutStep(v, q, t2, 4, 0, 5, 1, 768);
    var t3 := BudgetCut.Put(v, q, t2, 4, 5, 1, 768);
    NotThere(v, q, t3, 6);
    BudgetCut.IdleStep(v, q, t3, 4, 0, 6);
    NotThere(v, q, t3, 7);
    BudgetCut.IdleStep(v, q, t3, 4, 0, 7);
    BudgetCut.AllRelaxed(v, q, t3, 4, 0);
  }

  lemma FannedOpen(v: View, q: Query, s: State)
    requires Asks(v, q) && |s.g| == |s.parent| == |s.from| == 8 && s.open == multiset{}
    ensures var t := Fanned(v, q, s);
            && t.open == multiset{Open(5, 600, q.eps), Open(0, 511, q.eps), Open(1, 768, q.eps)}
            && t.g == s.g[5 := 600][0 := 511][1 := 768] && t.expansions == s.expansions
  {
    Height(v, q, 5, 600);
    Height(v, q, 0, 511);
    Height(v, q, 1, 768);
    hide F, Yard;
  }

  /** x comes first, at the cost of the diagonal. */
  lemma FirstIsX(eps: nat, open: multiset<Entry>)
    requires 257 <= eps && open == multiset{Open(5, 600, eps), Open(0, 511, eps), Open(1, 768, eps)}
    ensures Open(1, 768, eps) in open && forall x | x in open && x != Open(1, 768, eps) :: Less(Open(1, 768, eps), x)
  {
  }

  lemma StartExpands(v: View, q: Query) returns (t: State)
    requires Asks(v, q)
    ensures Shaped(v, q, t) && |t.g| == v.N() == 8 && t.expansions == 1 && Search(v, q) == Run(v, q, t)
    ensures t.open != multiset{} && First(t.open) == Open(1, 768, q.eps) && t.g[1] == 768
  {
    hide F, H, RelaxFrom, Run, Yard, Expanded, Fanned;
    var s := Init(v, q);
    YardSize(v, q);
    Height(v, q, 4, 0);
    var e := Open(4, 0, q.eps);
    OnlyOne(s.open, e);
    BudgetCut.Begin(v, q, s, e);
    var m := Settle(v, q, Popped(s), e);
    OpenNothing(s.open, e);
    RelaxStart(v, q, m);
    FannedOpen(v, q, m);
    BudgetCut.RunOn(v, q, s);
    t := Expanded(v, q, s);
    FirstIsX(q.eps, t.open);
    BudgetCut.Begin(v, q, t, Open(1, 768, q.eps));
  }

  lemma OnlyOne(open: multiset<Entry>, e: Entry)
    requires open == multiset{e}
    ensures e in open && forall x | x in open && x != e :: Less(e, x)
  {
  }

  lemma OpenNothing(open: multiset<Entry>, e: Entry)
    requires open == multiset{e}
    ensures open - multiset{e} == multiset{}
  {
  }

  // ---------- the flag stays set ----------

  lemma {:induction false} RelaxFromBlames(v: View, q: Query, s: State, cur: nat, eg: nat, d: nat, k: nat)
    requires Ready(v, q) && Shaped(v, q, s) && cur < v.N() && d <= v.Dirs()
    requires s.pruned || (d <= k < v.Dirs() && CanStep(v, cur, k) && q.maxCost < eg + EnterCost(v, Dest(v, cur, k), k))
    ensures RelaxFrom(v, q, s, cur, eg, d).pruned
    decreases v.Dirs() - d
  {
    hide CanStep, Dest, EnterCost, F, Relax, View.Valid, Shaped, Sum;
    if d < v.Dirs() {
      RelaxBlames(v, q, s, cur, eg, d);
      RelaxFromBlames(v, q, Relax(v, q, s, cur, eg, d), cur, eg, d + 1, k);
    }
  }

  lemma RelaxBlames(v: View, q: Query, s: State, cur: nat, eg: nat, d: nat)
    requires Ready(v, q) && Shaped(v, q, s) && cur < v.N() && d < v.Dirs()
    ensures s.pruned ==> Relax(v, q, s, cur, eg, d).pruned
    ensures CanStep(v, cur, d) && q.maxCost < eg + EnterCost(v, Dest(v, cur, d), d) ==>
              Relax(v, q, s, cur, eg, d).pruned
  {
    hide CanStep, Dest, EnterCost, F;
  }

  lemma {:induction false} BlameStays(v: View, q: Query, s: State)
    requires Ready(v, q) && Shaped(v, q, s) && s.pruned
    ensures Run(v, q, s).last.pruned
    decreases Sum(s.g), |s.open|
  {
    hide Expanded, H;
    if s.open != multiset{} {
      var e := First(s.open);
      if SearchMachine.Stale(s, e) {
        BlameStays(v, q, Popped(s));
      } else if e.idx != q.goal && s.expansions < q.maxExpansions {
        ExpandedBlames(v, q, s, 0);
        BlameStays(v, q, Expanded(v, q, s));
      }
    }
  }

  lemma ExpandedBlames(v: View, q: Query, s: State, k: nat)
    requires Ready(v, q) && Shaped(v, q, s) && s.open != multiset{} && First(s.open).idx < v.N()
    requires var e := First(s.open);
             s.pruned || (k < v.Dirs() && CanStep(v, e.idx, k) && q.maxCost < e.g + EnterCost(v, Dest(v, e.idx, k), k))
    ensures Expanded(v, q, s).pruned
  {
    hide CanStep, Dest, EnterCost, RelaxFrom, H;
    var e := First(s.open);
    RelaxFromBlames(v, q, Settle(v, q, Popped(s), e), e.idx, e.g, 0, k);
  }

  lemma CapIsBlamedHere(v: View, q: Query)
    requires Asks(v, q)
    ensures Ready(v, q) && Search(v, q).last.pruned
  {
    hide F, H, Run, Yard, Expanded, CanStep, Dest, EnterCost;
    var t := StartExpands(v, q);
    YardSize(v, q);
    YardStep(v, 1, 6);
    ExpandedBlames(v, q, t, 6);
    BudgetCut.RunOn(v, q, t);
    BlameStays(v, q, Expanded(v, q, t));
  }

  // ---------- what the caller sees ----------

  /** Unlimited, under the cap, from s to G. */
  function YardRequest(epsilon: real): Request {
    Request(0, 1, 3, 0, 0, false, 0, 8447.0 / 256.0, epsilon, 0)
  }

  lemma YardAsked(v: View, epsilon: real)
    requires Yard(v) && (epsilon == 0.0 || 257.0 / 256.0 <= epsilon <= 256.0)
    ensures var req := YardRequest(epsilon);
            Answerable(v, req) && Searched(v, req) && Asks(v, Asked(v, req)) && NeverCut(v, req)
  {
    LimitsNeverLoosen(YardRequest(epsilon));
    assert v.N() == 8;
  }

  lemma GoalApart(v: View, q: Query, r: Route)
    requires Asks(v, q)
    ensures !Connects(v, q.start, r, q.goal)
  {
    hide CanStep, Dest, Yard;
    YardSize(v, q);
    if Legal(v, 4, r) {
      YardEnds(v, 4, r);
    }
  }

  /** Whatever the epsilon above 1: no budget, no step beyond the cap at least cost, and yet the cap is blamed. */
  lemma BlamedTooEarly(epsilon: real)
    requires epsilon == 0.0 || 257.0 / 256.0 <= epsilon <= 256.0
    ensures DescValid(PLAIN) && Honest(Registered(PLAIN))
    ensures var v, req := Behold(YardTerrain(), Registered(PLAIN)), YardRequest(epsilon);
            && Answerable(v, req) && Searched(v, req) && !CutShort(v, req)
            && SearchAnswer(v, req).status == BudgetExceeded && !CapExceeded(v, req, true)
  {
    hide Registered, Behold, Yard, Asks, Search, SearchAnswer, Oversteps, NeverCut, FoldWord, FloorQ;
    PlainProfile();
    YardIsSeen();
    var v, req := Behold(YardTerrain(), Registered(PLAIN)), YardRequest(epsilon);
    YardAsked(v, epsilon);
    var q := Asked(v, req);
    NeverCutIsNot(v, req, StartOf(v, req), GoalOf(v, req));
    CapIsBlamedHere(v, q);
    StatusOf(v, req);
    YardSize(v, q);
    if Search(v, q).stop == Reached {
      FoundUnlessCut(v, q);
      var r: Route :| Connects(v, q.start, r, q.goal) && Cost(v, q.start, r) <= q.maxCost;
      GoalApart(v, q, r);
    }
    forall r: Route, d: nat ensures !Oversteps(v, q, r, d, true) {
      NoneAsked(v, q, r, d);
    }
  }

  lemma NoneAsked(v: View, q: Query, r: Route, d: nat)
    requires Asks(v, q)
    ensures Ready(v, q) && !Oversteps(v, q, r, d, true)
  {
    hide Oversteps, Yard;
    NoneBeyond(v, q, r, d);
  }

  // ---------- for which epsilons the cap is only blamed for steps beyond it ----------

  /** On this terrain the request, unless its budget ends the search, gets BUDGET_EXCEEDED exactly if some tile, at its
      least cost, has a step beyond the cap. */
  ghost predicate BlamedJustly(d: ProfileDesc, t: Terrain, req: Request)
    requires DescValid(d)
  {
    t.Valid() && Answerable(Behold(t, Registered(d)), req) ==>
      var v := Behold(t, Registered(d));
      Searched(v, req) && !CutShort(v, req) && SearchAnswer(v, req).status != Found ==>
        (SearchAnswer(v, req).status == BudgetExceeded <==> CapExceeded(v, req, true))
  }

  /** For all honest profiles, terrains and limits: if and only if epsilon quantises to 1. */
  lemma BlamedJustlyIff(epsilon: real)
    requires epsilon == 0.0 || 1.0 <= epsilon <= 256.0
    ensures epsilon != 0.0 && epsilon < 257.0 / 256.0 <==>
            forall d: ProfileDesc, t: Terrain, req: Request |
              DescValid(d) && Honest(Registered(d)) && req.epsilon == epsilon ::
              BlamedJustly(d, t, req)
  {
    hide Registered, Honest, BlamedJustly, YardTerrain;
    if epsilon != 0.0 && epsilon < 257.0 / 256.0 {
      forall d: ProfileDesc, t: Terrain, req: Request |
        DescValid(d) && Honest(Registered(d)) && req.epsilon == epsilon
        ensures BlamedJustly(d, t, req)
      {
        ExactIsJust(d, t, req);
      }
    } else {
      YardIsUnjust(epsilon);
    }
  }

  lemma ExactIsJust(d: ProfileDesc, t: Terrain, req: Request)
    requires DescValid(d) && Honest(Registered(d)) && req.epsilon != 0.0 && req.epsilon < 257.0 / 256.0
    ensures BlamedJustly(d, t, req)
  {
    hide Registered, Honest, Behold, Sound, CutShort, CapExceeded, SearchAnswer, StartOf, GoalOf;
    if t.Valid() && Answerable(Behold(t, Registered(d)), req) {
      var v := Behold(t, Registered(d));
      HonestIsSound(d, t);
      LimitsNeverLoosen(req);
      if Searched(v, req) && !CutShort(v, req) && SearchAnswer(v, req).status != Found {
        CapIsBlamed(v, req);
      }
    }
  }

  lemma YardIsUnjust(epsilon: real)
    requires epsilon == 0.0 || 257.0 / 256.0 <= epsilon <= 256.0
    ensures DescValid(PLAIN) && Honest(Registered(PLAIN)) && YardRequest(epsilon).epsilon == epsilon
    ensures !BlamedJustly(PLAIN, YardTerrain(), YardRequest(epsilon))
  {
    hide Registered, Honest, Behold, CutShort, CapExceeded, SearchAnswer, Searched, Answerable;
    BlamedTooEarly(epsilon);
  }
}
