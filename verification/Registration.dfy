/** Registering a profile: the relevance mask and the two heuristic floors, and when those floors are admissible. */
module Registration {
  import opened FixedPoint
  import opened Grid
  import opened Heuristic
  import opened Profiles

  /** A zero multiplier is a placeholder for "neutral", for tags and for the diagonal alike. */
  datatype ProfileDesc = ProfileDesc(
    conn4: bool, corner: CornerRule, diagonalMult: real, blockMask: Word, requireMask: Word,
    tagMult: seq<real>, tagAdd: seq<real>)

  predicate DescValid(d: ProfileDesc) {
    && (d.diagonalMult == 0.0 || 1.0 <= d.diagonalMult <= 16.0)
    && |d.tagMult| == |d.tagAdd| == 64
    && (forall b | 0 <= b < 64 :: 0.0 <= d.tagMult[b] <= 65536.0)
    && (forall b | 0 <= b < 64 :: 0.0 <= d.tagAdd[b] <= 65536.0)
  }

  function Neutral(v: real): real { if v == 0.0 then 1.0 else v }

  function Mults(d: ProfileDesc): (m: seq<real>)
    requires |d.tagMult| == 64
    ensures |m| == 64
  {
    seq(64, b requires 0 <= b < 64 => Neutral(d.tagMult[b]))
  }

  function DiagQ(d: ProfileDesc): nat {
    if d.diagonalMult == 0.0 then Q_DIAG_SQRT2 else Round(d.diagonalMult * 256.0, Q_DIAG_MAX)
  }

  /** Product of the multipliers below 1 among the first `b` bits: the least any word can fold to. */
  function FloorBelow(mult: seq<real>, b: nat): real
    requires b <= |mult|
  {
    if b == 0 then 1.0
    else if mult[b - 1] < 1.0 then FloorBelow(mult, b - 1) * mult[b - 1]
    else FloorBelow(mult, b - 1)
  }

  /** The rounded floor, before it is forced to be at least 1. */
  function FloorQ(mult: seq<real>): nat
    requires |mult| == 64
  {
    Round(256.0 * FloorBelow(mult, 64), Q_TILE_MAX)
  }

  function DiagonalFloor(diagQ: nat, hD: nat): nat {
    var d2 := AtLeastOne(Scale(diagQ, hD));
    if d2 > 2 * hD then 2 * hD else d2
  }

  function RelevantBelow(d: ProfileDesc, b: nat): (m: Word)
    requires |d.tagMult| == |d.tagAdd| == 64 && b <= 64
    ensures m == d.blockMask + d.requireMask + set k | 0 <= k < b
            && (Neutral(d.tagMult[k]) != 1.0 || d.tagAdd[k] != 0.0)
  {
    if b == 0 then d.blockMask + d.requireMask
    else if Neutral(d.tagMult[b - 1]) != 1.0 || d.tagAdd[b - 1] != 0.0 then RelevantBelow(d, b - 1) + {b - 1}
    else RelevantBelow(d, b - 1)
  }

  /** The profile a valid descriptor becomes. */
  function Registered(d: ProfileDesc): (p: Profile)
    requires DescValid(d)
    ensures Sized(p) && CoversRelevant(p)
  {
    var hD := AtLeastOne(FloorQ(Mults(d)));
    Profile(Mults(d), d.tagAdd, d.blockMask, d.requireMask, RelevantBelow(d, 64),
            d.conn4, d.corner, DiagQ(d), hD, DiagonalFloor(DiagQ(d), hD))
  }

  const MAX_PROFILES: nat := 256

  datatype RegisterResult = Accepted(profile: Profile) | InvalidArgument | TooManyProfiles

  method Validate(d: ProfileDesc) returns (ok: bool)
    ensures ok == DescValid(d)
  {
    if d.diagonalMult != 0.0 && !(1.0 <= d.diagonalMult <= 16.0) {
      return false;
    }
    if |d.tagMult| != 64 || |d.tagAdd| != 64 {
      return false;
    }
    for b := 0 to 64
      invariant forall k | 0 <= k < b :: 0.0 <= d.tagMult[k] <= 65536.0 && 0.0 <= d.tagAdd[k] <= 65536.0
    {
      if !(0.0 <= d.tagMult[b] <= 65536.0) || !(0.0 <= d.tagAdd[b] <= 65536.0) {
        return false;
      }
    }
    ok := true;
  }

  /** One pass over the 64 tags. */
  method AccumulateTags(d: ProfileDesc) returns (mult: seq<real>, floor: real, relevant: Word)
    requires DescValid(d)
    ensures mult == Mults(d) && floor == FloorBelow(Mults(d), 64) && relevant == RelevantBelow(d, 64)
  {
    hide Neutral;
    mult, floor, relevant := [], 1.0, d.blockMask + d.requireMask;
    for b := 0 to 64
      invariant mult == Mults(d)[..b]
      invariant relevant == RelevantBelow(d, b) && floor == FloorBelow(Mults(d), b)
    {
      var m := Neutral(d.tagMult[b]);
      mult := mult + [m];
      if m != 1.0 || d.tagAdd[b] != 0.0 {
        relevant := relevant + {b};
      }
      if m < 1.0 {
        floor := floor * m;
      }
    }
  }

  /** Validation, the tag pass, and the clamping of the floors. */
  method Register(d: ProfileDesc) returns (r: RegisterResult)
    ensures r == if DescValid(d) then Accepted(Registered(d)) else InvalidArgument
  {
    var ok := Validate(d);
    if !ok {
      return InvalidArgument;
    }
    var mult, floor, relevant := AccumulateTags(d);
    var hD := Round(256.0 * floor, Q_TILE_MAX);
    if hD < 1 {
      hD := 1;
    }
    var d2 := Scale(DiagQ(d), hD);
    if d2 < 1 {
      d2 := 1;
    }
    if d2 > 2 * hD {
      d2 := 2 * hD;
    }
    r := Accepted(Profile(mult, d.tagAdd, d.blockMask, d.requireMask, relevant, d.conn4, d.corner, DiagQ(d), hD, d2));
  }

  // ---------- the floors ----------

  /** The floor rounds to nothing while a diagonal costs at least two straight steps: hD is forced up to 1 and hD2 up
      to 2, although a diagonal step can then cost 1. */
  predicate Degenerate(p: Profile)
    requires Sized(p)
  {
    !p.conn4 && FloorQ(p.mult) == 0 && p.diagQ >= 512
  }

  lemma RealProduct(a: real, x: real, b: real, y: real)
    requires a >= b > 0.0 && x >= y > 0.0
    ensures a * x >= b * y > 0.0
  {
    assert a * x >= a * y >= b * y;
  }

  /** No word folds below the product of the discounts. */
  lemma {:induction false} FloorIsLeast(p: Profile, word: Word, b: nat)
    requires Sized(p) && b <= 64 && forall k | 0 <= k < 64 :: p.mult[k] > 0.0
    ensures MultBelow(p, word, b) >= FloorBelow(p.mult, b) > 0.0
  {
    if b > 0 {
      FloorIsLeast(p, word, b - 1);
      var m := p.mult[b - 1];
      var lo := if m < 1.0 then m else 1.0;
      var hi := if b - 1 in word then m else 1.0;
      RealProduct(MultBelow(p, word, b - 1), hi, FloorBelow(p.mult, b - 1), lo);
    }
  }

  /** The folded multiplier of an enterable word is at least the rounded floor. */
  lemma FoldAboveFloor(p: Profile, word: Word)
    requires Sized(p) && (forall k | 0 <= k < 64 :: p.mult[k] > 0.0)
    ensures FoldWord(p, word).multQ >= FloorQ(p.mult)
  {
    FloorIsLeast(p, word, 64);
    FloorAtMostOne(p.mult, 64);
    RoundMonotone(256.0 * FloorBelow(p.mult, 64), MultBelow(p, word, 64) * 256.0, Q_TILE_MAX, Q_FOLD_MAX);
  }

  lemma {:induction false} FloorAtMostOne(mult: seq<real>, b: nat)
    requires b <= |mult| && forall k | 0 <= k < |mult| :: mult[k] > 0.0
    ensures 0.0 < FloorBelow(mult, b) <= 1.0
  {
    if b > 0 {
      FloorAtMostOne(mult, b - 1);
    }
  }

  lemma ScaleGrows(q: nat, k: nat, r: nat, l: nat)
    requires q >= r && k >= l
    ensures Scale(q, k) >= Scale(r, l)
  {
    ProductBound(r, l, q, k);
  }

  lemma ScaleByOne(k: nat)
    ensures Scale(Q_ONE, k) == k && Scale(k, Q_ONE) == k
  {
  }

  /** Some word does fold as low as the floor: that of all discounts. */
  lemma {:induction false} FloorIsAttained(p: Profile, discounts: Word, b: nat)
    requires Sized(p) && b <= 64 && discounts == set k | 0 <= k < 64 && p.mult[k] < 1.0
    ensures MultBelow(p, discounts, b) == FloorBelow(p.mult, b)
  {
    if b > 0 {
      FloorIsAttained(p, discounts, b - 1);
    }
  }

  lemma FloorsClamped(diagQ: nat, hD: nat)
    requires diagQ >= Q_ONE && hD >= 1
    ensures hD <= DiagonalFloor(diagQ, hD) <= 2 * hD
  {
    ScaleGrows(diagQ, hD, Q_ONE, hD);
    ScaleByOne(hD);
  }

  /** hD2 is the largest whole number that neither exceeds two straight steps nor hD times the diagonal multiplier. */
  lemma DiagonalFloorIsGreatest(d: ProfileDesc, n: nat)
    requires DescValid(d)
    ensures var p := Registered(d); n <= p.hD2 <==> n <= 2 * p.hD && 256 * n <= p.diagQ * p.hD
  {
    RegisteredFloors(d);
    var p := Registered(d);
    hide Registered, DescValid;
    ScaleGrows(p.diagQ, p.hD, Q_ONE, p.hD);
    ScaleByOne(p.hD);
  }

  /** hD is the least product of multipliers, in 256ths to the nearest, and at least 1. */
  lemma FloorNear(d: ProfileDesc)
    requires DescValid(d)
    ensures var p := Registered(d);
            var least := 256.0 * MultBelow(p, set k | 0 <= k < 64 && p.mult[k] < 1.0, 64);
            if least < 1.0 then p.hD == 1 else least - 0.5 < p.hD as real <= least + 0.5
  {
    RegisteredFloors(d);
    var p := Registered(d);
    hide Registered;
    FloorIsAttained(p, set k | 0 <= k < 64 && p.mult[k] < 1.0, 64);
    FloorAtMostOne(p.mult, 64);
  }

  /** Left at zero a multiplier is neutral, and so is a whole descriptor: it prices every tile at its duration, blocks
      nothing, looks at no tag and moves diagonally at the square root of 2. */
  lemma ZeroedIsNeutral(d: ProfileDesc, word: Word)
    requires DescValid(d) && d.blockMask == d.requireMask == {} && d.diagonalMult == 0.0
    requires forall b | 0 <= b < 64 :: d.tagMult[b] == d.tagAdd[b] == 0.0
    ensures var p := Registered(d);
            && FoldWord(p, word) == Fold(256, 0) && p.relevantMask == {}
            && p.hD == 256 && p.hD2 == p.diagQ == Q_DIAG_SQRT2
  {
    var p := Registered(d);
    AllNeutral(p, word, 64);
    assert RelevantBelow(d, 64) == {};
    FloorOfNeutral(p.mult, 64);
  }

  lemma {:induction false} AllNeutral(p: Profile, word: Word, b: nat)
    requires Sized(p) && b <= 64 && forall k | 0 <= k < 64 :: p.mult[k] == 1.0 && p.add[k] == 0.0
    ensures MultBelow(p, word, b) == 1.0 && AddBelow(p, word, b) == 0.0
  {
    if b > 0 {
      AllNeutral(p, word, b - 1);
    }
  }

  lemma {:induction false} FloorOfNeutral(mult: seq<real>, b: nat)
    requires b <= |mult| && forall k | 0 <= k < |mult| :: mult[k] == 1.0
    ensures FloorBelow(mult, b) == 1.0
  {
    if b > 0 {
      FloorOfNeutral(mult, b - 1);
    }
  }

  lemma DiagonalAtLeastOne(d: ProfileDesc)
    requires DescValid(d)
    ensures Q_ONE <= DiagQ(d) <= Q_DIAG_MAX
  {
  }

  lemma RegisteredFloors(d: ProfileDesc)
    requires DescValid(d)
    ensures var p := Registered(d);
            && p.hD == AtLeastOne(FloorQ(p.mult)) <= 256 && p.hD2 == DiagonalFloor(p.diagQ, p.hD)
            && Q_ONE <= p.diagQ <= Q_DIAG_MAX && p.hD <= p.hD2 <= 2 * p.hD
            && forall k | 0 <= k < 64 :: p.mult[k] > 0.0
  {
    var p := Registered(d);
    DiagonalAtLeastOne(d);
    FloorsClamped(DiagQ(d), p.hD);
    FloorAtMostOne(p.mult, 64);
    RoundMonotone(256.0 * FloorBelow(p.mult, 64), 256.0, Q_TILE_MAX, Q_TILE_MAX);
  }

  /** Every straight step onto an enterable tile costs at least hD. */
  lemma StraightAboveFloor(q: nat, f: Fold, floorQ: nat, diagQ: nat)
    requires Q_ONE <= q <= Q_TILE_MAX && f.multQ >= floorQ && floorQ <= 256
    ensures PerceivedStep(q, f, diagQ, false) >= AtLeastOne(floorQ)
  {
    ScaleGrows(q, f.multQ, Q_ONE, floorQ);
    ScaleByOne(floorQ);
  }

  /** Every diagonal step costs at least hD2, unless the floor rounded to nothing and diagonals are dear. */
  lemma DiagonalAboveFloor(q: nat, f: Fold, floorQ: nat, diagQ: nat)
    requires Q_ONE <= q <= Q_TILE_MAX && f.multQ >= floorQ && floorQ <= 256 && Q_ONE <= diagQ <= Q_DIAG_MAX
    requires floorQ >= 1 || diagQ < 512
    ensures PerceivedStep(q, f, diagQ, true) >= DiagonalFloor(diagQ, AtLeastOne(floorQ))
  {
    ScaleGrows(q, diagQ, Q_ONE, diagQ);
    ScaleByOne(diagQ);
    ProductBound(q, diagQ, Q_TILE_MAX, Q_DIAG_MAX);
    var tq := TrueStep(q, diagQ, true);
    assert tq >= diagQ;
    ScaleGrows(tq, f.multQ, diagQ, floorQ);
    ScaleByOne(diagQ);
    if floorQ == 0 {
      assert Scale(diagQ, 1) <= 1;
    }
  }

  /** Registration makes the heuristic trustworthy on every terrain, except for degenerate profiles. */
  lemma RegisteredIsSound(d: ProfileDesc, t: Terrain)
    requires DescValid(d) && t.Valid() && !Degenerate(Registered(d))
    ensures Behold(t, Registered(d)).Valid() && Sound(Behold(t, Registered(d)))
  {
    hide FoldWord, PerceivedStep, DiagonalFloor, FloorQ, Registered;
    var p := Registered(d);
    var v := Behold(t, p);
    RegisteredFloors(d);
    BeholdValid(t, p);
    forall u | 0 <= u < v.N() && !v.blocked[u]
      ensures v.hD <= v.straight[u] && (!v.conn4 ==> v.hD2 <= v.diagonal[u])
    {
      var f := FoldWord(p, t.tags[u]);
      FoldAboveFloor(p, t.tags[u]);
      StraightAboveFloor(t.cost[u], f, FloorQ(p.mult), p.diagQ);
      if !v.conn4 {
        DiagonalAboveFloor(t.cost[u], f, FloorQ(p.mult), p.diagQ);
      }
    }
  }
}
