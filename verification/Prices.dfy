/** Steps and what they cost in the map's own terms: columns and rows, base costs, tag words and weights.  Routes of a
    view are exactly the walks that may be taken on the terrain, at the prices that its tiles ask. */
module Prices {
  import opened FixedPoint
  import opened Grid
  import opened Heuristic
  import opened Profiles
  import opened Registration
  import opened DirtyLog
  import opened Emit

  predicate Enterable(t: Terrain, p: Profile, i: nat)
    requires i < |t.cost| && |t.tags| == |t.cost|
  {
    t.cost[i] != 0 && !BlocksWord(p, t.tags[i])
  }

  /** A word blocks when it has a blocking tag, or when tags are required and it has none of them. */
  lemma BlocksByBits(p: Profile, word: Word)
    ensures BlocksWord(p, word) <==>
              || (exists b: nat :: b in p.blockMask && b in word)
              || ((exists b: nat :: b in p.requireMask) && forall b: nat :: b in p.requireMask ==> b !in word)
  {
    assert forall b | b in p.blockMask && b in word :: b in word * p.blockMask;
    assert forall b | b in p.requireMask && b in word :: b in word * p.requireMask;
    if word * p.blockMask != {} {
      var b :| b in word * p.blockMask;
    }
    if word * p.requireMask != {} {
      var b :| b in word * p.requireMask;
    }
    if p.requireMask != {} {
      var b :| b in p.requireMask;
    }
  }

  predicate Straight(w: nat, i: nat, j: nat)
    requires w > 0
  {
    Col(w, i) == Col(w, j) || Row(w, i) == Row(w, j)
  }

  /** The tile where the row of `i` meets the column of `j`. */
  function Corner(w: nat, i: nat, j: nat): nat
    requires w > 0
  {
    Row(w, i) * w + Col(w, j)
  }

  /** What a unit may do: step onto a neighbour it may enter, diagonally if it moves so and the corner lets it. */
  predicate MayStep(t: Terrain, p: Profile, i: nat, j: nat)
    requires t.Valid() && i < |t.cost| && j < |t.cost|
  {
    && Touching(t.w, i, j) && Enterable(t, p, j)
    && (!Straight(t.w, i, j) ==>
          && !p.conn4
          && CornersInside(t.w, t.h, i, j)
          && match p.corner
             case Allow => true
             case Strict => Enterable(t, p, Corner(t.w, i, j)) && Enterable(t, p, Corner(t.w, j, i))
             case Lenient => Enterable(t, p, Corner(t.w, i, j)) || Enterable(t, p, Corner(t.w, j, i)))
  }

  /** Always so; it lets `MayStep` be read without a proof. */
  predicate CornersInside(w: nat, h: nat, i: nat, j: nat)
    requires w > 0
  {
    Corner(w, i, j) < w * h && Corner(w, j, i) < w * h
  }

  /** True duration of that step: the base cost of the tile entered, times the diagonal multiplier if it is one. */
  function Ticks(t: Terrain, p: Profile, i: nat, j: nat): nat
    requires t.Valid() && j < |t.cost|
  {
    NonNegativeProduct(t.cost[j], p.diagQ);
    Sat32(if Straight(t.w, i, j) then t.cost[j] else t.cost[j] * p.diagQ / 256)
  }

  /** Perceived cost: the duration times the folded multiplier, plus the folded penalty, never free. */
  function Price(t: Terrain, p: Profile, i: nat, j: nat): nat
    requires t.Valid() && j < |t.cost| && Sized(p)
  {
    var f := FoldWord(p, t.tags[j]);
    NonNegativeProduct(Ticks(t, p, i, j), f.multQ);
    var c := Ticks(t, p, i, j) * f.multQ / 256 + f.addQ;
    Sat32(if c < 1 then 1 else c)
  }

  // ---------- steps of a view ----------

  lemma CornersAreInside(t: Terrain, i: nat, j: nat)
    requires t.Valid() && i < |t.cost| && j < |t.cost|
    ensures CornersInside(t.w, t.h, i, j)
    ensures var c := Corner(t.w, i, j); Col(t.w, c) == Col(t.w, j) && Row(t.w, c) == Row(t.w, i)
  {
    InsideRows(t, i);
    InsideRows(t, j);
    hide Col, Row;
    RowMajor(Row(t.w, i), Col(t.w, j), t.h, t.w);
    RowMajor(Row(t.w, j), Col(t.w, i), t.h, t.w);
    ColAndRow(t.w, Row(t.w, i), Col(t.w, j));
  }

  lemma InsideRows(t: Terrain, i: nat)
    requires t.Valid() && i < |t.cost|
    ensures 0 <= Col(t.w, i) < t.w && 0 <= Row(t.w, i) < t.h && i == Row(t.w, i) * t.w + Col(t.w, i)
  {
    if Row(t.w, i) >= t.h {
      ProductOrder(t.h, Row(t.w, i), t.w);
    }
  }

  lemma ColAndRow(w: nat, y: nat, x: nat)
    requires w > 0 && x < w
    ensures y * w + x >= 0 && Col(w, y * w + x) == x && Row(w, y * w + x) == y
  {
    NonNegativeProduct(y, w);
    DivisionIsUnique(y * w + x, w, y, x);
  }

  lemma BeheldTile(t: Terrain, p: Profile, j: nat)
    requires t.Valid() && Sized(p) && j < |t.cost|
    ensures var v := Behold(t, p);
            && v.Valid() && v.w == t.w && v.h == t.h && v.N() == |t.cost| && v.conn4 == p.conn4 && v.corner == p.corner
            && (v.blocked[j] <==> !Enterable(t, p, j))
            && v.straight[j] == PerceivedStep(t.cost[j], FoldWord(p, t.tags[j]), p.diagQ, false)
            && v.diagonal[j] == PerceivedStep(t.cost[j], FoldWord(p, t.tags[j]), p.diagQ, true)
            && v.trueStraight[j] == TrueStep(t.cost[j], p.diagQ, false)
            && v.trueDiagonal[j] == TrueStep(t.cost[j], p.diagQ, true)
  {
    BeholdValid(t, p);
    SentinelMeansBlocked(p, t.tags[j]);
    hide FoldWord, PerceivedStep, TrueStep, BlocksWord;
  }

  /** A legal step is one the unit may take, and costs what the tile asks. */
  lemma StepMay(t: Terrain, p: Profile, i: nat, d: nat)
    requires t.Valid() && Sized(p) && i < |t.cost|
    ensures Behold(t, p).Valid() && Behold(t, p).N() == |t.cost|
    ensures CanStep(Behold(t, p), i, d) ==>
              var v, j := Behold(t, p), Dest(Behold(t, p), i, d);
              && MayStep(t, p, i, j) && (d < 4 <==> Straight(t.w, i, j))
              && TrueCost(v, j, d) == Ticks(t, p, i, j) && EnterCost(v, j, d) == Price(t, p, i, j)
  {
    hide Behold, FoldWord, BlocksWord, Enterable;
    BeheldTile(t, p, i);
    var v := Behold(t, p);
    if CanStep(v, i, d) {
      var j := Dest(v, i, d);
      BeheldTile(t, p, j);
      SameCoordinates(v, i);
      SameCoordinates(v, j);
      hide X, Y, Col, Row;
      if d >= 4 {
        CornersAreInside(t, i, j);
        CornersAreInside(t, j, i);
        FlanksAreCorners(t, p, i, d);
        BeheldTile(t, p, Corner(t.w, i, j));
        BeheldTile(t, p, Corner(t.w, j, i));
      }
    }
  }

  lemma SameCoordinates(v: View, i: nat)
    requires v.Valid()
    ensures X(v, i) == Col(v.w, i) && Y(v, i) == Row(v.w, i)
  {
  }

  lemma FlanksAreCorners(t: Terrain, p: Profile, i: nat, d: nat)
    requires t.Valid() && Sized(p) && i < |t.cost| && 4 <= d < 8
    requires Behold(t, p).Valid() && Behold(t, p).N() == |t.cost| && Behold(t, p).w == t.w && Behold(t, p).h == t.h
    requires InBounds(Behold(t, p), i, d)
    ensures var v := Behold(t, p);
            var j := Nbr(v, i, d);
            FlankA(v, i, d) == Corner(t.w, i, j) && FlankB(v, i, d) == Corner(t.w, j, i)
  {
    hide Behold;
    var v := Behold(t, p);
    var j := Nbr(v, i, d);
    SameCoordinates(v, i);
    SameCoordinates(v, j);
    SameCoordinates(v, FlankA(v, i, d));
    SameCoordinates(v, FlankB(v, i, d));
    Decomposed(v, FlankA(v, i, d));
    Decomposed(v, FlankB(v, i, d));
  }

  /** Every step the unit may take is a legal one, in some direction. */
  lemma MayIsStep(t: Terrain, p: Profile, i: nat, j: nat) returns (d: nat)
    requires t.Valid() && Sized(p) && i < |t.cost| && j < |t.cost| && MayStep(t, p, i, j)
    ensures Behold(t, p).Valid() && i < Behold(t, p).N() && CanStep(Behold(t, p), i, d)
    ensures Dest(Behold(t, p), i, d) == j
  {
    hide Behold, FoldWord, BlocksWord, Enterable;
    BeheldTile(t, p, i);
    BeheldTile(t, p, j);
    var v := Behold(t, p);
    InsideRows(t, i);
    InsideRows(t, j);
    SameCoordinates(v, i);
    SameCoordinates(v, j);
    d := Towards(Col(t.w, j) - Col(t.w, i), Row(t.w, j) - Row(t.w, i));
    hide X, Y, Col, Row;
    InTheGrid(v, i, j, d);
    if d >= 4 {
      CornersAreInside(t, i, j);
      FlanksAreCorners(t, p, i, d);
      BeheldTile(t, p, Corner(t.w, i, j));
      BeheldTile(t, p, Corner(t.w, j, i));
    }
  }

  lemma InTheGrid(v: View, i: nat, j: nat, d: nat)
    requires v.Valid() && i < v.N() && j < v.N() && d < 8
    requires X(v, j) == X(v, i) + DX[d] && Y(v, j) == Y(v, i) + DY[d]
    ensures InBounds(v, i, d) && Nbr(v, i, d) == j
  {
    CoordsInRange(v, j);
    CoordsInRange(v, i);
    if InBounds(v, i, d) {
      Decomposed(v, Nbr(v, i, d));
    }
  }

  // ---------- walks ----------

  /** Steps that may be taken one after another from `i`, each with the duration its tile asks. */
  ghost predicate Walks(t: Terrain, p: Profile, i: nat, s: seq<Step>)
    requires t.Valid() && i < |t.cost|
    decreases |s|
  {
    s == [] || (Takes(t, p, i, s[0]) && Walks(t, p, s[0].tile, s[1..]))
  }

  predicate Takes(t: Terrain, p: Profile, i: nat, x: Step)
    requires t.Valid() && i < |t.cost|
    ensures Takes(t, p, i, x) ==> x.tile < |t.cost|
  {
    x.tile < |t.cost| && MayStep(t, p, i, x.tile) && x.ticks == Ticks(t, p, i, x.tile)
  }

  lemma WalkAt(t: Terrain, p: Profile, i: nat, s: seq<Step>)
    requires t.Valid() && i < |t.cost| && s != []
    ensures Walks(t, p, i, s) <==> Takes(t, p, i, s[0]) && Walks(t, p, s[0].tile, s[1..])
  {
    hide Takes;
  }

  function LastTile(i: nat, s: seq<Step>): nat { if s == [] then i else s[|s| - 1].tile }

  function TicksOf(s: seq<Step>): nat { if s == [] then 0 else s[0].ticks + TicksOf(s[1..]) }

  ghost function PriceOf(t: Terrain, p: Profile, i: nat, s: seq<Step>): nat
    requires t.Valid() && Sized(p)
    decreases |s|
  {
    if s == [] || s[0].tile >= |t.cost| then 0 else Price(t, p, i, s[0].tile) + PriceOf(t, p, s[0].tile, s[1..])
  }

  /** The steps of a legal route are a walk to where it ends; its duration is the sum of their ticks, its cost that of
      the prices. */
  lemma {:induction false} RouteIsWalk(t: Terrain, p: Profile, i: nat, r: Route)
    requires t.Valid() && Sized(p) && i < |t.cost|
    requires Behold(t, p).Valid() && i < Behold(t, p).N() && Legal(Behold(t, p), i, r)
    ensures var v, s := Behold(t, p), Steps(Behold(t, p), i, r);
            && Walks(t, p, i, s) && LastTile(i, s) == End(v, i, r)
            && TicksOf(s) == Duration(v, i, r) && PriceOf(t, p, i, s) == Cost(v, i, r)
    decreases r
  {
    hide Behold, CanStep, Dest, EnterCost, TrueCost, MayStep, Ticks, Price;
    if r.Go? {
      StepMay(t, p, i, r.d);
      var v := Behold(t, p);
      var j := Dest(v, i, r.d);
      RouteIsWalk(t, p, j, r.rest);
      assert Steps(v, i, r)[1..] == Steps(v, j, r.rest);
      assert LastTile(i, Steps(v, i, r)) == LastTile(j, Steps(v, j, r.rest));
    }
  }

  /** And every walk is the steps of a legal route. */
  lemma {:induction false} WalkIsRoute(t: Terrain, p: Profile, i: nat, s: seq<Step>) returns (r: Route)
    requires t.Valid() && Sized(p) && i < |t.cost| && Walks(t, p, i, s)
    ensures Behold(t, p).Valid() && i < Behold(t, p).N() && Legal(Behold(t, p), i, r)
    ensures Steps(Behold(t, p), i, r) == s
    decreases |s|
  {
    hide Behold, CanStep, Dest, EnterCost, TrueCost, Takes, Walks, Steps, Legal;
    BeheldTile(t, p, i);
    if s == [] {
      r := Stop;
      NoSteps(Behold(t, p), i);
    } else {
      WalkAt(t, p, i, s);
      var d := TakenIsStep(t, p, i, s[0]);
      var rest := WalkIsRoute(t, p, s[0].tile, s[1..]);
      r := Go(d, rest);
      MoreSteps(Behold(t, p), i, d, rest);
      assert s == [s[0]] + s[1..];
    }
  }

  lemma TakenIsStep(t: Terrain, p: Profile, i: nat, x: Step) returns (d: nat)
    requires t.Valid() && Sized(p) && i < |t.cost| && Takes(t, p, i, x)
    ensures Behold(t, p).Valid() && i < Behold(t, p).N() && CanStep(Behold(t, p), i, d)
    ensures Dest(Behold(t, p), i, d) == x.tile && TrueCost(Behold(t, p), x.tile, d) == x.ticks
  {
    hide Behold, CanStep, Dest, EnterCost, TrueCost, MayStep, Ticks, Price;
    d := MayIsStep(t, p, i, x.tile);
    StepMay(t, p, i, d);
  }

  lemma NoSteps(v: View, i: nat)
    requires v.Valid() && i < v.N()
    ensures Legal(v, i, Stop) && Steps(v, i, Stop) == []
  {
  }

  lemma MoreSteps(v: View, i: nat, d: nat, rest: Route)
    requires v.Valid() && i < v.N() && CanStep(v, i, d) && Legal(v, Dest(v, i, d), rest)
    ensures var j := Dest(v, i, d);
            && Legal(v, i, Go(d, rest)) && Steps(v, i, Go(d, rest)) == [Step(j, TrueCost(v, j, d))] + Steps(v, j, rest)
  {
    hide CanStep, Dest, TrueCost;
  }

  // ---------- what weights make of a word ----------

  /** Weights compose: no tags weigh nothing, one tag its own, and disjoint words together what they weigh apart. */
  lemma {:induction false} WeightsOfNone(p: Profile, word: Word, b: nat)
    requires Sized(p) && b <= 64 && forall k | k in word :: k >= b
    ensures MultBelow(p, word, b) == 1.0 && AddBelow(p, word, b) == 0.0
  {
    if b > 0 {
      WeightsOfNone(p, word, b - 1);
    }
  }

  lemma {:induction false} WeightsOfOne(p: Profile, k: nat, b: nat)
    requires Sized(p) && k < b <= 64
    ensures MultBelow(p, {k}, b) == p.mult[k] && AddBelow(p, {k}, b) == p.add[k]
  {
    if k < b - 1 {
      WeightsOfOne(p, k, b - 1);
    } else {
      WeightsOfNone(p, {k}, k);
    }
  }

  lemma {:induction false} WeightsCompose(p: Profile, x: Word, y: Word, b: nat)
    requires Sized(p) && x !! y && b <= 64
    ensures MultBelow(p, x + y, b) == MultBelow(p, x, b) * MultBelow(p, y, b)
    ensures AddBelow(p, x + y, b) == AddBelow(p, x, b) + AddBelow(p, y, b)
  {
    hide MultBelow, AddBelow;
    if b > 0 {
      WeightsCompose(p, x, y, b - 1);
      WeightAt(p, x, b);
      WeightAt(p, y, b);
      WeightAt(p, x + y, b);
      Regrouped(MultBelow(p, x, b - 1), MultBelow(p, y, b - 1), p.mult[b - 1]);
    } else {
      WeightsOfNone(p, x, 0);
      WeightsOfNone(p, y, 0);
      WeightsOfNone(p, x + y, 0);
    }
  }

  lemma WeightAt(p: Profile, word: Word, b: nat)
    requires Sized(p) && 0 < b <= 64
    ensures MultBelow(p, word, b) ==
              if b - 1 in word then MultBelow(p, word, b - 1) * p.mult[b - 1] else MultBelow(p, word, b - 1)
    ensures AddBelow(p, word, b) ==
              if b - 1 in word then AddBelow(p, word, b - 1) + p.add[b - 1] else AddBelow(p, word, b - 1)
  {
  }

  lemma Regrouped(a: real, b: real, m: real)
    ensures (a * b) * m == (a * m) * b == a * (b * m)
  {
  }

  /** A word that does not block folds to its weights in 256ths, to the nearest, unless they are beyond the cap. */
  lemma FoldNear(p: Profile, word: Word)
    requires Sized(p) && !BlocksWord(p, word)
    ensures var f, m, a := FoldWord(p, word), 256.0 * MultBelow(p, word, 64), 256.0 * AddBelow(p, word, 64);
            && (0.0 <= m <= Q_FOLD_MAX as real ==> m - 0.5 < f.multQ as real <= m + 0.5)
            && (0.0 <= a <= Q_FOLD_MAX as real ==> a - 0.5 < f.addQ as real <= a + 0.5)
            && (m > Q_FOLD_MAX as real ==> f.multQ == Q_FOLD_MAX) && (a > Q_FOLD_MAX as real ==> f.addQ == Q_FOLD_MAX)
  {
  }

  /** So the price of a step is its duration times the word's multiplier plus its penalty, all in 256ths, but for the
      two roundings, the cut-off fraction, the floor of 1 and the cap of 32 bits. */
  lemma PriceNear(t: Terrain, p: Profile, i: nat, j: nat)
    requires t.Valid() && i < |t.cost| && j < |t.cost| && Sized(p) && Enterable(t, p, j)
    requires 0.0 <= 256.0 * MultBelow(p, t.tags[j], 64) <= Q_FOLD_MAX as real
    requires 0.0 <= 256.0 * AddBelow(p, t.tags[j], 64) <= Q_FOLD_MAX as real
    ensures var x, c := Ticks(t, p, i, j) as real, Price(t, p, i, j) as real;
            var ideal := x * MultBelow(p, t.tags[j], 64) + 256.0 * AddBelow(p, t.tags[j], 64);
            && (c == 1.0 || c <= ideal + x / 512.0 + 0.5)
            && (c == U32_MAX as real || ideal - x / 512.0 - 1.5 < c)
  {
    hide FoldWord, MultBelow, AddBelow, Ticks, BlocksWord;
    FoldNear(p, t.tags[j]);
    Weighed(Ticks(t, p, i, j), FoldWord(p, t.tags[j]), MultBelow(p, t.tags[j], 64), AddBelow(p, t.tags[j], 64));
  }

  lemma Weighed(x: nat, f: Fold, m: real, a: real)
    requires 256.0 * m - 0.5 < f.multQ as real <= 256.0 * m + 0.5
    requires 256.0 * a - 0.5 < f.addQ as real <= 256.0 * a + 0.5
    ensures x * f.multQ >= 0
    ensures var c := x * f.multQ / 256 + f.addQ;
            var s, z, ideal := Sat32(if c < 1 then 1 else c) as real, x as real, (x as real) * m + 256.0 * a;
            && (s == 1.0 || s <= ideal + z / 512.0 + 0.5)
            && (s == U32_MAX as real || ideal - z / 512.0 - 1.5 < s)
  {
    NonNegativeProduct(x, f.multQ);
    ScaledNear(x, f.multQ, m);
    var y := x * f.multQ / 256;
    assert (y + f.addQ) as real == y as real + f.addQ as real;
  }

  lemma ScaledNear(x: nat, k: nat, m: real)
    requires 256.0 * m - 0.5 < k as real <= 256.0 * m + 0.5 && x * k >= 0
    ensures var y, z := (x * k / 256) as real, x as real;
            z * m - z / 512.0 - 1.0 < y <= z * m + z / 512.0
  {
    var z, h, n := x as real, k as real, x * k;
    var zm, zh := z * m, z * h;
    Spread(z, h, m, zm, zh);
    assert n as real == zh;
    CutOff(n, 256.0 * zm - z / 2.0, 256.0 * zm + z / 2.0);
  }

  lemma Spread(z: real, h: real, m: real, zm: real, zh: real)
    requires 256.0 * m - 0.5 < h <= 256.0 * m + 0.5 && z >= 0.0 && zm == z * m && zh == z * h
    ensures 256.0 * zm - z / 2.0 <= zh <= 256.0 * zm + z / 2.0
  {
    var e := h - 256.0 * m;
    assert -0.5 <= e <= 0.5;
    SmallPart(z, e);
    assert zh == 256.0 * zm + z * e by { Expanded(z, h, m, e); }
  }

  lemma Expanded(z: real, h: real, m: real, e: real)
    requires h == 256.0 * m + e
    ensures z * h == 256.0 * (z * m) + z * e
  {
    calc {
      z * h;
    == z * (256.0 * m) + z * e;
    == 256.0 * (z * m) + z * e;
    }
  }

  lemma SmallPart(z: real, e: real)
    requires z >= 0.0 && -0.5 <= e <= 0.5
    ensures -(z / 2.0) <= z * e <= z / 2.0
  {
  }

  lemma CutOff(n: nat, low: real, high: real)
    requires low <= n as real <= high
    ensures low / 256.0 - 1.0 < (n / 256) as real <= high / 256.0
  {
    var q := n / 256;
    assert 256 * q <= n < 256 * q + 256;
    assert (256 * q) as real == 256.0 * (q as real) && (256 * q + 256) as real == 256.0 * (q as real) + 256.0;
  }

  /** The diagonal multiplier is the caller's to the nearest 256th; by default it is the square root of 2 cut off. */
  lemma DiagonalNear(d: ProfileDesc)
    requires DescValid(d)
    ensures var k := Registered(d).diagQ;
            if d.diagonalMult == 0.0 then k * k <= 2 * 256 * 256 < (k + 1) * (k + 1)
            else 256.0 * d.diagonalMult - 0.5 < k as real <= 256.0 * d.diagonalMult + 0.5
  {
  }

  // ---------- neutral profiles ----------

  /** Where no tile is weighted, units perceive what is: a route costs as much as it lasts. */
  lemma {:induction false} NeutralCostIsDuration(t: Terrain, p: Profile, i: nat, r: Route)
    requires t.Valid() && Sized(p) && i < |t.cost|
    requires Behold(t, p).Valid() && i < Behold(t, p).N() && Legal(Behold(t, p), i, r) && p.diagQ >= Q_ONE
    requires forall j: nat | j < |t.cost| :: FoldWord(p, t.tags[j]) == Fold(256, 0)
    ensures Cost(Behold(t, p), i, r) == Duration(Behold(t, p), i, r)
    decreases r
  {
    hide Behold, CanStep, Dest, EnterCost, TrueCost, FoldWord, MayStep, Price, Ticks;
    if r.Go? {
      StepMay(t, p, i, r.d);
      var j := Dest(Behold(t, p), i, r.d);
      NeutralPrice(t, p, i, j);
      NeutralCostIsDuration(t, p, j, r.rest);
    }
  }

  lemma NeutralPrice(t: Terrain, p: Profile, i: nat, j: nat)
    requires t.Valid() && Sized(p) && i < |t.cost| && j < |t.cost| && p.diagQ >= Q_ONE
    requires MayStep(t, p, i, j) && FoldWord(p, t.tags[j]) == Fold(256, 0)
    ensures Price(t, p, i, j) == Ticks(t, p, i, j)
  {
    hide FoldWord, MultBelow, AddBelow, Straight, Touching, Corner;
    var q := t.cost[j];
    ProductBound(q, Q_ONE, q, p.diagQ);
    assert q * Q_ONE / 256 == q;
  }
}
