/** Profiles: how per-tag weights fold over a tile's tag word, what registration derives from them, and the view of the
    terrain that results. */
module Profiles {
  import opened FixedPoint
  import opened Grid
  import opened Heuristic

  /** A 64-bit tag word or mask, as the set of its one bits. */
  type Word = s: set<nat> | forall b | b in s :: b < 64

  const MULT_BLOCKED: nat := U32_MAX

  datatype Profile = Profile(
    mult: seq<real>, add: seq<real>, blockMask: Word, requireMask: Word, relevantMask: Word,
    conn4: bool, corner: CornerRule, diagQ: nat, hD: nat, hD2: nat)

  /** Folded weights of one tag word. */
  datatype Fold = Fold(multQ: nat, addQ: nat)

  predicate BlocksWord(p: Profile, word: Word) {
    word * p.blockMask != {} || (p.requireMask != {} && word * p.requireMask == {})
  }

  function MultBelow(p: Profile, word: Word, b: nat): real
    requires b <= |p.mult|
  {
    if b == 0 then 1.0
    else if b - 1 in word then MultBelow(p, word, b - 1) * p.mult[b - 1]
    else MultBelow(p, word, b - 1)
  }

  function AddBelow(p: Profile, word: Word, b: nat): real
    requires b <= |p.add|
  {
    if b == 0 then 0.0
    else if b - 1 in word then AddBelow(p, word, b - 1) + p.add[b - 1]
    else AddBelow(p, word, b - 1)
  }

  predicate Sized(p: Profile) { |p.mult| == |p.add| == 64 }

  function FoldWord(p: Profile, word: Word): Fold
    requires Sized(p)
  {
    if BlocksWord(p, word) then Fold(MULT_BLOCKED, 0)
    else Fold(Round(MultBelow(p, word, 64) * 256.0, Q_FOLD_MAX), Round(AddBelow(p, word, 64) * 256.0, Q_FOLD_MAX))
  }

  /** The folding loop, bit by ascending bit. */
  method FoldCombo(p: Profile, word: Word) returns (f: Fold)
    requires Sized(p)
    ensures f == FoldWord(p, word)
  {
    var mult, add := 1.0, 0.0;
    if word * p.blockMask != {} || (p.requireMask != {} && word * p.requireMask == {}) {
      return Fold(MULT_BLOCKED, 0);
    }
    for b := 0 to 64
      invariant mult == MultBelow(p, word, b) && add == AddBelow(p, word, b)
    {
      if b in word {
        mult := mult * p.mult[b];
        add := add + p.add[b];
      }
    }
    f := Fold(Round(mult * 256.0, Q_FOLD_MAX), Round(add * 256.0, Q_FOLD_MAX));
  }

  /** A bit matters to a profile when it blocks, is required, or carries a weight. */
  predicate CoversRelevant(p: Profile)
    requires Sized(p)
  {
    && p.blockMask <= p.relevantMask && p.requireMask <= p.relevantMask
    && forall b: nat | b < 64 && b !in p.relevantMask :: p.mult[b] == 1.0 && p.add[b] == 0.0
  }

  lemma {:induction false} SameWeights(p: Profile, a: Word, c: Word, b: nat)
    requires Sized(p) && CoversRelevant(p) && a * p.relevantMask == c * p.relevantMask && b <= 64
    ensures MultBelow(p, a, b) == MultBelow(p, c, b) && AddBelow(p, a, b) == AddBelow(p, c, b)
  {
    if b > 0 {
      SameWeights(p, a, c, b - 1);
      if b - 1 in p.relevantMask {
        assert b - 1 in a <==> b - 1 in a * p.relevantMask;
        assert b - 1 in c <==> b - 1 in c * p.relevantMask;
      } else {
        assert p.mult[b - 1] == 1.0 && p.add[b - 1] == 0.0;
      }
    }
  }

  /** Flipping bits a profile does not care about leaves its folded weights alone. */
  lemma IrrelevantBitsFoldAlike(p: Profile, a: Word, c: Word)
    requires Sized(p) && CoversRelevant(p) && a * p.relevantMask == c * p.relevantMask
    ensures FoldWord(p, a) == FoldWord(p, c)
  {
    SameWeights(p, a, c, 64);
    assert a * p.blockMask == (a * p.relevantMask) * p.blockMask;
    assert c * p.blockMask == (c * p.relevantMask) * p.blockMask;
    assert a * p.requireMask == (a * p.relevantMask) * p.requireMask;
    assert c * p.requireMask == (c * p.relevantMask) * p.requireMask;
  }

  // ---------- terrain and its view ----------

  /** Base costs (0 blocks) and tag words, row-major. */
  datatype Terrain = Terrain(w: nat, h: nat, cost: seq<nat>, tags: seq<Word>)
  {
    predicate Valid() {
      && 0 < w <= MAX_DIM && 0 < h <= MAX_DIM
      && |cost| == |tags| == w * h
      && forall i | 0 <= i < |cost| :: cost[i] == 0 || Q_ONE <= cost[i] <= Q_TILE_MAX
    }
  }

  /** True cost of a step onto a tile of base cost `q`. */
  function TrueStep(q: nat, diagQ: nat, diagonal: bool): nat {
    if diagonal then Sat32(Scale(q, diagQ)) else Sat32(q)
  }

  /** `(q * k) >> 8`. */
  function Scale(q: nat, k: nat): (r: nat) {
    NonNegativeProduct(q, k);
    q * k / 256
  }

  lemma NonNegativeProduct(a: nat, b: nat)
    ensures 0 <= a * b
  {
  }

  function AtLeastOne(q: nat): nat { if q < 1 then 1 else q }

  /** Perceived cost of the same step: weights and penalty applied, never free, saturated at 32 bits. */
  function PerceivedStep(q: nat, f: Fold, diagQ: nat, diagonal: bool): (c: nat)
    ensures 1 <= c <= U32_MAX
  {
    Sat32(AtLeastOne(Scale(TrueStep(q, diagQ, diagonal), f.multQ) + f.addQ))
  }

  /** The view one profile has of the terrain, from the folds of the tiles' tag words. */
  function ViewOf(t: Terrain, p: Profile, folds: seq<Fold>): View
    requires |folds| == |t.cost|
  {
    View(
      t.w, t.h, p.conn4, p.corner,
      seq(|t.cost|, i requires 0 <= i < |t.cost| => t.cost[i] == 0 || folds[i].multQ == MULT_BLOCKED),
      seq(|t.cost|, i requires 0 <= i < |t.cost| => PerceivedStep(t.cost[i], folds[i], p.diagQ, false)),
      seq(|t.cost|, i requires 0 <= i < |t.cost| => PerceivedStep(t.cost[i], folds[i], p.diagQ, true)),
      seq(|t.cost|, i requires 0 <= i < |t.cost| => TrueStep(t.cost[i], p.diagQ, false)),
      seq(|t.cost|, i requires 0 <= i < |t.cost| => TrueStep(t.cost[i], p.diagQ, true)),
      p.hD, p.hD2)
  }

  /** The specification of every search and field: fold each tile's own tag word directly. */
  function Behold(t: Terrain, p: Profile): View
    requires Sized(p) && |t.tags| == |t.cost|
  {
    ViewOf(t, p, seq(|t.tags|, i requires 0 <= i < |t.tags| => FoldWord(p, t.tags[i])))
  }

  lemma BeholdValid(t: Terrain, p: Profile)
    requires Sized(p) && t.Valid()
    ensures Behold(t, p).Valid() && Behold(t, p).N() == |t.cost|
  {
  }

  /** A fold is the blocked sentinel only when it blocks: real weights are capped far below it. */
  lemma SentinelMeansBlocked(p: Profile, word: Word)
    requires Sized(p)
    ensures FoldWord(p, word).multQ == MULT_BLOCKED <==> BlocksWord(p, word)
  {
  }

  /** Every product and sum of a step cost fits in 64 bits, so the shifts lose nothing but the fraction. */
  lemma StepArithmeticFits(q: nat, f: Fold, diagQ: nat, diagonal: bool)
    requires q <= Q_TILE_MAX && diagQ <= Q_DIAG_MAX && f.multQ <= Q_FOLD_MAX && f.addQ <= Q_FOLD_MAX
    ensures q * diagQ < G_INFINITE
    ensures TrueStep(q, diagQ, diagonal) * f.multQ + f.addQ < G_INFINITE
  {
    ProductBound(q, diagQ, Q_TILE_MAX, Q_DIAG_MAX);
    ProductBound(TrueStep(q, diagQ, diagonal), f.multQ, U32_MAX, Q_FOLD_MAX);
  }
}
