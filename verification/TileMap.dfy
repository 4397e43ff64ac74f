/** The map's terrain arrays and their rectangle setters. */
module TileMap {
  import opened FixedPoint
  import opened Grid
  import opened Profiles
  import opened Interner
  import opened DirtyLog

  datatype Status = Ok | InvalidArgument | OutOfBounds | TagCombosExhausted

  predicate PassabilityValid(p: real) { 0.0 <= p <= 1.0 }

  function PassabilityToQ(p: real): nat
    requires PassabilityValid(p)
  {
    if p <= 0.0 then 0 else Round(256.0 / p, Q_TILE_MAX)
  }

  /** A passable tile costs at least one tick and at most the cap. */
  lemma PassableCostRange(p: real)
    requires PassabilityValid(p)
    ensures PassabilityToQ(p) == 0 || Q_ONE <= PassabilityToQ(p) <= Q_TILE_MAX
    ensures PassabilityToQ(p) == 0 <==> p == 0.0
  {
    if p > 0.0 {
      assert 256.0 / p >= 256.0;
      RoundMonotone(256.0, 256.0 / p, Q_TILE_MAX, Q_TILE_MAX);
    }
  }

  /** The base cost is the nearest to 256 ths of 1/p that fits: at full passability exactly one tick. */
  lemma PassableCostNear(p: real)
    requires PassabilityValid(p) && p > 0.0
    ensures 256.0 <= p * (Q_TILE_MAX as real) ==>
              256.0 - p / 2.0 < p * (PassabilityToQ(p) as real) <= 256.0 + p / 2.0
    ensures p * (Q_TILE_MAX as real) < 256.0 ==> PassabilityToQ(p) == Q_TILE_MAX
    ensures PassabilityToQ(1.0) == Q_ONE
  {
    var x, cap := 256.0 / p, Q_TILE_MAX as real;
    assert p * x == 256.0;
    TimesKeepsOrder(p, cap, x);
    TimesKeepsOrder(p, x, cap);
    if x <= cap {
      TimesNear(p, x, PassabilityToQ(p) as real);
    }
  }

  lemma TimesNear(p: real, x: real, q: real)
    requires p > 0.0 && p * x == 256.0 && x - 0.5 < q <= x + 0.5
    ensures 256.0 - p / 2.0 < p * q <= 256.0 + p / 2.0
  {
    var e := q - x;
    TimesApart(p, e);
    assert p * (x + e) == p * x + p * e;
    assert x + e == q;
    assert p * q == 256.0 + p * e;
  }

  lemma TimesApart(p: real, e: real)
    requires p > 0.0 && -0.5 < e <= 0.5
    ensures -(p / 2.0) < p * e <= p / 2.0
  {
    TimesKeepsOrder(p, -0.5, e);
    TimesKeepsOrder(p, 0.5, e);
  }

  lemma TimesKeepsOrder(p: real, a: real, b: real)
    requires p > 0.0
    ensures a < b <==> p * a < p * b
  {
    assert p * (b - a) == p * b - p * a;
  }

  function RectCheck(w: nat, h: nat, r: Rect): Status {
    if r.w == 0 || r.h == 0 then InvalidArgument
    else if r.x + r.w > w || r.y + r.h > h then OutOfBounds
    else Ok
  }

  /** A rectangle is accepted when it has tiles and all of them lie on the map. */
  lemma RectCheckIff(w: nat, h: nat, r: Rect)
    ensures RectCheck(w, h, r) == Ok <==>
              && (exists col: nat, row: nat :: OfRect(r, col, row))
              && forall col: nat, row: nat | OfRect(r, col, row) :: col < w && row < h
    ensures RectCheck(w, h, r) == InvalidArgument <==> forall col: nat, row: nat :: !OfRect(r, col, row)
  {
    if r.w > 0 && r.h > 0 {
      assert OfRect(r, r.x, r.y) && OfRect(r, r.x + r.w - 1, r.y + r.h - 1);
    }
  }

  predicate OfRect(r: Rect, col: nat, row: nat) { r.x <= col < r.x + r.w && r.y <= row < r.y + r.h }

  /** Position of tile `i` in a row-major payload for `r`. */
  function Offset(r: Rect, width: nat, i: nat): (k: nat)
    requires width > 0 && Inside(r, width, i)
    ensures k < Area(r)
  {
    RowMajor(Row(width, i) - r.y, Col(width, i) - r.x, r.h, r.w);
    (Row(width, i) - r.y) * r.w + (Col(width, i) - r.x)
  }

  /** `now` is `was` with `values` painted into `r`. */
  ghost predicate Painted(was: seq<nat>, now: seq<nat>, r: Rect, width: nat, values: seq<nat>)
    requires width > 0 && |values| == Area(r)
  {
    && |now| == |was|
    && forall i: nat | i < |was| :: now[i] == if Inside(r, width, i) then values[Offset(r, width, i)] else was[i]
  }

  /** So the payload fills the rectangle row by row. */
  lemma PaintedRowMajor(was: seq<nat>, now: seq<nat>, r: Rect, width: nat, height: nat, values: seq<nat>, row: nat,
                        col: nat)
    requires 0 < width && |was| == width * height && r.x + r.w <= width && r.y + r.h <= height && |values| == Area(r)
    requires row < r.h && col < r.w && Painted(was, now, r, width, values)
    ensures 0 <= (r.y + row) * width + r.x + col < |now| && 0 <= row * r.w + col < |values|
    ensures now[(r.y + row) * width + r.x + col] == values[row * r.w + col]
  {
    CellIs(r, width, height, row, col);
  }

  /** The same, for the tiles before row `row`, column `col` of the rectangle only. */
  ghost predicate PaintedTo(was: seq<nat>, now: seq<nat>, r: Rect, width: nat, values: seq<nat>, row: nat, col: nat)
    requires width > 0 && |values| == Area(r)
  {
    && |now| == |was|
    && forall i: nat | i < |was| ::
         now[i] == if Inside(r, width, i) && Before(r, width, i, row, col) then values[Offset(r, width, i)] else was[i]
  }

  predicate Before(r: Rect, width: nat, i: nat, row: nat, col: nat)
    requires width > 0 && Inside(r, width, i)
  {
    Row(width, i) - r.y < row || (Row(width, i) - r.y == row && Col(width, i) - r.x < col)
  }

  /** The tile written at row `row`, column `col`. */
  function Cell(r: Rect, width: nat, row: nat, col: nat): nat { (r.y + row) * width + r.x + col }

  /** Its place in the payload. */
  function Place(r: Rect, row: nat, col: nat): nat { row * r.w + col }

  lemma CellIs(r: Rect, width: nat, height: nat, row: nat, col: nat)
    requires 0 < width && r.x + r.w <= width && r.y + r.h <= height && row < r.h && col < r.w
    ensures var j := Cell(r, width, row, col);
            && j < width * height && Inside(r, width, j)
            && Row(width, j) == r.y + row && Col(width, j) == r.x + col
            && Offset(r, width, j) == Place(r, row, col)
  {
    RowMajor(r.y + row, r.x + col, height, width);
    DivisionIsUnique(Cell(r, width, row, col), width, r.y + row, r.x + col);
  }

  /** Writing one cell extends the painted part by it. */
  lemma PaintCell(was: seq<nat>, now: seq<nat>, r: Rect, width: nat, height: nat, values: seq<nat>, row: nat, col: nat)
    requires 0 < width && |was| == width * height && r.x + r.w <= width && r.y + r.h <= height
    requires |values| == Area(r) && row < r.h && col < r.w && PaintedTo(was, now, r, width, values, row, col)
    ensures Cell(r, width, row, col) < |now| && Place(r, row, col) < |values|
    ensures now[Cell(r, width, row, col)] == was[Cell(r, width, row, col)]
    ensures PaintedTo(was, now[Cell(r, width, row, col) := values[Place(r, row, col)]], r, width, values, row, col + 1)
  {
    CellIs(r, width, height, row, col);
    var j := Cell(r, width, row, col);
    var next := now[j := values[Place(r, row, col)]];
    forall i: nat | i < |was|
      ensures next[i] == if Inside(r, width, i) && Before(r, width, i, row, col + 1) then values[Offset(r, width, i)]
              else was[i]
    {
      if Inside(r, width, i) && Row(width, i) == r.y + row && Col(width, i) == r.x + col {
        assert i == Row(width, i) * width + Col(width, i);
      }
    }
  }

  lemma PaintRow(was: seq<nat>, now: seq<nat>, r: Rect, width: nat, values: seq<nat>, row: nat)
    requires 0 < width && |values| == Area(r) && row < r.h
    ensures PaintedTo(was, now, r, width, values, row, r.w) ==> PaintedTo(was, now, r, width, values, row + 1, 0)
  {
  }

  lemma PaintAll(was: seq<nat>, now: seq<nat>, r: Rect, width: nat, values: seq<nat>)
    requires 0 < width && |values| == Area(r) && PaintedTo(was, now, r, width, values, r.h, 0)
    ensures Painted(was, now, r, width, values)
  {
  }

  class Map {
    const w: nat
    const h: nat
    const costQ: array<nat>
    const comboIdx: array<nat>
    const interner: TagInterner
    var dirty: Dirty
    ghost var base: Terrain

    /** The terrain the arrays stand for. */
    ghost function Now(): Terrain
      reads costQ, comboIdx, interner
    {
      Terrain(w, h, costQ[..], TagsOf(comboIdx[..], interner.words))
    }

    /** In every reachable state the arrays are well-formed and the log covers all edits since `base`. */
    ghost predicate Valid()
      reads this, costQ, comboIdx, interner, interner.table
    {
      && 0 < w <= MAX_DIM && 0 < h <= MAX_DIM
      && costQ.Length == comboIdx.Length == w * h && costQ != comboIdx
      && interner.Valid()
      && (forall i | 0 <= i < comboIdx.Length :: comboIdx[i] < |interner.words|)
      && Now().Valid() && base.Valid()
      && Covers(dirty, base, Now())
    }

    /** The terrain as a value. */
    method Snapshot() returns (t: Terrain)
      requires Valid()
      ensures t == Now()
    {
      var tags: seq<Word> := [];
      for i := 0 to comboIdx.Length
        invariant |tags| == i && forall k | 0 <= k < i :: tags[k] == interner.words[comboIdx[k]]
      {
        tags := tags + [interner.words[comboIdx[i]]];
      }
      assert tags == TagsOf(comboIdx[..], interner.words);
      t := Terrain(w, h, costQ[..], tags);
    }

    lemma NowFits()
      requires Valid()
      ensures Now().Valid() && base.Valid() && Now().w == w > 0 && Now().h == h > 0 && Covers(dirty, base, Now())
    {
    }

    /** What profile `p` sees through its folded table, the way the search looks tiles up. */
    ghost function TableView(p: nat): View
      reads this, costQ, comboIdx, interner, interner.table
      requires Valid() && p < |interner.profiles|
    {
      ViewOf(Now(), interner.profiles[p], FoldsOf(comboIdx[..], interner.tables[p]))
    }

    /** Looking a tile up in the folded table is folding its own word: in every reachable state the fast path and the
        specification see the same costs and the same blocked tiles. */
    lemma TableViewIsDirect(p: nat)
      requires Valid() && p < |interner.profiles|
      ensures TableView(p) == Behold(Now(), interner.profiles[p])
    {
      var tags, prof := Now().tags, interner.profiles[p];
      var direct := seq(|tags|, i requires 0 <= i < |tags| => FoldWord(prof, tags[i]));
      forall i | 0 <= i < |tags| ensures FoldsOf(comboIdx[..], interner.tables[p])[i] == direct[i] {
        assert interner.tables[p][comboIdx[i]] == FoldWord(prof, interner.words[comboIdx[i]]);
      }
      assert FoldsOf(comboIdx[..], interner.tables[p]) == direct;
    }

    /** A map of one terrain throughout. */
    constructor (w: nat, h: nat, fillP: real, fillTags: Word, hash: Word -> nat)
      requires 0 < w <= MAX_DIM && 0 < h <= MAX_DIM && PassabilityValid(fillP)
      ensures Valid() && fresh(costQ) && fresh(comboIdx) && fresh(interner) && fresh(interner.table)
      ensures this.w == w && this.h == h && base == Now() && interner.profiles == []
      ensures forall i | 0 <= i < w * h :: Now().cost[i] == PassabilityToQ(fillP) && Now().tags[i] == fillTags
    {
      hide PassabilityToQ, PassabilityValid, CostLogged, BitLogged, TagInterner.Valid;
      this.w, this.h := w, h;
      RowMajor(h - 1, w - 1, h, w);
      costQ := new nat[w * h](_ => PassabilityToQ(fillP));
      comboIdx := new nat[w * h](_ => 0);
      interner := new TagInterner(hash);
      dirty := Dirty([], false);
      new;
      var r := interner.Intern(fillTags);
      PassableCostRange(fillP);
      base := Now();
    }

    /** Rectangle passability setter: all values are checked before any is written. */
    method SetPassabilityRect(r: Rect, p: seq<real>) returns (s: Status)
      requires Valid() && (RectCheck(w, h, r) == Ok ==> |p| == Area(r))
      modifies costQ, this`dirty
      ensures Valid() && base == old(base)
      ensures s == if RectCheck(w, h, r) != Ok then RectCheck(w, h, r)
                   else if forall k | 0 <= k < |p| :: 0.0 <= p[k] <= 1.0 then Ok
                   else InvalidArgument
      ensures s != Ok ==> Now() == old(Now()) && dirty == old(dirty)
      ensures s == Ok ==>
                && Now().tags == old(Now().tags)
                && Painted(old(Now().cost), Now().cost, r, w, Costs(p))
                && EditLogged(old(dirty), old(Now()), Now(), dirty)
                && dirty == Logged(old(dirty), w * h, EditMade(r, old(Now()), Now()))
    {
      hide Logged, Covers, Describes, EditMade;
      s := RectCheck(w, h, r);
      if s != Ok {
        return;
      }
      for k := 0 to |p|
        invariant forall j | 0 <= j < k :: PassabilityValid(p[j])
        invariant Valid() && Now() == old(Now()) && dirty == old(dirty)
      {
        if !PassabilityValid(p[k]) {
          return InvalidArgument;
        }
      }
      ghost var was := Now();
      var changed := PaintCosts(r, p);
      CostsInRange(was, Now(), r, p);
      DescribesCosts(was, Now(), r, changed, Costs(p));
      LoggedCovers(dirty, base, was, Now(), Edit(r, changed, {}));
      dirty := Logged(dirty, w * h, Edit(r, changed, {}));
      CostsAreMade(was, Now(), r, changed);
    }

    /** The writing loops; reports whether any cost changed. */
    method PaintCosts(r: Rect, p: seq<real>) returns (changed: bool)
      requires costQ.Length == w * h && w > 0 && r.x + r.w <= w && r.y + r.h <= h && |p| == Area(r)
      requires forall k | 0 <= k < |p| :: PassabilityValid(p[k])
      modifies costQ
      ensures Painted(old(costQ[..]), costQ[..], r, w, Costs(p))
      ensures changed <==> costQ[..] != old(costQ[..])
    {
      hide PaintedTo, Painted, Area, Cell, Place;
      ghost var was := costQ[..];
      ghost var now := was;
      NothingPainted(was, r, w, Costs(p));
      changed := false;
      for row := 0 to r.h
        invariant costQ[..] == now && PaintedTo(was, now, r, w, Costs(p), row, 0) && (changed <==> now != was)
      {
        for col := 0 to r.w
          invariant costQ[..] == now && PaintedTo(was, now, r, w, Costs(p), row, col) && (changed <==> now != was)
        {
          PaintCell(was, now, r, w, h, Costs(p), row, col);
          var j := Cell(r, w, row, col);
          var q := PassabilityToQ(p[Place(r, row, col)]);
          assert now[j := q][j] == q && now[j] == was[j];
          assert q == now[j] ==> now[j := q] == now;
          changed := changed || costQ[j] != q;
          costQ[j] := q;
          now := now[j := q];
        }
        PaintRow(was, now, r, w, Costs(p), row);
      }
      PaintAll(was, now, r, w, Costs(p));
    }

    /** Rectangle tag setter.  Every word is interned before any tile is written; when the interner overflows on the
        way, all it learned is forgotten and nothing has changed. */
    method SetTagsRect(r: Rect, tags: seq<Word>) returns (s: Status)
      requires Valid() && (RectCheck(w, h, r) == Ok ==> |tags| == Area(r))
      modifies comboIdx, this`dirty, interner, interner.table
      ensures Valid() && base == old(base) && interner.profiles == old(interner.profiles)
      ensures interner.table == old(interner.table) || fresh(interner.table)
      ensures RectCheck(w, h, r) != Ok ==> s == RectCheck(w, h, r)
      ensures RectCheck(w, h, r) == Ok ==>
                s == if |Known(old(interner.words)) + Known(tags)| <= MAX_TAG_COMBOS then Ok else TagCombosExhausted
      ensures s == Ok ==> Known(interner.words) == Known(old(interner.words)) + Known(tags)
      ensures s != Ok ==> Now() == old(Now()) && dirty == old(dirty) && interner.words == old(interner.words)
      ensures s == Ok ==>
                && Now().cost == old(Now().cost)
                && TagsPainted(old(Now().tags), Now().tags, r, w, tags)
                && EditLogged(old(dirty), old(Now()), Now(), dirty)
                && dirty == Logged(old(dirty), w * h, EditMade(r, old(Now()), Now()))
    {
      hide Known, Logged, Covers, Describes, EditMade;
      s := RectCheck(w, h, r);
      if s != Ok {
        return;
      }
      var committed := |interner.words|;
      ghost var was := Now();
      var ok, scratch := InternAll(tags);
      if !ok {
        interner.Rollback(committed);
        assert interner.words == old(interner.words);
        return TagCombosExhausted;
      }
      assert Now() == was;
      ghost var wasIdx := comboIdx[..];
      var bits := PaintTags(r, scratch);
      PaintedWords(wasIdx, comboIdx[..], interner.words, r, w, scratch, tags);
      DescribesTags(was, Now(), r, bits, wasIdx, comboIdx[..], interner.words, scratch);
      LoggedCovers(dirty, base, was, Now(), Edit(r, false, bits));
      dirty := Logged(dirty, w * h, Edit(r, false, bits));
      FlippedIsMade(was, Now(), r, bits, wasIdx, comboIdx[..], interner.words);
    }

    /** Interns every word of the payload; earlier words and their numbers stay put. */
    method InternAll(tags: seq<Word>) returns (ok: bool, scratch: seq<nat>)
      requires interner.Valid()
      modifies interner, interner.table
      ensures interner.Valid() && interner.profiles == old(interner.profiles)
      ensures interner.table == old(interner.table) || fresh(interner.table)
      ensures old(interner.words) <= interner.words
      ensures ok <==> |Known(old(interner.words)) + Known(tags)| <= MAX_TAG_COMBOS
      ensures ok ==> |scratch| == |tags| && Known(interner.words) == Known(old(interner.words)) + Known(tags)
      ensures ok ==> forall k | 0 <= k < |scratch| ::
                scratch[k] < |interner.words| && interner.words[scratch[k]] == tags[k]
    {
      hide TagInterner.Valid, Known, Distinct, NumberOf;
      ok, scratch := true, [];
      NothingYet(interner.words, tags);
      for k := 0 to |tags|
        invariant interner.Valid() && interner.profiles == old(interner.profiles)
                  && old(interner.words) <= interner.words
        invariant interner.table == old(interner.table) || fresh(interner.table)
        invariant |scratch| == k && Known(interner.words) == Known(old(interner.words)) + Known(tags[..k])
        invariant forall j | 0 <= j < k :: scratch[j] < |interner.words| && interner.words[scratch[j]] == tags[j]
      {
        ghost var before := interner.words;
        WordsDistinct();
        var r := interner.Intern(tags[k]);
        if r.Exhausted? {
          NoRoom(before, old(interner.words), tags, k);
          return false, [];
        }
        LearnedOne(before, interner.words, old(interner.words), tags, k);
        scratch := scratch + [r.idx];
      }
      WordsDistinct();
      LearnedAll(interner.words, old(interner.words), tags);
    }

    lemma WordsDistinct()
      requires interner.Valid()
      ensures Distinct(interner.words) && |interner.words| <= MAX_TAG_COMBOS
    {
    }

    /** The writing loops; accumulates exactly the bits that flip. */
    method PaintTags(r: Rect, scratch: seq<nat>) returns (bits: Word)
      requires comboIdx.Length == w * h && w > 0 && r.x + r.w <= w && r.y + r.h <= h && |scratch| == Area(r)
      requires forall i | 0 <= i < comboIdx.Length :: comboIdx[i] < |interner.words|
      requires forall k | 0 <= k < |scratch| :: scratch[k] < |interner.words|
      modifies comboIdx
      ensures Painted(old(comboIdx[..]), comboIdx[..], r, w, scratch)
      ensures bits == Flipped(old(comboIdx[..]), comboIdx[..], interner.words)
    {
      hide PaintedTo, Painted, Area, Flipped, AllBelow, Xor, Cell, Place;
      ghost var was := comboIdx[..];
      ghost var now := was;
      NothingPainted(was, r, w, scratch);
      NothingFlipped(was, interner.words);
      EveryIndexBelow(now, |interner.words|);
      bits := {};
      for row := 0 to r.h
        invariant comboIdx[..] == now && PaintedTo(was, now, r, w, scratch, row, 0)
        invariant bits == Flipped(was, now, interner.words) && AllBelow(now, |interner.words|)
      {
        for col := 0 to r.w
          invariant comboIdx[..] == now && PaintedTo(was, now, r, w, scratch, row, col)
          invariant bits == Flipped(was, now, interner.words) && AllBelow(now, |interner.words|)
        {
          FlipCell(was, now, interner.words, r, w, h, scratch, row, col);
          var j := Cell(r, w, row, col);
          var c := scratch[Place(r, row, col)];
          bits := bits + Xor(interner.words[comboIdx[j]], interner.words[c]);
          comboIdx[j] := c;
          now := now[j := c];
        }
        PaintRow(was, now, r, w, scratch, row);
      }
      PaintAll(was, now, r, w, scratch);
    }
  }

  ghost predicate AllBelow(idx: seq<nat>, k: nat) { forall i | 0 <= i < |idx| :: idx[i] < k }

  lemma EveryIndexBelow(idx: seq<nat>, k: nat)
    requires forall i | 0 <= i < |idx| :: idx[i] < k
    ensures AllBelow(idx, k)
  {
  }

  /** Repainting one cell extends the painted part by it and flips the bits in which the two words differ. */
  lemma FlipCell(was: seq<nat>, now: seq<nat>, words: seq<Word>, r: Rect, width: nat, height: nat, scratch: seq<nat>,
                 row: nat, col: nat)
    requires 0 < width && |was| == width * height && r.x + r.w <= width && r.y + r.h <= height
    requires |scratch| == Area(r) && row < r.h && col < r.w && PaintedTo(was, now, r, width, scratch, row, col)
    requires AllBelow(now, |words|) && forall k | 0 <= k < |scratch| :: scratch[k] < |words|
    ensures var j, k := Cell(r, width, row, col), Place(r, row, col);
            && j < |now| && k < |scratch| && now[j] == was[j] < |words| && scratch[k] < |words|
            && PaintedTo(was, now[j := scratch[k]], r, width, scratch, row, col + 1)
            && AllBelow(now[j := scratch[k]], |words|)
            && Flipped(was, now[j := scratch[k]], words) ==
                 Flipped(was, now, words) + Xor(words[now[j]], words[scratch[k]])
  {
    PaintCell(was, now, r, width, height, scratch, row, col);
    assert |now| == |was|;
    hide PaintedTo, Flipped, Area;
    FlipOne(was, now, words, Cell(r, width, row, col), scratch[Place(r, row, col)]);
  }

  /** The folds behind combo indices. */
  ghost function FoldsOf(idx: seq<nat>, table: seq<Fold>): (f: seq<Fold>)
    ensures |f| == |idx|
  {
    seq(|idx|, i requires 0 <= i < |idx| => if idx[i] < |table| then table[idx[i]] else Fold(MULT_BLOCKED, 0))
  }

  /** Exclusive or of two words. */
  function Xor(a: Word, b: Word): Word { (a - b) + (b - a) }

  /** The bits in which some tile's word differs between two assignments of words to tiles. */
  ghost function Flipped(was: seq<nat>, now: seq<nat>, words: seq<Word>): Word
    requires |was| == |now|
  {
    set b | 0 <= b < 64 && FlipsBit(was, now, words, b)
  }

  ghost predicate FlipsBit(was: seq<nat>, now: seq<nat>, words: seq<Word>, b: nat)
    requires |was| == |now|
  {
    exists i :: 0 <= i < |was| && b in Xor(TagsOf(was, words)[i], TagsOf(now, words)[i])
  }

  lemma NothingFlipped(was: seq<nat>, words: seq<Word>)
    ensures Flipped(was, was, words) == {}
  {
  }

  lemma FlipOne(was: seq<nat>, now: seq<nat>, words: seq<Word>, j: nat, c: nat)
    requires |was| == |now| && j < |now| && now[j] == was[j] && was[j] < |words| && c < |words|
    ensures Flipped(was, now[j := c], words) == Flipped(was, now, words) + Xor(words[was[j]], words[c])
  {
    var next := now[j := c];
    forall b: nat | b < 64
      ensures FlipsBit(was, next, words, b) <==> FlipsBit(was, now, words, b) || b in Xor(words[was[j]], words[c])
    {
      if FlipsBit(was, next, words, b) {
        var i :| 0 <= i < |was| && b in Xor(TagsOf(was, words)[i], TagsOf(next, words)[i]);
        assert i != j ==> b in Xor(TagsOf(was, words)[i], TagsOf(now, words)[i]);
      }
      if FlipsBit(was, now, words, b) {
        var i :| 0 <= i < |was| && b in Xor(TagsOf(was, words)[i], TagsOf(now, words)[i]);
        assert i != j && b in Xor(TagsOf(was, words)[i], TagsOf(next, words)[i]);
      }
      if b in Xor(words[was[j]], words[c]) {
        assert b in Xor(TagsOf(was, words)[j], TagsOf(next, words)[j]);
      }
    }
  }

  /** `now` is `was` with `values` painted into `r`, for words. */
  ghost predicate TagsPainted(was: seq<Word>, now: seq<Word>, r: Rect, width: nat, values: seq<Word>)
    requires width > 0 && |values| == Area(r)
  {
    && |now| == |was|
    && forall i: nat | i < |was| :: now[i] == if Inside(r, width, i) then values[Offset(r, width, i)] else was[i]
  }

  lemma PaintedWords(was: seq<nat>, now: seq<nat>, words: seq<Word>, r: Rect, width: nat, scratch: seq<nat>,
                     tags: seq<Word>)
    requires width > 0 && |scratch| == |tags| == Area(r) && Painted(was, now, r, width, scratch)
    requires forall k | 0 <= k < |tags| :: scratch[k] < |words| && words[scratch[k]] == tags[k]
    ensures TagsPainted(TagsOf(was, words), TagsOf(now, words), r, width, tags)
  {
  }

  /** A tag edit describes what it did: every flipped bit, inside its rectangle. */
  lemma DescribesTags(was: Terrain, now: Terrain, r: Rect, bits: Word, wasIdx: seq<nat>, nowIdx: seq<nat>,
                      words: seq<Word>, scratch: seq<nat>)
    requires was.Valid() && SameSize(was, now) && now.cost == was.cost && |scratch| == Area(r)
    requires |wasIdx| == |nowIdx| && was.tags == TagsOf(wasIdx, words) && now.tags == TagsOf(nowIdx, words)
    requires Painted(wasIdx, nowIdx, r, was.w, scratch) && bits == Flipped(wasIdx, nowIdx, words)
    ensures Describes(Edit(r, false, bits), was, now)
  {
    forall i: nat, b: nat | i < |now.tags| && BitDiffers(was, now, i, b) ensures Inside(r, now.w, i) && b in bits {
      assert b in Xor(TagsOf(wasIdx, words)[i], TagsOf(nowIdx, words)[i]);
      assert FlipsBit(wasIdx, nowIdx, words, b);
    }
  }

  lemma FlippedIsMade(was: Terrain, now: Terrain, r: Rect, bits: Word, wasIdx: seq<nat>, nowIdx: seq<nat>,
                      words: seq<Word>)
    requires was.Valid() && SameSize(was, now) && now.cost == was.cost && |wasIdx| == |nowIdx|
    requires was.tags == TagsOf(wasIdx, words) && now.tags == TagsOf(nowIdx, words)
    requires bits == Flipped(wasIdx, nowIdx, words)
    ensures Edit(r, false, bits) == EditMade(r, was, now)
  {
    forall b: nat | b < 64 ensures FlipsBit(wasIdx, nowIdx, words, b) <==> SomeDiffers(was, now, b) {
      if FlipsBit(wasIdx, nowIdx, words, b) {
        var i :| 0 <= i < |wasIdx| && b in Xor(TagsOf(wasIdx, words)[i], TagsOf(nowIdx, words)[i]);
        assert BitDiffers(was, now, i, b);
      }
    }
  }

  lemma CostsAreMade(was: Terrain, now: Terrain, r: Rect, changed: bool)
    requires SameSize(was, now) && now.tags == was.tags && (changed <==> now.cost != was.cost)
    ensures Edit(r, changed, {}) == EditMade(r, was, now)
  {
    assert forall b: nat :: !SomeDiffers(was, now, b);
  }

  lemma CostsInRange(was: Terrain, now: Terrain, r: Rect, p: seq<real>)
    requires was.Valid() && now.w == was.w && now.h == was.h && now.tags == was.tags && |p| == Area(r)
    requires forall k | 0 <= k < |p| :: PassabilityValid(p[k])
    requires Painted(was.cost, now.cost, r, was.w, Costs(p))
    ensures now.Valid()
  {
    forall i: nat | i < |now.cost| ensures now.cost[i] == 0 || Q_ONE <= now.cost[i] <= Q_TILE_MAX {
      if Inside(r, was.w, i) {
        PassableCostRange(p[Offset(r, was.w, i)]);
      }
    }
  }

  /** A passability edit describes what it did: nothing, or costs inside its rectangle. */
  lemma DescribesCosts(was: Terrain, now: Terrain, r: Rect, changed: bool, values: seq<nat>)
    requires was.Valid() && now.Valid() && now.w == was.w && now.h == was.h && now.tags == was.tags
    requires |values| == Area(r) && Painted(was.cost, now.cost, r, was.w, values)
    requires !changed ==> now.cost == was.cost
    ensures Describes(Edit(r, changed, {}), was, now)
  {
  }

  function Costs(p: seq<real>): (c: seq<nat>)
    requires forall k | 0 <= k < |p| :: PassabilityValid(p[k])
    ensures |c| == |p| && forall k | 0 <= k < |p| :: c[k] == PassabilityToQ(p[k])
  {
    seq(|p|, k requires 0 <= k < |p| => PassabilityToQ(p[k]))
  }

  lemma NothingPainted(was: seq<nat>, r: Rect, width: nat, values: seq<nat>)
    requires 0 < width && |values| == Area(r)
    ensures PaintedTo(was, was, r, width, values, 0, 0)
  {
  }

  /** The tag words behind combo indices. */
  ghost function TagsOf(idx: seq<nat>, words: seq<Word>): (t: seq<Word>)
    ensures |t| == |idx|
  {
    seq(|idx|, i requires 0 <= i < |idx| => if idx[i] < |words| then words[idx[i]] else {})
  }
}
