/** The tag-word interner: distinct words numbered in order of arrival, found through an open-addressed table, with
    every profile's folded weights kept in step. */
module Interner {
  import opened FixedPoint
  import opened Profiles
  import Trails

  const MAX_TAG_COMBOS: nat := 65536

  /** `val` is the word's number plus one; 0 marks an empty slot. */
  datatype Slot = Slot(key: Word, val: nat)

  const EMPTY: Slot := Slot({}, 0)

  /** The `d`-th slot probed from a hash value. */
  function Probe(cap: nat, hash: nat, d: nat): (i: nat)
    requires cap > 0
    ensures i < cap
  {
    (hash + d) % cap
  }

  /** The slot after slot `i`. */
  function Following(cap: nat, i: nat): (j: nat)
    requires cap > 0
    ensures j < cap
  {
    (i + 1) % cap
  }

  /** Probing reaches every slot within `cap` steps. */
  lemma ProbeReaches(cap: nat, hash: nat, i: nat) returns (d: nat)
    requires i < cap
    ensures d < cap && Probe(cap, hash, d) == i
  {
    var h := hash % cap;
    d := if i >= h then i - h else i + cap - h;
    var q := hash / cap;
    assert hash == q * cap + h;
    if i >= h {
      DivisionIsUnique(hash + d, cap, q, i);
    } else {
      assert hash + d == (q + 1) * cap + i;
      DivisionIsUnique(hash + d, cap, q + 1, i);
    }
  }

  lemma ProbeNext(cap: nat, hash: nat, d: nat)
    requires cap > 0
    ensures Following(cap, Probe(cap, hash, d)) == Probe(cap, hash, d + 1)
  {
    var q, r := (hash + d) / cap, (hash + d) % cap;
    assert hash + d == q * cap + r;
    if r + 1 < cap {
      DivisionIsUnique(hash + d + 1, cap, q, r + 1);
      DivisionIsUnique(r + 1, cap, 0, r + 1);
    } else {
      assert hash + d + 1 == (q + 1) * cap + 0;
      DivisionIsUnique(hash + d + 1, cap, q + 1, 0);
      DivisionIsUnique(cap, cap, 1, 0);
    }
  }

  ghost predicate Distinct(words: seq<Word>) {
    forall i, j | 0 <= i < j < |words| :: words[i] != words[j]
  }

  function Known(words: seq<Word>): set<Word> { set x | x in words }

  lemma {:induction false} KnownCount(words: seq<Word>)
    requires Distinct(words)
    ensures |Known(words)| == |words|
  {
    if words != [] {
      var n := |words| - 1;
      KnownCount(words[..n]);
      assert words == words[..n] + [words[n]];
      OneMore(words[..n], words[n]);
    }
  }

  lemma SmallerSet(a: set<Word>, b: set<Word>)
    requires a <= b
    ensures |a| <= |b|
  {
    assert b == a + (b - a);
  }

  /** When a new word of the payload finds the interner full, the whole payload has too many new words. */
  lemma NoRoom(words: seq<Word>, was: seq<Word>, tags: seq<Word>, k: nat)
    requires k < |tags| && Distinct(words) && Known(words) == Known(was) + Known(tags[..k])
    requires tags[k] !in words && |words| >= MAX_TAG_COMBOS
    ensures |Known(was) + Known(tags)| > MAX_TAG_COMBOS
  {
    KnownCount(words);
    assert |Known(words) + {tags[k]}| == |words| + 1;
    forall x | x in tags[..k] ensures x in tags {
    }
    SmallerSet(Known(words) + {tags[k]}, Known(was) + Known(tags));
  }

  lemma LearnedOne(before: seq<Word>, now: seq<Word>, was: seq<Word>, tags: seq<Word>, k: nat)
    requires k < |tags| && Known(before) == Known(was) + Known(tags[..k])
    requires now == if tags[k] in before then before else before + [tags[k]]
    ensures Known(now) == Known(was) + Known(tags[..k + 1])
  {
    OneMore(tags[..k], tags[k]);
    assert tags[..k + 1] == tags[..k] + [tags[k]];
    if tags[k] in before {
      assert tags[k] in Known(before);
    } else {
      OneMore(before, tags[k]);
    }
  }

  lemma OneMore(words: seq<Word>, word: Word)
    ensures Known(words + [word]) == Known(words) + {word}
  {
  }

  lemma NothingYet(words: seq<Word>, tags: seq<Word>)
    ensures Known(words) == Known(words) + Known(tags[..0])
  {
  }

  lemma LearnedAll(words: seq<Word>, was: seq<Word>, tags: seq<Word>)
    requires Distinct(words) && |words| <= MAX_TAG_COMBOS && Known(words) == Known(was) + Known(tags[..|tags|])
    ensures Known(words) == Known(was) + Known(tags) && |Known(was) + Known(tags)| <= MAX_TAG_COMBOS
  {
    assert tags[..|tags|] == tags;
    assert Known(was) + Known(tags) == Known(words);
    KnownCount(words);
  }

  /** Word `j` sits at probe distance `d`, with no empty slot before it. */
  ghost predicate FoundAt(words: seq<Word>, table: seq<Slot>, hash: Word -> nat, j: nat, d: nat)
    requires |table| > 0 && j < |words|
  {
    && d < |table|
    && table[Probe(|table|, hash(words[j]), d)] == Slot(words[j], j + 1)
    && forall e: nat | e < d :: table[Probe(|table|, hash(words[j]), e)].val != 0
  }

  ghost predicate Placed(words: seq<Word>, table: seq<Slot>, hash: Word -> nat, j: nat)
    requires |table| > 0 && j < |words|
  {
    exists d: nat :: FoundAt(words, table, hash, j, d)
  }

  /** The table indexes exactly `words`. */
  ghost predicate Indexes(words: seq<Word>, table: seq<Slot>, hash: Word -> nat) {
    && |table| > 0
    && (forall i: nat | i < |table| && table[i].val != 0 ::
          table[i].val <= |words| && table[i].key == words[table[i].val - 1])
    && (forall i: nat, j: nat | i < j < |table| && table[i].val != 0 :: table[i].val != table[j].val)
    && (forall j: nat | j < |words| :: Placed(words, table, hash, j))
  }

  /** With fewer words than slots some slot is empty, so probing stops. */
  lemma SomeSlotEmpty(words: seq<Word>, table: seq<Slot>, hash: Word -> nat) returns (i: nat)
    requires Indexes(words, table, hash) && |words| < |table|
    ensures i < |table| && table[i].val == 0
  {
    if forall i: nat | i < |table| :: table[i].val != 0 {
      var vals: seq<nat> := seq(|table|, i requires 0 <= i < |table| => table[i].val - 1);
      Trails.Pigeonhole(vals, |words|);
      assert false;
    }
    i :| i < |table| && table[i].val == 0;
  }

  /** An empty slot met before any match proves the word was never interned. */
  lemma EmptySlotMeansNew(words: seq<Word>, table: seq<Slot>, hash: Word -> nat, word: Word, d: nat)
    requires Indexes(words, table, hash) && d < |table|
    requires table[Probe(|table|, hash(word), d)].val == 0
    requires forall e: nat | e < d :: table[Probe(|table|, hash(word), e)].key != word
    ensures word !in words
  {
    forall j: nat | j < |words| ensures words[j] != word {
      assert Placed(words, table, hash, j);
      var k: nat :| FoundAt(words, table, hash, j, k);
    }
  }

  /** Filling the first empty slot on the probe path of a new word keeps the table an index. */
  lemma InsertIndexes(words: seq<Word>, table: seq<Slot>, hash: Word -> nat, word: Word, d: nat)
    requires Indexes(words, table, hash) && d < |table|
    requires table[Probe(|table|, hash(word), d)].val == 0
    requires forall e: nat | e < d :: table[Probe(|table|, hash(word), e)].val != 0
    ensures Indexes(words + [word], table[Probe(|table|, hash(word), d) := Slot(word, |words| + 1)], hash)
  {
    hide Probe;
    var i := Probe(|table|, hash(word), d);
    var w2, t2 := words + [word], table[i := Slot(word, |words| + 1)];
    forall j: nat | j < |w2| ensures Placed(w2, t2, hash, j) {
      if j == |words| {
        assert FoundAt(w2, t2, hash, j, d);
      } else {
        assert Placed(words, table, hash, j);
        var k: nat :| FoundAt(words, table, hash, j, k);
        InsertKeepsFound(words, table, hash, word, i, j, k);
      }
    }
    hide FoundAt, Placed;
  }

  lemma InsertKeepsFound(words: seq<Word>, table: seq<Slot>, hash: Word -> nat, word: Word, i: nat, j: nat, k: nat)
    requires |table| > 0 && i < |table| && table[i].val == 0 && j < |words| && FoundAt(words, table, hash, j, k)
    ensures FoundAt(words + [word], table[i := Slot(word, |words| + 1)], hash, j, k)
  {
  }

  /** The abstract content of a map's interner: the words, and each profile's folded weights for each of them. */
  ghost predicate Folded(words: seq<Word>, profiles: seq<Profile>, tables: seq<seq<Fold>>) {
    && |tables| == |profiles|
    && (forall p | 0 <= p < |profiles| :: Sized(profiles[p]) && |tables[p]| == |words|)
    && (forall p, c | 0 <= p < |profiles| && 0 <= c < |words| :: tables[p][c] == FoldWord(profiles[p], words[c]))
  }

  class TagInterner {
    const hash: Word -> nat
    var words: seq<Word>
    var table: array<Slot>
    var profiles: seq<Profile>
    var tables: seq<seq<Fold>>

    /** In every reachable state the words are distinct, probing finds exactly them, there is room to probe, and each
        table entry is the direct fold of its word. */
    ghost predicate Valid()
      reads this, table
    {
      && |words| <= MAX_TAG_COMBOS && |words| < table.Length
      && Distinct(words) && Indexes(words, table[..], hash)
      && Folded(words, profiles, tables)
    }

    constructor (hash: Word -> nat)
      ensures Valid() && words == [] && profiles == [] && fresh(table)
    {
      this.hash := hash;
      words := [];
      profiles := [];
      tables := [];
      table := new Slot[256](_ => EMPTY);
    }

    /** The number of `word`, interned if new.  A full interner refuses and stays as it is. */
    method Intern(word: Word) returns (r: InternResult)
      requires Valid()
      modifies this`words, this`table, this`tables, table
      ensures Valid() && (table == old(table) || fresh(table))
      ensures r == if word in old(words) then Interned(NumberOf(old(words), word))
                   else if |old(words)| >= MAX_TAG_COMBOS then Exhausted
                   else Interned(|old(words)|)
      ensures words == if word in old(words) || |old(words)| >= MAX_TAG_COMBOS then old(words) else old(words) + [word]
    {
      var found, idx := Lookup(word);
      if found {
        NumberIsUnique(words, word, idx);
        return Interned(idx);
      }
      if |words| >= MAX_TAG_COMBOS {
        return Exhausted;
      }
      if (|words| + 1) * 10 > table.Length * 7 {
        Grow();
      }
      idx := |words|;
      TableInsert(table, hash, words, word);
      words := words + [word];
      FoldNew(word);
      r := Interned(idx);
    }

    /** Probes from the word's hash until its slot or an empty one. */
    method Lookup(word: Word) returns (found: bool, idx: nat)
      requires Valid()
      ensures found <==> word in words
      ensures found ==> idx < |words| && words[idx] == word
    {
      hide Probe, Following, Placed, FoundAt, Folded;
      ghost var e := SomeSlotEmpty(words, table[..], hash);
      ghost var last := ProbeReaches(table.Length, hash(word), e);
      var i := hash(word) % table.Length;
      ghost var d := 0;
      ProbeStart(table.Length, hash(word));
      while table[i].val != 0
        invariant d <= last && i < table.Length && i == Probe(table.Length, hash(word), d)
        invariant forall e: nat | e < d :: table[Probe(table.Length, hash(word), e)].key != word
        decreases last - d
      {
        if table[i].key == word {
          return true, table[i].val - 1;
        }
        ProbeNext(table.Length, hash(word), d);
        i := Following(table.Length, i);
        d := d + 1;
      }
      EmptySlotMeansNew(words, table[..], hash, word, d);
      found, idx := false, 0;
    }

    /** Twice the slots, refilled from the words. */
    method Grow()
      requires Valid()
      modifies this`table
      ensures Valid() && fresh(table) && table.Length == 2 * old(table.Length)
    {
      var bigger := new Slot[table.Length * 2](_ => EMPTY);
      Refill(bigger, hash, words);
      table := bigger;
    }

    /** Folds the newest word for every profile. */
    method FoldNew(word: Word)
      requires |words| > 0 && words[|words| - 1] == word && Folded(words[..|words| - 1], profiles, tables)
      modifies this`tables
      ensures Folded(words, profiles, tables)
    {
      var grown: seq<seq<Fold>> := [];
      for p := 0 to |profiles|
        invariant |grown| == p && tables == old(tables)
        invariant forall k | 0 <= k < p :: grown[k] == tables[k] + [FoldWord(profiles[k], word)]
      {
        var f := FoldCombo(profiles[p], word);
        grown := grown + [tables[p] + [f]];
      }
      tables := grown;
    }

    /** Forgets every word past the first `committed`: what a failed setter leaves behind is what it found. */
    method Rollback(committed: nat)
      requires Valid() && committed <= |words|
      modifies this`words, this`tables, table
      ensures Valid() && words == old(words)[..committed]
    {
      words := words[..committed];
      var kept: seq<seq<Fold>> := [];
      for p := 0 to |tables|
        invariant words == old(words)[..committed] && tables == old(tables)
        invariant |kept| == p && forall k | 0 <= k < p :: kept[k] == tables[k][..committed]
      {
        kept := kept + [tables[p][..committed]];
      }
      tables := kept;
      for i := 0 to table.Length
        invariant forall k | 0 <= k < i :: table[k] == EMPTY
        modifies table
      {
        table[i] := EMPTY;
      }
      Refill(table, hash, words);
    }

    /** Adds a registered profile, folding every interned word for it. */
    method AddProfile(p: Profile)
      requires Valid() && Sized(p)
      modifies this`profiles, this`tables
      ensures Valid() && profiles == old(profiles) + [p]
    {
      var t: seq<Fold> := [];
      for c := 0 to |words|
        invariant profiles == old(profiles) && tables == old(tables)
        invariant |t| == c && forall k | 0 <= k < c :: t[k] == FoldWord(p, words[k])
      {
        var f := FoldCombo(p, words[c]);
        t := t + [f];
      }
      profiles := profiles + [p];
      tables := tables + [t];
    }
  }

  datatype InternResult = Interned(idx: nat) | Exhausted

  function NumberOf(words: seq<Word>, word: Word): (j: nat)
    requires word in words
    ensures j < |words| && words[j] == word
  {
    if words[|words| - 1] == word then |words| - 1 else NumberOf(words[..|words| - 1], word)
  }

  lemma NumberIsUnique(words: seq<Word>, word: Word, j: nat)
    requires Distinct(words) && j < |words| && words[j] == word
    ensures word in words && NumberOf(words, word) == j
  {
  }

  lemma ProbeStart(cap: nat, hash: nat)
    requires cap > 0
    ensures Probe(cap, hash, 0) == hash % cap
  {
  }

  /** Puts a new word into the first empty slot of its probe path. */
  method TableInsert(t: array<Slot>, hash: Word -> nat, words: seq<Word>, word: Word)
    requires Indexes(words, t[..], hash) && |words| < t.Length
    modifies t
    ensures Indexes(words + [word], t[..], hash)
  {
    hide Probe, Placed, FoundAt, Indexes;
    ghost var e := SomeSlotEmpty(words, t[..], hash);
    ghost var last := ProbeReaches(t.Length, hash(word), e);
    var i := hash(word) % t.Length;
    ghost var d := 0;
    ProbeStart(t.Length, hash(word));
    while t[i].val != 0
      invariant t[..] == old(t[..])
      invariant d <= last && i < t.Length && i == Probe(t.Length, hash(word), d)
      invariant forall e: nat | e < d :: t[Probe(t.Length, hash(word), e)].val != 0
      decreases last - d
    {
      ProbeNext(t.Length, hash(word), d);
      i := Following(t.Length, i);
      d := d + 1;
    }
    InsertIndexes(words, t[..], hash, word, d);
    ghost var was := t[..];
    t[i] := Slot(word, |words| + 1);
    assert t[..] == was[i := Slot(word, |words| + 1)];
  }

  /** Inserts every word into an empty table. */
  method Refill(t: array<Slot>, hash: Word -> nat, words: seq<Word>)
    requires |words| < t.Length && forall i | 0 <= i < t.Length :: t[i] == EMPTY
    modifies t
    ensures Indexes(words, t[..], hash)
  {
    assert Indexes([], t[..], hash);
    assert words[..0] == [];
    hide Indexes;
    for i := 0 to |words|
      invariant Indexes(words[..i], t[..], hash)
    {
      TableInsert(t, hash, words[..i], words[i]);
      assert words[..i] + [words[i]] == words[..i + 1];
    }
    assert words[..|words|] == words;
  }
}
