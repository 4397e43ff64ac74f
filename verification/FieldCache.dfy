/** The cache of finished goal fields: least recently used last, changed during a call only in ways that can be taken
    back, and settled when the call commits or rolls back. */
module FieldCache {
  import opened Recency

  const BUCKETS: nat := 256

  /** Tile indices stay below 2^31; goal-set numbers get the high bit. */
  function HashKey(k: Key): nat { if k.set_ != 0 then 0x8000_0000 + k.set_ else k.goal }

  /** A field as it was before the call touched or pinned it. */
  function Calm(f: CachedField): CachedField { f.(pinned := false, touch := 0) }

  /** A field as it is once the call has committed. */
  function Landed(f: CachedField): CachedField { f.(pinned := false, newInCall := false, touch := 0) }

  /** The fields that were there before the call, as they were then. */
  ghost function Olds(l: seq<CachedField>): seq<CachedField> {
    if l == [] then [] else if l[0].newInCall then Olds(l[1..]) else [Calm(l[0])] + Olds(l[1..])
  }

  /** A field made in this call may be given up again once its wave is over. */
  predicate Evictable(f: CachedField) { !f.pinned && f.newInCall }

  ghost function Kept(l: seq<CachedField>): seq<CachedField> {
    if l == [] then [] else if Evictable(l[0]) then Kept(l[1..]) else [l[0]] + Kept(l[1..])
  }

  /** What the end of a wave leaves: finished fields, unpinned. */
  ghost function Ended(l: seq<CachedField>): seq<CachedField> {
    if l == [] then [] else if l[0].ok then [l[0].(pinned := false)] + Ended(l[1..]) else Ended(l[1..])
  }

  /** `now` is what evicting from the tail of `was`, as little as possible, leaves room with. */
  ghost predicate MadeRoom(was: seq<CachedField>, now: seq<CachedField>, limit: int) {
    exists i | 0 <= i <= |was| :: EvictedTo(was, now, limit, i)
  }

  ghost predicate EvictedTo(was: seq<CachedField>, now: seq<CachedField>, limit: int, i: nat)
    requires i <= |was|
  {
    && now == was[..i] + Kept(was[i..])
    && (i == 0 || Total(now) <= limit)
    && (i < |was| ==> Total(was[..i + 1] + Kept(was[i + 1..])) > limit)
  }

  /** `now` is the longest prefix of `was` within `limit`. */
  ghost predicate Trimmed(was: seq<CachedField>, now: seq<CachedField>, limit: nat) {
    && now <= was && Total(now) <= limit
    && (now == was || Total(was[..|now| + 1]) > limit)
  }

  ghost function LandedSet(l: seq<CachedField>): set<CachedField> { set f | f in l :: Landed(f) }

  /** `now` holds the finished fields of `was`, settled, in the order a cache that moves every entry to the front the
      moment it is asked for would have them in, as many of the first as the limit admits. */
  ghost predicate Committed(was: seq<CachedField>, asked: seq<Key>, now: seq<CachedField>, limit: nat) {
    exists all: seq<CachedField> ::
      && Keys(all) == Only(asked, KeySet(Ended(was)))
      && (set f | f in all) == LandedSet(Ended(was))
      && Trimmed(all, now, limit)
  }

  // ---------- lists ----------

  lemma {:induction false} KeptTail(l: seq<CachedField>, i: nat)
    requires i < |l|
    ensures Kept(l[i..]) == (if Evictable(l[i]) then [] else [l[i]]) + Kept(l[i + 1..])
  {
    assert l[i..][1..] == l[i + 1..];
  }

  lemma {:induction false} KeptElements(l: seq<CachedField>)
    ensures forall f :: f in Kept(l) <==> f in l && !Evictable(f)
  {
    if l != [] {
      KeptElements(l[1..]);
      assert l == [l[0]] + l[1..];
    }
  }

  lemma KeptCons(f: CachedField, l: seq<CachedField>)
    ensures Kept([f] + l) == if Evictable(f) then Kept(l) else [f] + Kept(l)
  {
    assert ([f] + l)[1..] == l;
  }

  lemma {:induction false} KeptConcat(a: seq<CachedField>, b: seq<CachedField>)
    ensures Kept(a + b) == Kept(a) + Kept(b)
  {
    hide Kept;
    if a == [] {
      assert a + b == b && [] + Kept(b) == Kept(b);
      KeptNone();
    } else {
      KeptConcat(a[1..], b);
      KeptCons(a[0], a[1..]);
      KeptCons(a[0], a[1..] + b);
      assert a == [a[0]] + a[1..] && a + b == [a[0]] + (a[1..] + b);
    }
  }

  lemma OldsCons(f: CachedField, l: seq<CachedField>)
    ensures Olds([f] + l) == if f.newInCall then Olds(l) else [Calm(f)] + Olds(l)
  {
    assert ([f] + l)[1..] == l;
  }

  lemma {:induction false} OldsConcat(a: seq<CachedField>, b: seq<CachedField>)
    ensures Olds(a + b) == Olds(a) + Olds(b)
  {
    hide Olds;
    if a == [] {
      assert a + b == b && [] + Olds(b) == Olds(b);
      OldsNone();
    } else {
      OldsConcat(a[1..], b);
      OldsCons(a[0], a[1..]);
      OldsCons(a[0], a[1..] + b);
      assert a == [a[0]] + a[1..] && a + b == [a[0]] + (a[1..] + b);
    }
  }

  lemma SplitAt(l: seq<CachedField>, i: nat)
    requires i < |l|
    ensures l == l[..i] + ([l[i]] + l[i + 1..])
  {
  }

  /** Taking out a field made in this call leaves the older ones alone. */
  lemma OldsRemove(l: seq<CachedField>, i: nat)
    requires i < |l| && l[i].newInCall
    ensures Olds(l[..i] + l[i + 1..]) == Olds(l)
  {
    SplitAt(l, i);
    OldsConcat(l[..i], [l[i]] + l[i + 1..]);
    OldsConcat([l[i]], l[i + 1..]);
    OldsConcat(l[..i], l[i + 1..]);
  }

  lemma OldsUpdate(l: seq<CachedField>, i: nat, f: CachedField)
    requires i < |l| && f.newInCall == l[i].newInCall && (!f.newInCall ==> Calm(f) == Calm(l[i]))
    ensures Olds(l[i := f]) == Olds(l)
  {
    SplitAt(l, i);
    assert l[i := f] == l[..i] + ([f] + l[i + 1..]);
    OldsConcat(l[..i], [l[i]] + l[i + 1..]);
    OldsConcat(l[..i], [f] + l[i + 1..]);
    OldsConcat([l[i]], l[i + 1..]);
    OldsConcat([f], l[i + 1..]);
  }

  lemma KeySetRemove(l: seq<CachedField>, i: nat)
    requires DistinctKeys(l) && i < |l|
    ensures KeySet(l[..i] + l[i + 1..]) == KeySet(l) - {l[i].key}
  {
    DistinctAt(l, i);
    SplitAt(l, i);
  }

  lemma EndedCons(f: CachedField, l: seq<CachedField>)
    ensures Ended([f] + l) == if f.ok then [f.(pinned := false)] + Ended(l) else Ended(l)
  {
    assert ([f] + l)[1..] == l;
  }

  lemma {:induction false} EndedConcat(a: seq<CachedField>, b: seq<CachedField>)
    ensures Ended(a + b) == Ended(a) + Ended(b)
  {
    hide Ended;
    if a == [] {
      assert a + b == b && [] + Ended(b) == Ended(b);
      EndedNone();
    } else {
      EndedConcat(a[1..], b);
      EndedCons(a[0], a[1..]);
      EndedCons(a[0], a[1..] + b);
      assert a == [a[0]] + a[1..] && a + b == [a[0]] + (a[1..] + b);
    }
  }

  lemma {:induction false} EndedElements(l: seq<CachedField>)
    ensures forall x :: x in Ended(l) <==> exists f | f in l && f.ok :: x == f.(pinned := false)
  {
    if l != [] {
      EndedElements(l[1..]);
      assert l == [l[0]] + l[1..];
    }
  }

  // ---------- chains ----------

  ghost predicate NoRepeats(s: seq<Key>) {
    forall i, j | 0 <= i < j < |s| :: s[i] != s[j]
  }

  lemma DropFrom(s: seq<Key>, j: nat)
    requires NoRepeats(s) && j < |s|
    ensures NoRepeats(s[..j] + s[j + 1..])
    ensures forall k :: k in s[..j] + s[j + 1..] <==> k in s && k != s[j]
  {
    var t := s[..j] + s[j + 1..];
    forall k | k in s && k != s[j] ensures k in t {
      var i :| 0 <= i < |s| && s[i] == k;
      assert t[if i < j then i else i - 1] == k;
    }
  }

  method IndexIn(s: seq<Key>, k: Key) returns (j: nat)
    ensures j <= |s| && (j < |s| <==> k in s) && (j < |s| ==> s[j] == k)
  {
    j := 0;
    while j < |s| && s[j] != k
      invariant j <= |s| && forall i | 0 <= i < j :: s[i] != k
    {
      j := j + 1;
    }
  }

  class Cache {
    const one: nat
    const working: nat
    const budget: nat
    const hash: (nat, nat) -> nat
    var lru: seq<CachedField>
    var buckets: seq<seq<Key>>
    var bytes: nat
    var clock: nat
    /** The fields as the call found them. */
    ghost var before: seq<CachedField>
    /** Every key asked for, latest first, nothing ever forgotten. */
    ghost var asked: seq<Key>

    /** What committed fields may occupy: one field's room is kept free, so that a later call can build before it has
        to give anything up. */
    function Retention(): (r: nat)
      ensures r <= working && r <= budget && (one <= working ==> r + one <= working)
      ensures r == budget || r + one == working || (working < one && r == 0)
    {
      var r := if working > one then working - one else 0;
      if r > budget then budget else r
    }

    /** These fields may be kept: within the configured budget, and with room for one more in working memory. */
    ghost predicate Keepable(l: seq<CachedField>) {
      Total(l) <= budget && (Total(l) + one <= working || Total(l) == 0)
    }

    /** What a trim or a commit leaves of a list is as much of it from the front as may be kept. */
    lemma LongestKeepable(all: seq<CachedField>, now: seq<CachedField>)
      ensures Trimmed(all, now, Retention()) <==>
                now <= all && Keepable(now) && (now == all || !Keepable(all[..|now| + 1]))
    {
      hide Total;
    }

    function Bucket(k: Key): (b: nat)
      ensures b < BUCKETS
    {
      hash(HashKey(k), k.profile) % BUCKETS
    }

    /** The list, the chains and the byte count describe the same fields. */
    ghost predicate Linked()
      reads this`lru, this`buckets, this`bytes, this`clock
    {
      && DistinctKeys(lru) && DistinctTouches(lru)
      && (forall f | f in lru :: f.touch <= clock)
      && bytes == Total(lru)
      && |buckets| == BUCKETS
      && (forall b | 0 <= b < BUCKETS :: NoRepeats(buckets[b]))
      && (forall b, k | 0 <= b < BUCKETS :: k in buckets[b] <==> k in KeySet(lru) && Bucket(k) == b)
    }

    /** What holds throughout a call. */
    ghost predicate Valid()
      reads this
    {
      && Linked() && bytes <= working
      && Order(lru) == Only(asked, KeySet(lru))
      && Olds(lru) == before && Total(before) <= Retention()
      && (forall f | f in lru && !f.newInCall :: f.ok)
    }

    /** What holds between calls. */
    ghost predicate Idle()
      reads this
    {
      && Valid() && lru == before && asked == Keys(lru)
      && (forall f | f in lru :: f.ok && f == Landed(f))
    }

    constructor (one: nat, working: nat, budget: nat, hash: (nat, nat) -> nat)
      ensures Idle() && lru == []
      ensures this.one == one && this.working == working && this.budget == budget
    {
      this.one, this.working, this.budget, this.hash := one, working, budget, hash;
      lru, buckets, bytes, clock := [], seq(BUCKETS, _ => []), 0, 0;
      before, asked := [], [];
    }

    /** Unlinks one field from its chain and from the list. */
    method Destroy(i: nat)
      requires Linked() && i < |lru|
      modifies this`lru, this`buckets, this`bytes
      ensures Linked() && lru == old(lru)[..i] + old(lru)[i + 1..]
      ensures lru == Without(old(lru), old(lru)[i].key)
      ensures KeySet(lru) == KeySet(old(lru)) - {old(lru)[i].key}
      ensures bytes == old(bytes) - old(lru)[i].bytes
    {
      hide NoRepeats, DistinctKeys, DistinctTouches, Without, Total;
      var f := lru[i];
      RemoveAt(lru, i);
      KeySetRemove(lru, i);
      WithoutDistinct(lru, f.key);
      WithoutElements(lru, f.key);
      var b := Bucket(f.key);
      var j := IndexIn(buckets[b], f.key);
      assert f.key in KeySet(lru);
      DropFrom(buckets[b], j);
      buckets := buckets[b := buckets[b][..j] + buckets[b][j + 1..]];
      lru := lru[..i] + lru[i + 1..];
      bytes := bytes - f.bytes;
    }

    /** Giving up a field made in this call keeps everything said about the call. */
    method GiveUp(i: nat)
      requires Valid() && i < |lru| && lru[i].newInCall
      modifies this`lru, this`buckets, this`bytes
      ensures Valid() && lru == old(lru)[..i] + old(lru)[i + 1..]
      ensures bytes == old(bytes) - old(lru)[i].bytes
    {
      hide Linked, Olds, Order, Only, KeySet;
      OldsRemove(lru, i);
      WithoutOrder(lru, lru[i].key);
      OnlyExcept(asked, KeySet(lru), lru[i].key);
      Destroy(i);
    }

    /** Evicts from the tail, among the fields made in this call, until `extra` more bytes fit. */
    method MakeRoom(extra: nat) returns (ok: bool)
      requires Valid()
      modifies this`lru, this`buckets, this`bytes
      ensures Valid() && ok == (bytes + extra <= working)
      ensures MadeRoom(old(lru), lru, working - extra)
      ensures Kept(lru) == Kept(old(lru))
      ensures !ok ==> lru == Kept(lru)
    {
      hide Valid, Kept, Total;
      ghost var was := lru;
      var i := |lru|;
      BytesAre();
      KeptNone();
      assert was[i..] == [] && was == was[..i] + Kept(was[i..]);
      while bytes + extra > working && i > 0
        invariant Valid() && i <= |was| && lru == was[..i] + Kept(was[i..])
        invariant bytes == Total(lru)
        invariant i < |was| ==> Total(was[..i + 1] + Kept(was[i + 1..])) + extra > working
      {
        i := i - 1;
        KeptTail(was, i);
        assert was[..i + 1] == was[..i] + [was[i]];
        assert lru[i] == was[i];
        if Evictable(lru[i]) {
          GiveUp(i);
          BytesAre();
        }
      }
      ok := bytes + extra <= working;
      assert EvictedTo(was, lru, working - extra, i);
      KeptTwice(was[i..]);
      KeptConcat(was[..i], Kept(was[i..]));
      KeptConcat(was[..i], was[i..]);
      assert was == was[..i] + was[i..];
    }

    lemma BytesAre()
      requires Valid()
      ensures bytes == Total(lru)
    {
    }

    /** The field for a key, if cached: pinned for this wave and moved to the front once the call commits. */
    method Lookup(k: Key) returns (hit: bool)
      requires Valid()
      modifies this`lru, this`clock, this`asked
      ensures Valid() && hit == (k in KeySet(old(lru)))
      ensures hit ==> lru == Touched(old(lru), k, clock) && asked == ToFront(old(asked), k)
      ensures !hit ==> lru == old(lru) && asked == old(asked)
      ensures bytes == old(bytes) && KeySet(lru) == KeySet(old(lru))
    {
      hide Valid, Touched, ToFront, KeySet, Bucket;
      ChainTells(k);
      var b := Bucket(k);
      var j := IndexIn(buckets[b], k);
      hit := j < |buckets[b]|;
      if hit {
        var i := PositionOf(lru, k);
        DistinctInValid();
        TouchedAt(lru, i, clock + 1);
        Touch(i);
      }
    }

    lemma DistinctInValid()
      requires Valid()
      ensures DistinctKeys(lru)
    {
    }

    /** A key is cached exactly when its chain holds it. */
    lemma ChainTells(k: Key)
      requires Valid()
      ensures Bucket(k) < |buckets| && (k in buckets[Bucket(k)] <==> k in KeySet(lru))
    {
    }

    /** Pins a field and notes the touch; the field stays where it is until the call commits. */
    method Touch(i: nat)
      requires Valid() && i < |lru|
      modifies this`lru, this`clock, this`asked
      ensures Valid() && clock == old(clock) + 1
      ensures lru == old(lru)[i := old(lru)[i].(pinned := true, touch := clock)]
      ensures asked == ToFront(old(asked), old(lru)[i].key) && KeySet(lru) == KeySet(old(lru))
    {
      hide DistinctKeys, DistinctTouches, Total, Order, Only, Olds, ToFront, NoRepeats;
      var f := lru[i].(pinned := true, touch := clock + 1);
      TouchOrder(lru, i, clock + 1);
      UpdateAt(lru, i, f);
      OldsUpdate(lru, i, f);
      FreshTouch(lru, i, f);
      OnlyToFront(asked, KeySet(lru), f.key);
      clock := clock + 1;
      lru := lru[i := f];
      asked := ToFront(asked, f.key);
    }

    /** Makes room for a new field and puts its shell at the front; refuses when what may not be evicted leaves none. */
    method Insert(k: Key, epoch: nat) returns (ok: bool)
      requires Valid() && k !in KeySet(lru)
      modifies this`lru, this`buckets, this`bytes, this`clock, this`asked
      ensures Valid() && ok == (Total(Kept(old(lru))) + one <= working)
      ensures ok ==> lru != [] && lru[0] == CachedField(k, epoch, [], [], one, false, true, true, clock)
      ensures ok ==> MadeRoom(old(lru), lru[1..], working - one) && asked == ToFront(old(asked), k)
      ensures Kept(lru) == (if ok then [lru[0]] else []) + Kept(old(lru))
      ensures !ok ==> asked == old(asked)
      ensures !ok ==> lru == old(lru) || lru == Kept(old(lru))
    {
      hide Total, Order, Only, Olds, Linked, ToFront, Kept, MadeRoom;
      KeptIsSmaller(lru);
      ghost var was := lru;
      if one > working {
        return false;
      }
      ok := MakeRoom(one);
      BytesAre();
      if !ok {
        return;
      }
      KeptIsSmaller(lru);
      TouchesBelow();
      var f := CachedField(k, epoch, [], [], one, false, true, true, clock + 1);
      RoomKeys(was, lru, working - one);
      PushOrder(lru, f);
      OnlyPush(asked, KeySet(lru), k);
      KeptConcat([f], lru);
      KeptOne(f);
      assert Olds([f] + lru) == Olds(lru) by { OldsCons(f, lru); }
      Link(f);
      asked := ToFront(asked, k);
      assert lru[1..] == lru[|[f]|..];
    }

    lemma TouchesBelow()
      requires Linked()
      ensures forall f | f in lru :: f.touch <= clock
    {
    }

    /** Links a new shell at the front of the list and of its chain. */
    method Link(f: CachedField)
      requires Linked() && f.key !in KeySet(lru) && f.touch == clock + 1
      modifies this`lru, this`buckets, this`bytes, this`clock
      ensures Linked() && lru == [f] + old(lru) && bytes == old(bytes) + f.bytes && clock == f.touch
      ensures KeySet(lru) == KeySet(old(lru)) + {f.key}
    {
      hide Total, DistinctKeys, DistinctTouches;
      TotalConcat([f], lru);
      TotalOne(f);
      PrependKeys(f, lru);
      var b := Bucket(f.key);
      PrependChain(buckets[b], f.key);
      buckets := buckets[b := [f.key] + buckets[b]];
      lru := [f] + lru;
      bytes := bytes + f.bytes;
      clock := clock + 1;
    }

    /** Changes flags or contents of one field, as tasks and the end of a wave do. */
    method Mark(i: nat, f: CachedField)
      requires Valid() && i < |lru| && f == lru[i].(dist := f.dist, next := f.next, ok := f.ok, pinned := f.pinned)
      requires !f.newInCall ==> f == lru[i].(pinned := f.pinned)
      modifies this`lru
      ensures Valid() && lru == old(lru)[i := f] && KeySet(lru) == KeySet(old(lru))
    {
      hide DistinctKeys, DistinctTouches, Total, Order, Only, Olds, NoRepeats;
      UpdateAt(lru, i, f);
      OldsUpdate(lru, i, f);
      SameTouches(lru, lru[i := f]);
      lru := lru[i := f];
    }

    /** A task of the wave has filled in a field's arrays. */
    method Complete(k: Key, dist: seq<nat>, next: seq<nat>)
      requires Valid() && k in KeySet(lru) && forall f | f in lru && f.key == k :: f.newInCall
      modifies this`lru
      ensures Valid() && |lru| == |old(lru)| && KeySet(lru) == KeySet(old(lru))
      ensures forall i | 0 <= i < |lru| :: lru[i] ==
                if old(lru)[i].key == k then old(lru)[i].(dist := dist, next := next, ok := true) else old(lru)[i]
    {
      hide Valid;
      DistinctInValid();
      var i := PositionOf(lru, k);
      DistinctPositions(lru, i);
      Mark(i, lru[i].(dist := dist, next := next, ok := true));
    }

    /** Ends a wave: everything is unpinned, and fields left unfinished are given up. */
    method EndWave()
      requires Valid()
      modifies this`lru, this`buckets, this`bytes
      ensures Valid() && lru == Ended(old(lru))
    {
      hide Valid, Ended, EndedTo;
      ghost var was := lru;
      var i := 0;
      ghost var n := 0;
      EndStarts(was);
      while i < |lru|
        invariant Valid() && n <= |was| && EndedTo(was, n, lru, i)
        decreases |lru| - i
      {
        EndOne(was, n, lru, i);
        Mark(i, lru[i].(pinned := false));
        if !lru[i].ok {
          UnfinishedIsNew(i);
          GiveUp(i);
        } else {
          i := i + 1;
        }
        n := n + 1;
      }
      EndDone(was, n, lru, i);
    }

    lemma UnfinishedIsNew(i: nat)
      requires Valid() && i < |lru| && !lru[i].ok
      ensures lru[i].newInCall
    {
    }

    /** Evicts unpinned fields from the tail until what is left may be retained. */
    method Trim()
      requires Linked()
      modifies this`lru, this`buckets, this`bytes
      ensures Linked()
      ensures (forall f | f in old(lru) :: !f.pinned) ==> Trimmed(old(lru), lru, Retention())
      ensures forall f | f in old(lru) && f.pinned :: f in lru
    {
      hide Linked, Total, Trimming;
      ghost var was := lru;
      var retention := Retention();
      var i: nat := |lru|;
      BytesLinked();
      TrimStarts(lru, retention);
      while bytes > retention && i > 0
        invariant Linked() && i <= |lru| && bytes == Total(lru) && Trimming(was, lru, i, retention)
      {
        i := i - 1;
        TrimStep(was, lru, i, retention);
        if !lru[i].pinned {
          Destroy(i);
          BytesLinked();
        }
      }
      TrimEnds(was, lru, i, retention);
    }

    lemma BytesLinked()
      requires Linked()
      ensures bytes == Total(lru)
    {
    }

    /** Undoes the call: exactly the fields it found are left, as they were and in the order they had. */
    method Rollback()
      requires Valid()
      modifies this
      ensures Idle() && lru == old(before)
    {
      EndWave();
      EndedUnpinned(old(lru));
      OldsElements(lru);
      ghost var kept := before;
      UndoTouches();
      Trim();
      TrimmedFits(kept, lru, Retention());
      BytesLinked();
      Settle();
    }

    /** With nothing of the call left, the cache is as it is between calls. */
    ghost method Settle()
      requires Linked() && bytes <= Retention() && forall f | f in lru :: f.ok && f == Landed(f)
      modifies this`before, this`asked
      ensures Idle()
    {
      BytesLinked();
      before, asked := lru, Keys(lru);
      AllSpent(lru);
      OldsOfIdle(lru);
      OnlyKeys(lru);
    }

    /** Takes back every touch and drops every field made in this call. */
    method UndoTouches()
      requires Linked() && forall f | f in lru :: !f.pinned
      modifies this`lru, this`buckets, this`bytes
      ensures Linked() && lru == Olds(old(lru))
    {
      hide Linked, Olds, Total, UndoneTo;
      ghost var was := lru;
      var i := 0;
      ghost var n := 0;
      UndoStarts(was);
      while i < |lru|
        invariant Linked() && n <= |was| && UndoneTo(was, n, lru, i)
        decreases |lru| - i
      {
        UndoOne(was, n, lru, i);
        SpendTouch(i);
        if lru[i].newInCall {
          Destroy(i);
        } else {
          i := i + 1;
        }
        n := n + 1;
      }
      UndoDone(was, n, lru, i);
    }

    method SpendTouch(i: nat)
      requires Linked() && i < |lru|
      modifies this`lru
      ensures Linked() && lru == old(lru)[i := old(lru)[i].(touch := 0)] && KeySet(lru) == KeySet(old(lru))
    {
      hide DistinctKeys, Total, NoRepeats, DistinctTouches;
      UpdateAt(lru, i, lru[i].(touch := 0));
      SpentDistinct(lru, i);
      lru := lru[i := lru[i].(touch := 0)];
    }

    /** Makes the call's changes last: touches are applied in the order they happened, then the cache is trimmed. */
    method Commit()
      requires Valid()
      modifies this
      ensures Idle() && Committed(old(lru), old(asked), lru, Retention()) && Keepable(lru)
    {
      hide Linked, Order, LandedSet, Trimmed;
      EndWave();
      EndedUnpinned(old(lru));
      ghost var was := lru;
      ApplyTouches(Order(lru));
      ghost var all := lru;
      Trim();
      SetOfLanded(all);
      CommittedBy(old(lru), old(asked), all, lru, Retention());
      BytesLinked();
      Settle();
    }

    /** Moves touched fields to the front one by one, the one touched longest ago first. */
    method ApplyTouches(ghost order: seq<Key>)
      requires Linked() && Order(lru) == order
      modifies this`lru
      ensures Linked() && Keys(lru) == order && LandedSet(lru) == LandedSet(old(lru))
      ensures (forall f | f in old(lru) :: f.ok && !f.pinned) ==> forall f | f in lru :: f.ok && f == Landed(f)
    {
      hide Linked, Order, LandedSet;
      ghost var was := lru;
      while true
        invariant Linked() && Order(lru) == order && LandedSet(lru) == LandedSet(was)
        invariant (forall f | f in was :: f.ok && !f.pinned) ==> forall f | f in lru :: f.ok && !f.pinned
        decreases |Ranked(lru)|
      {
        var found, i := OldestTouched();
        if !found {
          break;
        }
        MoveToFront(i);
      }
      AllSpent(lru);
    }

    /** Scans for the field touched longest ago; on the way, fields stop being new. */
    method OldestTouched() returns (found: bool, oldest: nat)
      requires Linked()
      modifies this`lru
      ensures Linked() && SameUse(lru, old(lru)) && LandedSet(lru) == LandedSet(old(lru))
      ensures Order(lru) == Order(old(lru)) && |Ranked(lru)| == |Ranked(old(lru))|
      ensures forall i | 0 <= i < |lru| :: lru[i] == old(lru)[i].(newInCall := false)
      ensures found ==> oldest < |lru| && lru[oldest].touch != 0
      ensures found ==> forall f | f in lru && f.touch != 0 :: lru[oldest].touch <= f.touch
      ensures !found ==> forall f | f in lru :: f.touch == 0
    {
      hide Order, Ranked, Linked, LandedSet;
      ghost var was := lru;
      found, oldest := false, 0;
      for i := 0 to |lru|
        invariant Linked() && |lru| == |was|
        invariant forall j | 0 <= j < |lru| :: lru[j] == if j < i then was[j].(newInCall := false) else was[j]
        invariant found ==> oldest < i && lru[oldest].touch != 0
        invariant found ==> forall j | 0 <= j < i && lru[j].touch != 0 :: lru[oldest].touch <= lru[j].touch
        invariant !found ==> forall j | 0 <= j < i :: lru[j].touch == 0
      {
        Age(i);
        if lru[i].touch != 0 && (!found || lru[i].touch < lru[oldest].touch) {
          found, oldest := true, i;
        }
      }
      SameOrder(was, lru);
      SameRanks(was, lru);
      AgedSame(was, lru);
    }

    method Age(i: nat)
      requires Linked() && i < |lru|
      modifies this`lru
      ensures Linked() && lru == old(lru)[i := old(lru)[i].(newInCall := false)]
    {
      hide DistinctKeys, Total, NoRepeats, DistinctTouches;
      UpdateAt(lru, i, lru[i].(newInCall := false));
      SameTouches(lru, lru[i := lru[i].(newInCall := false)]);
      lru := lru[i := lru[i].(newInCall := false)];
    }

    method MoveToFront(i: nat)
      requires Linked() && i < |lru| && lru[i].touch != 0
      requires forall f | f in lru && f.touch != 0 :: lru[i].touch <= f.touch
      modifies this`lru
      ensures Linked() && Order(lru) == Order(old(lru)) && |Ranked(lru)| < |Ranked(old(lru))|
      ensures LandedSet(lru) == LandedSet(old(lru))
      ensures lru == [old(lru)[i].(touch := 0)] + old(lru)[..i] + old(lru)[i + 1..]
    {
      hide DistinctKeys, Total, NoRepeats, DistinctTouches, Order, Ranked, Without;
      var f := lru[i].(touch := 0);
      OldestFirst(lru, i);
      RemoveAt(lru, i);
      MovedIsLinked(lru, i);
      lru := [f] + lru[..i] + lru[i + 1..];
      assert lru == [f] + (old(lru)[..i] + old(lru)[i + 1..]);
    }

    /** Between calls a field may be dropped for good. */
    method Forget(i: nat)
      requires Idle() && i < |lru|
      modifies this`lru, this`buckets, this`bytes, this`before, this`asked
      ensures Idle() && lru == old(lru)[..i] + old(lru)[i + 1..]
    {
      hide Linked, Olds, Order, Only, Total;
      BytesLinked();
      Destroy(i);
      Settle();
    }
  }

  // ---------- facts about lists the methods rely on ----------

  lemma KeptNone()
    ensures Kept([]) == []
  {
  }

  lemma KeptOne(f: CachedField)
    ensures Kept([f]) == if Evictable(f) then [] else [f]
  {
    assert [f][1..] == [];
  }

  lemma {:induction false} KeptTwice(l: seq<CachedField>)
    ensures Kept(Kept(l)) == Kept(l)
  {
    if l != [] {
      KeptTwice(l[1..]);
      if !Evictable(l[0]) {
        assert Kept(l)[1..] == Kept(l[1..]);
      }
    }
  }

  lemma {:induction false} KeptIsSmaller(l: seq<CachedField>)
    ensures Total(Kept(l)) <= Total(l)
  {
    if l != [] {
      KeptIsSmaller(l[1..]);
    }
  }

  lemma RoomKeys(was: seq<CachedField>, now: seq<CachedField>, limit: int)
    requires MadeRoom(was, now, limit)
    ensures forall f | f in now :: f in was
  {
    var i :| 0 <= i <= |was| && EvictedTo(was, now, limit, i);
    KeptElements(was[i..]);
  }

  method PositionOf(l: seq<CachedField>, k: Key) returns (i: nat)
    requires k in KeySet(l)
    ensures i < |l| && l[i].key == k
  {
    i := 0;
    while l[i].key != k
      invariant i < |l| && exists j | i <= j < |l| :: l[j].key == k
      decreases |l| - i
    {
      i := i + 1;
    }
  }

  lemma {:induction false} FreshTouch(l: seq<CachedField>, i: nat, f: CachedField)
    requires DistinctTouches(l) && i < |l| && forall g | g in l :: g.touch < f.touch
    ensures DistinctTouches(l[i := f])
  {
    assert l == [l[0]] + l[1..];
    if i == 0 {
      assert l[i := f] == [f] + l[1..];
    } else {
      FreshTouch(l[1..], i - 1, f);
      assert l[i := f] == [l[0]] + l[1..][i - 1 := f];
      assert l[0] in l;
    }
  }

  lemma {:induction false} SpentDistinct(l: seq<CachedField>, i: nat)
    requires DistinctTouches(l) && i < |l|
    ensures DistinctTouches(l[i := l[i].(touch := 0)])
  {
    assert l == [l[0]] + l[1..];
    var f := l[i].(touch := 0);
    if i == 0 {
      assert l[i := f] == [f] + l[1..];
    } else {
      SpentDistinct(l[1..], i - 1);
      assert l[i := f] == [l[0]] + l[1..][i - 1 := f];
    }
  }

  lemma {:induction false} SameTouches(a: seq<CachedField>, b: seq<CachedField>)
    requires SameUse(a, b) && DistinctTouches(a)
    ensures DistinctTouches(b)
  {
    if a != [] {
      SameTouches(a[1..], b[1..]);
      forall f | f in b[1..] ensures exists g | g in a[1..] :: g.touch == f.touch {
        var i :| 0 <= i < |b[1..]| && b[1..][i] == f;
        assert a[1..][i] in a[1..];
      }
    }
  }

  lemma OnlyPush(s: seq<Key>, keep: set<Key>, k: Key)
    requires k !in keep
    ensures Only(ToFront(s, k), keep + {k}) == [k] + Only(s, keep)
  {
    OnlyToFront(s, keep + {k}, k);
    assert keep + {k} - {k} == keep;
  }

  lemma TotalOne(f: CachedField)
    ensures Total([f]) == f.bytes
  {
    assert [f][1..] == [];
  }

  lemma TotalNone()
    ensures Total([]) == 0
  {
  }

  lemma PrependKeys(f: CachedField, l: seq<CachedField>)
    requires DistinctKeys(l) && DistinctTouches(l) && f.key !in KeySet(l) && forall g | g in l :: g.touch < f.touch
    ensures DistinctKeys([f] + l) && DistinctTouches([f] + l) && KeySet([f] + l) == KeySet(l) + {f.key}
  {
    assert ([f] + l)[1..] == l;
  }

  lemma PrependChain(s: seq<Key>, k: Key)
    requires NoRepeats(s) && k !in s
    ensures NoRepeats([k] + s)
  {
  }

  lemma DistinctPositions(l: seq<CachedField>, i: nat)
    requires DistinctKeys(l) && i < |l|
    ensures forall j | 0 <= j < |l| && j != i :: l[j].key != l[i].key
  {
    DistinctAt(l, i);
    forall j | 0 <= j < |l| && j != i ensures l[j].key != l[i].key {
      if j < i {
        assert l[..i][j] in l[..i];
      } else {
        assert l[i + 1..][j - i - 1] in l[i + 1..];
      }
    }
  }

  lemma Advance(p: seq<CachedField>, was: seq<CachedField>, n: nat, l: seq<CachedField>, x: CachedField)
    requires n < |was| && l == p + was[n..]
    ensures var i := |p|;
            && i < |l| && l[i] == was[n]
            && l[i := x] == (p + [x]) + was[n + 1..]
            && l[i := x][..i] + l[i := x][i + 1..] == p + was[n + 1..]
  {
  }

  /** The first `n` fields of `was` have been dealt with: they make up the first `i` of `l`. */
  ghost predicate EndedTo(was: seq<CachedField>, n: nat, l: seq<CachedField>, i: int)
    requires n <= |was|
  {
    l == Ended(was[..n]) + was[n..] && i == |Ended(was[..n])|
  }

  lemma EndStarts(was: seq<CachedField>)
    ensures EndedTo(was, 0, was, 0)
  {
    EndedNone();
    assert was[..0] == [];
  }

  lemma EndOne(was: seq<CachedField>, n: nat, l: seq<CachedField>, i: int)
    requires n <= |was| && EndedTo(was, n, l, i) && i < |l|
    ensures 0 <= i && n < |was|
    ensures var l' := l[i := l[i].(pinned := false)];
            if l[i].ok then EndedTo(was, n + 1, l', i + 1) else EndedTo(was, n + 1, l'[..i] + l'[i + 1..], i)
  {
    hide Ended;
    Advance(Ended(was[..n]), was, n, l, was[n].(pinned := false));
    assert was[..n + 1] == was[..n] + [was[n]];
    EndedConcat(was[..n], [was[n]]);
    EndedOne(was[n]);
    assert Ended(was[..n]) + [] == Ended(was[..n]);
  }

  lemma EndDone(was: seq<CachedField>, n: nat, l: seq<CachedField>, i: int)
    requires n <= |was| && EndedTo(was, n, l, i) && i >= |l|
    ensures l == Ended(was)
  {
    assert was[..n] == was;
  }

  ghost predicate UndoneTo(was: seq<CachedField>, n: nat, l: seq<CachedField>, i: int)
    requires n <= |was|
  {
    l == Olds(was[..n]) + was[n..] && i == |Olds(was[..n])|
  }

  lemma UndoStarts(was: seq<CachedField>)
    ensures UndoneTo(was, 0, was, 0)
  {
    OldsNone();
    assert was[..0] == [];
  }

  lemma UndoOne(was: seq<CachedField>, n: nat, l: seq<CachedField>, i: int)
    requires n <= |was| && UndoneTo(was, n, l, i) && i < |l| && forall f | f in was :: !f.pinned
    ensures 0 <= i && n < |was|
    ensures var l' := l[i := l[i].(touch := 0)];
            if l[i].newInCall then UndoneTo(was, n + 1, l'[..i] + l'[i + 1..], i) else UndoneTo(was, n + 1, l', i + 1)
  {
    hide Olds;
    Advance(Olds(was[..n]), was, n, l, was[n].(touch := 0));
    assert was[..n + 1] == was[..n] + [was[n]];
    OldsConcat(was[..n], [was[n]]);
    OldsOne(was[n]);
    assert was[n] in was;
    assert Olds(was[..n]) + [] == Olds(was[..n]);
  }

  lemma UndoDone(was: seq<CachedField>, n: nat, l: seq<CachedField>, i: int)
    requires n <= |was| && UndoneTo(was, n, l, i) && i >= |l|
    ensures l == Olds(was)
  {
    assert was[..n] == was;
  }

  lemma EndedNone()
    ensures Ended([]) == []
  {
  }

  lemma EndedOne(f: CachedField)
    ensures Ended([f]) == if f.ok then [f.(pinned := false)] else []
  {
    assert [f][1..] == [];
  }

  lemma OldsNone()
    ensures Olds([]) == []
  {
  }

  lemma OldsOne(f: CachedField)
    ensures Olds([f]) == if f.newInCall then [] else [Calm(f)]
  {
    assert [f][1..] == [];
  }

  /** A trim on its way: fields from `i` on have been judged, and as long as none is pinned all of them are gone. */
  ghost predicate Trimming(was: seq<CachedField>, now: seq<CachedField>, i: nat, retention: nat) {
    && i <= |now| && i <= |was| && now[..i] == was[..i]
    && (forall f | f in was && f.pinned :: f in now)
    && ((forall f | f in was :: !f.pinned) ==> now == was[..i] && (i < |was| ==> Total(was[..i + 1]) > retention))
  }

  lemma TrimStarts(l: seq<CachedField>, retention: nat)
    ensures Trimming(l, l, |l|, retention)
  {
    assert l[..|l|] == l;
  }

  lemma TrimStep(was: seq<CachedField>, now: seq<CachedField>, i: nat, retention: nat)
    requires Trimming(was, now, i + 1, retention) && Total(now) > retention
    ensures i < |now| && now[i] == was[i]
    ensures if now[i].pinned then Trimming(was, now, i, retention)
            else Trimming(was, now[..i] + now[i + 1..], i, retention)
  {
    hide Total;
    assert now[i] == now[..i + 1][i] == was[i];
    assert was[i] in was;
    assert now[..i] == now[..i + 1][..i] == was[..i];
    if !now[i].pinned {
      KeepsPinned(now, i);
      assert (now[..i] + now[i + 1..])[..i] == now[..i];
    }
  }

  lemma TrimEnds(was: seq<CachedField>, now: seq<CachedField>, i: nat, retention: nat)
    requires Trimming(was, now, i, retention) && (Total(now) <= retention || i == 0)
    ensures (forall f | f in was :: !f.pinned) ==> Trimmed(was, now, retention)
    ensures forall f | f in was && f.pinned :: f in now
  {
    hide Total;
    TotalNone();
    assert was[..0] == [];
  }

  lemma KeepsPinned(l: seq<CachedField>, i: nat)
    requires i < |l| && !l[i].pinned
    ensures forall f | f in l && f.pinned :: f in l[..i] + l[i + 1..]
  {
    SplitAt(l, i);
  }

  lemma {:induction false} OldsElements(l: seq<CachedField>)
    ensures forall x :: x in Olds(l) <==> exists f | f in l && !f.newInCall :: x == Calm(f)
  {
    if l != [] {
      OldsElements(l[1..]);
      assert l == [l[0]] + l[1..];
    }
  }

  lemma {:induction false} PrefixTotal(l: seq<CachedField>, m: nat)
    requires m <= |l|
    ensures Total(l[..m]) <= Total(l)
  {
    assert l == l[..m] + l[m..];
    TotalConcat(l[..m], l[m..]);
  }

  lemma TrimmedFits(was: seq<CachedField>, now: seq<CachedField>, limit: nat)
    requires Trimmed(was, now, limit) && Total(was) <= limit
    ensures now == was
  {
    if now != was {
      PrefixTotal(was, |now| + 1);
    }
  }

  lemma {:induction false} OnlyKeys(l: seq<CachedField>)
    ensures Only(Keys(l), KeySet(l)) == Keys(l)
  {
    KeySetIs(l);
    OnlyAll(Keys(l), KeySet(l));
  }

  /** Fields that are none of the call's are their own past. */
  lemma {:induction false} OldsOfIdle(l: seq<CachedField>)
    requires forall f | f in l :: f == Landed(f)
    ensures Olds(l) == l
  {
    if l != [] {
      assert l[0] in l;
      OldsOfIdle(l[1..]);
    }
  }

  lemma AgedSame(a: seq<CachedField>, b: seq<CachedField>)
    requires |a| == |b| && forall i | 0 <= i < |b| :: b[i] == a[i].(newInCall := false)
    ensures LandedSet(a) == LandedSet(b)
  {
    forall f | f in a ensures Landed(f) in LandedSet(b) {
      var i :| 0 <= i < |a| && a[i] == f;
      assert b[i] in b && Landed(b[i]) == Landed(f);
    }
    forall f | f in b ensures Landed(f) in LandedSet(a) {
      var i :| 0 <= i < |b| && b[i] == f;
      assert a[i] in a && Landed(a[i]) == Landed(f);
    }
  }

  lemma MovedIsLinked(l: seq<CachedField>, i: nat)
    requires DistinctKeys(l) && DistinctTouches(l) && i < |l|
    ensures var l' := [l[i].(touch := 0)] + l[..i] + l[i + 1..];
            && DistinctKeys(l') && DistinctTouches(l') && KeySet(l') == KeySet(l) && Total(l') == Total(l)
            && LandedSet(l') == LandedSet(l)
  {
    hide Total, Without;
    var f, rest := l[i].(touch := 0), l[..i] + l[i + 1..];
    RemoveAt(l, i);
    WithoutDistinct(l, f.key);
    assert [f] + l[..i] + l[i + 1..] == [f] + rest;
    assert ([f] + rest)[1..] == rest;
    SameElements(l, i);
    TotalConcat([f], rest);
    TotalOne(f);
  }

  lemma SameElements(l: seq<CachedField>, i: nat)
    requires i < |l|
    ensures KeySet([l[i].(touch := 0)] + (l[..i] + l[i + 1..])) == KeySet(l)
    ensures LandedSet([l[i].(touch := 0)] + (l[..i] + l[i + 1..])) == LandedSet(l)
  {
    SplitAt(l, i);
    var f, a, b := l[i], l[..i], l[i + 1..];
    var f' := f.(touch := 0);
    assert Landed(f') == Landed(f);
    assert forall x :: x in l <==> x in a || x == f || x in b;
    assert forall x :: x in [f'] + (a + b) <==> x in a || x == f' || x in b;
    assert f' in [f'] + (a + b);
    assert forall x | x in a || x in b :: x in [f'] + (a + b);
  }

  lemma EndedUnpinned(l: seq<CachedField>)
    ensures forall f | f in Ended(l) :: f.ok && !f.pinned
  {
    EndedElements(l);
  }

  lemma SetOfLanded(l: seq<CachedField>)
    requires forall f | f in l :: f == Landed(f)
    ensures (set f | f in l) == LandedSet(l)
  {
  }

  lemma CommittedBy(was: seq<CachedField>, asked: seq<Key>, all: seq<CachedField>, now: seq<CachedField>, limit: nat)
    requires Keys(all) == Only(asked, KeySet(Ended(was))) && (set f | f in all) == LandedSet(Ended(was))
    requires Trimmed(all, now, limit)
    ensures Committed(was, asked, now, limit)
    ensures Total(now) <= limit && forall f | f in now :: f in all
  {
  }
}
