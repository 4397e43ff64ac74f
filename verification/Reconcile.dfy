/** What is cached about a map between calls, and how pending edits are reconciled with it. */
module Reconcile {
  import opened FixedPoint
  import opened Grid
  import opened Profiles
  import opened Registration
  import opened Interner
  import opened DirtyLog
  import opened TileMap
  import opened FieldMachine
  import opened FieldExact
  import opened Labels
  import opened GoalSets
  import opened Invalidation
  import opened Recency
  import opened FieldCache

  datatype LabelClass = LabelClass(block: Word, need: Word, comp: seq<nat>)

  /** What a key's field leads to. */
  ghost function TargetOf(k: Key, sets: seq<GoalSet>): Target
    requires k.set_ <= |sets|
  {
    if k.set_ == 0 then Tile(k.goal) else Seeds(sets[k.set_ - 1].seeds)
  }

  /** The set a field was built for has changed membership since. */
  predicate Stale(f: CachedField, sets: seq<GoalSet>)
    requires f.key.set_ <= |sets|
  {
    f.key.set_ != 0 && sets[f.key.set_ - 1].epoch != f.setEpoch
  }

  /** A field names an existing profile and set, and unless its set has moved on it is finished for them. */
  ghost predicate FieldGood(f: CachedField, sets: seq<GoalSet>, profiles: seq<Profile>, t: Terrain) {
    && f.key.profile < |profiles| && f.key.set_ <= |sets|
    && (f.key.set_ != 0 ==> sets[f.key.set_ - 1].used && f.setEpoch <= sets[f.key.set_ - 1].epoch)
    && |f.dist| == |t.cost|
    && (!Stale(f, sets) ==> GoodOn(t, profiles[f.key.profile], TargetOf(f.key, sets), f.dist, f.next))
  }

  ghost predicate FieldsGood(l: seq<CachedField>, sets: seq<GoalSet>, profiles: seq<Profile>, t: Terrain) {
    forall f | f in l :: FieldGood(f, sets, profiles, t)
  }

  ghost predicate NoneStale(l: seq<CachedField>, sets: seq<GoalSet>) {
    forall f | f in l :: f.key.set_ <= |sets| && !Stale(f, sets)
  }

  ghost predicate SetsCurrent(sets: seq<GoalSet>, now: Terrain, d: Dirty)
    requires now.Valid()
  {
    |sets| == MAX_GOALSETS && forall s | 0 <= s < |sets| && sets[s].used :: Current(sets[s], now, d)
  }

  ghost predicate LabelsGood(labels: seq<LabelClass>, t: Terrain)
    requires t.Valid()
  {
    forall c | c in labels :: NamesComponents(Superset(t, c.block, c.need), c.comp)
  }

  predicate FloorsGood(p: Profile) { p.hD <= p.hD2 <= 2 * p.hD && p.hD <= Q_TILE_MAX }

  /** Profiles only ever come from valid descriptors. */
  ghost predicate FromDesc(p: Profile) {
    exists d: ProfileDesc :: DescValid(d) && p == Registered(d)
  }

  ghost predicate ProfilesGood(profiles: seq<Profile>) {
    forall p | 0 <= p < |profiles| ::
      Sized(profiles[p]) && CoversRelevant(profiles[p]) && FloorsGood(profiles[p]) && FromDesc(profiles[p])
  }

  /** Pending edits end this field's life. */
  ghost predicate Killed(f: CachedField, sets: seq<GoalSet>, profiles: seq<Profile>, d: Dirty, w: nat, h: nat)
    requires w > 0 && f.key.set_ <= |sets| && f.key.profile < |profiles|
  {
    Stale(f, sets) || d.full || exists k | 0 <= k < |d.edits| ::
        Affected(profiles[f.key.profile], f.dist, d.edits[k], w, h)
  }

  ghost function Survivors(l: seq<CachedField>, sets: seq<GoalSet>, profiles: seq<Profile>, d: Dirty, w: nat, h: nat)
    : seq<CachedField>
    requires w > 0 && forall f | f in l :: f.key.set_ <= |sets| && f.key.profile < |profiles|
  {
    if l == [] then []
    else if Killed(l[0], sets, profiles, d, w, h) then Survivors(l[1..], sets, profiles, d, w, h)
    else [l[0]] + Survivors(l[1..], sets, profiles, d, w, h)
  }

  /** Edits that touch a class's enterability end its labels. */
  ghost predicate Relabel(c: LabelClass, d: Dirty) {
    d.full || exists k | 0 <= k < |d.edits| :: d.edits[k].passChanged || d.edits[k].tagBits * (c.block + c.need) != {}
  }

  /** So labels live on exactly if no logged edit changed passability or flipped a bit their class looks at. */
  lemma RelabelByBits(c: LabelClass, d: Dirty)
    ensures !Relabel(c, d) <==>
              && !d.full
              && forall k | 0 <= k < |d.edits| ::
                   !d.edits[k].passChanged && forall b: nat :: b in d.edits[k].tagBits ==> b !in c.block && b !in c.need
  {
    forall k | 0 <= k < |d.edits|
      ensures d.edits[k].tagBits * (c.block + c.need) == {} <==>
              forall b: nat :: b in d.edits[k].tagBits ==> b !in c.block && b !in c.need
    {
      var bits := d.edits[k].tagBits;
      if b: nat :| b in bits && (b in c.block || b in c.need) {
        assert b in bits * (c.block + c.need);
      }
    }
  }

  function BitsBelow(n: nat): (s: set<nat>)
    ensures forall b: nat :: b in s <==> b < n
  {
    if n == 0 then {} else BitsBelow(n - 1) + {n - 1}
  }

  /** `bits` are all bits some logged edit flipped, or all there are once everything is dirty. */
  ghost predicate AllBits(d: Dirty, bits: Word) {
    forall b: nat :: b in bits <==> b < 64 && (d.full || exists k | 0 <= k < |d.edits| :: b in d.edits[k].tagBits)
  }

  /** All bits the log mentions, and whether passability changed anywhere. */
  method Summarise(d: Dirty) returns (bits: Word, pass: bool)
    ensures pass <==> d.full || exists k | 0 <= k < |d.edits| :: d.edits[k].passChanged
    ensures AllBits(d, bits)
  {
    bits, pass := {}, false;
    for k := 0 to |d.edits|
      invariant pass <==> exists j | 0 <= j < k :: d.edits[j].passChanged
      invariant forall b: nat :: b in bits <==> exists j | 0 <= j < k :: b in d.edits[j].tagBits
    {
      bits := bits + d.edits[k].tagBits;
      pass := pass || d.edits[k].passChanged;
    }
    if d.full {
      bits, pass := BitsBelow(64), true;
    }
  }

  lemma SummaryMeets(d: Dirty, bits: Word, mask: Word)
    requires AllBits(d, bits)
    requires mask != {}
    ensures bits * mask != {} <==> d.full || exists k | 0 <= k < |d.edits| :: d.edits[k].tagBits * mask != {}
  {
    if d.full {
      var b :| b in mask;
      assert b in bits * mask;
    } else if bits * mask != {} {
      var b :| b in bits * mask;
      var k :| 0 <= k < |d.edits| && b in d.edits[k].tagBits;
      assert b in d.edits[k].tagBits * mask;
    } else {
      forall k | 0 <= k < |d.edits| ensures d.edits[k].tagBits * mask == {} {
        assert d.edits[k].tagBits <= bits;
        assert d.edits[k].tagBits * mask <= bits * mask;
      }
    }
  }

  // ---------- fields across a reconcile ----------

  /** A field that is not killed is as good on the edited terrain as on the one last reconciled. */
  lemma SparedIsGood(f: CachedField, sets: seq<GoalSet>, profiles: seq<Profile>, base: Terrain, now: Terrain, d: Dirty)
    requires ProfilesGood(profiles) && base.Valid() && now.Valid() && Covers(d, base, now)
    requires FieldGood(f, sets, profiles, base) && !Killed(f, sets, profiles, d, now.w, now.h)
    ensures FieldGood(f, sets, profiles, now) && !Stale(f, sets)
  {
    hide GoodOn, Covers, Affected, CoversRelevant, Terrain.Valid;
    SurvivorIsGood(profiles[f.key.profile], base, now, d, TargetOf(f.key, sets), f.dist, f.next);
    SameCellCount(d, base, now);
  }

  lemma SameCellCount(d: Dirty, base: Terrain, now: Terrain)
    requires Covers(d, base, now)
    ensures |base.cost| == |now.cost| && base.w == now.w && base.h == now.h
  {
  }

  /** Refreshing a set keeps what is known of its fields: either the seeds are the same, or the fields are stale. */
  lemma RefreshKeepsGood(f: CachedField, sets: seq<GoalSet>, s: nat, profiles: seq<Profile>, base: Terrain,
                         now: Terrain, d: Dirty)
    requires now.Valid() && s < |sets| && sets[s].used && Current(sets[s], now, d)
    requires FieldGood(f, sets, profiles, base)
    ensures FieldGood(f, sets[s := Refreshed(sets[s], now)], profiles, base)
  {
    hide GoodOn;
    assert sets[s].members == Refreshed(sets[s], now).members ==> sets[s].seeds == Refreshed(sets[s], now).seeds;
  }

  lemma {:induction false} SurvivorsConcat(a: seq<CachedField>, b: seq<CachedField>, sets: seq<GoalSet>,
                                           profiles: seq<Profile>, d: Dirty, w: nat, h: nat)
    requires w > 0
    requires forall f | f in a + b :: f.key.set_ <= |sets| && f.key.profile < |profiles|
    ensures (forall f | f in a :: f in a + b) && (forall f | f in b :: f in a + b)
    ensures Survivors(a + b, sets, profiles, d, w, h) ==
              Survivors(a, sets, profiles, d, w, h) + Survivors(b, sets, profiles, d, w, h)
  {
    hide Killed;
    if a == [] {
      assert a + b == b;
    } else {
      assert a + b == [a[0]] + (a[1..] + b);
      assert forall f | f in a[1..] + b :: f in a + b;
      SurvivorsConcat(a[1..], b, sets, profiles, d, w, h);
      assert (a + b)[1..] == a[1..] + b;
    }
  }

  lemma {:induction false} SurvivorsElements(l: seq<CachedField>, sets: seq<GoalSet>, profiles: seq<Profile>, d: Dirty,
      w: nat, h: nat)
    requires w > 0 && forall f | f in l :: f.key.set_ <= |sets| && f.key.profile < |profiles|
    ensures forall f :: f in Survivors(l, sets, profiles, d, w, h) <==> f in l && !Killed(f, sets, profiles, d, w, h)
  {
    hide Killed;
    if l != [] {
      SurvivorsElements(l[1..], sets, profiles, d, w, h);
      assert l == [l[0]] + l[1..];
    }
  }

  // ---------- labels across a reconcile ----------

  /** Labels whose class no edit touched still name the components. */
  lemma SparedLabels(c: LabelClass, base: Terrain, now: Terrain, d: Dirty)
    requires base.Valid() && now.Valid() && Covers(d, base, now) && !Relabel(c, d)
    requires NamesComponents(Superset(base, c.block, c.need), c.comp)
    ensures NamesComponents(Superset(now, c.block, c.need), c.comp)
  {
    hide NamesComponents, Superset, Terrain.Valid, Inside;
    SameCellCount(d, base, now);
    forall i: nat | i < |now.cost| ensures base.cost[i] == now.cost[i] {
      assert base.cost[i] != now.cost[i] ==> CostLogged(d, now.w, i);
    }
    forall i: nat | i < |now.tags| ensures base.tags[i] * (c.block + c.need) == now.tags[i] * (c.block + c.need) {
      forall b | b in c.block + c.need ensures b in base.tags[i] <==> b in now.tags[i] {
        forall k | 0 <= k < |d.edits| ensures b !in d.edits[k].tagBits {
          assert b in d.edits[k].tagBits <==> b in d.edits[k].tagBits * (c.block + c.need);
        }
        assert !BitLogged(d, now.w, i, b);
        assert !BitDiffers(base, now, i, b);
      }
    }
    LabelsOutlive(base, now, c.block, c.need, c.comp);
  }

  lemma NothingLogged(base: Terrain, now: Terrain)
    requires Covers(Dirty([], false), base, now)
    ensures base == now
  {
    hide Inside;
    var d := Dirty([], false);
    forall i: nat | i < |now.cost| ensures base.cost[i] == now.cost[i] {
      assert !CostLogged(d, now.w, i);
    }
    forall i: nat | i < |now.tags| ensures base.tags[i] == now.tags[i] {
      forall b: nat ensures b in base.tags[i] <==> b in now.tags[i] {
        assert !BitLogged(d, now.w, i, b);
        assert !BitDiffers(base, now, i, b);
      }
    }
  }

  lemma RelabelTest(c: LabelClass, d: Dirty, bits: Word, pass: bool)
    requires pass <==> d.full || exists k | 0 <= k < |d.edits| :: d.edits[k].passChanged
    requires AllBits(d, bits)
    ensures (pass || bits * (c.block + c.need) != {}) <==> Relabel(c, d)
  {
    if c.block + c.need != {} {
      SummaryMeets(d, bits, c.block + c.need);
    }
  }

  lemma NothingRelabelled(labels: seq<LabelClass>)
    ensures forall c | c in labels :: !Relabel(c, Dirty([], false))
  {
  }

  lemma SwapRemoved(l: seq<LabelClass>, i: nat)
    requires i < |l|
    ensures var l' := l[i := l[|l| - 1]][..|l| - 1];
            && (forall c | c in l' :: c in l)
            && (forall c | c in l && c !in l' :: c == l[i])
            && (forall j | 0 <= j < i :: l'[j] == l[j])
  {
    var l' := l[i := l[|l| - 1]][..|l| - 1];
    forall c | c in l && c != l[i] ensures c in l' {
      var j :| 0 <= j < |l| && l[j] == c;
      assert l'[if j == |l| - 1 then i else j] == c;
    }
  }

  ghost predicate KeysKnown(l: seq<CachedField>, sets: seq<GoalSet>, profiles: seq<Profile>) {
    forall f | f in l :: f.key.set_ <= |sets| && f.key.profile < |profiles|
  }

  ghost function AfterRefresh(gs: GoalSet, now: Terrain, d: Dirty): GoalSet
    requires now.Valid()
  {
    if gs.used && gs.byTags && Pending(d, gs) then Refreshed(gs, now) else gs
  }

  ghost predicate SetsRefreshed(was: seq<GoalSet>, sets: seq<GoalSet>, now: Terrain, d: Dirty)
    requires now.Valid()
  {
    |sets| == |was| && forall s | 0 <= s < |sets| :: sets[s] == AfterRefresh(was[s], now, d)
  }

  lemma DueIsPending(d: Dirty, bits: Word, gs: GoalSet, now: Terrain)
    requires now.Valid() && gs.used && gs.byTags && Current(gs, now, d)
    requires AllBits(d, bits)
    ensures bits * (gs.anyMask + gs.allMask) != {} <==> Pending(d, gs)
  {
    SummaryMeets(d, bits, gs.anyMask + gs.allMask);
  }

  lemma TilesFit(gs: GoalSet, now: Terrain, d: Dirty)
    requires now.Valid() && Current(gs, now, d)
    ensures forall k | 0 <= k < |gs.tiles| :: gs.tiles[k] < now.w * now.h
  {
  }

  lemma RefreshKeepsAll(l: seq<CachedField>, sets: seq<GoalSet>, s: nat, profiles: seq<Profile>, base: Terrain,
                        now: Terrain, d: Dirty)
    requires now.Valid() && s < |sets| && sets[s].used && Current(sets[s], now, d)
             && FieldsGood(l, sets, profiles, base)
    ensures FieldsGood(l, sets[s := Refreshed(sets[s], now)], profiles, base)
  {
    hide FieldGood, Current, Refreshed;
    forall f | f in l ensures FieldGood(f, sets[s := Refreshed(sets[s], now)], profiles, base) {
      RefreshKeepsGood(f, sets, s, profiles, base, now, d);
    }
  }

  /** After the refresh every set is right, with nothing pending. */
  lemma RefreshedSets(was: seq<GoalSet>, sets: seq<GoalSet>, now: Terrain, d: Dirty)
    requires now.Valid() && SetsCurrent(was, now, d) && SetsRefreshed(was, sets, now, d)
    ensures SetsCurrent(sets, now, Dirty([], false))
    ensures forall s | 0 <= s < |sets| && sets[s].used :: sets[s].members == MembersOn(sets[s], now.tags)
  {
    hide Pending, SeedsFor, MembersOn;
    forall s | 0 <= s < |sets| && sets[s].used
      ensures Current(sets[s], now, Dirty([], false)) && sets[s].members == MembersOn(sets[s], now.tags)
    {
      assert sets[s] == AfterRefresh(was[s], now, d) && Current(was[s], now, d);
      RefreshedIsCurrent(was[s], now, Dirty([], false));
      SameMembers(was[s], now);
    }
  }

  lemma SameMembers(gs: GoalSet, now: Terrain)
    requires now.Valid()
    ensures Refreshed(gs, now).members == MembersOn(Refreshed(gs, now), now.tags)
  {
  }

  lemma NothingRefreshed(sets: seq<GoalSet>, now: Terrain)
    requires now.Valid() && SetsCurrent(sets, now, Dirty([], false))
    ensures SetsRefreshed(sets, sets, now, Dirty([], false))
    ensures forall s | 0 <= s < |sets| && sets[s].used :: sets[s].members == MembersOn(sets[s], now.tags)
  {
  }

  lemma FieldKeys(l: seq<CachedField>, sets: seq<GoalSet>, profiles: seq<Profile>, t: Terrain)
    requires FieldsGood(l, sets, profiles, t)
    ensures KeysKnown(l, sets, profiles)
  {
    hide GoodOn;
  }

  lemma {:induction false} NothingKilled(l: seq<CachedField>, sets: seq<GoalSet>, profiles: seq<Profile>, w: nat,
                                         h: nat)
    requires w > 0 && KeysKnown(l, sets, profiles) && NoneStale(l, sets)
    ensures Survivors(l, sets, profiles, Dirty([], false), w, h) == l
  {
    if l != [] {
      assert l[0] in l;
      NothingKilled(l[1..], sets, profiles, w, h);
    }
  }

  lemma SparedFields(was: seq<CachedField>, sets: seq<GoalSet>, profiles: seq<Profile>, base: Terrain, now: Terrain,
                     d: Dirty)
    requires ProfilesGood(profiles) && base.Valid() && now.Valid()
    requires Covers(d, base, now) && FieldsGood(was, sets, profiles, base)
    requires KeysKnown(was, sets, profiles)
    ensures var l := Survivors(was, sets, profiles, d, now.w, now.h);
            FieldsGood(l, sets, profiles, now) && NoneStale(l, sets)
  {
    hide FieldGood, Killed, Covers, ProfilesGood, Terrain.Valid;
    assert now.w > 0 by { TerrainHasWidth(now); }
    SurvivorsElements(was, sets, profiles, d, now.w, now.h);
    forall f | f in Survivors(was, sets, profiles, d, now.w, now.h)
      ensures FieldGood(f, sets, profiles, now) && !Stale(f, sets)
    {
      SparedIsGood(f, sets, profiles, base, now, d);
    }
  }

  lemma TerrainHasWidth(t: Terrain)
    requires t.Valid()
    ensures t.w > 0
  {
  }

  /** The first `n` fields of `was` have been judged: the survivors among them are the first `i` of `l`. */
  ghost predicate SurvivedTo(was: seq<CachedField>, n: nat, l: seq<CachedField>, i: nat, sets: seq<GoalSet>,
                             profiles: seq<Profile>, d: Dirty, w: nat, h: nat)
    requires n <= |was| && w > 0 && KeysKnown(was, sets, profiles)
  {
    l == Survivors(was[..n], sets, profiles, d, w, h) + was[n..] && i == |Survivors(was[..n], sets, profiles, d, w, h)|
  }

  lemma SurvivalStarts(was: seq<CachedField>, sets: seq<GoalSet>, profiles: seq<Profile>, d: Dirty, w: nat, h: nat)
    requires w > 0 && KeysKnown(was, sets, profiles)
    ensures SurvivedTo(was, 0, was, 0, sets, profiles, d, w, h)
  {
    assert was[..0] == [];
  }

  lemma SurvivorsOne(f: CachedField, sets: seq<GoalSet>, profiles: seq<Profile>, d: Dirty, w: nat, h: nat)
    requires w > 0 && f.key.set_ <= |sets| && f.key.profile < |profiles|
    ensures Survivors([f], sets, profiles, d, w, h) == if Killed(f, sets, profiles, d, w, h) then [] else [f]
  {
    assert [f][1..] == [];
  }

  lemma SurvivalStep(was: seq<CachedField>, n: nat, l: seq<CachedField>, i: nat, sets: seq<GoalSet>,
                     profiles: seq<Profile>, d: Dirty, w: nat, h: nat)
    requires n <= |was| && w > 0 && KeysKnown(was, sets, profiles)
    requires SurvivedTo(was, n, l, i, sets, profiles, d, w, h) && i < |l|
    ensures n < |was| && l[i] == was[n] && l[i] in was
    ensures if Killed(l[i], sets, profiles, d, w, h) then SurvivedTo(was, n + 1, l[..i] + l[i + 1..], i, sets, profiles,
            d, w, h)
            else SurvivedTo(was, n + 1, l, i + 1, sets, profiles, d, w, h)
  {
    hide Survivors, Killed;
    var p := Survivors(was[..n], sets, profiles, d, w, h);
    Advance(p, was, n, l, was[n]);
    assert l[i := was[n]] == l;
    assert was[..n + 1] == was[..n] + [was[n]];
    SurvivorsConcat(was[..n], [was[n]], sets, profiles, d, w, h);
    SurvivorsOne(was[n], sets, profiles, d, w, h);
    assert p + [] == p;
  }

  lemma SurvivalEnds(was: seq<CachedField>, n: nat, l: seq<CachedField>, i: nat, sets: seq<GoalSet>,
                     profiles: seq<Profile>, d: Dirty, w: nat, h: nat)
    requires n <= |was| && w > 0 && KeysKnown(was, sets, profiles)
    requires SurvivedTo(was, n, l, i, sets, profiles, d, w, h) && i >= |l|
    ensures l == Survivors(was, sets, profiles, d, w, h)
  {
    assert was[..n] == was;
  }

  /** Which fields live through a reconcile: those whose set has not moved on, if no logged edit disturbs them. */
  lemma {:induction false} SurvivesIff(l: seq<CachedField>, sets: seq<GoalSet>, profiles: seq<Profile>, d: Dirty,
                                       w: nat, h: nat, f: CachedField)
    requires w > 0 && KeysKnown(l, sets, profiles) && |f.dist| == w * h
    ensures f in Survivors(l, sets, profiles, d, w, h) <==>
              && f in l && (f.key.set_ != 0 ==> sets[f.key.set_ - 1].epoch == f.setEpoch) && !d.full
              && forall k | 0 <= k < |d.edits| :: !Disturbs(profiles[f.key.profile], f.dist, d.edits[k], w, h)
  {
    hide Affected, Disturbs;
    if l != [] {
      SurvivesIff(l[1..], sets, profiles, d, w, h, f);
      if f == l[0] {
        forall k | 0 <= k < |d.edits|
          ensures Affected(profiles[f.key.profile], f.dist, d.edits[k], w, h) <==>
                  Disturbs(profiles[f.key.profile], f.dist, d.edits[k], w, h)
        {
          AffectedIff(profiles[f.key.profile], f.dist, d.edits[k], w, h);
        }
      }
      assert f in l <==> f == l[0] || f in l[1..];
    }
  }

  // ---------- other changes ----------

  lemma EditKeepsSets(sets: seq<GoalSet>, was: Terrain, now: Terrain, before: Dirty, after: Dirty)
    requires was.Valid() && now.Valid() && SetsCurrent(sets, was, before) && EditLogged(before, was, now, after)
    ensures SetsCurrent(sets, now, after)
  {
    hide Current, Describes, Logged;
    var e: Edit :| Describes(e, was, now) && after == Logged(before, |now.cost|, e);
    forall s | 0 <= s < |sets| && sets[s].used ensures Current(sets[s], now, after) {
      EditKeepsCurrent(sets[s], was, now, before, e);
    }
  }

  lemma RegisteredFits(d: ProfileDesc)
    requires DescValid(d)
    ensures Sized(Registered(d)) && CoversRelevant(Registered(d)) && FloorsGood(Registered(d))
            && FromDesc(Registered(d))
  {
    RegisteredFloors(d);
  }

  lemma MoreProfiles(l: seq<CachedField>, sets: seq<GoalSet>, profiles: seq<Profile>, p: Profile, t: Terrain)
    requires FieldsGood(l, sets, profiles, t)
    ensures FieldsGood(l, sets, profiles + [p], t)
  {
    hide GoodOn;
    forall f | f in l ensures FieldGood(f, sets, profiles + [p], t) {
      assert FieldGood(f, sets, profiles, t);
    }
  }

  datatype SetResult = SetId(id: nat) | BadSet | OffMap | TooManySets

  lemma RefreshedShape(gs: GoalSet, t: Terrain)
    requires t.Valid()
    ensures var r := Refreshed(gs, t);
            r.used == gs.used && r.byTags == gs.byTags && r.tiles == gs.tiles && |r.members| == |t.tags| == t.w * t.h
  {
  }

  lemma SameMembership(a: GoalSet, b: GoalSet, tags: seq<Word>)
    requires a.byTags == b.byTags == true && a.anyMask == b.anyMask && a.allMask == b.allMask
    ensures MembersOn(a, tags) == MembersOn(b, tags)
  {
  }

  lemma RefreshedUsed(gs: GoalSet, t: Terrain)
    requires t.Valid()
    ensures Refreshed(gs, t).used == gs.used
  {
  }

  /** No field refers to a free slot, so filling it changes nothing for them. */
  lemma UnusedSlot(l: seq<CachedField>, sets: seq<GoalSet>, s: nat, gs: GoalSet, profiles: seq<Profile>, t: Terrain)
    requires s < |sets| && !sets[s].used && FieldsGood(l, sets, profiles, t) && NoneStale(l, sets)
    ensures FieldsGood(l, sets[s := gs], profiles, t) && NoneStale(l, sets[s := gs])
  {
    hide GoodOn;
    forall f | f in l ensures FieldGood(f, sets[s := gs], profiles, t) && !Stale(f, sets[s := gs]) {
      assert FieldGood(f, sets, profiles, t);
    }
  }

  lemma SlotForgotten(was: seq<CachedField>, l: seq<CachedField>, sets: seq<GoalSet>, id: nat, profiles: seq<Profile>,
                      t: Terrain)
    requires 0 < id <= |sets| && FieldsGood(was, sets, profiles, t) && NoneStale(was, sets)
    requires forall f :: f in l <==> f in was && f.key.set_ != id
    ensures FieldsGood(l, sets[id - 1 := NO_SET], profiles, t) && NoneStale(l, sets[id - 1 := NO_SET])
  {
    hide GoodOn;
    forall f | f in l
      ensures FieldGood(f, sets[id - 1 := NO_SET], profiles, t) && !Stale(f, sets[id - 1 := NO_SET])
    {
      assert FieldGood(f, sets, profiles, t);
    }
  }

  /** A map with everything remembered about it between calls. */
  class Store {
    const m: Map
    const cache: Cache
    var sets: seq<GoalSet>
    var labels: seq<LabelClass>

    /** What holds between calls, whatever calls came before: fields and labels are right for the terrain last
        reconciled, and every goal set is right or due for a refresh. */
    ghost predicate Valid()
      reads this, m, m.costQ, m.comboIdx, m.interner, m.interner.table, cache
    {
      && m.Valid() && cache.Idle() && ProfilesGood(m.interner.profiles)
      && SetsCurrent(sets, m.Now(), m.dirty)
      && FieldsGood(cache.lru, sets, m.interner.profiles, m.base) && NoneStale(cache.lru, sets)
      && LabelsGood(labels, m.base)
    }

    /** What every remembered field and every set is once pending edits are dealt with. */
    ghost predicate UpToDate()
      reads this, m, m.costQ, m.comboIdx, m.interner, m.interner.table, cache
    {
      && m.Valid() && m.base == m.Now() && m.dirty == Dirty([], false)
      && (forall s | 0 <= s < |sets| && sets[s].used :: sets[s].members == MembersOn(sets[s], m.Now().tags))
    }

    constructor (m: Map, cache: Cache)
      requires m.Valid() && cache.Idle() && cache.lru == [] && m.interner.profiles == []
      ensures Valid() && this.m == m && this.cache == cache
    {
      this.m, this.cache := m, cache;
      sets := seq(MAX_GOALSETS, _ => NO_SET);
      labels := [];
    }

    /** Brings everything remembered up to date with the edits since the last reconcile. */
    method Reconcile()
      requires Valid()
      modifies this, m`dirty, m`base, cache
      ensures Valid() && UpToDate() && m.Now() == old(m.Now())
      ensures SetsRefreshed(old(sets), sets, m.Now(), old(m.dirty))
      ensures KeysKnown(old(cache.lru), sets, m.interner.profiles)
      ensures cache.lru == Survivors(old(cache.lru), sets, m.interner.profiles, old(m.dirty), m.w, m.h)
      ensures forall c :: c in labels <==> c in old(labels) && !Relabel(c, old(m.dirty))
    {
      hide Covers, Pending, Relabel, Killed, FieldGood, GoodOn, Refreshed, Current, Cache.Idle, ProfilesGood, Superset,
        NamesComponents, Terrain.Valid, Survivors, SetsCurrent, SetsRefreshed;
      m.NowFits();
      ghost var d, base, now, was := m.dirty, m.base, m.Now(), cache.lru;
      FieldKeys(was, sets, m.interner.profiles, base);
      if |m.dirty.edits| == 0 && !m.dirty.full {
        assert m.dirty == Dirty([], false);
        NothingLogged(base, now);
        NothingRefreshed(sets, now);
        NothingKilled(was, sets, m.interner.profiles, m.w, m.h);
        NothingRelabelled(labels);
        return;
      }
      var bits, pass := Summarise(m.dirty);
      RefreshSets(bits);
      FieldKeys(was, sets, m.interner.profiles, base);
      DropFields();
      DropLabels(bits, pass);
      SparedFields(was, sets, m.interner.profiles, base, now, d);
      forall c | c in labels ensures NamesComponents(Superset(now, c.block, c.need), c.comp) {
        SparedLabels(c, base, now, d);
      }
      RefreshedSets(old(sets), sets, now, d);
      m.dirty := Dirty([], false);
      m.base := m.Now();
      NothingCovers(now) by { SameCellCount(d, base, now); }
    }

    /** Refreshes the tag-described sets the edits may have changed. */
    method RefreshSets(bits: Word)
      requires m.Valid() && SetsCurrent(sets, m.Now(), m.dirty)
      requires AllBits(m.dirty, bits)
      requires FieldsGood(cache.lru, sets, m.interner.profiles, m.base)
      modifies this`sets
      ensures SetsRefreshed(old(sets), sets, m.Now(), m.dirty)
      ensures FieldsGood(cache.lru, sets, m.interner.profiles, m.base)
    {
      hide Map.Valid, FieldGood, Current, Refreshed, Pending;
      m.NowFits();
      for s := 0 to |sets|
        invariant |sets| == |old(sets)| && FieldsGood(cache.lru, sets, m.interner.profiles, m.base)
        invariant forall j | s <= j < |sets| :: sets[j] == old(sets)[j]
        invariant forall j | 0 <= j < s :: sets[j] == AfterRefresh(old(sets)[j], m.Now(), m.dirty)
      {
        if sets[s].used && sets[s].byTags {
          DueIsPending(m.dirty, bits, sets[s], m.Now());
          if bits * (sets[s].anyMask + sets[s].allMask) != {} {
            TilesFit(sets[s], m.Now(), m.dirty);
            var gs := Materialize(m, sets[s]);
            RefreshKeepsAll(cache.lru, sets, s, m.interner.profiles, m.base, m.Now(), m.dirty);
            sets := sets[s := gs];
          }
        }
      }
    }

    /** Drops the fields that pending edits, or a set that moved on, may have made wrong. */
    method DropFields()
      requires m.Valid() && cache.Idle() && FieldsGood(cache.lru, sets, m.interner.profiles, m.base)
      modifies cache
      ensures cache.Idle() && KeysKnown(old(cache.lru), sets, m.interner.profiles)
      ensures cache.lru == Survivors(old(cache.lru), sets, m.interner.profiles, m.dirty, m.w, m.h)
    {
      hide Map.Valid, Cache.Idle, FieldGood, GoodOn, Killed, SurvivedTo;
      m.NowFits();
      ghost var was := cache.lru;
      FieldKeys(was, sets, m.interner.profiles, m.base);
      SurvivalStarts(was, sets, m.interner.profiles, m.dirty, m.w, m.h);
      var i: nat := 0;
      ghost var n := 0;
      while i < |cache.lru|
        invariant cache.Idle() && n <= |was|
        invariant SurvivedTo(was, n, cache.lru, i, sets, m.interner.profiles, m.dirty, m.w, m.h)
        decreases |cache.lru| - i
      {
        SurvivalStep(was, n, cache.lru, i, sets, m.interner.profiles, m.dirty, m.w, m.h);
        var kill := Doomed(cache.lru[i]);
        if kill {
          cache.Forget(i);
        } else {
          i := i + 1;
        }
        n := n + 1;
      }
      SurvivalEnds(was, n, cache.lru, i, sets, m.interner.profiles, m.dirty, m.w, m.h);
    }

    /** Whether pending edits end one field's life. */
    method Doomed(f: CachedField) returns (kill: bool)
      requires m.Valid() && FieldGood(f, sets, m.interner.profiles, m.base)
      ensures kill == Killed(f, sets, m.interner.profiles, m.dirty, m.w, m.h)
    {
      hide Behold, Field, Affected;
      if f.key.set_ != 0 && sets[f.key.set_ - 1].epoch != f.setEpoch {
        return true;
      }
      if m.dirty.full {
        return true;
      }
      for k := 0 to |m.dirty.edits|
        invariant forall j | 0 <= j < k :: !Affected(m.interner.profiles[f.key.profile], f.dist, m.dirty.edits[j], m.w,
                  m.h)
      {
        var hit := AffectedBy(m.interner.profiles[f.key.profile], f.dist, m.dirty.edits[k], m.w, m.h);
        if hit {
          return true;
        }
      }
      kill := false;
    }

    /** Drops label classes whose enterability an edit may have changed; the last class takes a dropped one's place. */
    method DropLabels(bits: Word, pass: bool)
      requires pass <==> m.dirty.full || exists k | 0 <= k < |m.dirty.edits| :: m.dirty.edits[k].passChanged
      requires AllBits(m.dirty, bits)
      modifies this`labels
      ensures forall c :: c in labels <==> c in old(labels) && !Relabel(c, m.dirty)
    {
      hide Relabel;
      ghost var was := labels;
      var i := 0;
      while i < |labels|
        invariant 0 <= i <= |labels|
        invariant forall c | c in labels :: c in was
        invariant forall c | c in was && c !in labels :: Relabel(c, m.dirty)
        invariant forall j | 0 <= j < i :: !Relabel(labels[j], m.dirty)
        decreases |labels| - i
      {
        RelabelTest(labels[i], m.dirty, bits, pass);
        if pass || bits * (labels[i].block + labels[i].need) != {} {
          ghost var gone, l := labels[i], labels;
          labels := labels[i := labels[|labels| - 1]][..|labels| - 1];
          SwapRemoved(l, i);
        } else {
          i := i + 1;
        }
      }
    }

    /** Edits only touch the terrain and the log; what is remembered stays, and stays right for the old terrain. */
    method SetPassabilityRect(r: Rect, p: seq<real>) returns (s: Status)
      requires Valid() && (RectCheck(m.w, m.h, r) == Ok ==> |p| == Area(r))
      modifies m.costQ, m`dirty
      ensures Valid() && m.base == old(m.base) && (s != Ok ==> m.Now() == old(m.Now()))
      ensures s == if RectCheck(m.w, m.h, r) != Ok then RectCheck(m.w, m.h, r)
                   else if forall k | 0 <= k < |p| :: PassabilityValid(p[k]) then Ok
                   else Status.InvalidArgument
      ensures s == Ok ==>
                m.Now().tags == old(m.Now().tags) && m.w > 0 && Painted(old(m.Now().cost), m.Now().cost, r, m.w,
                    Costs(p))
      ensures SameSize(old(m.Now()), m.Now())
      ensures m.dirty == if s == Ok then Logged(old(m.dirty), m.w * m.h, EditMade(r, old(m.Now()), m.Now()))
                         else old(m.dirty)
    {
      hide Map.Valid, Cache.Idle, ProfilesGood, FieldsGood, NoneStale, LabelsGood, Painted, Current, Describes, Logged;
      m.NowFits();
      s := m.SetPassabilityRect(r, p);
      m.NowFits();
      if s == Ok {
        EditKeepsSets(sets, old(m.Now()), m.Now(), old(m.dirty), m.dirty);
      }
    }

    method SetTagsRect(r: Rect, tags: seq<Word>) returns (s: Status)
      requires Valid() && (RectCheck(m.w, m.h, r) == Ok ==> |tags| == Area(r))
      modifies m.comboIdx, m`dirty, m.interner, m.interner.table
      ensures Valid() && m.base == old(m.base) && (s != Ok ==> m.Now() == old(m.Now()))
      ensures RectCheck(m.w, m.h, r) != Ok ==> s == RectCheck(m.w, m.h, r)
      ensures RectCheck(m.w, m.h, r) == Ok ==>
                s == if |Known(old(m.interner.words)) + Known(tags)| <= MAX_TAG_COMBOS then Ok else TagCombosExhausted
      ensures s == Ok ==> Known(m.interner.words) == Known(old(m.interner.words)) + Known(tags)
      ensures s == Ok ==>
                m.Now().cost == old(m.Now().cost) && m.w > 0 && TagsPainted(old(m.Now().tags), m.Now().tags, r, m.w,
                    tags)
      ensures SameSize(old(m.Now()), m.Now())
      ensures m.dirty == if s == Ok then Logged(old(m.dirty), m.w * m.h, EditMade(r, old(m.Now()), m.Now()))
                         else old(m.dirty)
      ensures m.interner.table == old(m.interner.table) || fresh(m.interner.table)
    {
      hide Map.Valid, Cache.Idle, ProfilesGood, FieldsGood, NoneStale, LabelsGood, TagsPainted, Current, Describes,
        Logged;
      m.NowFits();
      s := m.SetTagsRect(r, tags);
      m.NowFits();
      if s == Ok {
        EditKeepsSets(sets, old(m.Now()), m.Now(), old(m.dirty), m.dirty);
      }
    }

    /** A new profile; nothing remembered refers to it yet. */
    method RegisterProfile(d: ProfileDesc) returns (r: RegisterResult)
      requires Valid()
      modifies m.interner`profiles, m.interner`tables
      ensures Valid() && m.Now() == old(m.Now())
      ensures r == if !DescValid(d) then RegisterResult.InvalidArgument
                   else if |old(m.interner.profiles)| >= MAX_PROFILES then TooManyProfiles
                   else Accepted(Registered(d))
      ensures m.interner.profiles == old(m.interner.profiles) + if r.Accepted? then [r.profile] else []
    {
      hide Cache.Idle, NoneStale, LabelsGood, GoodOn, Covers, Current, Registered, Terrain.Valid, CoversRelevant,
        DescValid;
      r := Register(d);
      if r.Accepted? && |m.interner.profiles| >= MAX_PROFILES {
        return TooManyProfiles;
      }
      if r.Accepted? {
        RegisteredFits(d);
        m.interner.AddProfile(r.profile);
        MoreProfiles(cache.lru, sets, old(m.interner.profiles), r.profile, m.base);
      }
    }

    /** Registers a set of listed tiles. */
    method RegisterTiles(xy: seq<(nat, nat)>, adjacent: bool) returns (r: SetResult)
      requires Valid()
      modifies this`sets
      ensures Valid() && (!r.SetId? ==> sets == old(sets))
      ensures r == BadSet <==> xy == [] || |xy| > m.w * m.h
      ensures r == OffMap <==> r != BadSet && exists k :: 0 <= k < |xy| && (xy[k].0 >= m.w || xy[k].1 >= m.h)
      ensures r == TooManySets <==> r != BadSet && r != OffMap && forall s | 0 <= s < |old(sets)| :: old(sets)[s].used
      ensures r.SetId? ==>
                && 0 < r.id <= MAX_GOALSETS && !old(sets)[r.id - 1].used
                && sets == old(sets)[r.id - 1 := sets[r.id - 1]]
                && sets[r.id - 1].used && !sets[r.id - 1].byTags && |sets[r.id - 1].tiles| == |xy|
                && |sets[r.id - 1].members| == m.w * m.h
                && forall k | 0 <= k < |xy| ::
                     xy[k].0 < m.w && xy[k].1 < m.h && sets[r.id - 1].tiles[k] == xy[k].1 * m.w + xy[k].0
    {
      hide Map.Valid, Cache.Idle, ProfilesGood, GoodOn, LabelsGood, Current, FieldsGood, NoneStale;
      if |xy| == 0 || |xy| > m.w * m.h {
        return BadSet;
      }
      var tiles: seq<nat> := [];
      for k := 0 to |xy|
        invariant Valid() && sets == old(sets) && |tiles| == k
        invariant forall j | 0 <= j < k ::
                    xy[j].0 < m.w && xy[j].1 < m.h && tiles[j] == xy[j].1 * m.w + xy[j].0 && tiles[j] < m.w * m.h
      {
        if xy[k].0 >= m.w || xy[k].1 >= m.h {
          return OffMap;
        }
        RowMajor(xy[k].1, xy[k].0, m.h, m.w);
        tiles := tiles + [xy[k].1 * m.w + xy[k].0];
      }
      var id := RegisterSet(NO_SET.(adjacent := adjacent, tiles := tiles));
      if id == 0 {
        return TooManySets;
      }
      m.NowFits();
      RefreshedShape(NO_SET.(adjacent := adjacent, tiles := tiles, used := true), m.Now());
      r := SetId(id);
    }

    /** Registers a set described by tags. */
    method RegisterTags(anyMask: Word, allMask: Word, adjacent: bool) returns (r: SetResult)
      requires Valid()
      modifies this`sets
      ensures Valid() && (!r.SetId? ==> sets == old(sets))
      ensures r == BadSet <==> anyMask == {} && allMask == {}
      ensures r == TooManySets <==> r != BadSet && forall s | 0 <= s < |old(sets)| :: old(sets)[s].used
      ensures r != OffMap
      ensures r.SetId? ==>
                && 0 < r.id <= MAX_GOALSETS && !old(sets)[r.id - 1].used
                && sets == old(sets)[r.id - 1 := sets[r.id - 1]]
                && sets[r.id - 1].members ==
                     MembersOn(NO_SET.(byTags := true, anyMask := anyMask, allMask := allMask), m.Now().tags)
    {
      hide Map.Valid, Cache.Idle, ProfilesGood, GoodOn, LabelsGood, Current, FieldsGood, NoneStale;
      if anyMask == {} && allMask == {} {
        return BadSet;
      }
      var gs := NO_SET.(byTags := true, adjacent := adjacent, anyMask := anyMask, allMask := allMask);
      var id := RegisterSet(gs);
      if id == 0 {
        return TooManySets;
      }
      m.NowFits();
      SameMembership(gs.(used := true), NO_SET.(byTags := true, anyMask := anyMask, allMask := allMask), m.Now().tags);
      r := SetId(id);
    }

    /** Registers a set in the first free slot; its number is the slot's plus one. */
    method RegisterSet(gs: GoalSet) returns (id: nat)
      requires Valid() && (forall k | 0 <= k < |gs.tiles| :: gs.tiles[k] < m.w * m.h)
      requires gs.members == [] && gs.epoch == 0 && (gs.byTags ==> gs.anyMask != {} || gs.allMask != {})
      modifies this`sets
      ensures Valid() && id <= MAX_GOALSETS
      ensures id == 0 ==> sets == old(sets) && forall s | 0 <= s < |sets| :: sets[s].used
      ensures id > 0 ==>
                && !old(sets)[id - 1].used
                && sets == old(sets)[id - 1 := Refreshed(gs.(used := true), m.Now())]
    {
      hide Map.Valid, Cache.Idle, ProfilesGood, GoodOn, LabelsGood, Current, Refreshed;
      m.NowFits();
      var slot := 0;
      while slot < MAX_GOALSETS && sets[slot].used
        invariant 0 <= slot <= MAX_GOALSETS && forall s | 0 <= s < slot :: sets[s].used
      {
        slot := slot + 1;
      }
      if slot == MAX_GOALSETS {
        return 0;
      }
      var made := Materialize(m, gs.(used := true));
      RefreshedIsCurrent(gs.(used := true), m.Now(), m.dirty);
      RefreshedUsed(gs.(used := true), m.Now());
      UnusedSlot(cache.lru, sets, slot, made, m.interner.profiles, m.base);
      sets := sets[slot := made];
      id := slot + 1;
    }

    /** Forgets a set and every field built for it. */
    method UnregisterSet(id: nat) returns (ok: bool)
      requires Valid()
      modifies this`sets, cache
      ensures Valid() && ok == (0 < id <= MAX_GOALSETS && old(sets)[id - 1].used)
      ensures ok ==> sets == old(sets)[id - 1 := NO_SET] && forall f | f in cache.lru :: f.key.set_ != id
      ensures forall f :: f in cache.lru <==> f in old(cache.lru) && !(ok && f.key.set_ == id)
      ensures !ok ==> sets == old(sets)
    {
      hide Map.Valid, Cache.Idle, ProfilesGood, GoodOn, LabelsGood, Current;
      m.NowFits();
      if id == 0 || id > MAX_GOALSETS || !sets[id - 1].used {
        return false;
      }
      ghost var was := cache.lru;
      DropSet(id);
      SlotForgotten(was, cache.lru, sets, id, m.interner.profiles, m.base);
      sets := sets[id - 1 := NO_SET];
      ok := true;
    }

    method DropSet(id: nat)
      requires cache.Idle()
      modifies cache
      ensures cache.Idle() && forall f :: f in cache.lru <==> f in old(cache.lru) && f.key.set_ != id
    {
      hide Cache.Idle;
      ghost var was := cache.lru;
      var i: nat := 0;
      while i < |cache.lru|
        invariant cache.Idle() && i <= |cache.lru|
        invariant forall f | f in cache.lru :: f in was
        invariant forall f | f in was && f !in cache.lru :: f.key.set_ == id
        invariant forall j | 0 <= j < i :: cache.lru[j].key.set_ != id
        decreases |cache.lru| - i
      {
        if cache.lru[i].key.set_ == id {
          SplitAt(cache.lru, i);
          cache.Forget(i);
        } else {
          i := i + 1;
        }
      }
    }

    /** Once up to date, every cached field, distances and directions, is the one building it now would give. */
    lemma CachedIsFresh(f: CachedField)
      requires Valid() && UpToDate() && f in cache.lru
      ensures f.key.profile < |m.interner.profiles| && f.key.set_ <= |sets|
      ensures var p, t := m.interner.profiles[f.key.profile], TargetOf(f.key, sets);
              && Sized(p) && m.Now().Valid() && Behold(m.Now(), p).Valid() && ValidTarget(Behold(m.Now(), p), t)
              && Stored(f.dist, f.next) == Field(Behold(m.Now(), p), t)
              && Usable(Behold(m.Now(), p), t, Stored(f.dist, f.next))
              && ExactField(Behold(m.Now(), p), t, f.dist)
    {
      hide Map.Valid, Cache.Idle, ProfilesGood, LabelsGood, SetsCurrent, Behold, ExactField, Field, Finished;
      GoodIsUsable(m.Now(), m.interner.profiles[f.key.profile], TargetOf(f.key, sets), f.dist, f.next);
    }
  }
}
