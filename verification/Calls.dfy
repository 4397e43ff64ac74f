/** A whole batch call on a map: reconcile, classify, plan and run, then commit or roll back. */
module Calls {
  import opened FixedPoint
  import opened Grid
  import opened Profiles
  import opened DirtyLog
  import opened TileMap
  import opened SearchMachine
  import opened SearchResults
  import opened SearchKernel
  import opened Solve
  import opened FieldMachine
  import opened FieldExact
  import opened Labels
  import opened GoalSets
  import opened Invalidation
  import opened Recency
  import opened FieldCache
  import opened Reconcile
  import opened Groups
  import opened Planner
  import opened Emit
  import opened FieldAnswers
  import opened Staging
  import opened Schedule
  import opened Delivery

  const MAX_LABEL_CLASSES: nat := 16

  datatype Comp = NoLabels | Labelled(comp: seq<nat>)

  /** The labels show start and goal to be apart. */
  ghost predicate ShownApart(v: View, comp: seq<nat>, start: nat, goal: nat)
    requires v.Valid() && |comp| == v.N() && start < v.N() && goal < v.N()
  {
    comp[start] != comp[goal] && (comp[start] != 0 || !TouchesLabel(v.w, v.h, comp, start, comp[goal]))
  }

  ghost predicate CompFits(v: View, c: Comp) {
    c.Labelled? ==> |c.comp| == v.w * v.h
  }

  /** What the first look at a request decides. */
  ghost function WishOf(v: View, req: Request, c: Comp): Wish
    requires v.Valid() && CompFits(v, c)
  {
    if req.startX >= v.w || req.startY >= v.h then Settled(InvalidEndpoint)
    else if req.goalset != 0 then Shared(Key(0, req.goalset, req.profileId))
    else if req.goalX >= v.w || req.goalY >= v.h then Settled(InvalidEndpoint)
    else
      var start, goal := StartOf(v, req), GoalOf(v, req);
      if start == goal then Settled(Found)
      else if v.blocked[goal] then if req.partial then Alone else Settled(Unreachable)
      else if !req.partial && c.Labelled? && ShownApart(v, c.comp, start, goal) then Settled(Unreachable)
      else Shared(Key(goal, 0, req.profileId))
  }

  /** The first look asks the labels: a request for one goal apart from the start that can be entered, no approach
      wanted. */
  predicate Asks(v: View, req: Request)
    requires v.Valid()
  {
    && req.goalset == 0 && EndpointsInside(v, req) && !req.partial
    && StartOf(v, req) != GoalOf(v, req) && !v.blocked[GoalOf(v, req)]
  }

  predicate OfClass(l: LabelClass, p: Profile) { l.block == p.blockMask && l.need == p.requireMask }

  predicate HasClass(labels: seq<LabelClass>, p: Profile) { exists i :: 0 <= i < |labels| && OfClass(labels[i], p) }

  /** Labels for a profile's blocking class, built on first use; none once the class table is full. */
  method LabelsFor(st: Store, t: Terrain, p: Profile) returns (c: Comp)
    requires t.Valid() && LabelsGood(st.labels, t)
    modifies st`labels
    ensures LabelsGood(st.labels, t) && old(st.labels) <= st.labels
    ensures c.Labelled? ==> NamesComponents(Superset(t, p.blockMask, p.requireMask), c.comp)
    ensures c.Labelled? <==> HasClass(st.labels, p)
    ensures HasClass(st.labels, p) || |st.labels| >= MAX_LABEL_CLASSES
    ensures |old(st.labels)| >= MAX_LABEL_CLASSES || HasClass(old(st.labels), p) ==> st.labels == old(st.labels)
  {
    hide NamesComponents, Superset;
    for i := 0 to |st.labels|
      invariant st.labels == old(st.labels)
      invariant forall k | 0 <= k < i :: !OfClass(st.labels[k], p)
    {
      if OfClass(st.labels[i], p) {
        assert st.labels[i] in st.labels;
        return Labelled(st.labels[i].comp);
      }
    }
    if |st.labels| >= MAX_LABEL_CLASSES {
      return NoLabels;
    }
    var f := new Flood(|t.cost|);
    f.Fill(t, p.blockMask, p.requireMask);
    c := Labelled(f.comp[..]);
    st.labels := st.labels + [LabelClass(p.blockMask, p.requireMask, f.comp[..])];
    assert OfClass(st.labels[|st.labels| - 1], p);
  }

  /** The first look at a request.  `c` is what the labels had to say, if they were asked. */
  method Classify(st: Store, t: Terrain, p: Profile, v: View, req: Request) returns (w: Wish, ghost c: Comp)
    requires t.Valid() && Sized(p) && v == Behold(t, p) && v.Valid() && LabelsGood(st.labels, t)
    modifies st`labels
    ensures LabelsGood(st.labels, t) && old(st.labels) <= st.labels
    ensures CompFits(v, c) && (c.Labelled? ==> NamesComponents(Superset(t, p.blockMask, p.requireMask), c.comp))
    ensures w == WishOf(v, req, c)
    ensures Asks(v, req) ==> (c.Labelled? <==> HasClass(st.labels, p))
    ensures Asks(v, req) ==> HasClass(st.labels, p) || |st.labels| >= MAX_LABEL_CLASSES
    ensures !Asks(v, req) || |old(st.labels)| >= MAX_LABEL_CLASSES ==> st.labels == old(st.labels)
  {
    hide Behold, LabelsGood, HasClass;
    c := NoLabels;
    if req.startX >= v.w || req.startY >= v.h {
      return Settled(InvalidEndpoint), c;
    }
    if req.goalset != 0 {
      return Shared(Key(0, req.goalset, req.profileId)), c;
    }
    if req.goalX >= v.w || req.goalY >= v.h {
      return Settled(InvalidEndpoint), c;
    }
    var start, goal := StartOf(v, req), GoalOf(v, req);
    if start == goal {
      return Settled(Found), c;
    }
    if v.blocked[goal] {
      return if req.partial then Alone else Settled(Unreachable), c;
    }
    if !req.partial {
      var found := LabelsFor(st, t, p);
      c := found;
      if found.Labelled? {
        LabelsCover(t, p, v, found.comp);
        var apart := ProveUnreachable(v.w, v.h, found.comp, start, goal);
        if apart {
          return Settled(Unreachable), c;
        }
      }
    }
    w := Shared(Key(goal, 0, req.profileId));
  }

  lemma LabelsCover(t: Terrain, p: Profile, v: View, comp: seq<nat>)
    requires t.Valid() && Sized(p) && v == Behold(t, p) && NamesComponents(Superset(t, p.blockMask, p.requireMask),
             comp)
    ensures |comp| == v.w * v.h
  {
  }

  /** A status given at once is the one a search would report; only where labels prove there is no route at all may a
      search stopped by a limit have said less. */
  lemma SettledIsRight(t: Terrain, p: Profile, req: Request, c: Comp)
    requires t.Valid() && Sized(p) && Answerable(Behold(t, p), req) && CompFits(Behold(t, p), c) && req.goalset == 0
    requires c.Labelled? ==> NamesComponents(Superset(t, p.blockMask, p.requireMask), c.comp)
    requires WishOf(Behold(t, p), req, c).Settled?
    ensures var s, a := WishOf(Behold(t, p), req, c).status, SearchAnswer(Behold(t, p), req);
            || a.status == s
            || (s == Unreachable && a.status == BudgetExceeded)
  {
    var v := Behold(t, p);
    if EndpointsInside(v, req) {
      var start, goal := StartOf(v, req), GoalOf(v, req);
      if start != goal && !v.blocked[goal] {
        BlockedIsByClass(t, p, goal);
        forall r: Route ensures !Connects(v, start, r, goal) {
          NoMeansUnreachable(t, p, c.comp, start, goal, r);
        }
        NoRouteNotFound(v, QueryOf(v, req, start, goal), req.partial);
      }
    }
  }

  /** Without a route a search reports that there is none, or that a limit stopped it. */
  lemma NoRouteNotFound(v: View, q: Query, partial: bool)
    requires Ready(v, q) && forall r: Route :: !Connects(v, q.start, r, q.goal)
    ensures Reported(v, q, partial).status in {Unreachable, BudgetExceeded}
  {
    hide SearchMachine.Search, ParentRoute, Legal, End;
    if Reported(v, q, partial).status == Found {
      var r, end := ReportedRoute(v, q, partial);
    }
  }

  /** With labels at hand a request that asks them is refused at once if and only if no unit of its blocking class,
      moving in all eight directions with no regard for corners, could ever get there. */
  lemma LabelsDecide(t: Terrain, p: Profile, req: Request, c: Comp)
    requires t.Valid() && Sized(p) && Behold(t, p).Valid() && CompFits(Behold(t, p), c) && Asks(Behold(t, p), req)
    requires c.Labelled? && NamesComponents(Superset(t, p.blockMask, p.requireMask), c.comp)
    ensures StartOf(Behold(t, p), req) < Superset(t, p.blockMask, p.requireMask).N()
    ensures WishOf(Behold(t, p), req, c) == Settled(Unreachable) <==>
              forall r: Route ::
                !Connects(Superset(t, p.blockMask, p.requireMask), StartOf(Behold(t, p), req), r,
                          GoalOf(Behold(t, p), req))
  {
    hide Behold, NamesComponents, Superset, ShownApart, Connects, WishOf, ClassEnterable, StartOf, GoalOf, Sized;
    var v := Behold(t, p);
    FloorsSeen(t, p);
    GoalInside(v, req);
    BlockedIsByClass(t, p, GoalOf(v, req));
    AskedOfLabels(v, req, c);
    LabelsCut(t, p, v, c.comp, StartOf(v, req), GoalOf(v, req));
  }

  lemma GoalInside(v: View, req: Request)
    requires v.Valid() && Asks(v, req)
    ensures StartOf(v, req) < v.w * v.h == v.N() && GoalOf(v, req) < v.N() && !v.blocked[GoalOf(v, req)]
  {
  }

  lemma AskedOfLabels(v: View, req: Request, c: Comp)
    requires v.Valid() && CompFits(v, c) && Asks(v, req) && c.Labelled?
    ensures WishOf(v, req, c) == Settled(Unreachable) <==> ShownApart(v, c.comp, StartOf(v, req), GoalOf(v, req))
  {
    hide ShownApart;
  }

  lemma LabelsCut(t: Terrain, p: Profile, v: View, comp: seq<nat>, start: nat, goal: nat)
    requires t.Valid() && v.Valid() && v.w == t.w && v.h == t.h && |comp| == v.N() && start < v.N() && goal < v.N()
    requires Sized(p) && ClassEnterable(t, p.blockMask, p.requireMask, goal)
    requires NamesComponents(Superset(t, p.blockMask, p.requireMask), comp)
    ensures start < Superset(t, p.blockMask, p.requireMask).N()
    ensures ShownApart(v, comp, start, goal) <==>
            forall r: Route :: !Connects(Superset(t, p.blockMask, p.requireMask), start, r, goal)
  {
    hide NamesComponents, TouchesLabel, ClassEnterable, Connects;
    GoalIsOpen(t, p, goal);
    ApartMeansCutOff(Superset(t, p.blockMask, p.requireMask), comp, start, goal);
  }

  /** Labels of the same components, whatever numbers they use, show the same tiles apart. */
  lemma ApartAlike(v: View, a: seq<nat>, b: seq<nat>, start: nat, goal: nat)
    requires v.Valid() && NamesComponents(v, a) && NamesComponents(v, b) && start < v.N() && goal < v.N()
             && !v.blocked[goal]
    ensures ShownApart(v, a, start, goal) <==> ShownApart(v, b, start, goal)
  {
    hide Joined, View.Valid;
    forall d: nat | d < 8 && GridInBounds(v.w, v.h, start, d)
      ensures a[GridNbr(v.w, v.h, start, d)] == a[goal] <==> b[GridNbr(v.w, v.h, start, d)] == b[goal]
    {
    }
  }

  /** A first look is decided by map, profile and request, and by whether labels of the profile's class were at hand. */
  lemma LookIsDetermined(t: Terrain, p: Profile, req: Request, c: Comp, c': Comp)
    requires t.Valid() && Sized(p) && Behold(t, p).Valid() && CompFits(Behold(t, p), c) && CompFits(Behold(t, p), c')
    requires c.Labelled? ==> NamesComponents(Superset(t, p.blockMask, p.requireMask), c.comp)
    requires c'.Labelled? ==> NamesComponents(Superset(t, p.blockMask, p.requireMask), c'.comp)
    requires c.Labelled? <==> c'.Labelled?
    ensures WishOf(Behold(t, p), req, c) == WishOf(Behold(t, p), req, c')
  {
    hide NamesComponents, ShownApart, TouchesLabel;
    var v := Behold(t, p);
    if c.Labelled? && EndpointsInside(v, req) && !v.blocked[GoalOf(v, req)] {
      var start, goal := StartOf(v, req), GoalOf(v, req);
      BlockedIsByClass(t, p, goal);
      FloorsSeen(t, p);
      SupersetApart(t, p, v, c.comp, c'.comp, start, goal);
    }
  }

  lemma SupersetApart(t: Terrain, p: Profile, v: View, a: seq<nat>, b: seq<nat>, start: nat, goal: nat)
    requires t.Valid() && v.Valid() && v.w == t.w && v.h == t.h && |a| == |b| == v.N()
    requires NamesComponents(Superset(t, p.blockMask, p.requireMask), a)
    requires NamesComponents(Superset(t, p.blockMask, p.requireMask), b)
    requires start < v.N() && goal < v.N() && ClassEnterable(t, p.blockMask, p.requireMask, goal)
    ensures ShownApart(v, a, start, goal) <==> ShownApart(v, b, start, goal)
  {
    hide NamesComponents, TouchesLabel, ClassEnterable;
    ApartAlike(Superset(t, p.blockMask, p.requireMask), a, b, start, goal);
  }

  // ---------- the call ----------

  predicate RequestFits(req: Request, sets: seq<GoalSet>, profiles: seq<Profile>) {
    && req.profileId < |profiles| && ValidLimits(req)
    && req.goalset <= |sets| && (req.goalset != 0 ==> sets[req.goalset - 1].used && !req.partial)
  }

  /** What planning sees is the map's current terrain and sets. */
  ghost predicate EnvFits(env: Env, t: Terrain, sets: seq<GoalSet>, profiles: seq<Profile>) {
    && t.Valid() && ProfilesGood(profiles)
    && |env.views| == |profiles| && (forall p | 0 <= p < |profiles| :: env.views[p] == Behold(t, profiles[p]))
    && |env.seeds| == |env.epochs| == |sets|
    && (forall s | 0 <= s < |sets| :: env.seeds[s] == sets[s].seeds && env.epochs[s] == sets[s].epoch)
  }

  function MakeEnv(t: Terrain, sets: seq<GoalSet>, profiles: seq<Profile>): (env: Env)
    requires t.Valid() && forall p | 0 <= p < |profiles| :: Sized(profiles[p])
  {
    Env(seq(|profiles|, p requires 0 <= p < |profiles| => Behold(t, profiles[p])),
        seq(|sets|, s requires 0 <= s < |sets| => sets[s].seeds),
        seq(|sets|, s requires 0 <= s < |sets| => sets[s].epoch))
  }

  lemma MakeEnvFits(t: Terrain, sets: seq<GoalSet>, profiles: seq<Profile>)
    requires t.Valid() && ProfilesGood(profiles)
    ensures EnvFits(MakeEnv(t, sets, profiles), t, sets, profiles)
  {
    hide Behold;
  }

  /** A key that fits leads, on this terrain, to what the store says it leads to. */
  lemma KeyTarget(env: Env, t: Terrain, sets: seq<GoalSet>, profiles: seq<Profile>, k: Key)
    requires EnvFits(env, t, sets, profiles) && KeyFits(env, k)
    ensures k.profile < |profiles| && k.set_ <= |sets|
    ensures env.views[k.profile] == Behold(t, profiles[k.profile]) && TargetFor(env, k) == TargetOf(k, sets)
    ensures k.set_ != 0 ==> EpochFor(env, k) == sets[k.set_ - 1].epoch
  {
    hide Behold;
  }

  /** Keys of wishes are keys a field may be made for. */
  lemma WishFits(env: Env, t: Terrain, sets: seq<GoalSet>, profiles: seq<Profile>, d: Dirty, req: Request, c: Comp)
    requires EnvFits(env, t, sets, profiles) && SetsCurrent(sets, t, d) && RequestFits(req, sets, profiles)
    requires env.views[req.profileId].Valid() && CompFits(env.views[req.profileId], c)
    ensures var w := WishOf(env.views[req.profileId], req, c);
            w.Shared? ==> KeyFits(env, w.key) && (w.key.set_ != 0 ==> sets[w.key.set_ - 1].used)
  {
    hide ShownApart;
    BeholdValid(t, profiles[req.profileId]);
  }

  /** A finished field of a running call is good: one made in the call as built, an older one as it was found. */
  lemma FieldOfCall(f: CachedField, before: seq<CachedField>, env: Env, t: Terrain, sets: seq<GoalSet>,
                    profiles: seq<Profile>)
    requires EnvFits(env, t, sets, profiles) && f.ok
    requires FieldsGood(before, sets, profiles, t) && NoneStale(before, sets)
    requires if f.newInCall
             then KeyFits(env, f.key) && f.setEpoch == EpochFor(env, f.key)
                  && f.dist == Built(env, f.key).dist && f.next == Built(env, f.key).next
                  && (f.key.set_ != 0 ==> sets[f.key.set_ - 1].used)
             else Calm(f) in before
    ensures f.key.set_ <= |sets| && FieldGood(Landed(f), sets, profiles, t) && !Reconcile.Stale(Landed(f), sets)
  {
    hide GoodOn, Behold, Field;
    if f.newInCall {
      KeyTarget(env, t, sets, profiles, f.key);
      FreshIsGood(t, profiles[f.key.profile], TargetOf(f.key, sets));
      GoodSize(t, profiles[f.key.profile], TargetOf(f.key, sets), f.dist, f.next);
    } else {
      assert FieldGood(Calm(f), sets, profiles, t);
    }
  }

  lemma GoodSize(t: Terrain, p: Profile, target: Target, dist: seq<nat>, next: seq<nat>)
    requires GoodOn(t, p, target, dist, next)
    ensures |dist| == |t.cost|
  {
  }

  /** What holds of the cache while a call runs. */
  ghost predicate CallGood(l: seq<CachedField>, before: seq<CachedField>, env: Env, sets: seq<GoalSet>) {
    && Olds(l) == before && BuiltRight(l, env) && |env.seeds| == |sets|
    && forall f | f in l && f.newInCall && f.key.set_ != 0 :: f.key.set_ <= |sets| && sets[f.key.set_ - 1].used
  }

  /** Every finished field a running call may read is good for the current terrain. */
  lemma ReadableFields(l: seq<CachedField>, before: seq<CachedField>, env: Env, t: Terrain, sets: seq<GoalSet>,
                       profiles: seq<Profile>)
    requires EnvFits(env, t, sets, profiles) && CallGood(l, before, env, sets)
    requires FieldsGood(before, sets, profiles, t) && NoneStale(before, sets)
    ensures forall f | f in l && f.ok ::
              f.key.set_ <= |sets| && FieldGood(Landed(f), sets, profiles, t) && !Reconcile.Stale(Landed(f), sets)
  {
    hide EnvFits, FieldsGood, NoneStale, Field, KeyFits, FieldGood;
    OldsElements(l);
    forall f | f in l && f.ok
      ensures f.key.set_ <= |sets| && FieldGood(Landed(f), sets, profiles, t) && !Reconcile.Stale(Landed(f), sets)
    {
      FieldOfCall(f, before, env, t, sets, profiles);
    }
  }

  /** What a commit leaves is good. */
  lemma CommittedGood(was: seq<CachedField>, asked: seq<Key>, now: seq<CachedField>, limit: nat,
                      before: seq<CachedField>, env: Env, t: Terrain, sets: seq<GoalSet>, profiles: seq<Profile>)
    requires EnvFits(env, t, sets, profiles) && CallGood(was, before, env, sets)
    requires FieldsGood(before, sets, profiles, t) && NoneStale(before, sets)
    requires Committed(was, asked, now, limit)
    ensures FieldsGood(now, sets, profiles, t) && NoneStale(now, sets)
  {
    hide EnvFits, CallGood, FieldGood, Trimmed, Only;
    ReadableFields(was, before, env, t, sets, profiles);
    EndedElements(was);
    var all: seq<CachedField> :|
      Keys(all) == Only(asked, KeySet(Ended(was))) && (set f | f in all) == LandedSet(Ended(was))
          && Trimmed(all, now, limit);
    TrimmedElements(all, now, limit);
    forall f | f in now ensures FieldGood(f, sets, profiles, t) && f.key.set_ <= |sets| && !Reconcile.Stale(f, sets) {
      assert f in LandedSet(Ended(was));
      var g :| g in Ended(was) && f == Landed(g);
      var o :| o in was && o.ok && g == o.(pinned := false);
      assert f == Landed(o);
      GoodKey(f, sets, profiles, t);
    }
  }

  lemma GoodKey(f: CachedField, sets: seq<GoalSet>, profiles: seq<Profile>, t: Terrain)
    requires FieldGood(f, sets, profiles, t)
    ensures f.key.set_ <= |sets|
  {
    hide GoodOn;
  }

  lemma TrimmedElements(all: seq<CachedField>, now: seq<CachedField>, limit: nat)
    requires Trimmed(all, now, limit)
    ensures forall f | f in now :: f in (set g | g in all)
  {
  }

  /** The wish is what the first look decides, with right labels if its class has any. */
  ghost predicate LookedAt(t: Terrain, profiles: seq<Profile>, labels: seq<LabelClass>, req: Request, w: Wish)
    requires t.Valid() && ProfilesGood(profiles) && req.profileId < |profiles|
  {
    var p := profiles[req.profileId];
    BeholdValid(t, p);
    exists c: Comp ::
      && CompFits(Behold(t, p), c)
      && (c.Labelled? ==> NamesComponents(Superset(t, p.blockMask, p.requireMask), c.comp))
      && (Asks(Behold(t, p), req) ==> (c.Labelled? <==> HasClass(labels, p)))
      && w == WishOf(Behold(t, p), req, c)
  }

  /** If it asks the labels its class has some, unless there are as many classes as may be. */
  ghost predicate LabelsServe(t: Terrain, p: Profile, labels: seq<LabelClass>, req: Request)
    requires t.Valid() && Sized(p) && Behold(t, p).Valid()
  {
    Asks(Behold(t, p), req) ==> HasClass(labels, p) || |labels| >= MAX_LABEL_CLASSES
  }

  /** Classes added for later requests change nothing for this one. */
  lemma LookStays(t: Terrain, profiles: seq<Profile>, labels: seq<LabelClass>, more: seq<LabelClass>, req: Request,
                  w: Wish)
    requires t.Valid() && ProfilesGood(profiles) && req.profileId < |profiles|
    requires Behold(t, profiles[req.profileId]).Valid() && LookedAt(t, profiles, labels, req, w)
    requires LabelsServe(t, profiles[req.profileId], labels, req)
    requires labels <= more && (|labels| >= MAX_LABEL_CLASSES ==> more == labels)
    ensures LookedAt(t, profiles, more, req, w) && LabelsServe(t, profiles[req.profileId], more, req)
  {
    hide Behold, NamesComponents, Superset, WishOf, Asks, ProfilesGood;
    var p := profiles[req.profileId];
    if HasClass(labels, p) {
      var i :| 0 <= i < |labels| && OfClass(labels[i], p);
      assert more[i] == labels[i];
    }
  }

  /** The wish is right, and the field it may ask for is one that may be made. */
  ghost predicate WishGood(env: Env, t: Terrain, sets: seq<GoalSet>, profiles: seq<Profile>, labels: seq<LabelClass>,
                           req: Request, w: Wish)
    requires t.Valid() && ProfilesGood(profiles)
  {
    && req.profileId < |profiles| && LookedAt(t, profiles, labels, req, w)
    && Behold(t, profiles[req.profileId]).Valid() && LabelsServe(t, profiles[req.profileId], labels, req)
    && (w.Shared? ==>
          && KeyFits(env, w.key) && w.key.set_ <= |sets|
          && (w.key.set_ != 0 ==> sets[w.key.set_ - 1].used))
  }

  method ClassifyOne(st: Store, t: Terrain, env: Env, req: Request) returns (w: Wish)
    requires t.Valid() && LabelsGood(st.labels, t) && EnvFits(env, t, st.sets, st.m.interner.profiles)
    requires SetsCurrent(st.sets, t, st.m.dirty) && RequestFits(req, st.sets, st.m.interner.profiles)
    modifies st`labels
    ensures LabelsGood(st.labels, t) && WishGood(env, t, st.sets, st.m.interner.profiles, st.labels, req, w)
    ensures old(st.labels) <= st.labels && (|old(st.labels)| >= MAX_LABEL_CLASSES ==> st.labels == old(st.labels))
  {
    hide LabelsGood, Behold, WishOf, NamesComponents, Current, SetsCurrent, Asks, HasClass;
    ghost var p := st.m.interner.profiles[req.profileId];
    BeholdValid(t, p);
    ghost var c;
    w, c := Classify(st, t, st.m.interner.profiles[req.profileId], env.views[req.profileId], req);
    WishFits(env, t, st.sets, st.m.interner.profiles, st.m.dirty, req, c);
  }

  method ClassifyAll(st: Store, t: Terrain, env: Env, reqs: seq<Request>) returns (w: seq<Wish>)
    requires t.Valid() && LabelsGood(st.labels, t) && EnvFits(env, t, st.sets, st.m.interner.profiles)
    requires SetsCurrent(st.sets, t, st.m.dirty) && ProfilesGood(st.m.interner.profiles)
    requires forall i | 0 <= i < |reqs| :: RequestFits(reqs[i], st.sets, st.m.interner.profiles)
    modifies st`labels
    ensures LabelsGood(st.labels, t) && |w| == |reqs|
    ensures forall j | 0 <= j < |w| :: WishGood(env, t, st.sets, st.m.interner.profiles, st.labels, reqs[j], w[j])
  {
    hide LabelsGood, WishGood, RequestFits, SetsCurrent, EnvFits, ProfilesGood;
    w := [];
    for i := 0 to |reqs|
      invariant LabelsGood(st.labels, t) && |w| == i
      invariant forall j | 0 <= j < i :: WishGood(env, t, st.sets, st.m.interner.profiles, st.labels, reqs[j], w[j])
    {
      ghost var labels := st.labels;
      var x := ClassifyOne(st, t, env, reqs[i]);
      forall j | 0 <= j < i ensures WishGood(env, t, st.sets, st.m.interner.profiles, st.labels, reqs[j], w[j]) {
        WishStays(env, t, st.sets, st.m.interner.profiles, labels, st.labels, reqs[j], w[j]);
      }
      w := w + [x];
    }
  }

  lemma WishStays(env: Env, t: Terrain, sets: seq<GoalSet>, profiles: seq<Profile>, labels: seq<LabelClass>,
                  more: seq<LabelClass>, req: Request, w: Wish)
    requires t.Valid() && ProfilesGood(profiles) && WishGood(env, t, sets, profiles, labels, req, w)
    requires labels <= more && (|labels| >= MAX_LABEL_CLASSES ==> more == labels)
    ensures WishGood(env, t, sets, profiles, more, req, w)
  {
    hide Behold, LookedAt, LabelsServe, ProfilesGood, KeyFits;
    LookStays(t, profiles, labels, more, req, w);
  }

  /** What a request is answered with, given its fate: a status, its own search, or the field for its key. */
  ghost predicate FinalAnswer(t: Terrain, sets: seq<GoalSet>, profiles: seq<Profile>, req: Request, f: Fate, a: Answer)
    requires t.Valid() && ProfilesGood(profiles)
  {
    && req.profileId < |profiles|
    && match f
       case ByStatus(s) => a == Answer(s, 0, [], 0, 0)
       case BySearch =>
         Answerable(Behold(t, profiles[req.profileId]), req)
             && a == SearchAnswer(Behold(t, profiles[req.profileId]), req)
       case ByField(k) => k.set_ <= |sets| && AnswerOfField(t, sets, profiles[req.profileId], req, k, a)
       case ByError => false
  }

  ghost predicate AnswerOfField(t: Terrain, sets: seq<GoalSet>, p: Profile, req: Request, k: Key, a: Answer)
    requires Sized(p) && t.Valid() && k.set_ <= |sets|
  {
    var v, target := Behold(t, p), TargetOf(k, sets);
    && Answerable(v, req) && req.startX < v.w && req.startY < v.h && ValidTarget(v, target)
    && a == FieldNow(v, target, req)
  }

  /** What a field built on the current terrain answers. */
  ghost function FieldNow(v: View, target: Target, req: Request): Answer
    requires Answerable(v, req) && req.startX < v.w && req.startY < v.h && ValidTarget(v, target)
  {
    FieldFinished(v, target);
    FieldAnswer(v, target, Field(v, target), req)
  }

  /** Given answers are final ones. */
  lemma GivenIsFinal(env: Env, t: Terrain, sets: seq<GoalSet>, profiles: seq<Profile>, req: Request, j: nat, s: Stage,
                     done: seq<Task>, a: Answer, wishes: seq<Wish>, cached: seq<CachedField>, threshold: nat,
                     cache: Cache)
    requires EnvFits(env, t, sets, profiles) && req.profileId < |profiles| && j < |wishes|
    requires Given(env, req, j, s, done, a) && StageIs(s, BatchFate(wishes, cached, threshold, cache, j))
    requires forall task | task in done :: TaskIs(task, wishes, cached, threshold, cache)
    ensures FinalAnswer(t, sets, profiles, req, BatchFate(wishes, cached, threshold, cache, j), a)
  {
    hide Behold, SearchAnswer, FieldAnswer, Finished, Field, Answerable, FateOf;
    if s == Blank {
      var task :| task in done && !task.BuildTask? && task.req == j && RightAnswer(env, req, task, a);
      assert TaskIs(task, wishes, cached, threshold, cache);
      if task.ExtractTask? {
        SameTarget(env, t, sets, profiles, task.key);
      }
    }
  }

  lemma SameTarget(env: Env, t: Terrain, sets: seq<GoalSet>, profiles: seq<Profile>, k: Key)
    requires EnvFits(env, t, sets, profiles) && k.profile < |env.views| && k.set_ <= |env.seeds|
    ensures k.profile < |profiles| && k.set_ <= |sets|
    ensures env.views[k.profile] == Behold(t, profiles[k.profile]) && TargetFor(env, k) == TargetOf(k, sets)
  {
    hide Behold;
  }

  /** Requests, wishes and views fit each other for planning. */
  lemma BatchIsAsked(env: Env, t: Terrain, sets: seq<GoalSet>, profiles: seq<Profile>, labels: seq<LabelClass>,
                     reqs: seq<Request>, wishes: seq<Wish>)
    requires EnvFits(env, t, sets, profiles) && |reqs| == |wishes|
    requires forall j | 0 <= j < |reqs| :: RequestFits(reqs[j], sets, profiles)
    requires forall j | 0 <= j < |reqs| :: WishGood(env, t, sets, profiles, labels, reqs[j], wishes[j])
    ensures ViewsFit(env, |t.cost|) && forall j | 0 <= j < |reqs| :: AskedFor(env, reqs[j], wishes[j])
  {
    hide ValidLimits, KeyFits, ShownApart, NamesComponents;
    forall p | 0 <= p < |env.views|
      ensures env.views[p].Valid() && env.views[p].N() == |t.cost|
              && Heuristic.Clamped(env.views[p])
    {
      BeholdValid(t, profiles[p]);
    }
    hide Behold;
    forall j | 0 <= j < |reqs| ensures AskedFor(env, reqs[j], wishes[j]) {
      assert env.views[reqs[j].profileId] == Behold(t, profiles[reqs[j].profileId]);
      FloorsSeen(t, profiles[reqs[j].profileId]);
      assert LookedAt(t, profiles, labels, reqs[j], wishes[j]);
    }
  }

  lemma FloorsSeen(t: Terrain, p: Profile)
    requires Sized(p) && |t.tags| == |t.cost|
    ensures Behold(t, p).hD == p.hD && Behold(t, p).hD2 == p.hD2 && Behold(t, p).w == t.w && Behold(t, p).h == t.h
  {
  }

  /** The fields a call finds may be read in the views it uses. */
  lemma OldFieldsReadable(env: Env, t: Terrain, sets: seq<GoalSet>, profiles: seq<Profile>, before: seq<CachedField>)
    requires EnvFits(env, t, sets, profiles) && FieldsGood(before, sets, profiles, t) && NoneStale(before, sets)
    ensures forall f | f in before :: Readable(env, f.key, f.dist, f.next)
  {
    hide Behold, Field;
    forall f | f in before ensures Readable(env, f.key, f.dist, f.next) {
      assert FieldGood(f, sets, profiles, t);
      SameTarget(env, t, sets, profiles, f.key);
    }
  }

  /** A batch ready to be planned: looked at, with views, sets and cached fields all current. */
  ghost predicate BatchReady(env: Env, t: Terrain, sets: seq<GoalSet>, profiles: seq<Profile>, cached: seq<CachedField>,
                             reqs: seq<Request>, wishes: seq<Wish>)
  {
    && t.Valid() && ProfilesGood(profiles) && EnvFits(env, t, sets, profiles)
    && FieldsGood(cached, sets, profiles, t) && NoneStale(cached, sets)
    && |wishes| == |reqs| < NO_MEMBER && ViewsFit(env, |t.cost|)
    && (forall j | 0 <= j < |wishes| && wishes[j].Shared? :: KeyUsable(env, sets, wishes[j].key))
    && (forall j | 0 <= j < |reqs| :: reqs[j].profileId < |profiles| && AskedFor(env, reqs[j], wishes[j]))
  }

  /** Every request has its final answer. */
  ghost predicate AllFinal(t: Terrain, sets: seq<GoalSet>, profiles: seq<Profile>, reqs: seq<Request>,
                           wishes: seq<Wish>, cached: seq<CachedField>, threshold: nat, cache: Cache,
                           answers: seq<Answer>)
  {
    && t.Valid() && ProfilesGood(profiles) && |wishes| == |answers| == |reqs|
    && forall j | 0 <= j < |reqs| ::
         FinalAnswer(t, sets, profiles, reqs[j], BatchFate(wishes, cached, threshold, cache, j), answers[j])
  }

  lemma BatchParts(env: Env, t: Terrain, sets: seq<GoalSet>, profiles: seq<Profile>, cached: seq<CachedField>,
                   reqs: seq<Request>, wishes: seq<Wish>)
    requires BatchReady(env, t, sets, profiles, cached, reqs, wishes)
    ensures t.Valid() && EnvFits(env, t, sets, profiles) && FieldsGood(cached, sets, profiles, t)
            && NoneStale(cached, sets)
    ensures |reqs| == |wishes|
  {
    hide EnvFits, FieldsGood, NoneStale, ViewsFit, KeyUsable, AskedFor;
  }

  method AnyRefused(stage: seq<Stage>) returns (refused: bool)
    ensures refused <==> exists j :: 0 <= j < |stage| && stage[j] == Refused
  {
    for j := 0 to |stage|
      invariant forall i | 0 <= i < j :: stage[i] != Refused
    {
      if stage[j] == Refused {
        return true;
      }
    }
    refused := false;
  }

  /** Plans and runs the wishes and assembles the results.  A refused request, or the caller, makes the call undo what
      it did to the cache; otherwise it is kept. */
  method RunBatch(st: Store, crew: Crew, t: Terrain, env: Env, reqs: seq<Request>, wishes: seq<Wish>, threshold: nat,
                  hash: Key -> nat, keep: bool)
    returns (s: CallStatus, rows: seq<ResRow>, steps: seq<Step>, ghost answers: seq<Answer>, ghost plan: Plan)
    requires st.cache.Idle() && crew.Valid(|t.cost|) && Aside(st, crew)
    requires BatchReady(env, t, st.sets, st.m.interner.profiles, st.cache.lru, reqs, wishes)
    modifies st.cache, crew.Repr
    ensures st.cache.Idle() && crew.Valid(|t.cost|) && fresh(crew.Repr - old(crew.Repr))
    ensures FieldsGood(st.cache.lru, st.sets, st.m.interner.profiles, t) && NoneStale(st.cache.lru, st.sets)
    ensures s == Verdict(wishes, old(st.cache.lru), threshold, st.cache, keep)
    ensures s != CallOk ==> st.cache.lru == old(st.cache.lru) && rows == [] && steps == []
    ensures s == CallOk ==>
              && Results(rows, steps) == Ideal(answers)
              && AllFinal(t, st.sets, st.m.interner.profiles, reqs, wishes, old(st.cache.lru), threshold, st.cache,
                 answers)
              && Serves(plan, WorkOf(env, reqs), answers)
    ensures Aside(st, crew)
  {
    hide BatchReady, EnvFits, Cache.Idle, Cache.Valid, FieldsGood, NoneStale, Committed, AllFinal, Ideal, Crew.Valid,
      Resolved, CallGood, AllStaged, Trimmed;
    ghost var before := st.cache.lru;
    BatchParts(env, t, st.sets, st.m.interner.profiles, before, reqs, wishes);
    rows, steps, answers, plan := [], [], [], Plan([], []);
    crew.Clear(|t.cost|);
    var stage: seq<Stage>;
    ghost var done: seq<Task>, waves: seq<Wave>;
    stage, done, waves := PlanAndRun(st, crew, t, env, reqs, wishes, threshold, hash);
    plan := Plan(stage, waves);
    RefusedIsDenied(stage, done, wishes, before, threshold, st.cache);
    var refused := AnyRefused(stage);
    if refused || !keep {
      s := if refused then ResourceLimit else Cancelled;
      st.cache.Rollback();
      return;
    }
    rows, steps, answers := DeliverFinal(st, crew, t, env, reqs, stage, wishes, threshold, before, done, waves);
    ghost var was, asked := st.cache.lru, st.cache.asked;
    st.cache.Commit();
    CommittedGood(was, asked, st.cache.lru, st.cache.Retention(), before, env, t, st.sets, st.m.interner.profiles);
    s := CallOk;
  }

  /** Planning refuses a request exactly when its fate is the error. */
  lemma RefusedIsDenied(stage: seq<Stage>, done: seq<Task>, wishes: seq<Wish>, cached: seq<CachedField>,
                        threshold: nat, cache: Cache)
    requires Resolved(stage, done, wishes, cached, threshold, cache)
    ensures |stage| == |wishes|
    ensures forall j | 0 <= j < |stage| :: stage[j] == Refused <==> Denied(wishes, cached, threshold, cache, j)
  {
    hide Names;
    forall j | 0 <= j < |stage| ensures stage[j] == Refused <==> Denied(wishes, cached, threshold, cache, j) {
      assert StageIs(stage[j], BatchFate(wishes, cached, threshold, cache, j));
      if stage[j] == Blank {
        TaskNamed(done, j);
        var task :| task in done && !task.BuildTask? && task.req == j;
        assert TaskIs(task, wishes, cached, threshold, cache);
      }
    }
  }

  /** A request gets no field it cannot do without. */
  ghost predicate Denied(wishes: seq<Wish>, cached: seq<CachedField>, threshold: nat, cache: Cache, j: nat)
    requires j < |wishes|
  {
    BatchFate(wishes, cached, threshold, cache, j) == ByError
  }

  /** That happens exactly to set queries whose field is not cached, when not even one field fits in working memory. */
  lemma DeniedIffNoRoom(wishes: seq<Wish>, cached: seq<CachedField>, threshold: nat, cache: Cache, j: nat)
    requires j < |wishes|
    ensures Denied(wishes, cached, threshold, cache, j) <==>
              cache.working < cache.one && wishes[j].Shared? && wishes[j].key.set_ != 0
              && forall f | f in cached :: f.key != wishes[j].key
  {
    var k := if wishes[j].Shared? then wishes[j].key else Key(0, 0, 0);
    assert k in KeySet(cached) <==> exists f :: f in cached && f.key == k;
  }

  /** How a valid batch ends: refused if any request is, else kept or not as the caller has it. */
  ghost function Verdict(wishes: seq<Wish>, cached: seq<CachedField>, threshold: nat, cache: Cache, keep: bool)
    : (s: CallStatus)
    ensures s in {CallOk, ResourceLimit, Cancelled} && (s == CallOk ==> keep)
  {
    if exists j :: 0 <= j < |wishes| && Denied(wishes, cached, threshold, cache, j) then ResourceLimit
    else if keep then CallOk
    else Cancelled
  }

  /** With room for one field a valid batch is delivered if and only if it is kept. */
  lemma RoomMeansDelivered(wishes: seq<Wish>, cached: seq<CachedField>, threshold: nat, cache: Cache, keep: bool)
    requires cache.one <= cache.working
    ensures Verdict(wishes, cached, threshold, cache, keep) == if keep then CallOk else Cancelled
  {
    forall j | 0 <= j < |wishes| ensures !Denied(wishes, cached, threshold, cache, j) {
      DeniedIffNoRoom(wishes, cached, threshold, cache, j);
    }
  }

  /** Delivers the staged answers, each of them final. */
  method DeliverFinal(st: Store, crew: Crew, t: Terrain, env: Env, reqs: seq<Request>, stage: seq<Stage>,
                      wishes: seq<Wish>, threshold: nat, ghost before: seq<CachedField>, ghost done: seq<Task>,
                      ghost waves: seq<Wave>)
    returns (rows: seq<ResRow>, steps: seq<Step>, ghost answers: seq<Answer>)
    requires BatchReady(env, t, st.sets, st.m.interner.profiles, before, reqs, wishes) && |wishes| == |stage|
    requires crew.Valid(|t.cost|) && AllStaged(crew, env, reqs, done) && forall j | 0 <= j < |stage| ::
             stage[j] != Refused
    requires Flat(waves) == done && forall w | w in waves :: WaveServes(w)
    requires Resolved(stage, done, wishes, before, threshold, st.cache)
    ensures Results(rows, steps) == Ideal(answers)
    ensures AllFinal(t, st.sets, st.m.interner.profiles, reqs, wishes, before, threshold, st.cache, answers)
    ensures Serves(Plan(stage, waves), WorkOf(env, reqs), answers)
  {
    hide EnvFits, FinalAnswer, Given, Ideal, AllStaged, Names, FieldsGood, NoneStale, ViewsFit, KeyUsable, AskedFor,
      Crew.Valid, Crew.Staged, RowsCarry, Serves, Flat, WaveServes;
    OnceResolved(stage, done, wishes, before, threshold, st.cache);
    answers := CollectAnswers(crew, env, reqs, stage, done, |reqs|);
    PlanServes(env, reqs, Plan(stage, waves), answers);
    var texts := crew.Texts(|t.cost|);
    StagedCarry(crew, |t.cost|, env, reqs, stage, done, answers);
    rows, steps := Deliver(crew.rows, texts, stage, answers);
    forall j | 0 <= j < |reqs|
      ensures FinalAnswer(t, st.sets, st.m.interner.profiles, reqs[j],
              BatchFate(wishes, before, threshold, st.cache, j), answers[j])
    {
      GivenIsFinal(env, t, st.sets, st.m.interner.profiles, reqs[j], j, stage[j], done, answers[j], wishes, before,
          threshold,
                   st.cache);
    }
  }

  lemma OnceResolved(stage: seq<Stage>, done: seq<Task>, wishes: seq<Wish>, cached: seq<CachedField>, threshold: nat,
                     cache: Cache)
    requires Resolved(stage, done, wishes, cached, threshold, cache) && forall j | 0 <= j < |stage| ::
             stage[j] != Refused
    ensures ResolvedOnce(stage, done)
  {
    hide Names, StageIs, TaskIs;
    forall r: nat ensures Names(done)[r] <= 1 {
      if r < |wishes| {
        assert Names(done)[r] + (if stage[r] == Blank then 0 else 1) == 1;
      }
    }
  }

  lemma StagedCarry(crew: Crew, n: nat, env: Env, reqs: seq<Request>, stage: seq<Stage>, done: seq<Task>,
                    answers: seq<Answer>)
    requires crew.Valid(n) && |stage| == |reqs| == |answers|
    requires forall j | 0 <= j < |reqs| :: Given(env, reqs[j], j, stage[j], done, answers[j])
    requires forall j | 0 <= j < |reqs| && stage[j] == Blank :: crew.Staged(j, answers[j])
    ensures RowsCarry(crew.rows, crew.Bufs(), stage, answers)
  {
    hide RightAnswer, Carried, SearchContext.Valid, Desk.Frame;
  }

  /** Plans and runs the wishes. */
  method PlanAndRun(st: Store, crew: Crew, t: Terrain, env: Env, reqs: seq<Request>, wishes: seq<Wish>, threshold: nat,
                    hash: Key -> nat)
    returns (stage: seq<Stage>, ghost done: seq<Task>, ghost waves: seq<Wave>)
    requires st.cache.Idle() && crew.Valid(|t.cost|) && Aside(st, crew)
    requires BatchReady(env, t, st.sets, st.m.interner.profiles, st.cache.lru, reqs, wishes)
    modifies st.cache, crew.Repr
    ensures st.cache.Valid() && crew.Valid(|t.cost|) && fresh(crew.Repr - old(crew.Repr)) && Aside(st, crew)
    ensures st.cache.before == old(st.cache.lru) && CallGood(st.cache.lru, old(st.cache.lru), env, st.sets)
    ensures Resolved(stage, done, wishes, old(st.cache.lru), threshold, st.cache) && AllStaged(crew, env, reqs, done)
    ensures Flat(waves) == done && forall w | w in waves :: WaveServes(w)
  {
    hide EnvFits, Cache.Idle, Cache.Valid, FieldsGood, NoneStale, KeyFits, Planning.Going, Planning.Sound,
      Planning.Looking, Planning.Load, Planning.Consistent, Crew.Valid, ViewsFit, AskedFor, AllStaged, Resolved,
      CallGood, Readable;
    ghost var before := st.cache.lru;
    var plan := new Planning(st.cache, crew, reqs, wishes, threshold, env, |t.cost|);
    CacheFacts(st.cache);
    OldFieldsReadable(env, t, st.sets, st.m.interner.profiles, before);
    Starts(plan);
    plan.Execute(hash);
    SoundCache(plan);
    ResolvedBy(plan, before);
    CallIsGood(plan, before, t, st.sets, st.m.interner.profiles);
    DeskHolds(plan);
    stage, done, waves := plan.stage, plan.done, plan.waves;
  }

  lemma SoundCache(plan: Planning)
    requires plan.Sound()
    ensures plan.cache.Valid() && |plan.stage| == |plan.wishes|
  {
  }

  lemma Starts(plan: Planning)
    requires plan.done == [] && plan.waves == [] && |plan.reqs| == |plan.wishes| && ViewsFit(plan.env, plan.tiles)
             && plan.crew.Valid(plan.tiles)
    requires forall j | 0 <= j < |plan.wishes| :: AskedFor(plan.env, plan.reqs[j], plan.wishes[j])
    requires forall f | f in plan.cache.before :: Readable(plan.env, f.key, f.dist, f.next)
    requires |plan.stage| == |plan.wishes| && plan.t1 == [] && plan.t2 == []
    requires forall j | 0 <= j < |plan.stage| :: plan.stage[j] == Blank
    ensures plan.Going() && forall j | 0 <= j < |plan.stage| :: plan.Load(j) == 0
  {
  }

  lemma DeskHolds(plan: Planning)
    requires plan.Going()
    ensures plan.crew.Valid(plan.tiles) && AllStaged(plan.crew, plan.env, plan.reqs, plan.done)
    ensures Flat(plan.waves) == plan.done && forall w | w in plan.waves :: WaveServes(w)
  {
    hide RightAnswer, Crew.Staged, Crew.Valid, Flat, WaveServes;
    forall t | t in plan.done && !t.BuildTask?
      ensures t.req < |plan.reqs|
              && exists a :: RightAnswer(plan.env, plan.reqs[t.req], t, a) && plan.crew.Staged(t.req, a)
    {
      assert plan.Answered(t);
    }
  }

  lemma CacheFacts(cache: Cache)
    requires cache.Idle()
    ensures cache.Valid() && cache.before == cache.lru
  {
  }

  lemma ResolvedBy(plan: Planning, cached: seq<CachedField>)
    requires plan.Sound() && |plan.stage| == |plan.wishes| && plan.cached == KeySet(cached)
    requires forall j: nat | j < |plan.wishes| :: Names(plan.done)[j] + (if plan.stage[j] == Blank then 0 else 1) == 1
    ensures Resolved(plan.stage, plan.done, plan.wishes, cached, plan.threshold, plan.cache)
  {
    hide Cache.Valid, BuiltRight, Ready1, Ready2, KeyFits, FateOf, Names;
    forall j | 0 <= j < |plan.wishes|
      ensures StageIs(plan.stage[j], BatchFate(plan.wishes, cached, plan.threshold, plan.cache, j))
    {
      assert plan.StageFits(j);
    }
    forall r: nat | r >= |plan.wishes| ensures Names(plan.done)[r] == 0 {
      plan.NamedIsReal(plan.done, r);
    }
    forall task | task in plan.done ensures TaskIs(task, plan.wishes, cached, plan.threshold, plan.cache) {
      assert plan.Fits(task);
    }
  }

  lemma CallIsGood(plan: Planning, before: seq<CachedField>, t: Terrain, sets: seq<GoalSet>, profiles: seq<Profile>)
    requires plan.Sound() && plan.cache.before == before && EnvFits(plan.env, t, sets, profiles)
    requires FieldsGood(before, sets, profiles, t) && plan.cached == KeySet(before)
    requires forall j | 0 <= j < |plan.wishes| && plan.wishes[j].Shared? ::
             KeyUsable(plan.env, sets, plan.wishes[j].key)
    requires forall k | k in KeySet(plan.cache.lru) ::
               k in plan.cached || exists j :: 0 <= j < |plan.wishes| && plan.wishes[j] == Shared(k)
    ensures CallGood(plan.cache.lru, before, plan.env, sets)
  {
    hide KeyFits, BuiltRight, GoodOn, Ready1, Ready2, Cache.Linked, Order, Only;
    forall f | f in plan.cache.lru && f.newInCall && f.key.set_ != 0
      ensures f.key.set_ <= |sets| && sets[f.key.set_ - 1].used
    {
      assert f.key in KeySet(plan.cache.lru);
      if f.key in plan.cached {
        var g :| g in before && g.key == f.key;
        assert FieldGood(g, sets, profiles, t);
      } else {
        var j :| 0 <= j < |plan.wishes| && plan.wishes[j] == Shared(f.key);
        assert KeyUsable(plan.env, sets, plan.wishes[j].key);
      }
    }
  }

  /** Brings the store up to date and takes a first look at every request.  `labels` are those of before the look. */
  method LookOver(st: Store, reqs: seq<Request>) returns (t: Terrain, env: Env, w: seq<Wish>, labels: seq<LabelClass>)
    requires st.Valid() && |reqs| < NO_MEMBER
    requires forall i | 0 <= i < |reqs| :: RequestFits(reqs[i], st.sets, st.m.interner.profiles)
    modifies st, st.m`dirty, st.m`base, st.cache
    ensures st.Valid() && st.UpToDate() && t == st.m.Now() == old(st.m.Now()) && |t.cost| == st.m.w * st.m.h
    ensures LabelsGood(labels, t) && ProfilesGood(st.m.interner.profiles)
    ensures env == MakeEnv(t, st.sets, st.m.interner.profiles)
    ensures KeysKnown(old(st.cache.lru), st.sets, st.m.interner.profiles)
    ensures st.cache.lru == Reconciled(st, old(st.cache.lru), old(st.m.dirty))
    ensures BatchReady(env, t, st.sets, st.m.interner.profiles, st.cache.lru, reqs, w)
    ensures AllLookedAt(t, st.sets, st.m.interner.profiles, st.labels, reqs, w)
    ensures forall c :: c in labels <==> c in old(st.labels) && !Relabel(c, old(st.m.dirty))
  {
    hide Map.Valid, Cache.Idle, FieldsGood, NoneStale, LabelsGood, EnvFits, WishGood, Refreshed, RequestFits,
      Survivors, Current, MakeEnv, AllLookedAt, BatchReady;
    st.m.NowFits();
    st.Reconcile();
    StillFits(reqs, old(st.sets), st.sets, st.m.Now(), old(st.m.dirty), st.m.interner.profiles);
    st.m.NowFits();
    t := st.m.Snapshot();
    labels := st.labels;
    env := MakeEnv(t, st.sets, st.m.interner.profiles);
    MakeEnvFits(t, st.sets, st.m.interner.profiles);
    w := ClassifyAll(st, t, env, reqs);
    ReadyToPlan(env, t, st.sets, st.m.interner.profiles, st.cache.lru, st.labels, reqs, w);
  }

  /** A batch of valid requests.  The store is valid and up to date after it whatever happens.  A kept call delivers,
      for every request, the final answer its fate calls for; any other leaves exactly the fields that reconciling
      left. */
  method AnswerValid(st: Store, crew: Crew, reqs: seq<Request>, threshold: nat, hash: Key -> nat, keep: bool)
    returns (s: CallStatus, rows: seq<ResRow>, steps: seq<Step>, ghost wishes: seq<Wish>, ghost answers: seq<Answer>,
             ghost plan: Plan)
    requires st.Valid() && crew.Valid(st.m.w * st.m.h) && |reqs| < NO_MEMBER && Aside(st, crew)
    requires forall i | 0 <= i < |reqs| :: RequestFits(reqs[i], st.sets, st.m.interner.profiles)
    modifies st, st.m`dirty, st.m`base, st.cache, crew.Repr
    ensures st.Valid() && st.UpToDate() && st.m.Now() == old(st.m.Now())
    ensures crew.Valid(st.m.w * st.m.h) && fresh(crew.Repr - old(crew.Repr))
    ensures KeysKnown(old(st.cache.lru), st.sets, st.m.interner.profiles)
    ensures s == Verdict(wishes, Reconciled(st, old(st.cache.lru), old(st.m.dirty)), threshold, st.cache, keep)
    ensures st.cache.one <= st.cache.working ==> s == if keep then CallOk else Cancelled
    ensures s != CallOk ==>
              && rows == [] && steps == []
              && (forall c :: c in st.labels <==> c in old(st.labels) && !Relabel(c, old(st.m.dirty)))
              && st.cache.lru == Reconciled(st, old(st.cache.lru), old(st.m.dirty))
    ensures s == CallOk ==>
              Delivered(st, reqs, wishes, Reconciled(st, old(st.cache.lru), old(st.m.dirty)), threshold, rows, steps,
                  answers, plan)
  {
    hide Map.Valid, Cache.Idle, FieldsGood, NoneStale, LabelsGood, Survivors, Current, Crew.Valid, AllFinal,
      AllLookedAt, BatchReady, Ideal, RequestFits;
    st.m.NowFits();
    var t, env, w, labels := LookOver(st, reqs);
    wishes := w;
    s, rows, steps, answers, plan := RunBatch(st, crew, t, env, reqs, w, threshold, hash, keep);
    if st.cache.one <= st.cache.working {
      RoomMeansDelivered(w, Reconciled(st, old(st.cache.lru), old(st.m.dirty)), threshold, st.cache, keep);
    }
    if s != CallOk {
      st.labels := labels;
    }
  }

  /** The workers share nothing with the map and what it remembers. */
  ghost predicate Aside(st: Store, crew: Crew)
    reads st.m.interner, crew
  {
    && st !in crew.Repr && st.m !in crew.Repr && st.m.costQ !in crew.Repr && st.m.comboIdx !in crew.Repr
    && st.m.interner !in crew.Repr && st.m.interner.table !in crew.Repr && st.cache !in crew.Repr
  }

  /** The fields reconciling leaves of those cached before. */
  ghost function Reconciled(st: Store, was: seq<CachedField>, d: Dirty): seq<CachedField>
    requires st.m.w > 0 && KeysKnown(was, st.sets, st.m.interner.profiles)
    reads st`sets, st.m.interner`profiles
  {
    Survivors(was, st.sets, st.m.interner.profiles, d, st.m.w, st.m.h)
  }

  /** Every request is valid and its wish is what the first look decides. */
  ghost predicate AllLookedAt(t: Terrain, sets: seq<GoalSet>, profiles: seq<Profile>, labels: seq<LabelClass>,
                              reqs: seq<Request>, wishes: seq<Wish>) {
    && t.Valid() && ProfilesGood(profiles) && |wishes| == |reqs|
    && forall j | 0 <= j < |reqs| ::
         && RequestFits(reqs[j], sets, profiles) && LookedAt(t, profiles, labels, reqs[j], wishes[j])
         && Behold(t, profiles[reqs[j].profileId]).Valid()
         && LabelsServe(t, profiles[reqs[j].profileId], labels, reqs[j])
  }

  /** The results object holds, in request order, the final answer to every request, and the plan serves them. */
  ghost predicate Delivered(st: Store, reqs: seq<Request>, wishes: seq<Wish>, cached: seq<CachedField>, threshold: nat,
                            rows: seq<ResRow>, steps: seq<Step>, answers: seq<Answer>, plan: Plan)
    reads st`sets, st`labels, st.m, st.m.costQ, st.m.comboIdx, st.m.interner
  {
    && Results(rows, steps) == Ideal(answers)
    && AllFinal(st.m.Now(), st.sets, st.m.interner.profiles, reqs, wishes, cached, threshold, st.cache, answers)
    && AllLookedAt(st.m.Now(), st.sets, st.m.interner.profiles, st.labels, reqs, wishes)
    && Serves(plan, WorkOf(MakeEnv(st.m.Now(), st.sets, st.m.interner.profiles), reqs), answers)
  }

  datatype CallStatus = CallOk | BadProfile | BadGoalSet | BadArgument | ResourceLimit | Cancelled

  /** What is wrong with a request, checked in this order. */
  function CheckRequest(req: Request, sets: seq<GoalSet>, profiles: seq<Profile>): (s: CallStatus)
    ensures s in {CallOk, BadProfile, BadGoalSet, BadArgument}
  {
    if req.profileId >= |profiles| then BadProfile
    else if req.goalset != 0 && (req.goalset > |sets| || !sets[req.goalset - 1].used) then BadGoalSet
    else if req.goalset != 0 && req.partial then BadArgument
    else if !ValidLimits(req) then BadArgument
    else CallOk
  }

  lemma CheckedFits(req: Request, sets: seq<GoalSet>, profiles: seq<Profile>)
    ensures CheckRequest(req, sets, profiles) == CallOk <==> RequestFits(req, sets, profiles)
  {
  }

  /** The first request with something wrong decides. */
  method ValidateRequests(reqs: seq<Request>, sets: seq<GoalSet>, profiles: seq<Profile>) returns (s: CallStatus)
    ensures s == CallOk <==> forall i | 0 <= i < |reqs| :: RequestFits(reqs[i], sets, profiles)
    ensures s in {CallOk, BadProfile, BadGoalSet, BadArgument}
    ensures s != CallOk ==>
              exists i :: 0 <= i < |reqs| && s == CheckRequest(reqs[i], sets, profiles)
                          && forall j | 0 <= j < i :: RequestFits(reqs[j], sets, profiles)
  {
    hide RequestFits, CheckRequest;
    for i := 0 to |reqs|
      invariant forall j | 0 <= j < i :: RequestFits(reqs[j], sets, profiles)
    {
      CheckedFits(reqs[i], sets, profiles);
      s := CheckRequest(reqs[i], sets, profiles);
      if s != CallOk {
        return;
      }
    }
    s := CallOk;
  }

  /** The public call.  An invalid request anywhere, or no request at all, leaves everything untouched; otherwise the
      batch is answered. */
  method FindPaths(st: Store, crew: Crew, reqs: seq<Request>, threshold: nat, hash: Key -> nat, keep: bool)
    returns (s: CallStatus, rows: seq<ResRow>, steps: seq<Step>, ghost wishes: seq<Wish>, ghost answers: seq<Answer>,
             ghost plan: Plan)
    requires st.Valid() && crew.Valid(st.m.w * st.m.h) && |reqs| < NO_MEMBER && Aside(st, crew)
    modifies st, st.m`dirty, st.m`base, st.cache, crew.Repr
    ensures st.Valid() && st.m.Now() == old(st.m.Now())
    ensures crew.Valid(st.m.w * st.m.h) && fresh(crew.Repr - old(crew.Repr))
    ensures s in {BadProfile, BadGoalSet, BadArgument} <==>
              exists i :: 0 <= i < |reqs| && !RequestFits(reqs[i], old(st.sets), st.m.interner.profiles)
    ensures s in {BadProfile, BadGoalSet, BadArgument} ==>
              exists i :: 0 <= i < |reqs| && s == CheckRequest(reqs[i], old(st.sets), st.m.interner.profiles)
                          && forall j | 0 <= j < i :: RequestFits(reqs[j], old(st.sets), st.m.interner.profiles)
    ensures s in {BadProfile, BadGoalSet, BadArgument} || reqs == [] ==>
              && st.sets == old(st.sets) && st.labels == old(st.labels)
              && st.cache.lru == old(st.cache.lru) && st.m.dirty == old(st.m.dirty)
    ensures s != CallOk || reqs == [] ==> rows == [] && steps == []
    ensures reqs == [] ==> s == CallOk
    ensures reqs != [] && s !in {BadProfile, BadGoalSet, BadArgument} ==>
              && KeysKnown(old(st.cache.lru), st.sets, st.m.interner.profiles)
              && s == Verdict(wishes, Reconciled(st, old(st.cache.lru), old(st.m.dirty)), threshold, st.cache, keep)
              && (st.cache.one <= st.cache.working ==> s == if keep then CallOk else Cancelled)
    ensures s == CallOk && reqs != [] ==>
              && keep && st.UpToDate() && KeysKnown(old(st.cache.lru), st.sets, st.m.interner.profiles)
              && Delivered(st, reqs, wishes, Reconciled(st, old(st.cache.lru), old(st.m.dirty)), threshold, rows, steps,
                 answers, plan)
  {
    hide RequestFits, CheckRequest, Survivors, Map.Valid, Cache.Idle, LookedAt, Delivered, Crew.Valid, Verdict;
    rows, steps, wishes, answers, plan := [], [], [], [], Plan([], []);
    s := ValidateRequests(reqs, st.sets, st.m.interner.profiles);
    if s != CallOk || |reqs| == 0 {
      return;
    }
    s, rows, steps, wishes, answers, plan := AnswerValid(st, crew, reqs, threshold, hash, keep);
  }

  /** Refreshing sets leaves requests as valid as they were. */
  lemma StillFits(reqs: seq<Request>, was: seq<GoalSet>, sets: seq<GoalSet>, now: Terrain, d: Dirty,
                  profiles: seq<Profile>)
    requires now.Valid() && SetsRefreshed(was, sets, now, d)
    requires forall i | 0 <= i < |reqs| :: RequestFits(reqs[i], was, profiles)
    ensures forall i | 0 <= i < |reqs| :: RequestFits(reqs[i], sets, profiles)
  {
    hide Pending, ValidLimits, MembersOn, SeedsFor;
    forall i | 0 <= i < |reqs| ensures RequestFits(reqs[i], sets, profiles) {
      if reqs[i].goalset != 0 {
        assert sets[reqs[i].goalset - 1] == AfterRefresh(was[reqs[i].goalset - 1], now, d);
      }
    }
  }

  lemma ReadyToPlan(env: Env, t: Terrain, sets: seq<GoalSet>, profiles: seq<Profile>, cached: seq<CachedField>,
                    labels: seq<LabelClass>, reqs: seq<Request>, w: seq<Wish>)
    requires t.Valid() && ProfilesGood(profiles) && EnvFits(env, t, sets, profiles) && |w| == |reqs| < NO_MEMBER
    requires FieldsGood(cached, sets, profiles, t) && NoneStale(cached, sets)
    requires forall j | 0 <= j < |reqs| :: RequestFits(reqs[j], sets, profiles)
    requires forall j | 0 <= j < |w| :: WishGood(env, t, sets, profiles, labels, reqs[j], w[j])
    ensures BatchReady(env, t, sets, profiles, cached, reqs, w) && AllLookedAt(t, sets, profiles, labels, reqs, w)
  {
    hide KeyFits, LookedAt, ProfilesGood, EnvFits, FieldsGood, NoneStale, ViewsFit, AskedFor;
    BatchIsAsked(env, t, sets, profiles, labels, reqs, w);
  }

  ghost function BatchFate(wishes: seq<Wish>, cached: seq<CachedField>, threshold: nat, cache: Cache, j: nat): Fate
    requires j < |wishes|
  {
    FateOf(wishes, KeySet(cached), threshold, cache.one <= cache.working, j)
  }

  /** What planning wrote into a staging row is the request's fate. */
  ghost predicate StageIs(s: Stage, f: Fate) {
    match s
    case Blank => true
    case Status(x) => f == ByStatus(x)
    case Refused => f == ByError
  }

  ghost predicate TaskIs(task: Task, wishes: seq<Wish>, cached: seq<CachedField>, threshold: nat, cache: Cache) {
    match task
    case BuildTask(_) => true
    case SolveTask(j) => j < |wishes| && BatchFate(wishes, cached, threshold, cache, j) == BySearch
    case ExtractTask(j, k) => j < |wishes| && BatchFate(wishes, cached, threshold, cache, j) == ByField(k)
  }

  /** Every request is resolved exactly once, each as its fate says. */
  ghost predicate Resolved(stage: seq<Stage>, done: seq<Task>, wishes: seq<Wish>, cached: seq<CachedField>,
                           threshold: nat, cache: Cache)
  {
    && |stage| == |wishes|
    && (forall j: nat | j < |wishes| :: Names(done)[j] + (if stage[j] == Blank then 0 else 1) == 1)
    && (forall r: nat | r >= |wishes| :: Names(done)[r] == 0)
    && (forall j | 0 <= j < |wishes| :: StageIs(stage[j], BatchFate(wishes, cached, threshold, cache, j)))
    && (forall task | task in done :: TaskIs(task, wishes, cached, threshold, cache))
  }

  ghost predicate KeyUsable(env: Env, sets: seq<GoalSet>, k: Key) {
    KeyFits(env, k) && k.set_ <= |sets| && (k.set_ != 0 ==> sets[k.set_ - 1].used)
  }

  // ---------- results depend on no schedule, and on nothing but the inputs ----------

  /** The plan of a kept call, run again on any crew of workers with any contexts and buffers, and under any
      interleaving of their steps in every round of every wave, assembles to the results the call delivered. */
  method ReplayDelivers(st: Store, t: World, plan: Plan, ghost reqs: seq<Request>, ghost wishes: seq<Wish>,
                        ghost cached: seq<CachedField>, ghost threshold: nat, ghost rows: seq<ResRow>,
                        ghost steps: seq<Step>, ghost answers: seq<Answer>, ghost s: World, ghost plays: seq<Play>)
    returns (rows': seq<ResRow>, steps': seq<Step>)
    requires Delivered(st, reqs, wishes, cached, threshold, rows, steps, answers, plan) && |s.busy| == |s.bufs|
    requires var work := WorkOf(MakeEnv(st.m.Now(), st.sets, st.m.interner.profiles), reqs);
             BatchPlayed(s, plan.waves, work, plays) && t == AfterBatch(s, plan.waves, work, plays)
    ensures Results(rows', steps') == Results(rows, steps)
  {
    hide Ideal, Serves, FinalAnswer, AllLookedAt, BatchPlayed, AfterBatch, WorkOf, MakeEnv, FromDesc;
    rows', steps' := DeliverAny(t, plan, WorkOf(MakeEnv(st.m.Now(), st.sets, st.m.interner.profiles), reqs), answers, s,
        plays);
  }

  /** Final answers are fixed by the map, the sets, the profiles, the requests with their first looks, and which keys
      were cached: not by what the cached fields, the contexts or the buffers went through. */
  lemma FinalIsDetermined(t: Terrain, sets: seq<GoalSet>, profiles: seq<Profile>, reqs: seq<Request>, wishes: seq<Wish>,
                          cached: seq<CachedField>, cached': seq<CachedField>, threshold: nat, cache: Cache,
                          cache': Cache, answers: seq<Answer>, answers': seq<Answer>)
    requires AllFinal(t, sets, profiles, reqs, wishes, cached, threshold, cache, answers)
    requires AllFinal(t, sets, profiles, reqs, wishes, cached', threshold, cache', answers')
    requires KeySet(cached) == KeySet(cached') && (cache.one <= cache.working <==> cache'.one <= cache'.working)
    ensures answers == answers'
  {
    hide Behold, SearchAnswer, FieldNow, FateOf, Answerable, ProfilesGood;
    forall j | 0 <= j < |answers| ensures answers[j] == answers'[j] {
      assert FinalAnswer(t, sets, profiles, reqs[j], BatchFate(wishes, cached, threshold, cache, j), answers[j]);
      assert FinalAnswer(t, sets, profiles, reqs[j], BatchFate(wishes, cached', threshold, cache', j), answers'[j]);
    }
  }
}
