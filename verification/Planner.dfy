/** Planning and running a batch: which requests are settled at once, searched, or answered from fields; how fields
    that do not fit together are built in waves; and why every request is resolved exactly once. */
module Planner {
  import opened Recency
  import opened FieldCache
  import opened Groups
  import opened SearchKernel
  import opened Grid
  import opened OpenList
  import opened FieldMachine
  import opened FieldExact
  import opened FieldAnswers
  import opened Solve
  import opened Staging

  /** What a first look at a request decides: a status at once, a search of its own, or a field if one is worth it. */
  datatype Wish = Settled(status: PathStatus) | Alone | Shared(key: Key)

  datatype Task = SolveTask(req: nat) | BuildTask(key: Key) | ExtractTask(req: nat, key: Key)

  /** A staging row, as far as planning writes it. */
  datatype Stage = Blank | Status(status: PathStatus) | Refused

  /** How a request is resolved. */
  datatype Fate = ByStatus(status: PathStatus) | BySearch | ByField(key: Key) | ByError

  // ---------- counting ----------

  ghost function NameOf(t: Task): multiset<nat> {
    if t.BuildTask? then multiset{} else multiset{t.req}
  }

  /** The requests a task list resolves. */
  ghost function Names(ts: seq<Task>): multiset<nat> {
    if ts == [] then multiset{} else Names(ts[..|ts| - 1]) + NameOf(ts[|ts| - 1])
  }

  ghost function Builds(ts: seq<Task>): nat {
    if ts == [] then 0 else Builds(ts[..|ts| - 1]) + if ts[|ts| - 1].BuildTask? then 1 else 0
  }

  lemma PushCounts(ts: seq<Task>, t: Task)
    ensures Names(ts + [t]) == Names(ts) + NameOf(t)
    ensures Builds(ts + [t]) == Builds(ts) + if t.BuildTask? then 1 else 0
  {
    assert (ts + [t])[..|ts|] == ts;
  }

  lemma {:induction false} NamesConcat(a: seq<Task>, b: seq<Task>)
    ensures Names(a + b) == Names(a) + Names(b)
  {
    hide Names, NameOf;
    if b == [] {
      NamesNone();
      assert a + b == a;
    } else {
      var c, t := b[..|b| - 1], b[|b| - 1];
      NamesConcat(a, c);
      PushCounts(a + c, t);
      PushCounts(c, t);
      assert a + b == (a + c) + [t] && b == c + [t];
    }
  }

  lemma {:induction false} SizeIsNamesAndBuilds(ts: seq<Task>)
    ensures |ts| == |Names(ts)| + Builds(ts)
  {
    if ts != [] {
      SizeIsNamesAndBuilds(ts[..|ts| - 1]);
    }
  }

  /** Requests named at most once each are at most as many as there are. */
  lemma {:induction false} NamedOnce(m: multiset<nat>, n: nat)
    requires forall j: nat | j in m :: j < n && m[j] <= 1
    ensures |m| <= n
  {
    if n > 0 {
      var rest := m[n - 1 := 0];
      NamedOnce(rest, n - 1);
    } else {
      assert m == multiset{};
    }
  }

  // ---------- what pending tasks rely on ----------

  /** A pinned field for `k`, finished if `ok`, made in this call if `new_`. */
  ghost predicate Pinned(l: seq<CachedField>, k: Key, ok: bool, new_: bool) {
    exists f | f in l :: f.key == k && f.pinned && (ok ==> f.ok) && (new_ ==> f.newInCall)
  }

  ghost predicate Ready1(l: seq<CachedField>, t1: seq<Task>) {
    && (forall t | t in t1 && t.ExtractTask? :: Pinned(l, t.key, true, false))
    && (forall t | t in t1 && t.BuildTask? :: Pinned(l, t.key, false, true))
  }

  /** Second-round tasks read fields that are finished already or will be by the first round. */
  ghost predicate Ready2(l: seq<CachedField>, t1: seq<Task>, t2: seq<Task>) {
    && (forall t | t in t2 :: t.ExtractTask? && Pinned(l, t.key, false, false))
    && (forall t | t in t2 :: Pinned(l, t.key, true, false) || BuildTask(t.key) in t1)
  }

  /** Pinned fields of `l` are all still there in `l'`, no less finished. */
  ghost predicate KeepsPins(l: seq<CachedField>, l': seq<CachedField>) {
    forall f | f in l && f.pinned :: Pinned(l', f.key, f.ok, f.newInCall)
  }

  lemma PinsKept(l: seq<CachedField>, l': seq<CachedField>, t1: seq<Task>, t2: seq<Task>)
    requires KeepsPins(l, l')
    ensures Ready1(l, t1) ==> Ready1(l', t1)
    ensures Ready2(l, t1, t2) ==> Ready2(l', t1, t2)
  {
    forall k: Key, ok: bool, new_: bool | Pinned(l, k, ok, new_) ensures Pinned(l', k, ok, new_) {
      var f :| f in l && f.key == k && f.pinned && (ok ==> f.ok) && (new_ ==> f.newInCall);
      assert Pinned(l', f.key, f.ok, f.newInCall);
    }
    hide Pinned;
  }

  /** What a batch sees: each profile's view, and each goal set's seeds and epoch. */
  datatype Env = Env(views: seq<View>, seeds: seq<seq<bool>>, epochs: seq<nat>)

  function TargetFor(env: Env, k: Key): Target
    requires k.set_ <= |env.seeds|
  {
    if k.set_ == 0 then Tile(k.goal) else Seeds(env.seeds[k.set_ - 1])
  }

  /** A key a field may be made for; single goals that cannot be entered never get one. */
  ghost predicate KeyFits(env: Env, k: Key) {
    && k.profile < |env.views| && env.views[k.profile].Valid()
    && k.set_ <= |env.seeds| == |env.epochs| && ValidTarget(env.views[k.profile], TargetFor(env, k))
    && (k.set_ == 0 ==> !env.views[k.profile].blocked[k.goal])
  }

  function EpochFor(env: Env, k: Key): nat
    requires k.set_ <= |env.epochs|
  {
    if k.set_ == 0 then 0 else env.epochs[k.set_ - 1]
  }

  ghost function Built(env: Env, k: Key): FieldState
    requires KeyFits(env, k)
  {
    Field(env.views[k.profile], TargetFor(env, k))
  }

  /** A finished field for `k` may be read: it is the field of the profile's view. */
  ghost predicate Readable(env: Env, k: Key, dist: seq<nat>, next: seq<nat>) {
    && k.profile < |env.views| && env.views[k.profile].Valid() && k.set_ <= |env.seeds|
    && ValidTarget(env.views[k.profile], TargetFor(env, k))
    && Stored(dist, next) == Field(env.views[k.profile], TargetFor(env, k))
  }

  /** All views show the same tiles. */
  ghost predicate ViewsFit(env: Env, tiles: nat) {
    forall p | 0 <= p < |env.views| :: env.views[p].Valid() && env.views[p].N() == tiles
  }

  /** The request can be answered in its profile's view, from the field it wishes for if any. */
  ghost predicate AskedFor(env: Env, req: Request, w: Wish) {
    && req.profileId < |env.views| && Answerable(env.views[req.profileId], req)
    && (w.Shared? ==>
          && KeyFits(env, w.key) && w.key.profile == req.profileId
          && req.startX < env.views[req.profileId].w && req.startY < env.views[req.profileId].h)
  }

  /** What a task must answer: a search's own answer, or what the field for the key says. */
  ghost predicate RightAnswer(env: Env, req: Request, t: Task, a: Answer) {
    && req.profileId < |env.views| && Answerable(env.views[req.profileId], req)
    && match t
       case BuildTask(_) => false
       case SolveTask(_) => a == SearchAnswer(env.views[req.profileId], req)
       case ExtractTask(_, k) => ReadsFrom(env, req, k) && a == FieldGives(env, req, k)
  }

  /** The request may be answered from the field for `k`. */
  ghost predicate ReadsFrom(env: Env, req: Request, k: Key) {
    && k.profile == req.profileId < |env.views| && Answerable(env.views[k.profile], req)
    && req.startX < env.views[k.profile].w && req.startY < env.views[k.profile].h
    && k.set_ <= |env.seeds| && ValidTarget(env.views[k.profile], TargetFor(env, k))
  }

  /** What the field for `k` answers. */
  ghost function FieldGives(env: Env, req: Request, k: Key): Answer
    requires ReadsFrom(env, req, k)
  {
    FieldFinished(env.views[k.profile], TargetFor(env, k));
    FieldAnswer(env.views[k.profile], TargetFor(env, k), Field(env.views[k.profile], TargetFor(env, k)), req)
  }

  /** Fields made in this call carry their set's epoch, and once finished what building them gives. */
  ghost predicate BuiltRight(l: seq<CachedField>, env: Env) {
    && (forall f | f in l && f.newInCall :: KeyFits(env, f.key) && f.setEpoch == EpochFor(env, f.key))
    && (forall f | f in l && f.newInCall && f.ok ::
         f.dist == Built(env, f.key).dist && f.next == Built(env, f.key).next)
  }

  ghost predicate NoNewPins(l: seq<CachedField>) {
    forall f | f in l :: !(f.pinned && f.newInCall)
  }

  /** How often each request is named by tasks run, queued for the two rounds, or settled. */
  ghost predicate LoadsFit(loads: seq<nat>, done: seq<Task>, t1: seq<Task>, t2: seq<Task>, stage: seq<Stage>) {
    && |loads| == |stage|
    && forall j | 0 <= j < |stage| ::
         loads[j] <= 1 && loads[j] == Names(done)[j] + Names(t1)[j] + Names(t2)[j] + if stage[j] == Blank then 0 else 1
  }

  // ---------- fates ----------

  /** Requests whose field is not cached when the batch begins are grouped by key. */
  ghost function WantOf(w: Wish, cached: set<Key>): Want {
    if w.Shared? && w.key !in cached then Joins(w.key) else Apart
  }

  ghost function WantsOf(wishes: seq<Wish>, cached: set<Key>): (s: seq<Want>)
    ensures |s| == |wishes| && forall j | 0 <= j < |s| :: s[j] == WantOf(wishes[j], cached)
  {
    seq(|wishes|, j requires 0 <= j < |wishes| => WantOf(wishes[j], cached))
  }

  /** Set queries always want a field; a single goal needs enough requests to share it. */
  ghost predicate WorthField(wishes: seq<Wish>, cached: set<Key>, k: Key, threshold: nat) {
    k.set_ != 0 || |Members(WantsOf(wishes, cached), k)| >= threshold
  }

  /** How each request of a batch ends up being resolved, from what is cached, how many share a goal, and whether one
      field fits in working memory at all. */
  ghost function FateOf(wishes: seq<Wish>, cached: set<Key>, threshold: nat, fits: bool, j: nat): Fate
    requires j < |wishes|
  {
    match wishes[j]
    case Settled(s) => ByStatus(s)
    case Alone => BySearch
    case Shared(k) =>
      if k in cached then ByField(k)
      else if fits && WorthField(wishes, cached, k, threshold) then ByField(k)
      else if k.set_ != 0 then ByError
      else BySearch
  }

  /** Everybody who wishes for the field of `k`. */
  ghost function Sharers(wishes: seq<Wish>, k: Key): set<nat> {
    set j: nat | j < |wishes| && wishes[j] == Shared(k)
  }

  lemma {:induction false} MembersCount(wishes: seq<Wish>, cached: set<Key>, k: Key)
    requires k !in cached
    ensures |Members(WantsOf(wishes, cached), k)| == |Sharers(wishes, k)|
  {
    if wishes == [] {
      assert Sharers(wishes, k) == {};
    } else {
      var n := |wishes| - 1;
      var before := wishes[..n];
      MembersCount(before, cached, k);
      assert WantsOf(wishes, cached)[..n] == WantsOf(before, cached);
      assert Sharers(wishes, k) == Sharers(before, k) + if wishes[n] == Shared(k) then {n} else {};
    }
  }

  /** How a request that wishes for a field is resolved: from the field if it was cached, or if there is room and the
      goal is a set or shared by enough requests; otherwise by its own search, which sets do not have. */
  lemma SharersDecide(wishes: seq<Wish>, cached: set<Key>, threshold: nat, fits: bool, j: nat, k: Key)
    requires j < |wishes| && wishes[j] == Shared(k)
    ensures var fate := FateOf(wishes, cached, threshold, fits, j);
            && (fate == ByField(k) <==>
                  k in cached || (fits && (k.set_ != 0 || |Sharers(wishes, k)| >= threshold)))
            && (fate == BySearch <==>
                  k !in cached && k.set_ == 0 && !(fits && |Sharers(wishes, k)| >= threshold))
            && (fate == ByError <==> k !in cached && k.set_ != 0 && !fits)
  {
    if k !in cached {
      MembersCount(wishes, cached, k);
    }
  }

  lemma NeverStarves(wishes: seq<Wish>, cached: set<Key>, threshold: nat, j: nat)
    requires j < |wishes|
    ensures FateOf(wishes, cached, threshold, true, j) != ByError
  {
  }

  // ---------- the history of a batch ----------

  /** One wave: the keys whose fields were finished when it began, and the tasks of its two rounds. */
  datatype Wave = Wave(have: set<Key>, t1: seq<Task>, t2: seq<Task>)

  /** All tasks of some waves, in order. */
  ghost function Flat(ws: seq<Wave>): seq<Task> {
    if ws == [] then [] else Flat(ws[..|ws| - 1]) + ws[|ws| - 1].t1 + ws[|ws| - 1].t2
  }

  /** Extractions of the first round read fields that were there, those of the second may read what the first built. */
  ghost predicate WaveServes(w: Wave) {
    && (forall t | t in w.t1 && t.ExtractTask? :: t.key in w.have)
    && (forall t | t in w.t2 :: t.ExtractTask? && (t.key in w.have || BuildTask(t.key) in w.t1))
  }

  ghost function FinishedKeys(l: seq<CachedField>): set<Key> {
    set f | f in l && f.ok :: f.key
  }

  lemma FlatGrows(ws: seq<Wave>, w: Wave)
    ensures Flat(ws + [w]) == Flat(ws) + w.t1 + w.t2
  {
    assert (ws + [w])[..|ws|] == ws;
  }

  class Planning {
    const cache: Cache
    /** The workers; which of them runs a task is left open. */
    const crew: Crew
    const reqs: seq<Request>
    const wishes: seq<Wish>
    const threshold: nat
    const env: Env
    const tiles: nat
    var t1: seq<Task>
    var t2: seq<Task>
    var stage: seq<Stage>
    /** Tasks already run, in order. */
    ghost var done: seq<Task>
    /** The same, wave by wave. */
    ghost var waves: seq<Wave>
    /** Keys cached when the batch began. */
    ghost var cached: set<Key>

    constructor (cache: Cache, crew: Crew, reqs: seq<Request>, wishes: seq<Wish>, threshold: nat, env: Env, tiles: nat)
      requires cache.Idle() && forall j | 0 <= j < |wishes| && wishes[j].Shared? :: KeyFits(env, wishes[j].key)
      ensures this.cache == cache && this.wishes == wishes && this.threshold == threshold
      ensures this.env == env && this.crew == crew && this.reqs == reqs && this.tiles == tiles && Looking()
      ensures Consistent() && t1 == [] && t2 == [] && done == [] && waves == [] && cached == KeySet(cache.lru)
              && |stage| == |wishes|
      ensures forall j | 0 <= j < |stage| :: stage[j] == Blank
    {
      this.cache, this.crew, this.reqs, this.tiles := cache, crew, reqs, tiles;
      this.wishes, this.threshold, this.env := wishes, threshold, env;
      t1, t2, stage := [], [], seq(|wishes|, _ => Blank);
      done, waves, cached := [], [], KeySet(cache.lru);
    }

    ghost function Fate(j: nat): Fate
      requires j < |wishes|
      reads this`cached
    {
      FateOf(wishes, cached, threshold, cache.one <= cache.working, j)
    }

    /** Requests, wishes and views fit each other. */
    ghost predicate Asked() {
      |reqs| == |wishes| && ViewsFit(env, tiles) && forall j | 0 <= j < |wishes| :: AskedFor(env, reqs[j], wishes[j])
    }

    ghost predicate OldReadable()
      reads cache`before
    {
      forall f | f in cache.before :: Readable(env, f.key, f.dist, f.next)
    }

    /** The task's request has been answered rightly. */
    ghost predicate Answered(t: Task)
      reads crew, crew.Repr
    {
      !t.BuildTask? && t.req < |reqs| && exists a :: RightAnswer(env, reqs[t.req], t, a) && crew.Staged(t.req, a)
    }

    ghost predicate Delivered(ts: seq<Task>)
      reads crew, crew.Repr
    {
      forall t | t in ts && !t.BuildTask? :: Answered(t)
    }

    /** What running tasks relies on, and keeps. */
    ghost predicate Going()
      reads this`done, this`waves, cache`before, crew, crew.Repr
    {
      Asked() && OldReadable() && crew.Valid(tiles) && Delivered(done) && Recorded()
    }

    /** The history of waves accounts for every task run, and each wave found the fields it needed. */
    ghost predicate Recorded()
      reads this`done, this`waves
    {
      Flat(waves) == done && forall w | w in waves :: WaveServes(w)
    }

    /** The workers have nothing to do with the plan or the cache. */
    ghost predicate Aside()
      reads crew
    {
      this !in crew.Repr && cache !in crew.Repr
    }

    /** A task resolves its request the way it is meant to be. */
    ghost predicate Fits(t: Task)
      reads this`cached
    {
      match t
      case BuildTask(k) => KeyFits(env, k)
      case SolveTask(j) => j < |wishes| && Fate(j) == BySearch
      case ExtractTask(j, k) => j < |wishes| && Fate(j) == ByField(k)
    }

    ghost predicate AllFit(ts: seq<Task>)
      reads this`cached
    {
      forall t | t in ts :: Fits(t)
    }

    ghost predicate StageFits(j: nat)
      requires j < |wishes| == |stage|
      reads this`cached, this`stage
    {
      match stage[j]
      case Blank => true
      case Status(s) => Fate(j) == ByStatus(s)
      case Refused => Fate(j) == ByError
    }

    /** How often a request has been resolved or queued. */
    ghost function Load(j: nat): nat
      requires j < |stage|
      reads this`t1, this`t2, this`done, this`stage
    {
      Names(done)[j] + Names(t1)[j] + Names(t2)[j] + if stage[j] == Blank then 0 else 1
    }

    /** Pending tasks find their fields pinned, and everything resolves as it should, at most once. */
    ghost predicate Sound()
      reads this, cache
    {
      && cache.Valid() && BuiltRight(cache.lru, env)
      && Ready1(cache.lru, t1) && Ready2(cache.lru, t1, t2)
      && AllFit(t1) && AllFit(t2) && AllFit(done)
      && (forall j | 0 <= j < |wishes| && wishes[j].Shared? :: KeyFits(env, wishes[j].key))
      && |stage| == |wishes| && (forall j | 0 <= j < |stage| :: StageFits(j))
      && (forall j | 0 <= j < |stage| :: Load(j) <= 1)
    }

    /** Besides, an empty wave pins no field made in this call. */
    ghost predicate Consistent()
      reads this, cache
    {
      Sound() && (t1 == [] && t2 == [] ==> NoNewPins(cache.lru))
    }

    // ---------- queueing ----------

    /** Room for one more task in the first round: every task names a request not yet resolved, or builds one group's
        field, and there are no more groups than requests. */
    lemma RoomFor(t: Task)
      requires Sound() && (t.BuildTask? || (t.req < |wishes| && Load(t.req) == 0))
      ensures |t1| + |NameOf(t)| <= |wishes| + Builds(t1)
      ensures Builds(t2) == 0 ==> |t2| + |NameOf(t)| <= |wishes|
    {
      hide Cache.Valid, BuiltRight, Ready1, Ready2, StageFits, Fits, Names, KeyFits, Builds;
      SizeIsNamesAndBuilds(t1);
      SizeIsNamesAndBuilds(t2);
      forall j: nat | j in Names(t1) + Names(t2) + NameOf(t)
        ensures j < |wishes| && (Names(t1) + Names(t2) + NameOf(t))[j] <= 1
      {
        NamedIsReal(t1, j);
        NamedIsReal(t2, j);
        assert j < |stage|;
        assert Load(j) <= 1;
      }
      NamedOnce(Names(t1) + Names(t2) + NameOf(t), |wishes|);
    }

    lemma {:induction false} NamedIsReal(ts: seq<Task>, j: nat)
      requires AllFit(ts)
      ensures j in Names(ts) ==> j < |wishes|
    {
      hide Fate;
      if ts != [] {
        var rest, t := ts[..|ts| - 1], ts[|ts| - 1];
        assert Fits(t);
        assert AllFit(rest);
        NamedIsReal(rest, j);
      }
    }

    method Queue1(t: Task)
      requires Sound() && Fits(t) && |t1| < 2 * |wishes|
      requires !t.BuildTask? ==> Load(t.req) == 0
      requires t.ExtractTask? ==> Pinned(cache.lru, t.key, true, false)
      requires t.BuildTask? ==> Pinned(cache.lru, t.key, false, true)
      modifies this`t1
      ensures Consistent() && t1 == old(t1) + [t]
      ensures forall j | 0 <= j < |stage| :: Load(j) == old(Load(j)) + if t.BuildTask? || t.req != j then 0 else 1
    {
      hide Cache.Valid, Pinned, BuiltRight, Names, Fate;
      PushCounts(t1, t);
      t1 := t1 + [t];
      forall j | 0 <= j < |stage| ensures Load(j) == old(Load(j)) + if t.BuildTask? || t.req != j then 0 else 1 {
      }
    }

    method Queue2(t: Task)
      requires Sound() && Fits(t) && t.ExtractTask? && Load(t.req) == 0 && |t2| < |wishes|
      requires Pinned(cache.lru, t.key, false, false)
      requires Pinned(cache.lru, t.key, true, false) || BuildTask(t.key) in t1
      modifies this`t2
      ensures Consistent() && t2 == old(t2) + [t]
      ensures forall j | 0 <= j < |stage| :: Load(j) == old(Load(j)) + if t.req != j then 0 else 1
    {
      hide Cache.Valid, Pinned, BuiltRight, Names, Fate;
      PushCounts(t2, t);
      t2 := t2 + [t];
      forall j | 0 <= j < |stage| ensures Load(j) == old(Load(j)) + if t.req != j then 0 else 1 {
      }
    }

    method Settle(i: nat, s: Stage)
      requires Sound() && i < |stage| && Load(i) == 0
      requires s.Status? ==> Fate(i) == ByStatus(s.status)
      requires s != Blank && (s == Refused ==> Fate(i) == ByError)
      modifies this`stage
      ensures Sound() && (old(Consistent()) ==> Consistent()) && stage == old(stage)[i := s]
      ensures forall j | 0 <= j < |stage| :: Load(j) == old(Load(j)) + if i != j then 0 else 1
    {
      hide Cache.Valid, Pinned, BuiltRight, Names, Fate;
      stage := stage[i := s];
      forall j | 0 <= j < |stage| ensures Load(j) == old(Load(j)) + if i != j then 0 else 1 {
      }
      forall j | 0 <= j < |stage| ensures StageFits(j) {
        assert i != j ==> old(StageFits(j)) && stage[j] == old(stage)[j];
      }
    }

    // ---------- running a wave ----------

    /** Runs one task.  Whatever it reads is pinned, and finished if it is to be read from; answers given before
        stay. */
    method Run(t: Task)
      requires cache.Valid() && BuiltRight(cache.lru, env) && Asked() && OldReadable() && crew.Valid(tiles) && Fits(t)
               && Aside()
      requires t.ExtractTask? ==> Pinned(cache.lru, t.key, true, false)
      requires t.BuildTask? ==> Pinned(cache.lru, t.key, false, true)
      modifies cache`lru, crew.Repr
      ensures cache.Valid() && BuiltRight(cache.lru, env) && KeepsPins(old(cache.lru), cache.lru)
      ensures t.BuildTask? ==> Pinned(cache.lru, t.key, true, true)
      ensures KeySet(cache.lru) == KeySet(old(cache.lru))
      ensures crew.Valid(tiles) && Aside() && fresh(crew.Repr - old(crew.Repr))
      ensures t.BuildTask? || Answered(t)
      ensures forall x: Task | old(Answered(x)) && (t.BuildTask? || x.req != t.req) :: Answered(x)
    {
      hide Cache.Valid, BuiltRight, RightAnswer, SearchAnswer, FieldAnswer, Crew.Valid, Answerable, Pinned, OldReadable;
      PinsThemselves(cache.lru);
      match t
      case BuildTask(k) =>
        RunBuild(k);
      case SolveTask(j) =>
        HasWorkers();
        var w := crew.Claim();
        crew.Search(w, env.views[reqs[j].profileId], reqs[j], j);
        SearchIsRight(t, reqs[j]);
      case ExtractTask(j, k) =>
        RunExtract(j, k);
    }

    method RunBuild(k: Key)
      requires cache.Valid() && BuiltRight(cache.lru, env) && Asked() && crew.Valid(tiles) && KeyFits(env, k) && Aside()
      requires Pinned(cache.lru, k, false, true)
      modifies cache`lru, crew.Repr
      ensures cache.Valid() && BuiltRight(cache.lru, env) && KeepsPins(old(cache.lru), cache.lru)
      ensures Pinned(cache.lru, k, true, true) && KeySet(cache.lru) == KeySet(old(cache.lru))
      ensures crew.Valid(tiles) && Aside() && fresh(crew.Repr - old(crew.Repr))
      ensures forall x: Task | old(Answered(x)) :: Answered(x)
    {
      hide Cache.Valid, BuiltRight, RightAnswer, SearchAnswer, FieldAnswer, Crew.Valid, Answerable, Field, Pinned,
        KeepsPins;
      BuildTarget(k);
      ghost var was := cache.lru;
      HasWorkers();
      var w := crew.Claim();
      var dist, next := crew.Build(w, env.views[k.profile], TargetFor(env, k));
      cache.Complete(k, dist, next);
      CompletedPins(was, cache.lru, k, env);
    }

    method RunExtract(j: nat, k: Key)
      requires cache.Valid() && BuiltRight(cache.lru, env) && Asked() && OldReadable() && crew.Valid(tiles) && Aside()
      requires Fits(ExtractTask(j, k)) && Pinned(cache.lru, k, true, false)
      modifies crew.Repr
      ensures crew.Valid(tiles) && Aside() && fresh(crew.Repr - old(crew.Repr)) && Answered(ExtractTask(j, k))
      ensures forall x: Task | old(Answered(x)) && x.req != j :: Answered(x)
    {
      hide Cache.Valid, BuiltRight, RightAnswer, SearchAnswer, FieldAnswer, Crew.Valid, Answerable, Pinned, OldReadable,
        Crew.Staged, Fits, Asked, Usable, Readable, View.Valid, ValidTarget;
      HasWorkers();
      FinishedAt(k);
      var at := PositionOf(cache.lru, k);
      var f := cache.lru[at];
      FieldToRead(f);
      AskedKey(j, k);
      FieldIsRight(ExtractTask(j, k), reqs[j], k, f);
      var w := crew.Claim();
      crew.Read(w, env.views[k.profile], TargetFor(env, k), f.dist, f.next, reqs[j], j);
    }

    lemma HasWorkers()
      requires crew.Valid(tiles)
      ensures |crew.desks| > 0
    {
    }

    lemma SearchIsRight(t: Task, req: Request)
      requires t.SolveTask? && req.profileId < |env.views| && Answerable(env.views[req.profileId], req)
      ensures RightAnswer(env, req, t, SearchAnswer(env.views[req.profileId], req))
    {
    }

    lemma FieldIsRight(t: Task, req: Request, k: Key, f: CachedField)
      requires t.ExtractTask? && t.key == k && k.profile == req.profileId < |env.views|
      requires Answerable(env.views[req.profileId], req) && Readable(env, k, f.dist, f.next)
      requires req.startX < env.views[k.profile].w && req.startY < env.views[k.profile].h
      ensures k.set_ <= |env.seeds| && env.views[k.profile].Valid()
              && ValidTarget(env.views[k.profile], TargetFor(env, k))
      ensures Usable(env.views[k.profile], TargetFor(env, k), Stored(f.dist, f.next))
      ensures RightAnswer(env, req, t, FieldAnswer(env.views[k.profile], TargetFor(env, k), Stored(f.dist, f.next),
              req))
    {
      hide FieldAnswer, Finished, Answerable, Field, View.Valid, ValidTarget;
      FieldFinished(env.views[k.profile], TargetFor(env, k));
    }

    /** A request read from a field wished for exactly that field. */
    lemma AskedKey(j: nat, k: Key)
      requires Asked() && Fits(ExtractTask(j, k))
      ensures j < |reqs| && k.profile == reqs[j].profileId < |env.views| && Answerable(env.views[k.profile], reqs[j])
      ensures env.views[k.profile].N() == tiles
      ensures reqs[j].startX < env.views[k.profile].w && reqs[j].startY < env.views[k.profile].h
    {
      hide Answerable, KeyFits;
      assert AskedFor(env, reqs[j], wishes[j]);
    }

    /** The cached field for a pinned, finished key. */
    lemma FinishedAt(k: Key)
      requires cache.Valid() && Pinned(cache.lru, k, true, false)
      ensures k in KeySet(cache.lru) && forall f | f in cache.lru && f.key == k :: f.ok
    {
      cache.DistinctInValid();
      var f :| f in cache.lru && f.key == k && f.pinned && f.ok;
      var i :| 0 <= i < |cache.lru| && cache.lru[i] == f;
      DistinctAt(cache.lru, i);
    }

    /** A finished field in the cache may be read, whether made in this call or before. */
    lemma FieldToRead(f: CachedField)
      requires cache.Valid() && BuiltRight(cache.lru, env) && OldReadable() && f in cache.lru && f.ok
      ensures Readable(env, f.key, f.dist, f.next)
    {
      hide Field;
      if !f.newInCall {
        OldsElements(cache.lru);
        assert Calm(f) in cache.before;
      }
    }

    lemma BuildTarget(k: Key)
      requires cache.Valid() && Pinned(cache.lru, k, false, true)
      ensures k in KeySet(cache.lru) && forall f | f in cache.lru && f.key == k :: f.newInCall
    {
      cache.DistinctInValid();
      var f :| f in cache.lru && f.key == k && f.pinned && f.newInCall;
      var i :| 0 <= i < |cache.lru| && cache.lru[i] == f;
      DistinctAt(cache.lru, i);
    }

    /** Every task of a round finds its field pinned, and finished if it is to be read from. */
    ghost predicate Runnable(l: seq<CachedField>, ts: seq<Task>) {
      && (forall t | t in ts && t.ExtractTask? :: Pinned(l, t.key, true, false))
      && (forall t | t in ts && t.BuildTask? :: Pinned(l, t.key, false, true))
    }

    lemma StillRunnable(l: seq<CachedField>, l': seq<CachedField>, ts: seq<Task>)
      requires KeepsPins(l, l') && Runnable(l, ts)
      ensures Runnable(l', ts)
    {
      PinnedStays(l, l');
    }

    /** Runs the tasks of one round in order.  `before` are the tasks of the batch that ran earlier. */
    method RunTasks(ts: seq<Task>, ghost before: seq<Task>)
      requires cache.Valid() && BuiltRight(cache.lru, env) && Asked() && OldReadable() && crew.Valid(tiles) && Aside()
      requires AllFit(ts) && Runnable(cache.lru, ts) && Delivered(before)
      requires forall i | 0 <= i < |ts| && !ts[i].BuildTask? ::
                 forall x | x in before + ts[..i] && !x.BuildTask? :: x.req != ts[i].req
      modifies cache`lru, crew.Repr
      ensures cache.Valid() && BuiltRight(cache.lru, env) && KeepsPins(old(cache.lru), cache.lru)
      ensures KeySet(cache.lru) == KeySet(old(cache.lru))
      ensures forall t | t in ts && t.BuildTask? :: Pinned(cache.lru, t.key, true, true)
      ensures crew.Valid(tiles) && Aside() && fresh(crew.Repr - old(crew.Repr)) && Delivered(before + ts)
    {
      hide Cache.Valid, Pinned, BuiltRight, KeepsPins, KeySet, Answered, Crew.Valid, Asked, OldReadable, Fits, Runnable;
      ghost var l0 := cache.lru;
      assert before + ts[..0] == before;
      PinsThemselves(l0);
      for i := 0 to |ts|
        invariant cache.Valid() && BuiltRight(cache.lru, env) && KeySet(cache.lru) == KeySet(l0)
        invariant Runnable(cache.lru, ts) && KeepsPins(l0, cache.lru)
        invariant forall x | 0 <= x < i && ts[x].BuildTask? :: Pinned(cache.lru, ts[x].key, true, true)
        invariant crew.Valid(tiles) && Aside() && fresh(crew.Repr - old(crew.Repr))
        invariant Delivered(before + ts[..i])
      {
        ghost var was := cache.lru;
        RunnableAt(was, ts, i);
        assert ts[i] in ts;
        Run(ts[i]);
        PinnedStays(was, cache.lru);
        StillRunnable(was, cache.lru, ts);
        PinsChain(l0, was, cache.lru);
        assert before + ts[..i + 1] == (before + ts[..i]) + [ts[i]];
      }
      assert ts[..|ts|] == ts;
    }

    lemma RunnableAt(l: seq<CachedField>, ts: seq<Task>, i: nat)
      requires Runnable(l, ts) && i < |ts|
      ensures ts[i].ExtractTask? ==> Pinned(l, ts[i].key, true, false)
      ensures ts[i].BuildTask? ==> Pinned(l, ts[i].key, false, true)
    {
      assert ts[i] in ts;
    }

    /** The second round starts only when the first is finished. */
    method RunRounds()
      requires cache.Valid() && BuiltRight(cache.lru, env) && Asked() && OldReadable() && crew.Valid(tiles) && Aside()
      requires AllFit(t1) && AllFit(t2) && Runnable(cache.lru, t1) && Ready2(cache.lru, t1, t2) && Delivered(done)
      requires forall i | 0 <= i < |t1| && !t1[i].BuildTask? ::
                 forall x | x in done + t1[..i] && !x.BuildTask? :: x.req != t1[i].req
      requires forall i | 0 <= i < |t2| && !t2[i].BuildTask? ::
                 forall x | x in (done + t1) + t2[..i] && !x.BuildTask? :: x.req != t2[i].req
      modifies cache`lru, crew.Repr
      ensures cache.Valid() && BuiltRight(cache.lru, env) && KeySet(cache.lru) == KeySet(old(cache.lru))
      ensures crew.Valid(tiles) && Aside() && fresh(crew.Repr - old(crew.Repr)) && Delivered(done + t1 + t2)
    {
      hide Cache.Valid, Pinned, BuiltRight, KeepsPins, KeySet, Crew.Valid, Asked, OldReadable, Delivered, Fits,
        Runnable, Ready2;
      ghost var l0 := cache.lru;
      RunTasks(t1, done);
      SecondRunnable(l0, cache.lru, t1, t2);
      RunTasks(t2, done + t1);
    }

    /** Both rounds, then the end of the wave: the second round starts only when the first is finished. */
    method RunWave()
      requires Sound() && Going() && Aside()
      modifies this`t1, this`t2, this`done, this`waves, cache`lru, cache`buckets, cache`bytes, crew.Repr
      ensures Consistent() && t1 == [] && t2 == [] && Going() && Aside() && fresh(crew.Repr - old(crew.Repr))
      ensures forall j | 0 <= j < |stage| :: Load(j) == old(Load(j))
      ensures done == old(done) + old(t1) + old(t2)
      ensures KeySet(cache.lru) <= KeySet(old(cache.lru)) && forall f | f in cache.lru :: !f.pinned
    {
      hide Sound, Consistent, Load, Loads, Going, Cache.Valid, Pinned, BuiltRight, KeepsPins, KeySet, Crew.Valid, Asked,
        OldReadable, Delivered, AllFit, Runnable, Ready2, LoadsFit, StagesFit, WishesFit, WaveServes, Flat;
      ghost var d0, a, b, loads, w0, wave := done, t1, t2, Loads(), waves, Wave(FinishedKeys(cache.lru), t1, t2);
      LoadsAt();
      WaveParts();
      ReadyServes(cache.lru, t1, t2);
      OnceEach();
      RunRounds();
      EndedFacts(cache.lru, env);
      cache.EndWave();
      done := done + t1 + t2;
      waves := waves + [wave];
      t1, t2 := [], [];
      Recording(w0, d0, wave);
      WaveOver(d0, a, b, loads);
      LoadsAt();
    }

    /** The loads of all requests. */
    ghost function Loads(): (s: seq<nat>)
      reads this`t1, this`t2, this`done, this`stage
      ensures |s| == |stage|
    {
      LoadsBelow(|stage|)
    }

    ghost function LoadsBelow(k: nat): (s: seq<nat>)
      requires k <= |stage|
      reads this`t1, this`t2, this`done, this`stage
      ensures |s| == k && forall j | 0 <= j < k :: s[j] == Load(j)
    {
      if k == 0 then [] else LoadsBelow(k - 1) + [Load(k - 1)]
    }

    lemma LoadsAt()
      ensures |Loads()| == |stage| && forall j | 0 <= j < |stage| :: Loads()[j] == Load(j)
    {
    }

    ghost predicate StagesFit()
      reads this`cached, this`stage
    {
      |stage| == |wishes| && forall j | 0 <= j < |stage| :: StageFits(j)
    }

    ghost predicate WishesFit() {
      forall j | 0 <= j < |wishes| && wishes[j].Shared? :: KeyFits(env, wishes[j].key)
    }

    /** What a wave starts from, part by part. */
    lemma WaveParts()
      requires Sound() && Going()
      ensures StagesFit() && WishesFit() && |stage| == |wishes| && LoadsFit(Loads(), done, t1, t2, stage)
      ensures cache.Valid() && BuiltRight(cache.lru, env) && Asked() && OldReadable() && crew.Valid(tiles)
              && Delivered(done)
      ensures AllFit(t1) && AllFit(t2) && AllFit(done) && Runnable(cache.lru, t1) && Ready2(cache.lru, t1, t2)
      ensures Flat(waves) == done && forall w | w in waves :: WaveServes(w)
    {
    }

    /** A wave whose tasks were ready is one that finds what it needs. */
    lemma ReadyServes(l: seq<CachedField>, a: seq<Task>, b: seq<Task>)
      requires Runnable(l, a) && Ready2(l, a, b)
      ensures WaveServes(Wave(FinishedKeys(l), a, b))
    {
      forall k: Key | Pinned(l, k, true, false) ensures k in FinishedKeys(l) {
        var f :| f in l && f.key == k && f.pinned && f.ok;
      }
      hide Pinned;
    }

    lemma Recording(w0: seq<Wave>, d0: seq<Task>, wave: Wave)
      requires waves == w0 + [wave] && Flat(w0) == d0 && WaveServes(wave) && forall w | w in w0 :: WaveServes(w)
      requires done == d0 + wave.t1 + wave.t2
      ensures Recorded()
    {
      hide WaveServes;
      FlatGrows(w0, wave);
    }

    lemma SecondRunnable(l: seq<CachedField>, l': seq<CachedField>, ts: seq<Task>, us: seq<Task>)
      requires Ready2(l, ts, us) && KeepsPins(l, l') && forall t | t in ts && t.BuildTask? ::
               Pinned(l', t.key, true, true)
      ensures Runnable(l', us)
    {
      PinsKept(l, l', ts, us);
      BuiltNow(l', ts, us);
    }

    lemma WaveOver(d0: seq<Task>, a: seq<Task>, b: seq<Task>, loads: seq<nat>)
      requires t1 == [] && t2 == [] && done == d0 + a + b && AllFit(d0) && AllFit(a) && AllFit(b)
      requires LoadsFit(loads, d0, a, b, stage) && StagesFit() && WishesFit()
      requires cache.Valid() && BuiltRight(cache.lru, env) && NoNewPins(cache.lru)
      requires Asked() && OldReadable() && crew.Valid(tiles) && Delivered(d0 + a + b) && Recorded()
      ensures Consistent() && Going() && |loads| == |stage| && forall j | 0 <= j < |stage| :: Load(j) == loads[j]
    {
      hide Cache.Valid, BuiltRight, Fits, Names, NoNewPins, KeyFits, StageFits, Asked, OldReadable, Crew.Valid,
        Delivered;
      NamesConcat(d0, a);
      NamesConcat(d0 + a, b);
      NamesNone();
      forall j | 0 <= j < |stage| ensures Load(j) == loads[j] {
      }
    }

    /** A task about to run answers a request that no earlier task of the batch has answered. */
    lemma OnceEach()
      requires Sound()
      ensures forall i | 0 <= i < |t1| && !t1[i].BuildTask? ::
                forall x | x in done + t1[..i] && !x.BuildTask? :: x.req != t1[i].req
      ensures forall i | 0 <= i < |t2| && !t2[i].BuildTask? ::
                forall x | x in (done + t1) + t2[..i] && !x.BuildTask? :: x.req != t2[i].req
    {
      hide Cache.Valid, BuiltRight, Ready1, Ready2, Fate, KeyFits, StageFits, Names;
      forall i | 0 <= i < |t1| && !t1[i].BuildTask?
        ensures forall x | x in done + t1[..i] && !x.BuildTask? :: x.req != t1[i].req
      {
        NamedBefore(done, t1, i);
        assert t1[i] in t1 && Load(t1[i].req) <= 1;
      }
      forall i | 0 <= i < |t2| && !t2[i].BuildTask?
        ensures forall x | x in (done + t1) + t2[..i] && !x.BuildTask? :: x.req != t2[i].req
      {
        NamesConcat(done, t1);
        NamedBefore(done + t1, t2, i);
        assert t2[i] in t2 && Load(t2[i].req) <= 1;
      }
    }

    // ---------- getting a field ----------

    /** Makes room and inserts a shell, keeping every field that pending tasks rely on. */
    method TryInsert(k: Key) returns (ok: bool)
      requires Sound() && k !in KeySet(cache.lru) && KeyFits(env, k)
      modifies cache`lru, cache`buckets, cache`bytes, cache`clock, cache`asked
      ensures Sound() && ok == (Total(Kept(old(cache.lru))) + cache.one <= cache.working)
      ensures forall j | 0 <= j < |stage| :: Load(j) == old(Load(j))
      ensures ok ==> Pinned(cache.lru, k, false, true) && KeySet(cache.lru) <= KeySet(old(cache.lru)) + {k}
      ensures ok ==> forall f | f in cache.lru && f.key == k :: !f.ok
      ensures !ok ==> KeySet(cache.lru) <= KeySet(old(cache.lru))
      ensures !ok ==> (NoNewPins(old(cache.lru)) ==> NoNewPins(cache.lru))
    {
      hide Cache.Valid, Pinned, Names, Fate, KeepsPins, KeySet, Kept, Total, BuiltRight, MadeRoom;
      ghost var was := cache.lru;
      ok := cache.Insert(k, EpochFor(env, k));
      InsertPins(was, cache.lru, k, cache.working - cache.one, ok, env);
      PinsKept(was, cache.lru, t1, t2);
      forall j | 0 <= j < |stage| ensures Load(j) == old(Load(j)) && StageFits(j) {
        assert old(StageFits(j));
      }
    }

    /** The field for a group: made in this wave, or, when pending work has filled the cache, in a wave of its own.  It
        is had whenever one field fits in working memory at all. */
    method ObtainField(k: Key, ghost i: nat) returns (field: bool)
      requires Consistent() && Going() && Aside() && k !in KeySet(cache.lru) && KeyFits(env, k)
               && Builds(t1) <= i < |wishes|
      modifies this`t1, this`t2, this`done, this`waves, cache`lru, cache`buckets, cache`bytes, cache`clock, cache`asked,
               crew.Repr
      ensures Going() && Aside() && fresh(crew.Repr - old(crew.Repr))
      ensures Consistent() && field == (cache.one <= cache.working)
      ensures field ==> Pinned(cache.lru, k, false, false) && BuildTask(k) in t1
      ensures forall j | 0 <= j < |stage| :: Load(j) == old(Load(j))
      ensures Builds(t1) <= i + 1 && KeySet(cache.lru) <= KeySet(old(cache.lru)) + {k}
    {
      hide Sound, Consistent, Load, Names, Pinned, Kept, Total, Builds, NoNewPins, KeySet, Going;
      IsSound();
      field := Seek(k);
      if !field {
        RoomWhenQuiet();
        field := TryInsert(k);
      }
      if !field && (t1 != [] || t2 != []) {
        field := AfterWave(k);
        BuildsNone();
      }
      if field {
        PinnedMeans(cache.lru, k);
        var at := PositionOf(cache.lru, k);
        assert cache.lru[at] in cache.lru;
        if !cache.lru[at].ok {
          RoomFor(BuildTask(k));
          PushCounts(t1, BuildTask(k));
          Queue1(BuildTask(k));
          IsSound();
        }
      }
      MakeConsistent();
    }

    /** Runs the wave so far and tries again. */
    method AfterWave(k: Key) returns (field: bool)
      requires Sound() && Going() && Aside() && k !in KeySet(cache.lru) && KeyFits(env, k)
      modifies this`t1, this`t2, this`done, this`waves, cache`lru, cache`buckets, cache`bytes, cache`clock, cache`asked,
               crew.Repr
      ensures Going() && Aside() && fresh(crew.Repr - old(crew.Repr)) && t1 == [] && t2 == []
      ensures Sound() && field == (cache.one <= cache.working) && (!field ==> NoNewPins(cache.lru))
      ensures field ==> Pinned(cache.lru, k, false, true) && forall f | f in cache.lru && f.key == k :: !f.ok
      ensures forall j | 0 <= j < |stage| :: Load(j) == old(Load(j))
      ensures KeySet(cache.lru) <= KeySet(old(cache.lru)) + {k}
    {
      hide Sound, Consistent, Load, Names, Pinned, Kept, Total, Builds, NoNewPins, KeySet, Going;
      RunWave();
      IsSound();
      NothingPinned();
      field := Seek(k);
      if !field {
        RoomWhenQuiet();
        field := TryInsert(k);
      }
    }

    /** Looks a key up that is not cached: nothing changes. */
    method Seek(k: Key) returns (hit: bool)
      requires Sound() && k !in KeySet(cache.lru)
      modifies cache`lru, cache`clock, cache`asked
      ensures Sound() && !hit && cache.lru == old(cache.lru) && (old(Consistent()) ==> Consistent())
      ensures forall j | 0 <= j < |stage| :: Load(j) == old(Load(j))
    {
      hide Cache.Valid, Pinned, Names, Fate, BuiltRight, NoNewPins, AllFit;
      hit := cache.Lookup(k);
    }

    lemma NothingPinned()
      requires forall f | f in cache.lru :: !f.pinned
      ensures NoNewPins(cache.lru)
    {
    }

    lemma MakeConsistent()
      requires Sound() && (t1 == [] && t2 == [] ==> NoNewPins(cache.lru))
      ensures Consistent()
    {
    }

    /** With no field of this call pinned, everything this call made can go: what is left leaves room for one more. */
    lemma RoomWhenQuiet()
      requires Sound()
      ensures NoNewPins(cache.lru) && cache.one <= cache.working ==> Total(Kept(cache.lru)) + cache.one <= cache.working
      ensures cache.one > cache.working ==> Total(Kept(cache.lru)) + cache.one > cache.working
    {
      if NoNewPins(cache.lru) {
        KeptAreOlds(cache.lru);
      }
    }

    // ---------- the first pass ----------

    ghost function Wants(): (s: seq<Want>)
      ensures |s| == |wishes| && forall j | 0 <= j < |s| :: s[j] == WantOf(wishes[j], cached)
      reads this`cached
    {
      WantsOf(wishes, cached)
    }

    /** In the first pass only fields from before the call are cached. */
    ghost predicate Looking()
      reads this, cache
    {
      && Consistent() && KeySet(cache.lru) == cached && t2 == [] && Builds(t1) == 0
      && forall f | f in cache.lru :: f.ok && !f.newInCall
    }

    /** Settles, queues or groups one request. */
    method LookAt(i: nat, groups: GroupTable) returns (joins: bool)
      requires Looking() && i < |wishes| && Load(i) == 0
      requires groups.Holds(Wants()[..i]) && groups.next.Length == |wishes|
      modifies this`t1, this`stage, cache`lru, cache`clock, cache`asked, groups.tab, groups.next
      ensures Looking() && groups.Holds(Wants()[..i + 1]) && joins == Wants()[i].Joins?
      ensures forall j | 0 <= j < |stage| :: Load(j) == old(Load(j)) + if j == i && !joins then 1 else 0
    {
      hide Cache.Valid, Names, BuiltRight, Builds, GroupTable.Holds, Pinned, FateOf;
      assert Wants()[..i + 1] == Wants()[..i] + [Wants()[i]];
      FateIs(i);
      match wishes[i]
      case Settled(s) =>
        groups.Skip(Wants()[..i]);
        Settle(i, Status(s));
        joins := false;
      case Alone =>
        groups.Skip(Wants()[..i]);
        RoomFor(SolveTask(i));
        PushCounts(t1, SolveTask(i));
        Queue1(SolveTask(i));
        joins := false;
      case Shared(k) =>
        joins := LookForField(i, k, groups);
    }

    /** Queues a read of the key's field if it is cached, and otherwise joins the key's group. */
    method LookForField(i: nat, k: Key, groups: GroupTable) returns (joins: bool)
      requires Looking() && i < |wishes| && Load(i) == 0 && wishes[i] == Shared(k)
      requires groups.Holds(Wants()[..i]) && groups.next.Length == |wishes|
      modifies this`t1, cache`lru, cache`clock, cache`asked, groups.tab, groups.next
      ensures Looking() && groups.Holds(Wants()[..i] + [Wants()[i]]) && joins == Wants()[i].Joins?
      ensures forall j | 0 <= j < |stage| :: Load(j) == old(Load(j)) + if j == i && !joins then 1 else 0
    {
      hide Cache.Valid, Names, BuiltRight, Builds, GroupTable.Holds, Pinned, FateOf, Touched, WantsOf, KeyFits,
        StageFits;
      FateIs(i);
      ghost var was := cache.lru;
      var hit := cache.Lookup(k);
      if hit {
        TouchedPins(was, k, cache.clock, env);
        PinsKept(was, cache.lru, t1, t2);
        groups.Skip(Wants()[..i]);
        RoomFor(ExtractTask(i, k));
        PushCounts(t1, ExtractTask(i, k));
        Queue1(ExtractTask(i, k));
      } else {
        groups.Add(i, k, Wants()[..i]);
      }
      joins := !hit;
    }

    lemma FateIs(i: nat)
      requires i < |wishes|
      ensures wishes[i].Settled? ==> Fate(i) == ByStatus(wishes[i].status)
      ensures wishes[i].Alone? ==> Fate(i) == BySearch
      ensures wishes[i].Shared? && wishes[i].key in cached ==> Fate(i) == ByField(wishes[i].key)
    {
    }

    // ---------- the second pass ----------

    /** Gives every member of a group its task: a read of the group's field, a search of its own, or a refusal. */
    method ServeMembers(k: Key, field: bool, groups: GroupTable, g: Group, ghost m: seq<nat>, ghost i: nat)
      requires Consistent() && m == Members(Wants(), k)
      requires groups.next.Length == |wishes| && Threads(groups.next[..], m, g)
      requires forall x | 0 <= x < |m| :: m[x] < |wishes| && Load(m[x]) == 0
      requires forall x | 0 <= x < |m| :: Fate(m[x]) == if field then ByField(k) else if k.set_ != 0 then ByError
               else BySearch
      requires field ==> Pinned(cache.lru, k, false, false) && BuildTask(k) in t1
      requires Builds(t1) <= i + 1 <= |wishes| < NO_MEMBER
      modifies this`t1, this`t2, this`stage
      ensures Consistent() && Builds(t1) <= i + 1 && |stage| == |wishes|
      ensures forall j: nat | j < |stage| :: Load(j) == old(Load(j)) + if j in m then 1 else 0
    {
      hide Sound, Consistent, Load, Names, NameOf, Builds, Pinned, Fate, FateOf, Fits, Members, Wants, WantsOf;
      MembersAre(Wants(), k);
      IsSound();
      var member := g.first;
      ghost var x := 0;
      while member != NO_MEMBER
        invariant Consistent() && Builds(t1) <= i + 1 && x <= |m| && member == if x < |m| then m[x] else NO_MEMBER
        invariant |stage| == |wishes| && (field ==> Pinned(cache.lru, k, false, false) && BuildTask(k) in t1)
        invariant forall j: nat | j < |stage| :: Load(j) == old(Load(j)) + if j in m[..x] then 1 else 0
        decreases |m| - x
      {
        assert m[x] !in m[..x];
        assert m[..x + 1] == m[..x] + [m[x]];
        ServeOne(member, k, field, i);
        member := groups.next[member];
        x := x + 1;
      }
      assert m[..x] == m;
    }

    method ServeOne(j: nat, k: Key, field: bool, ghost i: nat)
      requires Consistent() && j < |wishes| == |stage| && Load(j) == 0 && Builds(t1) <= i + 1 <= |wishes|
      requires Fate(j) == if field then ByField(k) else if k.set_ != 0 then ByError else BySearch
      requires field ==> Pinned(cache.lru, k, false, false) && BuildTask(k) in t1
      modifies this`t1, this`t2, this`stage
      ensures Consistent() && |stage| == |wishes| && Builds(t1) <= i + 1
      ensures field ==> BuildTask(k) in t1
      ensures forall x | 0 <= x < |stage| :: Load(x) == old(Load(x)) + if x == j then 1 else 0
    {
      hide Sound, Consistent, Load, Names, NameOf, Builds, Pinned, Fate, FateOf, Fits;
      IsSound();
      if field {
        FitsField(j, k);
        RoomFor(ExtractTask(j, k));
        Queue2(ExtractTask(j, k));
      } else if k.set_ != 0 {
        Settle(j, Refused);
      } else {
        FitsSearch(j);
        RoomFor(SolveTask(j));
        PushCounts(t1, SolveTask(j));
        Queue1(SolveTask(j));
      }
      IsSound();
    }

    lemma IsSound()
      requires Consistent()
      ensures Sound() && |stage| == |wishes| && Builds(t2) == 0 && (t1 == [] && t2 == [] ==> NoNewPins(cache.lru))
    {
      NoBuilds(t2);
    }

    lemma FitsField(j: nat, k: Key)
      requires j < |wishes| && Fate(j) == ByField(k)
      ensures Fits(ExtractTask(j, k)) && |NameOf(ExtractTask(j, k))| == 1
    {
    }

    lemma FitsSearch(j: nat)
      requires j < |wishes| && Fate(j) == BySearch
      ensures Fits(SolveTask(j)) && |NameOf(SolveTask(j))| == 1
    {
    }

    lemma {:induction false} NoBuilds(ts: seq<Task>)
      requires forall t | t in ts :: t.ExtractTask?
      ensures Builds(ts) == 0
    {
      if ts != [] {
        assert ts[|ts| - 1] in ts;
        NoBuilds(ts[..|ts| - 1]);
      }
    }

    /** The first member of a request's group. */
    ghost function Leader(j: nat): nat
      requires j < |wishes| && Wants()[j].Joins?
      reads this`cached
    {
      var m := Members(Wants(), Wants()[j].key);
      if m == [] then j else m[0]
    }

    /** After `i` requests of the second pass, exactly the groups led by later requests are still to be served, and only
        served groups have had fields made. */
    ghost predicate Served(i: nat)
      requires |stage| == |wishes|
      reads this, cache
    {
      && (forall j | 0 <= j < |stage| :: Load(j) == if Wants()[j].Joins? && Leader(j) >= i then 0 else 1)
      && (forall k | k in KeySet(cache.lru) && k !in cached :: Members(Wants(), k) != [] && Members(Wants(), k)[0] < i)
    }

    /** Serves the group a request leads, if it leads one. */
    method PlanGroup(i: nat, groups: GroupTable)
      requires Consistent() && Going() && Aside() && i < |wishes| < NO_MEMBER && Wants()[i].Joins? && Served(i)
               && Builds(t1) <= i
      requires groups.Holds(Wants()) && groups.next.Length == |wishes| && groups.Aside(crew.Repr)
      modifies this`t1, this`t2, this`done, this`waves, this`stage
      modifies cache`lru, cache`buckets, cache`bytes, cache`clock, cache`asked, crew.Repr
      ensures Going() && Aside() && fresh(crew.Repr - old(crew.Repr))
      ensures Consistent() && |stage| == |wishes| && Served(i + 1) && Builds(t1) <= i + 1
    {
      hide Sound, Consistent, Load, Names, NameOf, Builds, Pinned, FateOf, Members, WantsOf, Threads, OnPath, HasGroup,
        PathTo, GroupTable.Holds, Going, KeySet, KeyFits;
      IsSound();
      WishKeyFits(i);
      var k := wishes[i].key;
      ghost var m := Members(Wants(), k);
      groups.GroupOf(Wants(), i);
      var s := groups.Find(k, Wants());
      var g := groups.tab[s];
      groups.GroupThreads(Wants(), s);
      MembersAre(Wants(), k);
      FirstLeads(i, m, g, groups.next[..]);
      ServedFacts(i, k, m);
      LoadsAt();
      ghost var loads, keys := Loads(), KeySet(cache.lru);
      if g.first == i {
        LeadGroup(i, k, groups, g, m);
        IsSound();
      }
      ServedNext(i, k, m, loads, keys);
    }

    lemma ServedFacts(i: nat, k: Key, m: seq<nat>)
      requires |stage| == |wishes| && Served(i) && i < |wishes| && Wants()[i] == Joins(k) && m == Members(Wants(), k)
               && m != []
      requires forall j | 0 <= j < |wishes| && Wants()[j].Joins? :: Leader(j) == i <==> m[0] == i && j in m
      requires forall x | 0 <= x < |m| :: m[x] < |wishes| && Wants()[m[x]].Joins?
      ensures m[0] == i ==> k !in KeySet(cache.lru) && forall x | 0 <= x < |m| :: Load(m[x]) == 0
      ensures forall j | 0 <= j < |stage| :: Load(j) == if Wants()[j].Joins? && Leader(j) >= i then 0 else 1
    {
      hide Members, WantsOf, Load;
      if m[0] == i {
        forall x | 0 <= x < |m| ensures Load(m[x]) == 0 {
          assert m[x] in m;
          assert Leader(m[x]) == i;
        }
      }
    }

    lemma ServedNext(i: nat, k: Key, m: seq<nat>, loads: seq<nat>, keys: set<Key>)
      requires |stage| == |wishes| == |loads| && i < |wishes| && m == Members(Wants(), k) && m != []
      requires forall j | 0 <= j < |wishes| && Wants()[j].Joins? :: Leader(j) == i <==> m[0] == i && j in m
      requires forall j: nat | j in m :: j < |wishes| && Wants()[j].Joins?
      requires forall j | 0 <= j < |loads| :: loads[j] == if Wants()[j].Joins? && Leader(j) >= i then 0 else 1
      requires forall x | x in keys && x !in cached :: Members(Wants(), x) != [] && Members(Wants(), x)[0] < i
      requires if m[0] == i
               then (forall j: nat | j < |stage| :: Load(j) == loads[j] + if j in m then 1 else 0)
                   && KeySet(cache.lru) <= keys + {k}
               else (forall j: nat | j < |stage| :: Load(j) == loads[j]) && KeySet(cache.lru) == keys
      ensures Served(i + 1)
    {
      hide Members, WantsOf, Load;
    }

    /** Gets the group's field if it is worth one, and serves the members. */
    method LeadGroup(i: nat, k: Key, groups: GroupTable, g: Group, ghost m: seq<nat>)
      requires Consistent() && Going() && Aside() && i < |wishes| == |stage| && |wishes| < NO_MEMBER && Builds(t1) <= i
      requires m == Members(Wants(), k) && Threads(groups.next[..], m, g) && groups.next.Length == |wishes|
      requires groups.Aside(crew.Repr) && KeyFits(env, k) && k !in KeySet(cache.lru) && |m| == g.count
      requires forall x | 0 <= x < |m| :: m[x] < |wishes| && Load(m[x]) == 0
      modifies this`t1, this`t2, this`done, this`waves, this`stage
      modifies cache`lru, cache`buckets, cache`bytes, cache`clock, cache`asked, crew.Repr
      ensures Consistent() && Going() && Aside() && fresh(crew.Repr - old(crew.Repr)) && |stage| == |wishes|
      ensures Builds(t1) <= i + 1 && KeySet(cache.lru) <= KeySet(old(cache.lru)) + {k}
      ensures forall j: nat | j < |stage| :: Load(j) == old(Load(j)) + if j in m then 1 else 0
    {
      hide Sound, Consistent, Load, Names, NameOf, Builds, Pinned, FateOf, Members, WantsOf, Threads, Going, KeySet,
        KeyFits;
      IsSound();
      var field := false;
      if k.set_ != 0 || g.count >= threshold {
        field := ObtainField(k, i);
      }
      FatesOf(k, field, m);
      IsSound();
      ServeMembers(k, field, groups, g, m, i);
      IsSound();
    }

    lemma WishKeyFits(i: nat)
      requires Sound() && i < |wishes| && wishes[i].Shared?
      ensures KeyFits(env, wishes[i].key)
    {
    }

    /** A group's first member leads all its members, and no one else. */
    lemma FirstLeads(i: nat, m: seq<nat>, g: Group, next: seq<nat>)
      requires i < |wishes| && Wants()[i].Joins? && m == Members(Wants(), Wants()[i].key) && Threads(next, m, g)
      ensures m != [] && g.first == m[0] && g.count == |m|
      ensures forall j | 0 <= j < |wishes| && Wants()[j].Joins? :: Leader(j) == i <==> m[0] == i && j in m
      ensures forall x | 0 <= x < |m| :: m[x] < |wishes| && Wants()[m[x]].Joins?
    {
      MembersAre(Wants(), Wants()[i].key);
      forall j | 0 <= j < |wishes| && Wants()[j].Joins? ensures Leader(j) == i <==> m[0] == i && j in m {
        MembersAre(Wants(), Wants()[j].key);
        assert Leader(j) in Members(Wants(), Wants()[j].key);
      }
      forall x | 0 <= x < |m| ensures m[x] < |wishes| && Wants()[m[x]].Joins? {
        assert m[x] in m;
      }
    }

    lemma FatesOf(k: Key, field: bool, m: seq<nat>)
      requires m == Members(Wants(), k)
      requires field == ((k.set_ != 0 || |m| >= threshold) && cache.one <= cache.working)
      ensures forall x | 0 <= x < |m| :: m[x] < |wishes| &&
                Fate(m[x]) == if field then ByField(k) else if k.set_ != 0 then ByError else BySearch
    {
      MembersAre(Wants(), k);
      forall x | 0 <= x < |m|
        ensures m[x] < |wishes| && Fate(m[x]) == if field then ByField(k) else if k.set_ != 0 then ByError else BySearch
      {
        assert m[x] in m;
      }
    }

    /** A request outside all groups leads none. */
    lemma LeadsNone(i: nat)
      requires i < |wishes| && !Wants()[i].Joins?
      ensures forall j | 0 <= j < |wishes| && Wants()[j].Joins? :: Leader(j) != i
    {
      forall j | 0 <= j < |wishes| && Wants()[j].Joins? ensures Leader(j) != i {
        MembersAre(Wants(), Wants()[j].key);
        assert Leader(j) in Members(Wants(), Wants()[j].key);
      }
    }

    // ---------- the batch ----------

    /** Plans and runs a whole batch.  Every request is resolved exactly once, in the way it is meant to be. */
    method Execute(hash: Key -> nat)
      requires Looking() && Going() && Aside() && |wishes| < NO_MEMBER
      requires forall j | 0 <= j < |stage| :: Load(j) == 0
      modifies this`t1, this`t2, this`done, this`waves, this`stage
      modifies cache`lru, cache`buckets, cache`bytes, cache`clock, cache`asked, crew.Repr
      ensures Going() && Aside() && fresh(crew.Repr - old(crew.Repr))
      ensures Sound() && t1 == [] && t2 == [] && |stage| == |wishes|
      ensures forall k | k in KeySet(cache.lru) ::
                k in cached || exists j :: 0 <= j < |wishes| && wishes[j] == Shared(k)
      ensures forall j: nat | j < |wishes| :: Names(done)[j] + (if stage[j] == Blank then 0 else 1) == 1
      ensures cache.one <= cache.working ==> forall j | 0 <= j < |stage| :: stage[j] != Refused
    {
      hide Consistent, Sound, Load, Names, NameOf, Builds, Members, FateOf, WantsOf, GroupTable.Holds, Looking, Served,
        Going;
      var groups, action := FirstPass(hash);
      AllServed();
      for i := 0 to |wishes|
        invariant Consistent() && |stage| == |wishes| && Served(i) && Builds(t1) <= i
        invariant Going() && Aside() && fresh(crew.Repr - old(crew.Repr)) && groups.Aside(crew.Repr)
        invariant groups.Holds(Wants()) && groups.next.Length == |wishes|
      {
        if action[i] {
          PlanGroup(i, groups);
        } else {
          LeadsNone(i);
          ServedPasses(i);
        }
      }
      IsSound();
      KeysWanted();
      LoadsEnd();
      RunWave();
      IsSound();
      LoadsAre();
      if cache.one <= cache.working {
        NoneRefused();
      }
    }

    /** One field's worth of working memory is enough for every batch: no request is ever refused. */
    lemma NoneRefused()
      requires Sound() && cache.one <= cache.working
      ensures forall j | 0 <= j < |stage| :: stage[j] != Refused
    {
      hide Cache.Valid, BuiltRight, Ready1, Ready2, AllFit, KeyFits, FateOf;
      forall j | 0 <= j < |stage| ensures stage[j] != Refused {
        assert StageFits(j);
        NeverStarves(wishes, cached, threshold, j);
      }
    }

    /** Looks at every request once; returns the groups, and which requests joined one. */
    method FirstPass(hash: Key -> nat) returns (groups: GroupTable, action: seq<bool>)
      requires Looking() && |wishes| < NO_MEMBER
      requires forall j | 0 <= j < |stage| :: Load(j) == 0
      modifies this`t1, this`stage, cache`lru, cache`clock, cache`asked
      ensures Looking() && |stage| == |wishes| == |action|
      ensures groups.Holds(Wants()) && groups.next.Length == |wishes| && fresh(groups.tab) && fresh(groups.next)
      ensures forall j | 0 <= j < |wishes| :: action[j] == Wants()[j].Joins?
      ensures forall j | 0 <= j < |stage| :: Load(j) == if Wants()[j].Joins? then 0 else 1
    {
      hide Consistent, Sound, Load, Names, Builds, Members, FateOf, WantsOf, GroupTable.Holds;
      IsSound();
      groups := new GroupTable(|wishes|, hash);
      action := [];
      assert Wants()[..0] == [];
      for i := 0 to |wishes|
        invariant Looking() && groups.Holds(Wants()[..i]) && groups.next.Length == |wishes|
        invariant |action| == i && |stage| == |wishes| && forall j | 0 <= j < i :: action[j] == Wants()[j].Joins?
        invariant forall j | 0 <= j < |stage| :: Load(j) == if j < i && !Wants()[j].Joins? then 1 else 0
      {
        IsSound();
        var joins := LookAt(i, groups);
        IsSound();
        action := action + [joins];
      }
      assert Wants()[..|wishes|] == Wants();
    }

    lemma AllServed()
      requires Looking() && |stage| == |wishes|
      requires forall j | 0 <= j < |stage| :: Load(j) == if Wants()[j].Joins? then 0 else 1
      ensures Consistent() && Served(0) && Builds(t1) == 0
    {
      hide Sound, Load, Builds, Members, WantsOf;
    }

    lemma ServedPasses(i: nat)
      requires |stage| == |wishes| && i < |wishes| && Served(i)
      requires forall j | 0 <= j < |wishes| && Wants()[j].Joins? :: Leader(j) != i
      ensures Served(i + 1)
    {
      hide Load, Members, WantsOf;
    }

    /** With all groups served every request is accounted for. */
    lemma LoadsEnd()
      requires |stage| == |wishes| && Served(|wishes|)
      ensures forall j | 0 <= j < |stage| :: Load(j) == 1
    {
      hide Load, Members, WantsOf;
      LeadersFit();
    }

    lemma KeysWanted()
      requires |stage| == |wishes| && Served(|wishes|)
      ensures forall k | k in KeySet(cache.lru) ::
                k in cached || exists j :: 0 <= j < |wishes| && wishes[j] == Shared(k)
    {
      forall k | k in KeySet(cache.lru) && k !in cached
        ensures exists j :: 0 <= j < |wishes| && wishes[j] == Shared(k)
      {
        MembersAre(Wants(), k);
        var j := Members(Wants(), k)[0];
        assert j in Members(Wants(), k) && wishes[j] == Shared(k);
      }
    }

    lemma LoadsAre()
      requires t1 == [] && t2 == []
      ensures forall j: nat | j < |stage| :: Load(j) == Names(done)[j] + if stage[j] == Blank then 0 else 1
    {
      NamesNone();
    }

    /** Groups are led by requests of the batch. */
    lemma LeadersFit()
      ensures forall j | 0 <= j < |wishes| && Wants()[j].Joins? :: Leader(j) < |wishes|
    {
      forall j | 0 <= j < |wishes| && Wants()[j].Joins? ensures Leader(j) < |wishes| {
        MembersAre(Wants(), Wants()[j].key);
        assert Leader(j) == j || Leader(j) in Members(Wants(), Wants()[j].key);
      }
    }
  }

  lemma TouchedPins(l: seq<CachedField>, k: Key, t: nat, env: Env)
    requires k in KeySet(l) && BuiltRight(l, env) && forall f | f in l :: f.ok && !f.newInCall
    ensures KeepsPins(l, Touched(l, k, t)) && BuiltRight(Touched(l, k, t), env)
    ensures Pinned(Touched(l, k, t), k, true, false)
    ensures forall f | f in Touched(l, k, t) :: f.ok && !f.newInCall
  {
    TouchedElements(l, k, t);
  }

  lemma {:induction false} TouchedElements(l: seq<CachedField>, k: Key, t: nat)
    ensures forall f | f in l :: f in Touched(l, k, t) ||
              (f.key == k && f.(pinned := true, touch := t) in Touched(l, k, t))
    ensures forall f | f in Touched(l, k, t) :: f in l ||
              exists g | g in l :: g.key == k && f == g.(pinned := true, touch := t)
    ensures k in KeySet(l) ==> exists f | f in Touched(l, k, t) :: f.key == k && f.pinned
  {
    if l != [] {
      TouchedElements(l[1..], k, t);
      assert l == [l[0]] + l[1..];
    }
  }

  /** Fields that may not be evicted, when none of this call's is pinned, are those from before the call. */
  lemma {:induction false} KeptAreOlds(l: seq<CachedField>)
    requires NoNewPins(l)
    ensures Total(Kept(l)) == Total(Olds(l))
  {
    if l != [] {
      assert l[0] in l;
      KeptAreOlds(l[1..]);
    }
  }

  lemma InsertPins(was: seq<CachedField>, now: seq<CachedField>, k: Key, limit: int, ok: bool, env: Env)
    requires BuiltRight(was, env) && k !in KeySet(was)
    requires ok ==> now != [] && KeyFits(env, k) && now[0].setEpoch == EpochFor(env, k)
    requires ok ==> now[0].key == k && now[0].pinned && now[0].newInCall && !now[0].ok && MadeRoom(was, now[1..], limit)
    requires Kept(now) == (if ok then [now[0]] else []) + Kept(was)
    requires !ok ==> now == was || now == Kept(was)
    ensures BuiltRight(now, env) && KeepsPins(was, now)
    ensures ok ==> Pinned(now, k, false, true) && KeySet(now) <= KeySet(was) + {k}
    ensures ok ==> forall f | f in now && f.key == k :: !f.ok
    ensures !ok ==> KeySet(now) <= KeySet(was) && (NoNewPins(was) ==> NoNewPins(now))
  {
    hide KeyFits, Kept;
    InsertElements(was, now, limit, ok);
    forall f | f in was && f.pinned ensures Pinned(now, f.key, f.ok, f.newInCall) {
      assert f in now;
    }
    assert forall f | f in was :: f.key in KeySet(was);
  }

  /** An insertion adds the shell and loses nothing that is pinned. */
  lemma InsertElements(was: seq<CachedField>, now: seq<CachedField>, limit: int, ok: bool)
    requires ok ==> now != [] && MadeRoom(was, now[1..], limit)
    requires Kept(now) == (if ok then [now[0]] else []) + Kept(was)
    requires !ok ==> now == was || now == Kept(was)
    ensures forall f | f in was && f.pinned :: f in now
    ensures forall f | f in now :: (ok && f == now[0]) || f in was
    ensures ok ==> now[0] in now
  {
    hide Kept, MadeRoom;
    KeptElements(was);
    KeptElements(now);
    if ok {
      assert now == [now[0]] + now[1..];
      RoomKeys(was, now[1..], limit);
    }
    assert forall f | f in Kept(was) :: f in Kept(now);
  }

  lemma PinnedMeans(l: seq<CachedField>, k: Key)
    requires Pinned(l, k, false, true)
    ensures k in KeySet(l) && Pinned(l, k, false, false)
  {
  }

  lemma BuildsNone()
    ensures Builds([]) == 0
  {
  }

  /** A request named at position `i` and before it is named twice. */
  lemma NamedBefore(a: seq<Task>, b: seq<Task>, i: nat)
    requires i < |b| && !b[i].BuildTask?
    ensures forall x | x in a + b[..i] && !x.BuildTask? && x.req == b[i].req :: Names(a)[x.req] + Names(b)[x.req] >= 2
  {
    hide Names;
    assert b == b[..i] + ([b[i]] + b[i + 1..]);
    NamesConcat(b[..i], [b[i]] + b[i + 1..]);
    NamesConcat([b[i]], b[i + 1..]);
    PushCounts([], b[i]);
    NamesNone();
    assert [] + [b[i]] == [b[i]];
    forall x | x in a + b[..i] && !x.BuildTask? && x.req == b[i].req ensures Names(a)[x.req] + Names(b)[x.req] >= 2 {
      if x in a {
        NamedIfIn(a, x);
      } else {
        NamedIfIn(b[..i], x);
      }
    }
  }

  lemma {:induction false} NamedIfIn(ts: seq<Task>, t: Task)
    requires t in ts && !t.BuildTask?
    ensures Names(ts)[t.req] >= 1
  {
    if t != ts[|ts| - 1] {
      NamedIfIn(ts[..|ts| - 1], t);
    }
  }

  lemma NamesNone()
    ensures Names([]) == multiset{}
  {
  }

  lemma PinsThemselves(l: seq<CachedField>)
    ensures KeepsPins(l, l)
  {
  }

  lemma PinsChain(a: seq<CachedField>, b: seq<CachedField>, c: seq<CachedField>)
    requires KeepsPins(a, b) && KeepsPins(b, c)
    ensures KeepsPins(a, c)
  {
    PinnedStays(b, c);
    hide Pinned;
  }

  lemma PinnedStays(l: seq<CachedField>, l': seq<CachedField>)
    requires KeepsPins(l, l')
    ensures forall k: Key, ok: bool, new_: bool | Pinned(l, k, ok, new_) :: Pinned(l', k, ok, new_)
  {
    forall k: Key, ok: bool, new_: bool | Pinned(l, k, ok, new_) ensures Pinned(l', k, ok, new_) {
      var f :| f in l && f.key == k && f.pinned && (ok ==> f.ok) && (new_ ==> f.newInCall);
      assert Pinned(l', f.key, f.ok, f.newInCall);
    }
  }

  lemma CompletedPins(l: seq<CachedField>, l': seq<CachedField>, k: Key, env: Env)
    requires |l| == |l'| && BuiltRight(l, env) && KeyFits(env, k)
    requires forall i | 0 <= i < |l| :: l'[i] ==
               if l[i].key == k then l[i].(dist := Built(env, k).dist, next := Built(env, k).next, ok := true) else l[i]
    ensures BuiltRight(l', env) && KeepsPins(l, l')
    ensures Pinned(l, k, false, true) ==> Pinned(l', k, true, true)
  {
    forall f | f in l && f.pinned
      ensures Pinned(l', f.key, f.ok, f.newInCall) && (f.key == k ==> Pinned(l', k, true, f.newInCall))
    {
      var i :| 0 <= i < |l| && l[i] == f;
      assert l'[i] in l';
    }
  }

  /** Once the first round has run, every field the second round reads is finished. */
  lemma BuiltNow(l: seq<CachedField>, t1: seq<Task>, t2: seq<Task>)
    requires Ready2(l, t1, t2)
    requires forall t | t in t1 && t.BuildTask? :: Pinned(l, t.key, true, true)
    ensures forall t | t in t2 :: t.ExtractTask? && Pinned(l, t.key, true, false)
  {
    forall t | t in t2 ensures t.ExtractTask? && Pinned(l, t.key, true, false) {
      if BuildTask(t.key) in t1 {
        assert Pinned(l, BuildTask(t.key).key, true, true);
        var f :| f in l && f.key == t.key && f.pinned && f.ok;
        assert Pinned(l, t.key, true, false);
      }
    }
  }

  lemma EndedFacts(l: seq<CachedField>, env: Env)
    requires BuiltRight(l, env)
    ensures BuiltRight(Ended(l), env) && KeySet(Ended(l)) <= KeySet(l) && forall f | f in Ended(l) :: !f.pinned
    ensures NoNewPins(Ended(l))
  {
    EndedElements(l);
  }
}

