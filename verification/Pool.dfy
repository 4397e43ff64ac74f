/** The worker pool as a step protocol: batches are dispatched, tasks are claimed one by one from a shared cursor, and
    the dispatching call returns when nobody is active any more.  Each region under the lock and each atomic operation
    is one step; steps of all participants interleave freely. */
module Pool {
  /** What a participant copies when it joins; `batch` is the dispatch number it saw. */
  datatype Job = Job(batch: nat, nTasks: nat, nParticipants: nat)

  /** Where a participant is.  Participant 0 is the dispatching call; it rests between batches and, once it has
      drained, checks and sleeps on the completion condition.  Workers check and sleep on the work condition. */
  datatype Place =
    | Resting
    | Checking(seen: nat)
    | Asleep(seen: nat)
    | Claiming(job: Job)
    | Running(job: Job, k: nat)
    | Ran(job: Job, k: nat)
    | Leaving(seen: nat)
    | Gone

  /** `sizes` and `log` are history: how many tasks each batch had, and which task of which batch was executed. */
  datatype State = State(
    seq_: nat, job: Job, nActive: nat, cursor: nat, nDone: nat, shutdown: bool, places: seq<Place>,
    sizes: seq<nat>, log: multiset<(nat, nat)>)

  datatype Move =
    | Dispatch(nTasks: nat, nParticipants: nat)
    | Claim(i: nat)
    | Execute(i: nat)
    | Count(i: nat)
    | Leave(i: nat)
    | Look(i: nat)
    | Return
    | Shutdown

  predicate Active(p: Place) { p.Claiming? || p.Running? || p.Ran? || p.Leaving? }

  predicate Holds(p: Place) { p.Running? || p.Ran? }

  function Start(workers: nat): State {
    State(0, Job(0, 0, 0), 0, 0, 0, false, [Resting] + seq(workers, _ => Checking(0)), [], multiset{})
  }

  predicate CanMove(s: State, m: Move) {
    match m
    case Dispatch(n, parts) => |s.places| > 0 && s.places[0] == Resting && !s.shutdown
    case Claim(i) => i < |s.places| && s.places[i].Claiming?
    case Execute(i) => i < |s.places| && s.places[i].Running?
    case Count(i) => i < |s.places| && s.places[i].Ran?
    case Leave(i) => i < |s.places| && s.places[i].Leaving?
    case Look(i) => 0 < i < |s.places| && s.places[i].Checking?
    case Return => |s.places| > 0 && s.places[0].Checking?
    case Shutdown => |s.places| > 0 && s.places[0] == Resting
  }

  /** A broadcast wakes every sleeping worker. */
  function Woken(places: seq<Place>): (w: seq<Place>)
    ensures |w| == |places| && forall i | 0 <= i < |w| :: w[i] == if places[i].Asleep? then Checking(places[i].seen)
            else places[i]
  {
    seq(|places|, i requires 0 <= i < |places| => if places[i].Asleep? then Checking(places[i].seen) else places[i])
  }

  /** The signal of the last one to leave wakes the dispatching call, if it sleeps. */
  function Signalled(places: seq<Place>): seq<Place>
    requires |places| > 0
  {
    if places[0].Asleep? then places[0 := Checking(places[0].seen)] else places
  }

  function Step(s: State, m: Move): State
    requires CanMove(s, m)
  {
    match m
    case Dispatch(n, parts) =>
      var job := Job(s.seq_ + 1, n, parts);
      s.(job := job, cursor := 0, nDone := 0, seq_ := s.seq_ + 1, nActive := s.nActive + 1,
         places := Woken(s.places)[0 := Claiming(job)], sizes := s.sizes + [n])
    case Claim(i) =>
      var job := s.places[i].job;
      s.(cursor := s.cursor + 1,
         places := s.places[i := if s.cursor >= job.nTasks then Leaving(job.batch) else Running(job, s.cursor)])
    case Execute(i) =>
      s.(log := s.log + multiset{(s.places[i].job.batch, s.places[i].k)},
          places := s.places[i := Ran(s.places[i].job, s.places[i].k)])
    case Count(i) =>
      s.(nDone := s.nDone + 1, places := s.places[i := Claiming(s.places[i].job)])
    case Leave(i) =>
      var active: nat := if s.nActive > 0 then s.nActive - 1 else 0;
      var left := s.places[i := Checking(s.places[i].seen)];
      s.(nActive := active, places := if i > 0 && active == 0 then Signalled(left) else left)
    case Look(i) =>
      if s.shutdown then s.(places := s.places[i := Gone])
      else if s.places[i].seen == s.seq_ then s.(places := s.places[i := Asleep(s.seq_)])
      else if s.job.nTasks == 0 || i >= s.job.nParticipants then s.(places := s.places[i := Checking(s.seq_)])
      else s.(nActive := s.nActive + 1, places := s.places[i := Claiming(s.job)])
    case Return =>
      if s.nActive != 0 || s.nDone < s.job.nTasks then s.(places := s.places[0 := Asleep(s.places[0].seen)])
      else s.(job := s.job.(nTasks := 0), places := s.places[0 := Resting])
    case Shutdown => s.(shutdown := true, places := Woken(s.places))
  }

  // ---------- counting participants ----------

  ghost function Tally(places: seq<Place>, f: Place -> bool): nat {
    if places == [] then 0 else Tally(places[..|places| - 1], f) + if f(places[|places| - 1]) then 1 else 0
  }

  lemma {:induction false} TallyUpdate(places: seq<Place>, f: Place -> bool, i: nat, p: Place)
    requires i < |places|
    ensures Tally(places[i := p], f) + (if f(places[i]) then 1 else 0) == Tally(places, f) + if f(p) then 1 else 0
  {
    var n := |places| - 1;
    if i == n {
      assert places[i := p][..n] == places[..n];
    } else {
      TallyUpdate(places[..n], f, i, p);
      assert places[i := p][..n] == places[..n][i := p];
    }
  }

  lemma {:induction false} TallyAlike(a: seq<Place>, b: seq<Place>, f: Place -> bool)
    requires |a| == |b| && forall i | 0 <= i < |a| :: f(a[i]) == f(b[i])
    ensures Tally(a, f) == Tally(b, f)
  {
    if a != [] {
      TallyAlike(a[..|a| - 1], b[..|b| - 1], f);
    }
  }

  lemma {:induction false} TallyZero(places: seq<Place>, f: Place -> bool)
    ensures Tally(places, f) == 0 <==> forall i | 0 <= i < |places| :: !f(places[i])
  {
    if places != [] {
      TallyZero(places[..|places| - 1], f);
    }
  }

  // ---------- the invariant ----------

  /** Tasks of the current batch. */
  function Size(s: State): nat { if s.sizes == [] then 0 else s.sizes[|s.sizes| - 1] }

  ghost predicate CallerFits(s: State) {
    && |s.places| > 0 && s.seq_ == |s.sizes|
    && !s.places[0].Gone?
    && (s.places[0] == Resting ==> s.nActive == 0 && s.job.nTasks == 0)
    && (s.places[0] != Resting ==>
          !s.shutdown && s.seq_ > 0 && s.job == Job(s.seq_, Size(s), s.job.nParticipants))
    && (s.places[0].Checking? || s.places[0].Asleep? ==> s.places[0].seen == s.seq_ && s.cursor >= Size(s))
    && (s.places[0].Asleep? ==> s.nActive > 0)
  }

  /** A participant with a live job has the current one, and the call that dispatched it has not returned. */
  ghost predicate PlaceFits(s: State, i: nat)
    requires i < |s.places|
  {
    var p := s.places[i];
    && (Active(p) ==> s.places[0] != Resting && (i == 0 || i < s.job.nParticipants))
    && (p.Claiming? || Holds(p) ==> p.job == s.job)
    && (p.Leaving? ==> p.seen == s.seq_ && s.cursor >= Size(s))
    && (Holds(p) ==> p.k < s.cursor && p.k < Size(s))
    && (p.Checking? ==> p.seen <= s.seq_)
    && (p.Asleep? ==> p.seen == s.seq_ && !s.shutdown)
    && (i > 0 ==> p != Resting)
  }

  /** No two participants hold the same task. */
  ghost predicate Exclusive(s: State) {
    forall i, j | 0 <= i < j < |s.places| && Holds(s.places[i]) && Holds(s.places[j]) :: s.places[i].k != s.places[j].k
  }

  ghost predicate IsRunning(s: State, k: nat) { RunsIn(s.places, k) }

  /** What the log says: tasks of finished batches once each, of the current one those claimed and not still running. */
  ghost predicate LogFits(s: State) {
    && |s.sizes| == s.seq_
    && (forall b: nat, k: nat | (b, k) in s.log :: 0 < b <= s.seq_ && k < s.sizes[b - 1])
    && (forall b: nat, k: nat | 0 < b <= s.seq_ && k < s.sizes[b - 1] ::
          s.log[(b, k)] == if b < s.seq_ || s.places == [] || s.places[0] == Resting then 1
                           else if k < s.cursor && !IsRunning(s, k) then 1 else 0)
  }

  ghost predicate Inv(s: State) {
    && CallerFits(s)
    && (forall i | 0 <= i < |s.places| :: PlaceFits(s, i))
    && Exclusive(s) && LogFits(s)
    && s.nActive == Tally(s.places, Active)
    && s.nDone + Tally(s.places, Holds) == if s.cursor < Size(s) then s.cursor else Size(s)
  }

  lemma StartHolds(workers: nat)
    ensures Inv(Start(workers))
  {
    var s := Start(workers);
    assert forall i | 0 <= i < |s.places| :: !Active(s.places[i]) && !Holds(s.places[i]);
    TallyZero(s.places, Active);
    TallyZero(s.places, Holds);
  }

  /** Holders are active. */
  lemma NobodyHolds(s: State)
    requires Inv(s) && s.nActive == 0
    ensures Tally(s.places, Holds) == 0 && forall i | 0 <= i < |s.places| :: !Active(s.places[i])
  {
    hide CallerFits, PlaceFits, Exclusive, LogFits;
    TallyZero(s.places, Active);
    TallyZero(s.places, Holds);
  }

  lemma DispatchKeeps(s: State, n: nat, parts: nat)
    requires Inv(s) && CanMove(s, Dispatch(n, parts))
    ensures Inv(Step(s, Dispatch(n, parts)))
  {
    var t := Step(s, Dispatch(n, parts));
    NobodyHolds(s);
    DispatchLog(s, n, parts);
    hide LogFits;
    TallyZero(s.places, Holds);
    TallyAlike(s.places, Woken(s.places), Active);
    TallyAlike(s.places, Woken(s.places), Holds);
    TallyUpdate(Woken(s.places), Active, 0, Claiming(t.job));
    TallyUpdate(Woken(s.places), Holds, 0, Claiming(t.job));
    forall i | 0 <= i < |t.places| ensures PlaceFits(t, i) {
      assert PlaceFits(s, i);
    }
    assert forall i | 0 < i < |t.places| :: !Active(t.places[i]);
  }

  lemma DispatchLog(s: State, n: nat, parts: nat)
    requires LogFits(s) && |s.places| > 0 && s.places[0] == Resting && !s.shutdown
    ensures LogFits(Step(s, Dispatch(n, parts)))
  {
    var t := Step(s, Dispatch(n, parts));
    assert t.places != [] && t.places[0] != Resting && t.cursor == 0 && t.log == s.log && |t.sizes| == t.seq_;
    forall b: nat, k: nat | (b, k) in t.log ensures 0 < b <= t.seq_ && k < t.sizes[b - 1] {
      assert t.sizes[b - 1] == s.sizes[b - 1];
    }
    forall b: nat, k: nat | 0 < b <= t.seq_ && k < t.sizes[b - 1]
      ensures t.log[(b, k)] == if b < t.seq_ || t.places == [] || t.places[0] == Resting then 1
                               else if k < t.cursor && !IsRunning(t, k) then 1 else 0
    {
      if b < t.seq_ {
        assert t.sizes[b - 1] == s.sizes[b - 1];
      } else {
        assert (b, k) !in s.log;
      }
    }
    hide IsRunning;
    assert LogFits(t);
  }

  lemma ClaimKeeps(s: State, i: nat)
    requires Inv(s) && CanMove(s, Claim(i))
    ensures Inv(Step(s, Claim(i)))
  {
    var t := Step(s, Claim(i));
    assert PlaceFits(s, i);
    TallyUpdate(s.places, Active, i, t.places[i]);
    TallyUpdate(s.places, Holds, i, t.places[i]);
    ClaimLog(s, i);
    hide LogFits;
    forall j | 0 <= j < |t.places| ensures PlaceFits(t, j) && (Holds(s.places[j]) ==> s.places[j].k < s.cursor) {
      assert PlaceFits(s, j);
    }
  }

  lemma ClaimLog(s: State, i: nat)
    requires CallerFits(s) && LogFits(s) && CanMove(s, Claim(i)) && PlaceFits(s, i)
    ensures LogFits(Step(s, Claim(i)))
  {
    var t := Step(s, Claim(i));
    forall k: nat | k != s.cursor ensures IsRunning(t, k) <==> IsRunning(s, k) {
      RunningElsewhere(s.places, i, t.places[i], k);
    }
    if s.cursor < s.job.nTasks {
      assert t.places[i].Running? && t.places[i].k == s.cursor;
      assert IsRunning(t, s.cursor);
    }
  }

  ghost predicate RunsIn(places: seq<Place>, k: nat) {
    exists i :: 0 <= i < |places| && places[i].Running? && places[i].k == k
  }

  lemma RunningElsewhere(places: seq<Place>, i: nat, p: Place, k: nat)
    requires i < |places|
    requires !(places[i].Running? && places[i].k == k) && !(p.Running? && p.k == k)
    ensures RunsIn(places[i := p], k) <==> RunsIn(places, k)
  {
    if RunsIn(places, k) {
      var j :| 0 <= j < |places| && places[j].Running? && places[j].k == k;
      assert places[i := p][j] == places[j];
    }
  }

  lemma ExecuteKeeps(s: State, i: nat)
    requires Inv(s) && CanMove(s, Execute(i))
    ensures Inv(Step(s, Execute(i)))
  {
    var t := Step(s, Execute(i));
    assert PlaceFits(s, i);
    TallyUpdate(s.places, Active, i, t.places[i]);
    TallyUpdate(s.places, Holds, i, t.places[i]);
    ExecuteLog(s, i);
    hide LogFits;
    forall j | 0 <= j < |t.places| ensures PlaceFits(t, j) {
      assert PlaceFits(s, j);
    }
  }

  lemma ExecuteLog(s: State, i: nat)
    requires CallerFits(s) && LogFits(s) && Exclusive(s) && CanMove(s, Execute(i)) && PlaceFits(s, i)
    ensures LogFits(Step(s, Execute(i)))
  {
    var t, mine := Step(s, Execute(i)), s.places[i].k;
    forall k: nat | k != mine ensures IsRunning(t, k) <==> IsRunning(s, k) {
      RunningElsewhere(s.places, i, t.places[i], k);
    }
    assert IsRunning(s, mine) && !IsRunning(t, mine);
  }

  lemma CountKeeps(s: State, i: nat)
    requires Inv(s) && CanMove(s, Count(i))
    ensures Inv(Step(s, Count(i)))
  {
    var t := Step(s, Count(i));
    assert PlaceFits(s, i);
    TallyUpdate(s.places, Active, i, t.places[i]);
    TallyUpdate(s.places, Holds, i, t.places[i]);
    SameLog(s, t, i);
    hide LogFits;
    forall j | 0 <= j < |t.places| ensures PlaceFits(t, j) {
      assert PlaceFits(s, j);
    }
  }

  /** Moves that neither start nor finish running a task leave the log as truthful as it was. */
  lemma SameLog(s: State, t: State, i: nat)
    requires LogFits(s) && i < |s.places| == |t.places| && t.places == s.places[i := t.places[i]]
    requires t.log == s.log && t.sizes == s.sizes && t.seq_ == s.seq_ && t.cursor == s.cursor
    requires !s.places[i].Running? && !t.places[i].Running? && (t.places[0] == Resting <==> s.places[0] == Resting)
    ensures LogFits(t)
  {
    forall k: nat ensures IsRunning(t, k) <==> IsRunning(s, k) {
      RunningElsewhere(s.places, i, t.places[i], k);
    }
  }

  lemma LeaveKeeps(s: State, i: nat)
    requires Inv(s) && CanMove(s, Leave(i))
    ensures Inv(Step(s, Leave(i)))
  {
    var t := Step(s, Leave(i));
    var left := s.places[i := Checking(s.places[i].seen)];
    var u := s.(nActive := t.nActive, places := left);
    assert PlaceFits(s, i);
    TallyUpdate(s.places, Active, i, left[i]);
    TallyUpdate(s.places, Holds, i, left[i]);
    TallyZero(s.places, Active);
    SameLog(s, u, i);
    if i > 0 && t.nActive == 0 && left[0].Asleep? {
      TallyUpdate(left, Active, 0, t.places[0]);
      TallyUpdate(left, Holds, 0, t.places[0]);
      SameLog(u, t, 0);
    }
    hide LogFits;
    forall j | 0 <= j < |t.places| ensures PlaceFits(t, j) {
      assert PlaceFits(s, j);
    }
  }

  lemma LookKeeps(s: State, i: nat)
    requires Inv(s) && CanMove(s, Look(i))
    ensures Inv(Step(s, Look(i)))
  {
    var t := Step(s, Look(i));
    assert PlaceFits(s, i);
    TallyUpdate(s.places, Active, i, t.places[i]);
    TallyUpdate(s.places, Holds, i, t.places[i]);
    SameLog(s, t, i);
    hide LogFits;
    forall j | 0 <= j < |t.places| ensures PlaceFits(t, j) {
      assert PlaceFits(s, j);
    }
  }

  /** When the dispatching call sees nobody active, every task of the batch is done and counted. */
  lemma AllDone(s: State)
    requires Inv(s) && s.places[0].Checking? && s.nActive == 0
    ensures s.nDone == Size(s) == s.job.nTasks
    ensures forall k: nat | k < Size(s) :: s.log[(s.seq_, k)] == 1
  {
    NobodyHolds(s);
    forall k: nat ensures !IsRunning(s, k) {
      assert forall i | 0 <= i < |s.places| :: !Active(s.places[i]);
    }
  }

  lemma ReturnKeeps(s: State)
    requires Inv(s) && CanMove(s, Return)
    ensures Inv(Step(s, Return))
  {
    var t := Step(s, Return);
    TallyUpdate(s.places, Active, 0, t.places[0]);
    TallyUpdate(s.places, Holds, 0, t.places[0]);
    assert PlaceFits(s, 0);
    if s.nActive == 0 {
      AllDone(s);
      NobodyHolds(s);
    } else {
      SameLog(s, t, 0);
    }
    forall j | 0 <= j < |t.places| ensures PlaceFits(t, j) {
      assert PlaceFits(s, j);
    }
  }

  lemma ShutdownKeeps(s: State)
    requires Inv(s) && CanMove(s, Shutdown)
    ensures Inv(Step(s, Shutdown))
  {
    var t := Step(s, Shutdown);
    TallyAlike(s.places, Woken(s.places), Active);
    TallyAlike(s.places, Woken(s.places), Holds);
    WokenLog(s, t);
    hide LogFits;
    forall j | 0 <= j < |t.places| ensures PlaceFits(t, j) {
      assert PlaceFits(s, j);
    }
  }

  lemma WokenLog(s: State, t: State)
    requires LogFits(s) && |s.places| > 0 && s.places[0] == Resting
    requires t == s.(shutdown := true, places := Woken(s.places))
    ensures LogFits(t)
  {
    assert t.places[0] == Resting;
  }

  /** Every step of every participant keeps the invariant. */
  lemma StepKeeps(s: State, m: Move)
    requires Inv(s) && CanMove(s, m)
    ensures Inv(Step(s, m))
  {
    hide Inv, Step, CanMove;
    match m
    case Dispatch(n, parts) => DispatchKeeps(s, n, parts);
    case Claim(i) => ClaimKeeps(s, i);
    case Execute(i) => ExecuteKeeps(s, i);
    case Count(i) => CountKeeps(s, i);
    case Leave(i) => LeaveKeeps(s, i);
    case Look(i) => LookKeeps(s, i);
    case Return => ReturnKeeps(s);
    case Shutdown => ShutdownKeeps(s);
  }

  // ---------- runs ----------

  ghost predicate IsRun(s: State, ms: seq<Move>)
    decreases |ms|
  {
    ms == [] || (CanMove(s, ms[0]) && IsRun(Step(s, ms[0]), ms[1..]))
  }

  ghost function After(s: State, ms: seq<Move>): State
    requires IsRun(s, ms)
    decreases |ms|
  {
    if ms == [] then s else After(Step(s, ms[0]), ms[1..])
  }

  lemma {:induction false} RunKeeps(s: State, ms: seq<Move>)
    requires Inv(s) && IsRun(s, ms)
    ensures Inv(After(s, ms))
    decreases |ms|
  {
    hide Inv, Step;
    if ms != [] {
      StepKeeps(s, ms[0]);
      RunKeeps(Step(s, ms[0]), ms[1..]);
    }
  }

  /** Over every run, however steps interleave: each task of each finished batch has been executed exactly once, no task
      ever more than once, and nothing else was executed; while the dispatching call rests nobody is active and nobody
      holds a job; and whoever holds one holds the current batch's. */
  lemma EachTaskOnce(workers: nat, ms: seq<Move>)
    requires IsRun(Start(workers), ms)
    ensures var s := After(Start(workers), ms);
            && |s.places| > 0 && |s.sizes| == s.seq_
            && (forall b: nat, k: nat | 0 < b <= s.seq_ && k < s.sizes[b - 1] ::
                  s.log[(b, k)] <= 1 && (b < s.seq_ || s.places[0] == Resting ==> s.log[(b, k)] == 1))
            && (forall b: nat, k: nat | (b, k) in s.log :: 0 < b <= s.seq_ && k < s.sizes[b - 1])
            && (s.places[0] == Resting ==> s.nActive == 0 && forall i | 0 <= i < |s.places| :: !Active(s.places[i]))
            && (forall i | 0 <= i < |s.places| && (s.places[i].Claiming? || Holds(s.places[i])) ::
               s.places[i].job.batch == s.seq_)
  {
    StartHolds(workers);
    RunKeeps(Start(workers), ms);
    var s := After(Start(workers), ms);
    forall i | 0 <= i < |s.places| && (s.places[i].Claiming? || Holds(s.places[i]))
      ensures s.places[i].job.batch == s.seq_
    {
      assert PlaceFits(s, i);
    }
    if s.places[0] == Resting {
      NobodyHolds(s);
    }
  }

  // ---------- progress ----------

  /** Moves made by participants on their own, between dispatches. */
  predicate Internal(m: Move) { !m.Dispatch? && !m.Shutdown? }

  /** How many moves a participant may still have to make. */
  function Weight(p: Place, batch: nat): nat {
    match p
    case Checking(seen) => if seen == batch then 1 else 5
    case Claiming(_) => 4
    case Running(_, _) => 6
    case Ran(_, _) => 5
    case Leaving(_) => 3
    case Resting => 0
    case Asleep(_) => 0
    case Gone => 0
  }

  function Weights(places: seq<Place>, batch: nat): nat {
    if places == [] then 0 else Weights(places[..|places| - 1], batch) + Weight(places[|places| - 1], batch)
  }

  lemma {:induction false} WeightsUpdate(places: seq<Place>, batch: nat, i: nat, p: Place)
    requires i < |places|
    ensures Weights(places[i := p], batch) + Weight(places[i], batch) == Weights(places, batch) + Weight(p, batch)
  {
    var n := |places| - 1;
    if i == n {
      assert places[i := p][..n] == places[..n];
    } else {
      WeightsUpdate(places[..n], batch, i, p);
      assert places[i := p][..n] == places[..n][i := p];
    }
  }

  function Rank(s: State): nat {
    Weights(s.places, s.seq_) + if s.cursor < Size(s) then 3 * (Size(s) - s.cursor) else 0
  }

  /** Every move of a participant uses up some of the rank: no schedule runs forever between dispatches. */
  lemma RankFalls(s: State, m: Move)
    requires Inv(s) && CanMove(s, m) && Internal(m)
    ensures Rank(Step(s, m)) < Rank(s)
  {
    hide Exclusive, LogFits, Weights, Tally;
    var t := Step(s, m);
    var i := if m.Return? then 0 else m.i;
    assert PlaceFits(s, i);
    WeightsUpdate(s.places, s.seq_, i, t.places[i]);
    if m.Leave? {
      var left := s.places[i := Checking(s.places[i].seen)];
      WeightsUpdate(s.places, s.seq_, i, left[i]);
      WeightsUpdate(left, s.seq_, 0, t.places[0]);
      assert left[0 := left[0]] == left;
    }
  }

  /** Until the dispatching call returns somebody can move, so no completion signal is ever lost. */
  lemma SomebodyMoves(s: State) returns (m: Move)
    requires Inv(s) && s.places[0] != Resting
    ensures Internal(m) && CanMove(s, m)
  {
    hide Exclusive, LogFits, Tally;
    var i := 0;
    if s.places[0].Asleep? {
      TallyZero(s.places, Active);
      i :| 0 <= i < |s.places| && Active(s.places[i]);
    }
    m := match s.places[i]
      case Claiming(_) => Claim(i)
      case Running(_, _) => Execute(i)
      case Ran(_, _) => Count(i)
      case Leaving(_) => Leave(i)
      case _ => Return;
  }

  /** Between dispatches no run is longer than the rank it starts with. */
  lemma {:induction false} RunsAreShort(s: State, ms: seq<Move>)
    requires Inv(s) && IsRun(s, ms) && forall m | m in ms :: Internal(m)
    ensures |ms| + Rank(After(s, ms)) <= Rank(s)
    decreases |ms|
  {
    hide Inv, Step, Rank, CanMove;
    if ms != [] {
      assert ms[0] in ms && forall m | m in ms[1..] :: m in ms;
      StepKeeps(s, ms[0]);
      RankFalls(s, ms[0]);
      RunsAreShort(Step(s, ms[0]), ms[1..]);
    }
  }

  /** A run that can go no further has returned, with every task of the batch executed once. */
  lemma StuckMeansReturned(workers: nat, ms: seq<Move>)
    requires IsRun(Start(workers), ms)
    requires forall m: Move | Internal(m) :: !CanMove(After(Start(workers), ms), m)
    ensures var s := After(Start(workers), ms);
            && |s.places| > 0 && s.places[0] == Resting && |s.sizes| == s.seq_
            && forall b: nat, k: nat | 0 < b <= s.seq_ && k < s.sizes[b - 1] :: s.log[(b, k)] == 1
  {
    EachTaskOnce(workers, ms);
    StartHolds(workers);
    RunKeeps(Start(workers), ms);
    var s := After(Start(workers), ms);
    if s.places[0] != Resting {
      var m := SomebodyMoves(s);
    }
  }
}
