/** A batch on many workers.  Workers claim tasks in order; each works on its own context, writes steps to its own
    buffer and the row of the request it claimed, one step at a time, in any interleaving; rounds are separated by a
    barrier. What comes out depends on none of this. */
module Schedule {
  import opened Grid
  import opened SearchKernel
  import opened Emit
  import opened Solve
  import opened FieldMachine
  import opened FieldExact
  import opened FieldAnswers
  import opened Recency
  import opened FieldCache
  import opened Planner
  import opened Staging

  /** What tasks compute: a search for a request, a field for a key, an answer from a field. */
  datatype Work = Work(search: nat -> Answer, build: Key -> FieldState, extract: (nat, Key, FieldState) -> Answer)

  const NOTHING: Answer := Answer(None, 0, [], 0, 0)

  /** The work of a batch: its requests' own searches, the fields of its views, and what those fields answer. */
  ghost function WorkOf(env: Env, reqs: seq<Request>): Work {
    Work(
      (r: nat) => if r < |reqs| && reqs[r].profileId < |env.views| && Answerable(env.views[reqs[r].profileId], reqs[r])
           then SearchAnswer(env.views[reqs[r].profileId], reqs[r]) else NOTHING,
      (k: Key) => FieldFor(env, k),
      (r: nat, k: Key, f: FieldState) => if r < |reqs| && ReadsFrom(env, reqs[r], k)
          && Usable(env.views[k.profile], TargetFor(env, k), f)
                   then FieldAnswer(env.views[k.profile], TargetFor(env, k), f, reqs[r]) else NOTHING)
  }

  ghost function FieldFor(env: Env, k: Key): FieldState {
    if k.profile < |env.views| && env.views[k.profile].Valid() && k.set_ <= |env.seeds|
       && ValidTarget(env.views[k.profile], TargetFor(env, k))
    then Field(env.views[k.profile], TargetFor(env, k)) else Stored([], [])
  }

  /** Whoever runs a task, this is its answer. */
  ghost function TaskAnswer(work: Work, t: Task): Answer {
    match t
    case SolveTask(r) => work.search(r)
    case BuildTask(_) => NOTHING
    case ExtractTask(r, k) => work.extract(r, k, work.build(k))
  }

  /** For a batch's own work that is the right answer. */
  lemma TaskAnswerIsRight(env: Env, reqs: seq<Request>, t: Task, a: Answer)
    requires !t.BuildTask? && t.req < |reqs| && RightAnswer(env, reqs[t.req], t, a)
    ensures a == TaskAnswer(WorkOf(env, reqs), t)
  {
    hide SearchAnswer, FieldAnswer, Field, Finished;
    if t.ExtractTask? {
      FieldFinished(env.views[t.key.profile], TargetFor(env, t.key));
    }
  }

  /** A worker is free, or has emitted some of its task's steps from `base` on. */
  datatype Busy = Free | Doing(k: nat, base: nat)

  datatype World = World(
    cursor: nat, busy: seq<Busy>, bufs: seq<seq<Step>>, rows: map<nat, Row>, fields: map<Key, FieldState>)

  /** A worker takes the next task, emits one more step of the one it has, or finishes it with a row. */
  datatype Act = Take(w: nat) | EmitOne(w: nat) | Finish(w: nat, row: Row)

  /** The answer a task gives, reading its field if it needs one. */
  ghost function AnswerOf(work: Work, fields: map<Key, FieldState>, t: Task): Answer
    requires t.ExtractTask? ==> t.key in fields
  {
    match t
    case SolveTask(r) => work.search(r)
    case BuildTask(_) => NOTHING
    case ExtractTask(r, k) => work.extract(r, k, fields[k])
  }

  ghost predicate AtWork(s: World, ts: seq<Task>, w: nat) {
    && w < |s.busy| == |s.bufs| && s.busy[w].Doing? && s.busy[w].k < |ts| && s.busy[w].base <= |s.bufs[w]|
    && (ts[s.busy[w].k].ExtractTask? ==> ts[s.busy[w].k].key in s.fields)
  }

  ghost predicate CanAct(s: World, ts: seq<Task>, work: Work, a: Act) {
    match a
    case Take(w) => w < |s.busy| == |s.bufs| && s.busy[w] == Free && s.cursor < |ts|
    case EmitOne(w) =>
      && AtWork(s, ts, w)
      && |s.bufs[w]| - s.busy[w].base < |AnswerOf(work, s.fields, ts[s.busy[w].k]).steps|
    case Finish(w, row) =>
      && AtWork(s, ts, w)
      && |s.bufs[w]| - s.busy[w].base == |AnswerOf(work, s.fields, ts[s.busy[w].k]).steps|
      && (!ts[s.busy[w].k].BuildTask? ==> RowFits(row, w, s.busy[w].base, AnswerOf(work, s.fields, ts[s.busy[w].k])))
  }

  /** A row for an answer whose steps start at `off` in the buffer of worker `w`. */
  ghost predicate RowFits(row: Row, w: nat, off: nat, a: Answer) {
    && row.status == a.status && row.expansions == a.expansions && row.trueQ == a.trueQ
    && row.perceivedQ == a.perceivedQ
    && row.len == |a.steps| && row.worker == w && (row.len > 0 ==> row.localOff == off)
  }

  ghost function Do(s: World, ts: seq<Task>, work: Work, a: Act): World
    requires CanAct(s, ts, work, a)
  {
    match a
    case Take(w) => s.(cursor := s.cursor + 1, busy := s.busy[w := Doing(s.cursor, |s.bufs[w]|)])
    case EmitOne(w) =>
      var steps := AnswerOf(work, s.fields, ts[s.busy[w].k]).steps;
      s.(bufs := s.bufs[w := s.bufs[w] + [steps[|s.bufs[w]| - s.busy[w].base]]])
    case Finish(w, row) =>
      var t := ts[s.busy[w].k];
      if t.BuildTask? then s.(busy := s.busy[w := Free], fields := s.fields[t.key := work.build(t.key)])
      else s.(busy := s.busy[w := Free], rows := s.rows[t.req := row])
  }

  // ---------- a round ----------

  /** Fields are what building them gives. */
  ghost predicate Sane(fields: map<Key, FieldState>, work: Work) {
    forall k | k in fields :: fields[k] == work.build(k)
  }

  ghost predicate DistinctReqs(ts: seq<Task>) {
    forall i, j | 0 <= i < j < |ts| && !ts[i].BuildTask? && !ts[j].BuildTask? :: ts[i].req != ts[j].req
  }

  /** Tasks name distinct requests, and read only fields that are there when the round begins. */
  ghost predicate Apart(ts: seq<Task>, fields: map<Key, FieldState>) {
    DistinctReqs(ts) && forall i | 0 <= i < |ts| && ts[i].ExtractTask? :: ts[i].key in fields
  }

  /** The row of request `r` carries `a`. */
  ghost predicate HasAnswer(s: World, r: nat, a: Answer) {
    r in s.rows && Carried(s.rows[r], s.bufs, a)
  }

  /** Task `k` is over: its row carries its answer, or its field is built. */
  ghost predicate Over(s: World, ts: seq<Task>, work: Work, k: nat)
    requires k < |ts|
  {
    match ts[k]
    case BuildTask(key) => key in s.fields
    case _ => HasAnswer(s, ts[k].req, TaskAnswer(work, ts[k]))
  }

  ghost predicate InHand(s: World, k: nat) {
    exists w :: 0 <= w < |s.busy| && s.busy[w].Doing? && s.busy[w].k == k
  }

  /** A working worker has emitted exactly the first part of its own task's steps. */
  ghost predicate Underway(s: World, ts: seq<Task>, work: Work, w: nat)
    requires w < |s.busy| == |s.bufs|
  {
    s.busy[w].Doing? ==>
      && s.busy[w].k < s.cursor && s.busy[w].k < |ts| && s.busy[w].base <= |s.bufs[w]|
      && var steps := TaskAnswer(work, ts[s.busy[w].k]).steps;
      && |s.bufs[w]| - s.busy[w].base <= |steps|
      && s.bufs[w][s.busy[w].base..] == steps[..|s.bufs[w]| - s.busy[w].base]
  }

  /** Rows of requests no task names are as they were, and no field is lost. */
  ghost predicate Untouched(s0: World, s: World, ts: seq<Task>) {
    && Grown(s0.bufs, s.bufs) && s0.fields.Keys <= s.fields.Keys
    && (forall r | r in s0.rows && (forall t | t in ts && !t.BuildTask? :: t.req != r) ::
         r in s.rows && s.rows[r] == s0.rows[r])
  }

  ghost predicate RoundInv(s0: World, s: World, ts: seq<Task>, work: Work) {
    && Apart(ts, s0.fields) && Sane(s.fields, work) && |s.busy| == |s.bufs| && s.cursor <= |ts|
    && (forall w | 0 <= w < |s.busy| :: Underway(s, ts, work, w))
    && (forall v, w | 0 <= v < w < |s.busy| && s.busy[v].Doing? && s.busy[w].Doing? :: s.busy[v].k != s.busy[w].k)
    && (forall k | 0 <= k < s.cursor && !InHand(s, k) :: Over(s, ts, work, k))
    && Untouched(s0, s, ts)
  }

  ghost predicate Quiet(s: World) {
    forall w | 0 <= w < |s.busy| :: s.busy[w] == Free
  }

  lemma RoundStarts(s: World, ts: seq<Task>, work: Work)
    requires Apart(ts, s.fields) && Sane(s.fields, work) && |s.busy| == |s.bufs| && Quiet(s) && s.cursor == 0
    ensures RoundInv(s, s, ts, work)
  {
  }

  /** A task reads the same field however far the round has come. */
  lemma SameAnswer(s0: World, s: World, ts: seq<Task>, work: Work, k: nat)
    requires Apart(ts, s0.fields) && Untouched(s0, s, ts) && Sane(s.fields, work) && k < |ts|
    ensures ts[k].ExtractTask? ==> ts[k].key in s.fields
    ensures AnswerOf(work, s.fields, ts[k]) == TaskAnswer(work, ts[k])
  {
  }

  lemma TakeKeeps(s0: World, s: World, ts: seq<Task>, work: Work, w: nat)
    requires RoundInv(s0, s, ts, work) && CanAct(s, ts, work, Take(w))
    ensures RoundInv(s0, Do(s, ts, work, Take(w)), ts, work)
  {
    hide Carried, Apart, Sane, AnswerOf, Grown, TaskAnswer;
    var t := Do(s, ts, work, Take(w));
    forall v | 0 <= v < |t.busy|
      ensures Underway(t, ts, work, v)
              && (t.busy[v].Doing? && v != w ==> t.busy[v].k < s.cursor)
    {
      assert Underway(s, ts, work, v);
    }
    assert t.busy[w].k == s.cursor;
    forall k | 0 <= k < t.cursor && !InHand(t, k) ensures Over(t, ts, work, k) {
      StillInHand(s, t, w, k);
      assert Over(s, ts, work, k);
    }
  }

  lemma StillInHand(s: World, t: World, w: nat, k: nat)
    requires w < |s.busy| == |t.busy| && t.busy == s.busy[w := t.busy[w]]
    requires s.busy[w].Doing? ==> s.busy[w].k != k
    ensures InHand(s, k) ==> InHand(t, k)
    ensures t.busy[w].Doing? && t.busy[w].k == k ==> InHand(t, k)
  {
    if InHand(s, k) {
      var v :| 0 <= v < |s.busy| && s.busy[v].Doing? && s.busy[v].k == k;
      assert t.busy[v] == s.busy[v];
    }
  }

  lemma EmitKeeps(s0: World, s: World, ts: seq<Task>, work: Work, w: nat)
    requires RoundInv(s0, s, ts, work) && CanAct(s, ts, work, EmitOne(w))
    ensures RoundInv(s0, Do(s, ts, work, EmitOne(w)), ts, work)
  {
    hide Carried, Apart, Sane, AnswerOf, TaskAnswer;
    var t := Do(s, ts, work, EmitOne(w));
    SameAnswer(s0, s, ts, work, s.busy[w].k);
    assert Grown(s.bufs, t.bufs);
    forall v | 0 <= v < |t.busy| ensures Underway(t, ts, work, v) {
      assert Underway(s, ts, work, v);
      if v == w {
        EmitExtends(s.bufs[w], s.busy[w].base, TaskAnswer(work, ts[s.busy[w].k]).steps);
      }
    }
    forall k | 0 <= k < t.cursor && !InHand(t, k) ensures Over(t, ts, work, k) {
      assert !InHand(s, k) && Over(s, ts, work, k);
      if !ts[k].BuildTask? {
        CarriedStays(s.rows[ts[k].req], s.bufs, t.bufs, TaskAnswer(work, ts[k]));
      }
    }
  }

  lemma EmitExtends(buf: seq<Step>, base: nat, steps: seq<Step>)
    requires base <= |buf| && |buf| - base < |steps| && buf[base..] == steps[..|buf| - base]
    ensures (buf + [steps[|buf| - base]])[base..] == steps[..|buf| + 1 - base]
  {
  }

  lemma FinishKeeps(s0: World, s: World, ts: seq<Task>, work: Work, w: nat, row: Row)
    requires RoundInv(s0, s, ts, work) && CanAct(s, ts, work, Finish(w, row))
    ensures RoundInv(s0, Do(s, ts, work, Finish(w, row)), ts, work)
  {
    hide AnswerOf, Grown, TaskAnswer, Carried, RowFits;
    var t, mine := Do(s, ts, work, Finish(w, row)), s.busy[w].k;
    SameAnswer(s0, s, ts, work, mine);
    assert Underway(s, ts, work, w);
    forall v | 0 <= v < |t.busy| ensures Underway(t, ts, work, v) {
      assert Underway(s, ts, work, v);
    }
    forall k | 0 <= k < t.cursor && !InHand(t, k) ensures Over(t, ts, work, k) {
      if k == mine {
        if !ts[k].BuildTask? {
          FinishedRow(s.bufs, w, s.busy[w].base, row, TaskAnswer(work, ts[k]));
        }
      } else {
        StillInHand(s, t, w, k);
        assert Over(s, ts, work, k);
      }
    }
    hide Apart, Over;
    assert ts[mine] in ts;
  }

  lemma FinishedRow(bufs: seq<seq<Step>>, w: nat, base: nat, row: Row, a: Answer)
    requires w < |bufs| && base <= |bufs[w]| && |bufs[w]| - base == |a.steps| && RowFits(row, w, base, a)
    requires bufs[w][base..] == a.steps[..|bufs[w]| - base]
    ensures Carried(row, bufs, a)
  {
    assert bufs[w][base..base + |a.steps|] == bufs[w][base..];
    assert a.steps[..|a.steps|] == a.steps;
  }

  // ---------- whole rounds ----------

  ghost predicate IsRound(s: World, ts: seq<Task>, work: Work, acts: seq<Act>)
    decreases |acts|
  {
    acts == [] || (CanAct(s, ts, work, acts[0]) && IsRound(Do(s, ts, work, acts[0]), ts, work, acts[1..]))
  }

  ghost function AfterActs(s: World, ts: seq<Task>, work: Work, acts: seq<Act>): World
    requires IsRound(s, ts, work, acts)
    decreases |acts|
  {
    if acts == [] then s else AfterActs(Do(s, ts, work, acts[0]), ts, work, acts[1..])
  }

  lemma {:induction false} RoundKeeps(s0: World, s: World, ts: seq<Task>, work: Work, acts: seq<Act>)
    requires RoundInv(s0, s, ts, work) && IsRound(s, ts, work, acts)
    ensures RoundInv(s0, AfterActs(s, ts, work, acts), ts, work)
    decreases |acts|
  {
    hide RoundInv, Do, CanAct;
    if acts != [] {
      match acts[0] {
        case Take(w) => TakeKeeps(s0, s, ts, work, w);
        case EmitOne(w) => EmitKeeps(s0, s, ts, work, w);
        case Finish(w, row) => FinishKeeps(s0, s, ts, work, w, row);
      }
      RoundKeeps(s0, Do(s, ts, work, acts[0]), ts, work, acts[1..]);
    }
  }

  /** A round that was played to its end: every task claimed, and no worker still at one. */
  ghost predicate Played(s: World, ts: seq<Task>, work: Work, acts: seq<Act>) {
    && Quiet(s) && s.cursor == 0 && IsRound(s, ts, work, acts)
    && Quiet(AfterActs(s, ts, work, acts)) && AfterActs(s, ts, work, acts).cursor == |ts|
  }

  /** However many workers there are and however their steps interleave, a completed round leaves every request it names
      with its task's answer, every field it builds as built, and everything else as it was. */
  lemma RoundIsDetermined(s: World, ts: seq<Task>, work: Work, acts: seq<Act>)
    requires Apart(ts, s.fields) && Sane(s.fields, work) && |s.busy| == |s.bufs| && Played(s, ts, work, acts)
    ensures var t := AfterActs(s, ts, work, acts);
            && (forall k | 0 <= k < |ts| :: Over(t, ts, work, k))
            && Untouched(s, t, ts) && Sane(t.fields, work) && |t.busy| == |t.bufs|
  {
    hide Over, Untouched, Underway, Apart, Sane;
    RoundStarts(s, ts, work);
    RoundKeeps(s, s, ts, work, acts);
    var t := AfterActs(s, ts, work, acts);
    forall k | 0 <= k < |ts| ensures Over(t, ts, work, k) {
      assert !InHand(t, k);
    }
  }

  // ---------- one task on its own ----------

  /** What a worker does to its buffer and to a row when it answers a request, by the contracts of searches and
      extractions, is a run of the machine: it takes the task, emits the steps one by one, and finishes with that
      row. */
  lemma TaskAlone(s: World, ts: seq<Task>, work: Work, w: nat, row: Row) returns (acts: seq<Act>)
    requires w < |s.busy| == |s.bufs| && s.busy[w] == Free && s.cursor < |ts| && !ts[s.cursor].BuildTask?
    requires ts[s.cursor].ExtractTask? ==> ts[s.cursor].key in s.fields
    requires var a := AnswerOf(work, s.fields, ts[s.cursor]);
             Carries(row, s.bufs[w], s.bufs[w] + a.steps, a) && row.worker == w
    ensures IsRound(s, ts, work, acts)
    ensures var t, a := AfterActs(s, ts, work, acts), AnswerOf(work, s.fields, ts[s.cursor]);
            t == s.(cursor := s.cursor + 1, bufs := s.bufs[w := s.bufs[w] + a.steps],
                rows := s.rows[ts[s.cursor].req := row])
  {
    hide AnswerOf;
    var m := Do(s, ts, work, Take(w));
    var rest := EmitRest(m, ts, work, w, s.bufs[w], row);
    acts := [Take(w)] + rest;
    assert acts[1..] == rest;
    assert m.(busy := m.busy[w := Free]).busy == s.busy;
  }

  lemma {:induction false} EmitRest(s: World, ts: seq<Task>, work: Work, w: nat, before: seq<Step>, row: Row)
    returns (acts: seq<Act>)
    requires AtWork(s, ts, w) && !ts[s.busy[w].k].BuildTask?
    requires var a := AnswerOf(work, s.fields, ts[s.busy[w].k]);
             && RowFits(row, w, s.busy[w].base, a)
             && s.busy[w].base == |before| <= |s.bufs[w]| <= |before| + |a.steps|
             && s.bufs[w] == before + a.steps[..|s.bufs[w]| - |before|]
    ensures IsRound(s, ts, work, acts)
    ensures var k := s.busy[w].k;
            var a := AnswerOf(work, s.fields, ts[k]);
            AfterActs(s, ts, work, acts) ==
              s.(busy := s.busy[w := Free], bufs := s.bufs[w := before + a.steps], rows := s.rows[ts[k].req := row])
    decreases |before| + |AnswerOf(work, s.fields, ts[s.busy[w].k]).steps| - |s.bufs[w]|
  {
    hide AnswerOf, RowFits;
    var steps := AnswerOf(work, s.fields, ts[s.busy[w].k]).steps;
    var n := |s.bufs[w]| - |before|;
    if n == |steps| {
      acts := [Finish(w, row)];
      assert steps[..n] == steps && s.bufs[w := before + steps] == s.bufs;
      assert acts[1..] == [];
    } else {
      var t := Do(s, ts, work, EmitOne(w));
      assert t.bufs[w] == before + steps[..n + 1];
      var rest := EmitRest(t, ts, work, w, before, row);
      acts := [EmitOne(w)] + rest;
      assert acts[1..] == rest;
      assert t.bufs[w := before + steps] == s.bufs[w := before + steps];
    }
  }

  /** A crew between tasks, as the machine sees it. */
  ghost function WorldOf(crew: Crew, n: nat, cursor: nat, fields: map<Key, FieldState>): World
    reads crew, crew.Repr
    requires crew.Valid(n)
  {
    World(cursor, seq(|crew.desks|, _ => Free), crew.Bufs(), crew.rows, fields)
  }

  /** Worker `w` runs the next task, on its own context and whatever that context went through: a run of the machine
      with the batch's own work. */
  method RunOn(crew: Crew, w: nat, env: Env, reqs: seq<Request>, ghost n: nat, t: Task, field: CachedField,
               ghost ts: seq<Task>, ghost cursor: nat, ghost fields: map<Key, FieldState>)
    returns (built: (seq<nat>, seq<nat>), ghost acts: seq<Act>)
    requires crew.Valid(n) && w < |crew.desks| && ViewsFit(env, n) && cursor < |ts| && ts[cursor] == t
    requires t.SolveTask? ==>
               t.req < |reqs| && reqs[t.req].profileId < |env.views|
                   && Answerable(env.views[reqs[t.req].profileId], reqs[t.req])
    requires t.BuildTask? ==> KeyFits(env, t.key)
    requires t.ExtractTask? ==>
               && t.req < |reqs| && ReadsFrom(env, reqs[t.req], t.key) && Readable(env, t.key, field.dist, field.next)
               && t.key in fields && fields[t.key] == Stored(field.dist, field.next)
    modifies crew.Repr
    ensures crew.Valid(n) && fresh(crew.Repr - old(crew.Repr))
    ensures t.BuildTask? ==> Stored(built.0, built.1) == Built(env, t.key)
    ensures IsRound(old(WorldOf(crew, n, cursor, fields)), ts, WorkOf(env, reqs), acts)
    ensures AfterActs(old(WorldOf(crew, n, cursor, fields)), ts, WorkOf(env, reqs), acts)
         == WorldOf(crew, n, cursor + 1, if t.BuildTask? then fields[t.key := WorkOf(env, reqs).build(t.key)]
             else fields)
  {
    hide SearchAnswer, FieldAnswer, Field, Finished, Carries, Crew.Valid, IsRound, AfterActs, View.Valid, ValidTarget,
      Crew.Staged;
    ghost var was, work := WorldOf(crew, n, cursor, fields), WorkOf(env, reqs);
    built := ([], []);
    match t
    case SolveTask(r) =>
      crew.Search(w, env.views[reqs[r].profileId], reqs[r], r);
      acts := TaskAlone(was, ts, work, w, crew.rows[r]);
    case ExtractTask(r, k) =>
      FieldFinished(env.views[k.profile], TargetFor(env, k));
      crew.Read(w, env.views[k.profile], TargetFor(env, k), field.dist, field.next, reqs[r], r);
      acts := TaskAlone(was, ts, work, w, crew.rows[r]);
    case BuildTask(k) =>
      var dist, next := crew.Build(w, env.views[k.profile], TargetFor(env, k));
      built := (dist, next);
      acts := BuildAlone(was, ts, work, w);
  }

  lemma BuildAlone(s: World, ts: seq<Task>, work: Work, w: nat) returns (acts: seq<Act>)
    requires w < |s.busy| == |s.bufs| && s.busy[w] == Free && s.cursor < |ts| && ts[s.cursor].BuildTask?
    ensures IsRound(s, ts, work, acts)
    ensures var key := ts[s.cursor].key;
            AfterActs(s, ts, work, acts) == s.(cursor := s.cursor + 1, fields := s.fields[key := work.build(key)])
  {
    acts := [Take(w), Finish(w, BLANK_ROW)];
    var m := Do(s, ts, work, Take(w));
    var t := Do(m, ts, work, Finish(w, BLANK_ROW));
    var rest := [Finish(w, BLANK_ROW)];
    assert acts[1..] == rest && rest[1..] == [];
    assert IsRound(t, ts, work, []) && AfterActs(t, ts, work, []) == t;
    assert IsRound(m, ts, work, rest) && AfterActs(m, ts, work, rest) == t;
    assert m.(busy := m.busy[w := Free]).busy == s.busy;
  }

  // ---------- a wave: two rounds with a barrier between them ----------

  /** Rows stay right through a round that does not name them. */
  lemma AnswerStays(s: World, t: World, ts: seq<Task>, r: nat, a: Answer)
    requires Untouched(s, t, ts) && HasAnswer(s, r, a) && forall x | x in ts && !x.BuildTask? :: x.req != r
    ensures HasAnswer(t, r, a)
  {
    CarriedStays(s.rows[r], s.bufs, t.bufs, a);
  }

  /** A wave begins with the fields the cache has finished. */
  ghost function WaveStart(s: World, wave: Wave, work: Work): World {
    s.(cursor := 0, fields := map k | k in wave.have :: work.build(k))
  }

  /** The barrier between a wave's rounds. */
  ghost function Between(s: World, wave: Wave, work: Work, acts: seq<Act>): World
    requires IsRound(WaveStart(s, wave, work), wave.t1, work, acts)
  {
    AfterActs(WaveStart(s, wave, work), wave.t1, work, acts).(cursor := 0)
  }

  ghost predicate WavePlayed(s: World, wave: Wave, work: Work, acts1: seq<Act>, acts2: seq<Act>) {
    && Played(WaveStart(s, wave, work), wave.t1, work, acts1)
    && Played(Between(s, wave, work, acts1), wave.t2, work, acts2)
  }

  ghost function AfterWave(s: World, wave: Wave, work: Work, acts1: seq<Act>, acts2: seq<Act>): World
    requires WavePlayed(s, wave, work, acts1, acts2)
  {
    AfterActs(Between(s, wave, work, acts1), wave.t2, work, acts2)
  }

  /** Because the second round starts only when the first is complete, a wave's answers are those of its tasks alone:
      schedules, worker counts and buffers do not enter.  What earlier waves answered stays answered. */
  lemma WaveIsDetermined(s: World, wave: Wave, work: Work, acts1: seq<Act>, acts2: seq<Act>)
    requires WaveServes(wave) && DistinctReqs(wave.t1 + wave.t2) && |s.busy| == |s.bufs|
    requires WavePlayed(s, wave, work, acts1, acts2)
    ensures var t := AfterWave(s, wave, work, acts1, acts2);
            && |t.busy| == |t.bufs|
            && (forall x | x in wave.t1 + wave.t2 && !x.BuildTask? :: HasAnswer(t, x.req, TaskAnswer(work, x)))
            && (forall r: nat, a | HasAnswer(s, r, a) && (forall x | x in wave.t1 + wave.t2 && !x.BuildTask? ::
               x.req != r) ::
                  HasAnswer(t, r, a))
  {
    hide Carried, Do, CanAct, TaskAnswer, Untouched, Sane, DistinctReqs, IsRound, AfterActs, Quiet, Apart;
    var ts := wave.t1 + wave.t2;
    var s0, m, t := WaveStart(s, wave, work), Between(s, wave, work, acts1), AfterWave(s, wave, work, acts1, acts2);
    StartIsSane(s, wave, work);
    FirstApart(s, wave, work);
    RoundIsDetermined(s0, wave.t1, work, acts1);
    var m0 := AfterActs(s0, wave.t1, work, acts1);
    KeysStay(s0, m0, wave.t1);
    SecondApart(s0, m0, wave, work);
    RoundIsDetermined(m, wave.t2, work, acts2);
    forall x | x in ts && !x.BuildTask? ensures HasAnswer(t, x.req, TaskAnswer(work, x)) {
      if x in wave.t1 {
        var k :| 0 <= k < |wave.t1| && wave.t1[k] == x;
        assert Over(m0, wave.t1, work, k);
        assert HasAnswer(m, x.req, TaskAnswer(work, x));
        NamedByNoOther(wave.t1, wave.t2, k);
        AnswerStays(m, t, wave.t2, x.req, TaskAnswer(work, x));
      } else {
        var k :| 0 <= k < |wave.t2| && wave.t2[k] == x;
        assert Over(t, wave.t2, work, k);
      }
    }
    forall r: nat, a | HasAnswer(s, r, a) && (forall x | x in ts && !x.BuildTask? :: x.req != r)
      ensures HasAnswer(t, r, a)
    {
      assert forall x | x in wave.t1 || x in wave.t2 :: x in ts;
      assert HasAnswer(s0, r, a);
      AnswerStays(s0, m0, wave.t1, r, a);
      assert HasAnswer(m, r, a);
      AnswerStays(m, t, wave.t2, r, a);
    }
  }

  lemma KeysStay(s: World, t: World, ts: seq<Task>)
    requires Untouched(s, t, ts)
    ensures s.fields.Keys <= t.fields.Keys
  {
  }

  lemma StartIsSane(s: World, wave: Wave, work: Work)
    ensures Sane(WaveStart(s, wave, work).fields, work) && WaveStart(s, wave, work).fields.Keys == wave.have
  {
  }

  lemma FirstApart(s: World, wave: Wave, work: Work)
    requires WaveServes(wave) && DistinctReqs(wave.t1 + wave.t2)
    ensures Apart(wave.t1, WaveStart(s, wave, work).fields)
  {
    var ts := wave.t1 + wave.t2;
    forall i, j | 0 <= i < j < |wave.t1| && !wave.t1[i].BuildTask? && !wave.t1[j].BuildTask?
      ensures wave.t1[i].req != wave.t1[j].req
    {
      assert ts[i] == wave.t1[i] && ts[j] == wave.t1[j];
    }
  }

  /** After the first round every field the second reads is there. */
  lemma SecondApart(s: World, m: World, wave: Wave, work: Work)
    requires WaveServes(wave) && DistinctReqs(wave.t1 + wave.t2) && s.fields.Keys == wave.have
             && s.fields.Keys <= m.fields.Keys
    requires forall k | 0 <= k < |wave.t1| :: Over(m, wave.t1, work, k)
    ensures Apart(wave.t2, m.fields)
  {
    hide Carried, TaskAnswer;
    var ts := wave.t1 + wave.t2;
    forall i, j | 0 <= i < j < |wave.t2| && !wave.t2[i].BuildTask? && !wave.t2[j].BuildTask?
      ensures wave.t2[i].req != wave.t2[j].req
    {
      assert ts[|wave.t1| + i] == wave.t2[i] && ts[|wave.t1| + j] == wave.t2[j];
    }
    forall i | 0 <= i < |wave.t2| && wave.t2[i].ExtractTask? ensures wave.t2[i].key in m.fields {
      var key := wave.t2[i].key;
      assert wave.t2[i] in wave.t2;
      if key !in wave.have {
        var k :| 0 <= k < |wave.t1| && wave.t1[k] == BuildTask(key);
        assert Over(m, wave.t1, work, k);
      }
    }
  }

  lemma NamedByNoOther(a: seq<Task>, b: seq<Task>, k: nat)
    requires DistinctReqs(a + b) && k < |a| && !a[k].BuildTask?
    ensures forall x | x in b && !x.BuildTask? :: x.req != a[k].req
  {
    forall x | x in b && !x.BuildTask? ensures x.req != a[k].req {
      var i :| 0 <= i < |b| && b[i] == x;
      assert (a + b)[k] == a[k] && (a + b)[|a| + i] == x;
    }
  }

  // ---------- a whole batch: wave after wave ----------

  /** Schedules for the two rounds of one wave. */
  datatype Play = Play(first: seq<Act>, second: seq<Act>)

  ghost predicate BatchPlayed(s: World, waves: seq<Wave>, work: Work, plays: seq<Play>)
    decreases |waves|
  {
    && |plays| == |waves|
    && (waves == []
        || (WavePlayed(s, waves[0], work, plays[0].first, plays[0].second)
            && BatchPlayed(AfterWave(s, waves[0], work, plays[0].first, plays[0].second), waves[1..], work,
               plays[1..])))
  }

  ghost function AfterBatch(s: World, waves: seq<Wave>, work: Work, plays: seq<Play>): World
    requires BatchPlayed(s, waves, work, plays)
    decreases |waves|
  {
    if waves == [] then s
    else AfterBatch(AfterWave(s, waves[0], work, plays[0].first, plays[0].second), waves[1..], work, plays[1..])
  }

  /** Over all waves of a batch, on any workers and under any interleaving, every request that a task names ends up with
      the answer of that task, and every row that was right before and that no task names stays right. */
  lemma {:induction false} BatchIsDetermined(s: World, waves: seq<Wave>, work: Work, plays: seq<Play>)
    requires (forall w | w in waves :: WaveServes(w)) && DistinctReqs(Flat(waves)) && |s.busy| == |s.bufs|
    requires BatchPlayed(s, waves, work, plays)
    ensures var t := AfterBatch(s, waves, work, plays);
            && (forall x | x in Flat(waves) && !x.BuildTask? :: HasAnswer(t, x.req, TaskAnswer(work, x)))
            && (forall r: nat, a | HasAnswer(s, r, a) && (forall x | x in Flat(waves) && !x.BuildTask? :: x.req != r) ::
                  HasAnswer(t, r, a))
    decreases |waves|
  {
    hide WaveServes, DistinctReqs, WavePlayed, AfterWave, HasAnswer, TaskAnswer, Flat;
    if waves == [] {
      FlatNone();
    } else {
      var wave, rest := waves[0], waves[1..];
      var ts, us := wave.t1 + wave.t2, Flat(rest);
      FlatFirst(waves);
      DistinctParts(ts, us);
      var m := AfterWave(s, wave, work, plays[0].first, plays[0].second);
      WaveIsDetermined(s, wave, work, plays[0].first, plays[0].second);
      BatchIsDetermined(m, rest, work, plays[1..]);
      forall x | x in Flat(waves) && !x.BuildTask?
        ensures HasAnswer(AfterBatch(s, waves, work, plays), x.req, TaskAnswer(work, x))
      {
        if x in ts {
          var k :| 0 <= k < |ts| && ts[k] == x;
          NamedByNoOther(ts, us, k);
        }
      }
    }
  }

  lemma FlatNone()
    ensures Flat([]) == []
  {
  }

  lemma {:induction false} FlatFirst(ws: seq<Wave>)
    requires ws != []
    ensures Flat(ws) == (ws[0].t1 + ws[0].t2) + Flat(ws[1..])
    decreases |ws|
  {
    hide Flat;
    FlatNone();
    var init, last := ws[..|ws| - 1], ws[|ws| - 1];
    assert ws == init + [last];
    FlatGrows(init, last);
    if |ws| > 1 {
      FlatFirst(init);
      assert ws[1..] == init[1..] + [last];
      FlatGrows(init[1..], last);
    } else {
      assert ws[1..] == [];
    }
  }

  lemma DistinctParts(a: seq<Task>, b: seq<Task>)
    requires DistinctReqs(a + b)
    ensures DistinctReqs(a) && DistinctReqs(b)
  {
    forall i, j | 0 <= i < j < |a| && !a[i].BuildTask? && !a[j].BuildTask? ensures a[i].req != a[j].req {
      assert (a + b)[i] == a[i] && (a + b)[j] == a[j];
    }
    forall i, j | 0 <= i < j < |b| && !b[i].BuildTask? && !b[j].BuildTask? ensures b[i].req != b[j].req {
      assert (a + b)[|a| + i] == b[i] && (a + b)[|a| + j] == b[j];
    }
  }

  /** Tasks that name every request at most once name distinct ones. */
  lemma NamedOnceDistinct(ts: seq<Task>)
    requires forall r: nat :: Names(ts)[r] <= 1
    ensures DistinctReqs(ts)
  {
    hide Names;
    forall i, j | 0 <= i < j < |ts| && !ts[i].BuildTask? && !ts[j].BuildTask? ensures ts[i].req != ts[j].req {
      NamedBefore([], ts, j);
      NamesNone();
      assert ts[i] in [] + ts[..j];
      assert Names(ts)[ts[j].req] <= 1;
    }
  }

  // ---------- assembly ----------

  datatype ResRow = ResRow(status: PathStatus, expansions: nat, off: nat, len: nat, trueQ: nat, perceivedQ: nat)

  datatype Results = Results(rows: seq<ResRow>, steps: seq<Step>)

  /** The results object for given answers, in request order; each row's offset is the steps before it. */
  ghost function Ideal(answers: seq<Answer>): Results {
    if answers == [] then Results([], [])
    else
      var before, a := Ideal(answers[..|answers| - 1]), answers[|answers| - 1];
      Results(before.rows + [ResRow(a.status, a.expansions, |before.steps|, |a.steps|, a.trueQ, a.perceivedQ)],
              before.steps + a.steps)
  }

  /** What a caller reads back: row by row the answer to each request, its steps the stretch the row names; the
      stretches follow each other without gap or overlap, and together are all steps there are. */
  lemma {:induction false} ReadBack(answers: seq<Answer>, j: nat)
    requires j < |answers|
    ensures var r := Ideal(answers);
            && |r.rows| == |answers| && r.rows[j].off + r.rows[j].len <= |r.steps|
            && var x, a := r.rows[j], answers[j];
            && x.status == a.status && x.expansions == a.expansions
            && x.trueQ == a.trueQ && x.perceivedQ == a.perceivedQ
            && r.steps[x.off..x.off + x.len] == a.steps
            && (if j == 0 then x.off == 0 else x.off == r.rows[j - 1].off + r.rows[j - 1].len)
            && (j == |answers| - 1 ==> x.off + x.len == |r.steps|)
  {
    var n := |answers| - 1;
    if j < n {
      ReadBack(answers[..n], j);
    } else if n > 0 {
      ReadBack(answers[..n], n - 1);
    }
  }

  lemma IdealStep(answers: seq<Answer>, i: nat)
    requires i < |answers|
    ensures var before, a := Ideal(answers[..i]), answers[i];
            Ideal(answers[..i + 1]) ==
              Results(before.rows + [ResRow(a.status, a.expansions, |before.steps|, |a.steps|, a.trueQ, a.perceivedQ)],
                      before.steps + a.steps)
  {
    assert answers[..i + 1][..i] == answers[..i];
  }

  lemma {:induction false} IdealGrows(answers: seq<Answer>, i: nat)
    requires i <= |answers|
    ensures |Ideal(answers[..i]).steps| <= |Ideal(answers).steps|
    decreases |answers| - i
  {
    if i == |answers| {
      assert answers[..i] == answers;
    } else {
      IdealStep(answers, i);
      IdealGrows(answers, i + 1);
    }
  }

  /** The first pass sums the lengths. */
  method TotalLength(rows: array<Row>, ghost bufs: seq<seq<Step>>, ghost answers: seq<Answer>) returns (total: nat)
    requires |answers| == rows.Length && forall i | 0 <= i < rows.Length :: Carried(rows[i], bufs, answers[i])
    ensures total == |Ideal(answers).steps|
  {
    hide Ideal;
    total := 0;
    IdealNone();
    assert answers[..0] == [];
    for i := 0 to rows.Length
      invariant total == |Ideal(answers[..i]).steps|
    {
      IdealStep(answers, i);
      total := total + rows[i].len;
    }
    assert answers[..rows.Length] == answers;
  }

  lemma IdealNone()
    ensures Ideal([]) == Results([], [])
  {
  }

  /** Copies staged segments into one arena in request order.  Whatever workers they lie with, the result is the one the
      answers determine. */
  method Assemble(rows: array<Row>, bufs: seq<seq<Step>>, ghost answers: seq<Answer>)
    returns (out: array<ResRow>, steps: array<Step>)
    requires |answers| == rows.Length && forall i | 0 <= i < rows.Length :: Carried(rows[i], bufs, answers[i])
    ensures Results(out[..], steps[..]) == Ideal(answers)
  {
    hide Ideal;
    var total := TotalLength(rows, bufs, answers);
    out := new ResRow[rows.Length](_ => ResRow(None, 0, 0, 0, 0, 0));
    steps := new Step[total](_ => Step(0, 0));
    var len: nat := 0;
    IdealNone();
    assert answers[..0] == [];
    for i := 0 to rows.Length
      invariant len <= total && Results(out[..i], steps[..len]) == Ideal(answers[..i])
    {
      var s := rows[i];
      IdealStep(answers, i);
      IdealGrows(answers, i + 1);
      out[i] := ResRow(s.status, s.expansions, len, s.len, s.trueQ, s.perceivedQ);
      assert out[..i + 1] == out[..i] + [out[i]];
      if s.len > 0 {
        CopySegment(steps, len, bufs[s.worker], s.localOff, s.len);
      }
      assert steps[..len + s.len] == steps[..len] + steps[len..len + s.len];
      len := len + s.len;
    }
    IdealDone(answers, rows.Length, len, total);
  }

  lemma IdealDone(answers: seq<Answer>, n: nat, len: nat, total: nat)
    requires n == |answers| && total == |Ideal(answers).steps| && len == |Ideal(answers[..n]).steps|
    ensures answers[..n] == answers && len == total
  {
    assert answers[..n] == answers;
  }

  method CopySegment(steps: array<Step>, at: nat, from: seq<Step>, off: nat, n: nat)
    requires at + n <= steps.Length && off + n <= |from|
    modifies steps
    ensures steps[..at] == old(steps[..at]) && steps[at..at + n] == from[off..off + n]
  {
    for c := 0 to n
      invariant steps[..at] == old(steps[..at]) && steps[at..at + c] == from[off..off + c]
    {
      steps[at + c] := from[off + c];
      assert steps[at..at + c + 1] == steps[at..at + c] + [from[off + c]];
    }
  }
}
