/** A round of tasks on the pool: the claim and completion protocol drives the workers, which write steps and rows as
    they go.  Between dispatch and return every such run is a completed round of the schedule, so what the protocol
    promises about claims and what the schedule promises about answers hold of the same run. */
module Rounds {
  import Pool
  import opened Emit
  import opened Solve
  import opened Planner
  import opened Staging
  import opened Schedule
  import opened Delivery

  /** A move of the pool (`row` is what the task leaves if the move ends one), or one step written by a running task. */
  datatype Event = Moves(m: Pool.Move, row: Row) | Writes(i: nat)

  /** Workers that run a task are those the schedule has at work, on the same one; the cursors agree. */
  ghost predicate Coupled(p: Pool.State, s: World, ts: seq<Task>) {
    && |p.places| == |s.busy| == |s.bufs| > 0
    && Pool.Size(p) == |ts| && s.cursor == (if p.cursor < |ts| then p.cursor else |ts|)
    && (p.places[0] == Pool.Resting ==> p.cursor >= |ts|)
    && forall i | 0 <= i < |p.places| ::
         && (p.places[i].Running? <==> s.busy[i].Doing?)
         && (p.places[i].Running? ==> p.places[i].k == s.busy[i].k)
  }

  /** A task is over when it has written all its steps and its row. */
  ghost predicate CanHappen(p: Pool.State, s: World, ts: seq<Task>, work: Work, e: Event) {
    match e
    case Moves(m, row) =>
      Pool.CanMove(p, m) && Pool.Internal(m) && (m.Execute? ==> CanAct(s, ts, work, Finish(m.i, row)))
    case Writes(i) => CanAct(s, ts, work, EmitOne(i))
  }

  /** What an event is to the schedule, if anything. */
  ghost function ActsOf(p: Pool.State, ts: seq<Task>, e: Event): seq<Act> {
    match e
    case Moves(m, row) =>
      if m.Claim? && p.cursor < |ts| then [Take(m.i)] else if m.Execute? then [Finish(m.i, row)] else []
    case Writes(i) => [EmitOne(i)]
  }

  ghost function PoolAfter(p: Pool.State, e: Event): Pool.State
    requires e.Moves? ==> Pool.CanMove(p, e.m)
  {
    if e.Moves? then Pool.Step(p, e.m) else p
  }

  /** A run of pool and workers together. */
  ghost predicate Happens(p: Pool.State, s: World, ts: seq<Task>, work: Work, es: seq<Event>)
    decreases |es|
  {
    es == [] ||
    (CanHappen(p, s, ts, work, es[0]) && IsRound(s, ts, work, ActsOf(p, ts, es[0]))
     && Happens(PoolAfter(p, es[0]), AfterActs(s, ts, work, ActsOf(p, ts, es[0])), ts, work, es[1..]))
  }

  ghost function PoolEnd(p: Pool.State, s: World, ts: seq<Task>, work: Work, es: seq<Event>): Pool.State
    requires Happens(p, s, ts, work, es)
    decreases |es|
  {
    if es == [] then p
    else PoolEnd(PoolAfter(p, es[0]), AfterActs(s, ts, work, ActsOf(p, ts, es[0])), ts, work, es[1..])
  }

  ghost function Acted(p: Pool.State, s: World, ts: seq<Task>, work: Work, es: seq<Event>): seq<Act>
    requires Happens(p, s, ts, work, es)
    decreases |es|
  {
    if es == [] then []
    else
      ActsOf(p, ts, es[0])
      + Acted(PoolAfter(p, es[0]), AfterActs(s, ts, work, ActsOf(p, ts, es[0])), ts, work, es[1..])
  }

  lemma OneAct(s: World, ts: seq<Task>, work: Work, a: Act)
    requires CanAct(s, ts, work, a)
    ensures IsRound(s, ts, work, [a]) && AfterActs(s, ts, work, [a]) == Do(s, ts, work, a)
  {
    hide CanAct, Do;
    assert [a][1..] == [];
  }

  lemma ClaimFollows(p: Pool.State, s: World, ts: seq<Task>, work: Work, i: nat, row: Row)
    requires Pool.Inv(p) && Coupled(p, s, ts) && Pool.CanMove(p, Pool.Claim(i))
    ensures var acts := ActsOf(p, ts, Moves(Pool.Claim(i), row));
            IsRound(s, ts, work, acts) && Coupled(Pool.Step(p, Pool.Claim(i)), AfterActs(s, ts, work, acts), ts)
  {
    hide Pool.Exclusive, Pool.LogFits, Pool.Tally, AnswerOf, IsRound, AfterActs;
    assert Pool.PlaceFits(p, i);
    NothingActed(s, ts, work);
    if p.cursor < |ts| {
      OneAct(s, ts, work, Take(i));
    }
  }

  lemma ExecuteFollows(p: Pool.State, s: World, ts: seq<Task>, work: Work, i: nat, row: Row)
    requires Pool.Inv(p) && Coupled(p, s, ts) && CanHappen(p, s, ts, work, Moves(Pool.Execute(i), row))
    ensures var acts := ActsOf(p, ts, Moves(Pool.Execute(i), row));
            IsRound(s, ts, work, acts) && Coupled(Pool.Step(p, Pool.Execute(i)), AfterActs(s, ts, work, acts), ts)
  {
    hide Pool.Inv, AnswerOf, IsRound, AfterActs, RowFits;
    OneAct(s, ts, work, Finish(i, row));
  }

  lemma OtherFollows(p: Pool.State, s: World, ts: seq<Task>, m: Pool.Move)
    requires Pool.Inv(p) && Coupled(p, s, ts) && Pool.CanMove(p, m) && (m.Count? || m.Leave? || m.Look? || m.Return?)
    ensures Coupled(Pool.Step(p, m), s, ts)
  {
    hide Pool.PlaceFits, Pool.Exclusive, Pool.LogFits, Pool.Tally;
  }

  lemma NothingActed(s: World, ts: seq<Task>, work: Work)
    ensures IsRound(s, ts, work, []) && AfterActs(s, ts, work, []) == s
  {
  }

  /** Whatever the pool does next, the schedule can follow: who claims a task is free, who ends one was at it. */
  lemma EventKeeps(p: Pool.State, s: World, ts: seq<Task>, work: Work, e: Event)
    requires Pool.Inv(p) && Coupled(p, s, ts) && CanHappen(p, s, ts, work, e)
    ensures IsRound(s, ts, work, ActsOf(p, ts, e)) && Pool.Inv(PoolAfter(p, e)) && PoolAfter(p, e).seq_ == p.seq_
    ensures Coupled(PoolAfter(p, e), AfterActs(s, ts, work, ActsOf(p, ts, e)), ts)
  {
    hide Pool.Inv, IsRound, AfterActs, Coupled, AnswerOf;
    match e
    case Writes(i) => WriteFollows(p, s, ts, work, i);
    case Moves(m, row) =>
      Pool.StepKeeps(p, m);
      NothingActed(s, ts, work);
      if m.Claim? {
        ClaimFollows(p, s, ts, work, m.i, row);
      } else if m.Execute? {
        ExecuteFollows(p, s, ts, work, m.i, row);
      } else {
        OtherFollows(p, s, ts, m);
      }
  }

  lemma WriteFollows(p: Pool.State, s: World, ts: seq<Task>, work: Work, i: nat)
    requires Coupled(p, s, ts) && CanAct(s, ts, work, EmitOne(i))
    ensures IsRound(s, ts, work, [EmitOne(i)]) && Coupled(p, AfterActs(s, ts, work, [EmitOne(i)]), ts)
  {
    hide AnswerOf, IsRound, AfterActs;
    OneAct(s, ts, work, EmitOne(i));
  }

  lemma {:induction false} ActsThenActs(s: World, ts: seq<Task>, work: Work, a: seq<Act>, b: seq<Act>)
    requires IsRound(s, ts, work, a) && IsRound(AfterActs(s, ts, work, a), ts, work, b)
    ensures IsRound(s, ts, work, a + b)
    ensures AfterActs(s, ts, work, a + b) == AfterActs(AfterActs(s, ts, work, a), ts, work, b)
    decreases |a|
  {
    hide CanAct, Do;
    if a == [] {
      assert a + b == b;
    } else {
      assert (a + b)[0] == a[0] && (a + b)[1..] == a[1..] + b;
      ActsThenActs(Do(s, ts, work, a[0]), ts, work, a[1..], b);
    }
  }

  /** Along a whole run the schedule keeps up. */
  lemma {:induction false} RunKeepsPace(p: Pool.State, s: World, ts: seq<Task>, work: Work, es: seq<Event>)
    requires Pool.Inv(p) && Coupled(p, s, ts) && Happens(p, s, ts, work, es)
    ensures var q, acts := PoolEnd(p, s, ts, work, es), Acted(p, s, ts, work, es);
            && Pool.Inv(q) && q.seq_ == p.seq_
            && IsRound(s, ts, work, acts) && Coupled(q, AfterActs(s, ts, work, acts), ts)
    decreases |es|
  {
    hide Pool.Inv, Coupled, IsRound, AfterActs, ActsOf, PoolAfter, CanAct, Pool.CanMove;
    NothingActed(s, ts, work);
    if es != [] {
      var acts := ActsOf(p, ts, es[0]);
      EventKeeps(p, s, ts, work, es[0]);
      RunKeepsPace(PoolAfter(p, es[0]), AfterActs(s, ts, work, acts), ts, work, es[1..]);
      ActsThenActs(s, ts, work, acts,
                   Acted(PoolAfter(p, es[0]), AfterActs(s, ts, work, acts), ts, work, es[1..]));
    }
  }

  ghost predicate Ready(p: Pool.State, s: World, ts: seq<Task>, parts: nat) {
    && Pool.Inv(p) && Pool.CanMove(p, Pool.Dispatch(|ts|, parts))
    && Quiet(s) && s.cursor == 0 && |s.busy| == |s.bufs| == |p.places|
  }

  lemma DispatchCouples(p: Pool.State, s: World, ts: seq<Task>, parts: nat)
    requires Ready(p, s, ts, parts)
    ensures Coupled(Pool.Step(p, Pool.Dispatch(|ts|, parts)), s, ts)
  {
    hide Pool.Exclusive, Pool.LogFits;
    Pool.NobodyHolds(p);
  }

  /** The pool has executed each of the batch's tasks exactly once. */
  ghost predicate EachOnce(p: Pool.State, batch: nat, n: nat) {
    forall k: nat | k < n :: p.log[(batch, k)] == 1
  }

  /** Once the dispatching call has returned, the workers have played a whole round, and the pool has executed each of
      its tasks exactly once. */
  lemma DispatchIsRound(p: Pool.State, s: World, ts: seq<Task>, work: Work, parts: nat, es: seq<Event>)
    requires Ready(p, s, ts, parts) && Happens(Pool.Step(p, Pool.Dispatch(|ts|, parts)), s, ts, work, es)
    requires var q := PoolEnd(Pool.Step(p, Pool.Dispatch(|ts|, parts)), s, ts, work, es);
             q.places != [] && q.places[0] == Pool.Resting
    ensures var d := Pool.Step(p, Pool.Dispatch(|ts|, parts));
            && Played(s, ts, work, Acted(d, s, ts, work, es))
            && EachOnce(PoolEnd(d, s, ts, work, es), p.seq_ + 1, |ts|)
  {
    hide Happens, PoolEnd, Acted, Pool.Inv, IsRound, AfterActs, Coupled, Pool.CanMove;
    var d := Pool.Step(p, Pool.Dispatch(|ts|, parts));
    Pool.StepKeeps(p, Pool.Dispatch(|ts|, parts));
    DispatchCouples(p, s, ts, parts);
    RunKeepsPace(d, s, ts, work, es);
    RestMeansDone(PoolEnd(d, s, ts, work, es), AfterActs(s, ts, work, Acted(d, s, ts, work, es)), ts);
  }

  lemma RestMeansDone(p: Pool.State, s: World, ts: seq<Task>)
    requires Pool.Inv(p) && Coupled(p, s, ts) && p.places[0] == Pool.Resting && p.seq_ > 0
    ensures Quiet(s) && s.cursor == |ts| && EachOnce(p, p.seq_, |ts|)
  {
    hide Pool.PlaceFits, Pool.Exclusive, Pool.Tally, Pool.IsRunning;
    Pool.NobodyHolds(p);
  }

  /** So whatever the pool's schedule was, every request the tasks name ends up with its task's answer and every field
      is built. */
  lemma DispatchAnswers(p: Pool.State, s: World, ts: seq<Task>, work: Work, parts: nat, es: seq<Event>)
    requires Ready(p, s, ts, parts) && Happens(Pool.Step(p, Pool.Dispatch(|ts|, parts)), s, ts, work, es)
    requires var q := PoolEnd(Pool.Step(p, Pool.Dispatch(|ts|, parts)), s, ts, work, es);
             q.places != [] && q.places[0] == Pool.Resting
    requires Apart(ts, s.fields) && Sane(s.fields, work)
    ensures var acts := Acted(Pool.Step(p, Pool.Dispatch(|ts|, parts)), s, ts, work, es);
            && IsRound(s, ts, work, acts) && Untouched(s, AfterActs(s, ts, work, acts), ts)
            && forall k | 0 <= k < |ts| :: Over(AfterActs(s, ts, work, acts), ts, work, k)
  {
    hide Happens, PoolEnd, Acted, Pool.Inv, AfterActs, Over, Untouched, Apart, Sane, Pool.Step, Pool.CanMove;
    DispatchIsRound(p, s, ts, work, parts, es);
    RoundIsDetermined(s, ts, work, Acted(Pool.Step(p, Pool.Dispatch(|ts|, parts)), s, ts, work, es));
  }

  /** Until the dispatching call returns something can happen: a claimed task writes its next step or ends, and all else
      is the pool's own. */
  lemma SomethingHappens(p: Pool.State, s0: World, s: World, ts: seq<Task>, work: Work) returns (e: Event)
    requires Pool.Inv(p) && Coupled(p, s, ts) && RoundInv(s0, s, ts, work) && p.places[0] != Pool.Resting
    ensures CanHappen(p, s, ts, work, e)
  {
    var m := Pool.SomebodyMoves(p);
    e := Moves(m, BLANK_ROW);
    if m.Execute? {
      e := WorkGoesOn(s0, s, ts, work, m.i);
      CanEnd(p, s, ts, work, e, m.i);
    }
  }

  lemma CanEnd(p: Pool.State, s: World, ts: seq<Task>, work: Work, e: Event, i: nat)
    requires Pool.CanMove(p, Pool.Execute(i))
    requires e == Writes(i) || (e.Moves? && e.m == Pool.Execute(i))
    requires if e.Writes? then CanAct(s, ts, work, EmitOne(i)) else CanAct(s, ts, work, Finish(i, e.row))
    ensures CanHappen(p, s, ts, work, e)
  {
    hide CanAct;
  }

  lemma WorkGoesOn(s0: World, s: World, ts: seq<Task>, work: Work, i: nat) returns (e: Event)
    requires RoundInv(s0, s, ts, work) && i < |s.busy| && s.busy[i].Doing?
    ensures e == Writes(i) || (e.Moves? && e.m == Pool.Execute(i))
    ensures if e.Writes? then CanAct(s, ts, work, EmitOne(i)) else CanAct(s, ts, work, Finish(i, e.row))
  {
    hide Carried, Grown, TaskAnswer;
    assert Underway(s, ts, work, i);
    var k := s.busy[i].k;
    SameAnswer(s0, s, ts, work, k);
    var a := AnswerOf(work, s.fields, ts[k]);
    if |s.bufs[i]| - s.busy[i].base < |a.steps| {
      e := Writes(i);
    } else {
      var row := Row(a.status, a.expansions, |a.steps|, i, s.busy[i].base, a.trueQ, a.perceivedQ);
      e := Moves(Pool.Execute(i), row);
    }
  }

  // ---------- whole batches on the pool ----------

  /** How a round was run: not at all, since it had no tasks; by the dispatching thread alone; or by the pool. */
  datatype How = Skipped | Alone(acts: seq<Act>) | ByPool(parts: nat, es: seq<Event>)

  ghost predicate RanRound(p: Pool.State, s: World, ts: seq<Task>, work: Work, how: How) {
    match how
    case Skipped => ts == [] && Quiet(s) && s.cursor == 0
    case Alone(acts) => Played(s, ts, work, acts) && forall a | a in acts :: a.w == 0
    case ByPool(parts, es) =>
      && Ready(p, s, ts, parts) && Happens(Pool.Step(p, Pool.Dispatch(|ts|, parts)), s, ts, work, es)
      && var q := PoolEnd(Pool.Step(p, Pool.Dispatch(|ts|, parts)), s, ts, work, es);
      q.places != [] && q.places[0] == Pool.Resting
  }

  ghost function PoolNext(p: Pool.State, s: World, ts: seq<Task>, work: Work, how: How): Pool.State
    requires RanRound(p, s, ts, work, how)
  {
    if how.ByPool? then PoolEnd(Pool.Step(p, Pool.Dispatch(|ts|, how.parts)), s, ts, work, how.es) else p
  }

  /** However a round was run, it was played to its end. */
  ghost function ActsBy(p: Pool.State, s: World, ts: seq<Task>, work: Work, how: How): (acts: seq<Act>)
    requires RanRound(p, s, ts, work, how)
    ensures Played(s, ts, work, acts)
  {
    match how
    case Skipped => []
    case Alone(acts) => acts
    case ByPool(parts, es) =>
      DispatchIsRound(p, s, ts, work, parts, es);
      Acted(Pool.Step(p, Pool.Dispatch(|ts|, parts)), s, ts, work, es)
  }

  /** Both rounds of every wave, one after another on the same pool. */
  ghost predicate BatchRan(p: Pool.State, s: World, waves: seq<Wave>, work: Work, hows: seq<(How, How)>)
    decreases |waves|
  {
    && |hows| == |waves|
    && (waves == []
        || (var first := WaveStart(s, waves[0], work);
            && RanRound(p, first, waves[0].t1, work, hows[0].0)
            && var acts := ActsBy(p, first, waves[0].t1, work, hows[0].0);
            && var p1, second := PoolNext(p, first, waves[0].t1, work, hows[0].0), Between(s, waves[0], work, acts);
            && RanRound(p1, second, waves[0].t2, work, hows[0].1)
            && var acts2 := ActsBy(p1, second, waves[0].t2, work, hows[0].1);
            BatchRan(PoolNext(p1, second, waves[0].t2, work, hows[0].1), AfterWave(s, waves[0], work, acts, acts2),
                waves[1..], work, hows[1..])))
  }

  /** A batch run on the pool is one the schedule plays. */
  lemma {:induction false} PoolPlays(p: Pool.State, s: World, waves: seq<Wave>, work: Work, hows: seq<(How, How)>)
    returns (plays: seq<Play>)
    requires BatchRan(p, s, waves, work, hows)
    ensures BatchPlayed(s, waves, work, plays)
    decreases |waves|
  {
    hide RanRound, PoolNext, ActsBy, AfterWave, IsRound, AfterActs, Quiet;
    if waves == [] {
      plays := [];
    } else {
      var first := WaveStart(s, waves[0], work);
      var acts := ActsBy(p, first, waves[0].t1, work, hows[0].0);
      var p1, second := PoolNext(p, first, waves[0].t1, work, hows[0].0), Between(s, waves[0], work, acts);
      var acts2 := ActsBy(p1, second, waves[0].t2, work, hows[0].1);
      var rest := PoolPlays(PoolNext(p1, second, waves[0].t2, work, hows[0].1),
                            AfterWave(s, waves[0], work, acts, acts2), waves[1..], work, hows[1..]);
      plays := [Play(acts, acts2)] + rest;
      assert plays[1..] == rest;
    }
  }

  /** So on the pool, too, the plan of a batch ends with rows that carry its answers. */
  lemma PoolServes(p: Pool.State, s: World, plan: Plan, work: Work, hows: seq<(How, How)>, answers: seq<Answer>)
    returns (plays: seq<Play>)
    requires Serves(plan, work, answers) && |s.busy| == |s.bufs| && BatchRan(p, s, plan.waves, work, hows)
    ensures BatchPlayed(s, plan.waves, work, plays)
    ensures var t := AfterBatch(s, plan.waves, work, plays); RowsCarry(t.rows, t.bufs, plan.stage, answers)
  {
    hide Serves, BatchRan, BatchPlayed, AfterBatch, RowsCarry;
    plays := PoolPlays(p, s, plan.waves, work, hows);
    AnyScheduleServes(plan, work, answers, s, plays);
  }
}
