/** From staged rows to the results object of a whole batch. */
module Delivery {
  import opened Grid
  import opened SearchKernel
  import opened Emit
  import opened Solve
  import opened Staging
  import opened Planner
  import opened Schedule

  /** The answer to request `j`: the status settled in planning, or the right answer of the one task that names it. */
  ghost predicate Given(env: Env, req: Request, j: nat, s: Stage, done: seq<Task>, a: Answer) {
    match s
    case Status(x) => a == Answer(x, 0, [], 0, 0)
    case Refused => false
    case Blank => exists t | t in done :: !t.BuildTask? && t.req == j && RightAnswer(env, req, t, a)
  }

  lemma {:induction false} TaskNamed(ts: seq<Task>, j: nat)
    requires Names(ts)[j] >= 1
    ensures exists t | t in ts :: !t.BuildTask? && t.req == j
  {
    if ts == [] {
      NamesNone();
    } else if ts[|ts| - 1].BuildTask? || ts[|ts| - 1].req != j {
      TaskNamed(ts[..|ts| - 1], j);
    } else {
      assert ts[|ts| - 1] in ts;
    }
  }

  /** Every task of the batch has left the right answer in its row. */
  ghost predicate AllStaged(crew: Crew, env: Env, reqs: seq<Request>, done: seq<Task>)
    reads crew, crew.Repr
  {
    forall t | t in done && !t.BuildTask? ::
      t.req < |reqs| && exists a :: RightAnswer(env, reqs[t.req], t, a) && crew.Staged(t.req, a)
  }

  ghost predicate ResolvedOnce(stage: seq<Stage>, done: seq<Task>) {
    && (forall j | 0 <= j < |stage| :: stage[j] != Refused)
    && (forall r: nat :: Names(done)[r] <= 1) && (forall r: nat | r >= |stage| :: Names(done)[r] == 0)
    && (forall j: nat | j < |stage| :: Names(done)[j] + (if stage[j] == Blank then 0 else 1) == 1)
  }

  lemma {:induction false} CollectAnswers(crew: Crew, env: Env, reqs: seq<Request>, stage: seq<Stage>, done: seq<Task>,
                                          n: nat)
    returns (answers: seq<Answer>)
    requires |stage| == |reqs| && n <= |reqs| && ResolvedOnce(stage, done) && AllStaged(crew, env, reqs, done)
    ensures |answers| == n
    ensures forall j | 0 <= j < n :: Given(env, reqs[j], j, stage[j], done, answers[j])
    ensures forall j | 0 <= j < n && stage[j] == Blank :: crew.Staged(j, answers[j])
  {
    hide RightAnswer, Names, Crew.Staged;
    if n == 0 {
      answers := [];
    } else {
      var before := CollectAnswers(crew, env, reqs, stage, done, n - 1);
      var j := n - 1;
      if stage[j].Status? {
        answers := before + [Answer(stage[j].status, 0, [], 0, 0)];
      } else {
        TaskNamed(done, j);
        var t :| t in done && !t.BuildTask? && t.req == j;
        var a :| RightAnswer(env, reqs[t.req], t, a) && crew.Staged(t.req, a);
        answers := before + [a];
      }
    }
  }

  // ---------- from rows to results ----------

  /** Staged rows carry the answers; settled requests have none. */
  ghost predicate RowsCarry(rows: map<nat, Row>, bufs: seq<seq<Step>>, stage: seq<Stage>, answers: seq<Answer>) {
    && |answers| == |stage|
    && forall j | 0 <= j < |stage| ::
         match stage[j]
         case Blank => j in rows && Carried(rows[j], bufs, answers[j])
         case Status(x) => answers[j] == Answer(x, 0, [], 0, 0)
         case Refused => false
  }

  /** Assembles the results object from statuses, rows and buffers.  It is the one the answers determine. */
  method Deliver(rows: map<nat, Row>, bufs: seq<seq<Step>>, stage: seq<Stage>, ghost answers: seq<Answer>)
    returns (out: seq<ResRow>, steps: seq<Step>)
    requires RowsCarry(rows, bufs, stage, answers)
    ensures Results(out, steps) == Ideal(answers)
  {
    hide Carried, Ideal;
    var staged := new Row[|stage|](_ => BLANK_ROW);
    for j := 0 to |stage|
      invariant forall i | 0 <= i < j :: Carried(staged[i], bufs, answers[i])
    {
      if stage[j].Status? {
        staged[j] := BLANK_ROW.(status := stage[j].status);
        SettledRow(stage[j], answers[j], bufs);
      } else {
        staged[j] := rows[j];
      }
    }
    var res, arena := Assemble(staged, bufs, answers);
    out, steps := res[..], arena[..];
  }

  lemma SettledRow(s: Stage, a: Answer, bufs: seq<seq<Step>>)
    requires s.Status? && a == Answer(s.status, 0, [], 0, 0)
    ensures Carried(BLANK_ROW.(status := s.status), bufs, a)
  {
  }

  // ---------- any schedule of the same plan ----------

  /** What planning decided: statuses given at once, and the tasks to run, wave by wave. */
  datatype Plan = Plan(stage: seq<Stage>, waves: seq<Wave>)

  /** The answers are those of the plan's tasks and statuses, each request's from one of them. */
  ghost predicate Serves(plan: Plan, work: Work, answers: seq<Answer>) {
    && |plan.stage| == |answers| && (forall w | w in plan.waves :: WaveServes(w)) && DistinctReqs(Flat(plan.waves))
    && (forall x | x in Flat(plan.waves) && !x.BuildTask? ::
          x.req < |answers| && plan.stage[x.req] == Blank && answers[x.req] == TaskAnswer(work, x))
    && (forall j | 0 <= j < |answers| ::
          match plan.stage[j]
          case Blank => exists x | x in Flat(plan.waves) :: !x.BuildTask? && x.req == j
          case Status(x) => answers[j] == Answer(x, 0, [], 0, 0)
          case Refused => false)
  }

  /** The plan of a batch serves exactly the answers that were collected. */
  lemma PlanServes(env: Env, reqs: seq<Request>, plan: Plan, answers: seq<Answer>)
    requires |plan.stage| == |reqs| == |answers| && ResolvedOnce(plan.stage, Flat(plan.waves))
    requires forall w | w in plan.waves :: WaveServes(w)
    requires forall j | 0 <= j < |reqs| :: Given(env, reqs[j], j, plan.stage[j], Flat(plan.waves), answers[j])
    ensures Serves(plan, WorkOf(env, reqs), answers)
  {
    hide RightAnswer, Names, WaveServes, TaskAnswer, WorkOf, Flat;
    var done := Flat(plan.waves);
    NamedOnceDistinct(done);
    forall x | x in done && !x.BuildTask?
      ensures x.req < |answers| && plan.stage[x.req] == Blank && answers[x.req] == TaskAnswer(WorkOf(env, reqs), x)
    {
      NamedIfIn(done, x);
      var t :| t in done && !t.BuildTask? && t.req == x.req && RightAnswer(env, reqs[x.req], t, answers[x.req]);
      SameTask(done, t, x);
      TaskAnswerIsRight(env, reqs, x, answers[x.req]);
    }
  }

  lemma SameTask(ts: seq<Task>, t: Task, x: Task)
    requires DistinctReqs(ts) && t in ts && x in ts && !t.BuildTask? && !x.BuildTask? && t.req == x.req
    ensures t == x
  {
    var i :| 0 <= i < |ts| && ts[i] == t;
    var j :| 0 <= j < |ts| && ts[j] == x;
  }

  /** Played on any workers, whatever contexts and buffers they start with, and under any interleaving of claims, steps
      and completions in every round of every wave, the plan ends with rows that carry the same answers. */
  lemma AnyScheduleServes(plan: Plan, work: Work, answers: seq<Answer>, s: World, plays: seq<Play>)
    requires Serves(plan, work, answers) && |s.busy| == |s.bufs| && BatchPlayed(s, plan.waves, work, plays)
    ensures var t := AfterBatch(s, plan.waves, work, plays); RowsCarry(t.rows, t.bufs, plan.stage, answers)
  {
    hide BatchPlayed, AfterBatch, Carried, TaskAnswer, DistinctReqs, WaveServes, Flat;
    BatchIsDetermined(s, plan.waves, work, plays);
    var t := AfterBatch(s, plan.waves, work, plays);
    forall j | 0 <= j < |answers| && plan.stage[j] == Blank ensures HasAnswer(t, j, answers[j]) {
      var x :| x in Flat(plan.waves) && !x.BuildTask? && x.req == j;
    }
  }

  /** So the results object assembled after any such run is the one the answers determine. */
  method DeliverAny(t: World, plan: Plan, ghost work: Work, ghost answers: seq<Answer>, ghost s: World,
                    ghost plays: seq<Play>)
    returns (out: seq<ResRow>, steps: seq<Step>)
    requires Serves(plan, work, answers) && |s.busy| == |s.bufs|
    requires BatchPlayed(s, plan.waves, work, plays) && t == AfterBatch(s, plan.waves, work, plays)
    ensures Results(out, steps) == Ideal(answers)
  {
    hide BatchPlayed, AfterBatch, Serves, RowsCarry, Ideal;
    AnyScheduleServes(plan, work, answers, s, plays);
    out, steps := Deliver(t.rows, t.bufs, plan.stage, answers);
  }
}
