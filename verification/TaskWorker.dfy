/** The worker, the relay and the reconciler as programs over the shared queue, among everybody else's steps. */
module TaskWorker {
  import opened Basics
  import opened Vocabulary
  import opened TaskQueue
  import opened TaskQueueSafety
  import P = PublicationProtocol
  import C = Coordinator
  import W = WeeklyFlow
  import S = TaskSteps

  datatype Probe = Ready | Unreachable | Broken

  /** What happens around one call: the steps of everybody else before each point, and the outside results. During
      the weekly flow the others' publication steps are `flow.others`; `accepts(n)` makes the n-th of them part of
      an acceptance, and `rows(n)` are steps on task and outbox rows after it. */
  datatype Environment = Environment(
    others: nat -> seq<Step>, probe: Probe, storable: bool, flow: W.Execution, accepts: nat -> Option<TaskId>,
    rows: nat -> seq<Step>, publisherRaises: bool, token: Token, retryAt: int)

  datatype Reply = Returned | RaisedError(code: string) | RetryRequested

  /** The ways through one execution of the task. */
  datatype Path =
    | Unclaimed                                     // owned by another worker, or over: repaired from history
    | Foreign                                       // the payload names another run or week
    | Retried(epoch: nat, attempt: nat)             // the database was unreachable, and attempts are left
    | Dead(epoch: nat, attempt: nat)                // preflight failed for good
    | StartFenced(epoch: nat)                       // the claim was fenced before the start
    // the flow ran, with this coordinator session, and its result was written
    | Finished(epoch: nat, attempt: nat, flow: seq<Step>, outcome: Outcome, session: nat)

  /** The steps of a path after its claim. */
  function StepsOf(path: Path, task: TaskId, seconds: nat, env: Environment): seq<Step> {
    match path
    case Unclaimed => [Repair(task, env.storable)]
    case Foreign => []
    case Retried(epoch, attempt) => env.others(1) + [Retry(task, env.token, epoch, env.retryAt)]
    case Dead(epoch, attempt) => env.others(1) + [Fail(task, env.token, epoch, attempt, env.storable)]
    case _ => env.others(1) + StepsFromStart(path, task, seconds, env)
  }

  /** The steps from the start of Prefect on. */
  function StepsFromStart(path: Path, task: TaskId, seconds: nat, env: Environment): seq<Step> {
    match path
    case StartFenced(epoch) => [Start(task, env.token, epoch, seconds)]
    case Finished(epoch, attempt, flow, outcome, _) =>
      [Start(task, env.token, epoch, seconds)] + env.others(2) + flow
      + [Complete(task, env.token, epoch, attempt, outcome, env.storable)]
    case _ => []
  }

  /** Steps on task and outbox rows, which leave the publication tables alone. */
  predicate RowStep(step: Step) { !step.Publish? && !step.AcceptTask? }

  /** While its flow runs, the worker touches the publication tables only. */
  ghost predicate FlowSteps(steps: seq<Step>, env: Environment) {
    forall step :: step in steps && RowStep(step) ==> exists n :: step in env.rows(n)
  }

  /** What the probe must have said for the path: three attempts at most, and a start only after a good probe. */
  ghost predicate Asked(path: Path, env: Environment) {
    match path
    case Unclaimed => true
    case Foreign => true
    case Retried(_, attempt) => env.probe.Unreachable? && attempt < MAX_FAILED_EXECUTIONS
    case Dead(_, attempt) => env.probe.Broken? || (env.probe.Unreachable? && attempt == MAX_FAILED_EXECUTIONS)
    case StartFenced(_) => env.probe.Ready?
    case Finished(_, _, flow, _, _) => env.probe.Ready? && FlowSteps(flow, env)
  }

  /** The path works under this epoch, which is also the attempt. */
  predicate Carries(path: Path, epoch: nat) {
    match path
    case Unclaimed => true
    case Foreign => true
    case Retried(e, attempt) => e == epoch && attempt == epoch
    case Dead(e, attempt) => e == epoch && attempt == epoch
    case StartFenced(e) => e == epoch
    case Finished(e, attempt, _, _, _) => e == epoch && attempt == epoch
  }

  function EpochAt(q: State, task: TaskId): nat { if task in q.tasks then q.tasks[task].epoch else 0 }

  /** The flow's result is a publication if and only if the worker's own coordinator returned one, and then it is
      answered, unless the worker was fenced. */
  ghost predicate Reports(q: State, run: P.RunId, o: Outcome, session: nat, reply: Reply) {
    && (o.Recorded? <==> CameBack(q, session, run)) && (o.Recorded? ==> o.session == session)
    && (o.Recorded? ==> reply == Returned || reply == RaisedError("terminal update was fenced"))
  }

  /** Only a repaired or finished task is answered with a result, and only a retry asks for one. */
  predicate Matches(reply: Reply, path: Path) {
    && (reply.RetryRequested? <==> path.Retried?)
    && (reply.Returned? ==> path.Unclaimed? || (path.Finished? && !path.outcome.Raised?))
  }

  // ----- an undisturbed worker -----

  /** No step on another row enters while the flow runs. */
  ghost predicate Alone(env: Environment) { forall n :: env.rows(n) == [] && env.accepts(n) == None }

  /** Nobody interferes and the probe is good; the databases may fail at any point of the flow. */
  ghost predicate Undisturbed(env: Environment) {
    (forall n :: env.others(n) == []) && Alone(env) && env.probe.Ready? && W.FlowAlone(env.flow)
  }

  /** What the worker makes of a reply: an unclear commit first, then the recorded publication. */
  predicate Understood(reply: C.Reply, o: Outcome, session: nat) {
    match reply
    case Raised(_) => o == Outcome.Raised
    case Uncertain(_, _) => o == ReportedUncertain
    case Replied(_, status, commit, _, _, _, recorded) =>
      if commit == P.CommitUncertain then o == ReportedUncertain
      else if recorded then o == Recorded(session)
      else o == Reported(status)
  }

  /** The outcome is what the one flow on these tables answered, through the coordinator `session`. */
  ghost predicate FlowTold(s: P.State, week: int, run: P.RunId, x: W.Execution, session: nat, o: Outcome) {
    exists s', reply :: W.FlowEndsAs(s, s', week, run, x, reply) && Understood(reply, o, session)
  }

  /** What an undisturbed flow comes back with: a publication from the coordinator `session`, or how it was refused. */
  ghost function FlowOutcome(s: P.State, week: int, run: P.RunId, x: W.Execution, session: nat): Outcome {
    if W.FlowCanPublish(s, week, run, x) then Recorded(session)
    else match W.FlowRefusal(s, week, run, x)
      case Replied(_, status, _, _, _, _, _) => Reported(status)
      case _ => Outcome.Raised
  }

  ghost predicate Answered(s: P.State, week: int, run: P.RunId, x: W.Execution, session: nat, o: Outcome) {
    FlowTold(s, week, run, x, session, o) && (W.SmoothFlow(x) ==> o == FlowOutcome(s, week, run, x, session))
  }

  /** The row of a task whose own worker wrote this result. */
  function ClosedRow(q: State, task: TaskId, o: Outcome, storable: bool): Task
    requires task in q.tasks
  {
    var result := S.ResultOf(q, task, q.tasks[task].run, o, storable);
    q.tasks[task].(execution := result.0, phase := Closed, published := result.1, expiresAt := None)
  }

  /** What the worker answers after its result was written, or found fenced. */
  function AnswerTo(o: Outcome, held: bool): Reply {
    match o
    case Raised => RaisedError("pipeline raised")
    case Reported(status) =>
      if status !in {P.BlockedQuality, P.Succeeded, P.SucceededNoop} then RaisedError("pipeline returned a terminal failure")
      else if held then Returned else RaisedError("terminal update was fenced")
    case _ => if held then Returned else RaisedError("terminal update was fenced")
  }

  /** The worker's own result stands: the flow ran once on the publication tables of `q`, and the task is closed by what
      it came back with. */
  ghost predicate Served(q: State, q': State, task: TaskId, run: P.RunId, week: int, o: Outcome, reply: Reply, env: Environment)
    requires task in q.tasks
  {
    && (exists session :: Answered(q.publication, week, run, env.flow, session, o))
    && task in q'.tasks && q'.tasks[task] == ClosedRow(q, task, o, env.storable) && reply == AnswerTo(o, true)
  }

  /** One more step of a run keeps the invariant. */
  lemma Advanced(origin: State, trace: seq<Step>, q: State, step: Step)
    requires QueueInv(q) && q == Play(origin, trace)
    ensures QueueInv(Apply(q, step)) && Apply(q, step) == Play(origin, trace + [step])
  {
    hide *;
    StepInv(q, step);
    PlayNext(origin, trace, step);
  }

  class Session {
    var db: State
    ghost var trace: seq<Step>
    ghost const origin: State

    ghost predicate Valid()
      reads this
    {
      QueueInv(db) && db == Play(origin, trace)
    }

    constructor (shared: State)
      requires QueueInv(shared)
      ensures Valid() && db == shared && origin == shared && trace == []
    {
      db, trace, origin := shared, [], shared;
    }

    method Perform(step: Step)
      requires Valid()
      modifies this
      ensures Valid() && db == Apply(old(db), step) && trace == old(trace) + [step] && SameTasks(old(db), db)
    {
      hide QueueInv, Apply, Play, SameTasks;
      Advanced(origin, trace, db, step);
      StepSameTasks(db, step);
      db := Apply(db, step);
      trace := trace + [step];
    }

    method Interfere(steps: seq<Step>)
      requires Valid()
      modifies this
      ensures Valid() && trace == old(trace) + steps && SameTasks(old(db), db)
      ensures steps == [] ==> db == old(db)
    {
      hide QueueInv, Apply, Play;
      for i := 0 to |steps|
        invariant Valid() && trace == old(trace) + steps[..i] && SameTasks(old(db), db)
        invariant steps == [] ==> db == old(db)
      {
        Perform(steps[i]);
        assert steps[..i + 1] == steps[..i] + [steps[i]];
      }
      assert steps[..|steps|] == steps;
    }

    // ----- store.py -----

    /** `claim_execution`: one guarded update that starts a new epoch. */
    method ClaimExecution(task: TaskId, token: Token, seconds: nat) returns (claim: Option<Task>)
      requires Valid()
      modifies this
      ensures Valid() && db == Apply(old(db), ClaimTask(task, token, seconds))
      ensures trace == old(trace) + [ClaimTask(task, token, seconds)]
      ensures claim.Some? <==>
        task in old(db).tasks && seconds >= 1 && S.MayBeClaimed(old(db).tasks[task], old(db).publication.clock)
      ensures claim.Some? ==> task in db.tasks && claim.value == db.tasks[task]
      ensures claim.Some? ==> HoldsClaim(claim.value, token, claim.value.epoch)
      ensures claim.Some? ==> claim.value.attempts == claim.value.epoch == EpochAt(old(db), task) + 1 <= MAX_FAILED_EXECUTIONS
    {
      hide QueueInv, Play, Apply;
      ghost var step := ClaimTask(task, token, seconds);
      Advanced(origin, trace, db, step);
      EpochIsAttempt(db, task);
      assert Apply(db, step) == Claim(db, task, token, seconds) by { ClaimStep(db, task, token, seconds); }
      claim := None;
      if task in db.tasks && seconds >= 1 {
        var t := db.tasks[task];
        var open := t.execution.Accepted? || t.execution.Queued?;
        var due := t.execution.RetryWait? && t.nextAttemptAt <= Now(db);
        var expired := t.execution.Claimed? && t.phase.Preflight? && t.expiresAt.Some? && t.expiresAt.value <= Now(db);
        if t.attempts < MAX_FAILED_EXECUTIONS && (open || due || expired) {
          t := t.(execution := Claimed, phase := Preflight, attempts := t.attempts + 1, epoch := t.epoch + 1,
                  token := Some(token), expiresAt := Some(Now(db) + seconds * 1_000_000));
          db := db.(tasks := db.tasks[task := t]);
          claim := Some(t);
        }
      }
      trace := trace + [step];
    }

    /** `start_prefect`: succeeds only for the holder of an unexpired preflight claim. */
    method StartExecution(task: TaskId, token: Token, epoch: nat, seconds: nat) returns (started: bool)
      requires Valid()
      modifies this
      ensures Valid() && db == Apply(old(db), Start(task, token, epoch, seconds))
      ensures trace == old(trace) + [Start(task, token, epoch, seconds)] && SameTasks(old(db), db)
      ensures started <==>
        task in old(db).tasks && S.Preflighting(old(db).tasks[task], token, epoch)
        && old(db).tasks[task].expiresAt.Some? && old(db).publication.clock < old(db).tasks[task].expiresAt.value
      ensures started ==> Times(old(db).starts, task) == 0 && Times(db.starts, task) == 1
    {
      hide QueueInv, Play, Times, Apply, TaskOk, SameTasks;
      StepSameTasks(db, Start(task, token, epoch, seconds));
      ghost var step := Start(task, token, epoch, seconds);
      Advanced(origin, trace, db, step);
      assert Apply(db, step) == StartPrefect(db, task, token, epoch, seconds) by { StartStep(db, task, token, epoch, seconds); }
      NotStarted(db, task, token, epoch);
      TimesNext(db.starts, task, task);
      started := false;
      if task in db.tasks {
        var t := db.tasks[task];
        if t.execution.Claimed? && t.phase.Preflight? && t.token == Some(token) && t.epoch == epoch
           && t.expiresAt.Some? && t.expiresAt.value > Now(db)
        {
          t := t.(execution := Running, phase := PrefectStarted, expiresAt := Some(Now(db) + seconds * 1_000_000));
          db := db.(starts := db.starts + [task], tasks := db.tasks[task := t]);
          started := true;
        }
      }
      trace := trace + [step];
    }

    /** `reconcile_task`: reads the locked task and its run, and follows the run's history. */
    method ReconcileTask(task: TaskId, storable: bool)
      requires Valid()
      modifies this
      ensures Valid() && db == Apply(old(db), Repair(task, storable)) && trace == old(trace) + [Repair(task, storable)]
    {
      hide QueueInv, Play, P.Success, Apply;
      ghost var step := Repair(task, storable);
      Advanced(origin, trace, db, step);
      RepairStep(db, task, storable);
      trace := trace + [step];
      if task !in db.tasks || db.tasks[task].run !in db.publication.runs { return; }
      var t := db.tasks[task];
      if t.execution.FailurePendingDlq? {
        var confirmed := storable && (task in db.deadLetters ==> db.deadLetters[task].run == t.run);
        if confirmed {
          if task !in db.deadLetters {
            db := db.(deadLetters := db.deadLetters[task := DeadLetter(t.run, if t.attempts < 1 then 1 else t.attempts)]);
          }
          db := db.(tasks := db.tasks[task := t.(execution := DeadLettered)]);
        }
        return;
      }
      if t.execution.Succeeded? || t.execution.DeadLettered? || t.execution.Failed? || t.execution.ReconciliationRequired? {
        return;
      }
      var run := db.publication.runs[t.run];
      var closed, published: Option<bool>, token: Option<Token> := ReconciliationRequired, None, None;
      if run.commit.CommitUncertain? {
      } else if P.Success(run.status) && run.commit.Observed? { closed, published := Execution.Succeeded, Some(true); }
      else if run.status.BlockedQuality? { closed, published := Execution.Succeeded, Some(false); }
      else if run.status.Superseded? || run.status.SkippedInProgress? || run.status.FailedRetryable? {
        closed, published := Failed, Some(false);
      } else if t.execution.Running? && t.phase.PrefectStarted? && t.expiresAt.Some? && t.expiresAt.value <= Now(db) {
        token := t.token;
      } else { return; }
      db := db.(tasks := db.tasks[task := t.(execution := closed, phase := Closed, published := published, token := token,
        expiresAt := None)]);
    }

    /** `reconcile_one`: repairs one selected task, if there is one. */
    method ReconcileOne(storable: bool) returns (repaired: Option<TaskId>)
      requires Valid()
      modifies this
      ensures Valid() && (repaired.Some? <==> exists task :: NeedsRepair(old(db), task))
      ensures repaired.None? ==> db == old(db)
      ensures repaired.Some? ==> NeedsRepair(old(db), repaired.value) && db == Apply(old(db), Repair(repaired.value, storable))
    {
      hide QueueInv, Apply, Play;
      assert forall task :: NeedsRepair(db, task) ==> task in db.tasks;
      var found := set task | task in db.tasks && NeedsRepair(db, task);
      if found == {} {
        assert forall task :: NeedsRepair(db, task) ==> task in found;
        return None;
      }
      var task :| task in found;
      ReconcileTask(task, storable);
      repaired := Some(task);
    }

    // ----- tasks.py -----

    /** `run_weekly_pipeline_task`: claim, preflight, one start, one weekly flow, one fenced close. The steps are
        exactly those of the path taken, and the path is the one the claim, the probe and the result ask for. A
        publication is answered only for a run that is durably successful. */
    method RunWeeklyPipelineTask(task: TaskId, run: P.RunId, week: int, seconds: nat, env: Environment)
      returns (reply: Reply, path: Path)
      requires Valid()
      modifies this
      ensures Valid() && Times(db.starts, task) <= 1
      ensures trace == old(trace) + env.others(0) + [ClaimTask(task, env.token, seconds)] + StepsOf(path, task, seconds, env)
      ensures Asked(path, env) && Matches(reply, path)
      ensures Carries(path, EpochAt(Play(origin, old(trace) + env.others(0)), task) + 1)
      ensures Turned(Play(origin, old(trace) + env.others(0)), task, run, week, seconds, path)
      ensures path.Unclaimed? ==> (reply.Returned? <==> task in db.tasks && db.tasks[task].execution.Succeeded?)
      ensures reply.Returned? ==> task in db.tasks && ExecutionClosed(db.tasks[task].execution)
      ensures path.Finished? ==> task in db.tasks && db.tasks[task].run == run
      ensures reply.Returned? && path.Finished? && path.outcome.Recorded? ==>
        db.tasks[task].published == Some(true) && DurablySuccessful(db, run)
      ensures path.Finished? ==> Reports(db, run, path.outcome, path.session, reply)
      ensures Undisturbed(env) && ToRun(old(db), task, run, week) && seconds >= 1 ==>
        path.Finished? && Served(ClaimedState(old(db), task, env.token, seconds), db, task, run, week, path.outcome, reply, env)
    {
      hide QueueInv, Play, Apply, Times, HoldsClaim, MayStart, DurablySuccessful, FlowSteps, SameTasks, Served;
      OneStartEver(task);
      Interfere(env.others(0));
      S.ClaimExact(db, task, env.token, seconds);
      var claim := ClaimExecution(task, env.token, seconds);
      if claim.None? {
        ReconcileTask(task, env.storable);
        if task in db.tasks && db.tasks[task].execution.Succeeded? { return Returned, Unclaimed; }
        return RaisedError("task is already owned or terminal"), Unclaimed;
      }
      if claim.value.run != run || claim.value.week != week {
        return RaisedError("task payload identity mismatch"), Foreign;
      }
      reply, path := RunClaimed(task, run, week, claim.value.epoch, claim.value.attempts, seconds, env);
    }

    /** The worker with a claim: preflight, then at most one start and one flow. */
    method RunClaimed(task: TaskId, run: P.RunId, week: int, epoch: nat, attempt: nat, seconds: nat, env: Environment)
      returns (reply: Reply, path: Path)
      requires Valid() && epoch == attempt <= MAX_FAILED_EXECUTIONS && task in db.tasks && db.tasks[task].run == run
      modifies this
      ensures Valid() && trace == old(trace) + StepsOf(path, task, seconds, env) && Asked(path, env)
      ensures Matches(reply, path) && !path.Unclaimed? && !path.Foreign? && Carries(path, epoch)
      ensures task in db.tasks && db.tasks[task].run == run
      ensures reply.Returned? ==> ExecutionClosed(db.tasks[task].execution)
      ensures reply.Returned? && path.outcome.Recorded? ==> db.tasks[task].published == Some(true) && DurablySuccessful(db, run)
      ensures path.Finished? ==> Reports(db, run, path.outcome, path.session, reply)
      ensures Undisturbed(env) && MayBegin(old(db), task, env.token, epoch) ==>
        path.Finished? && Served(old(db), db, task, run, week, path.outcome, reply, env)
    {
      hide QueueInv, Play, Apply, Times, MayStart, DurablySuccessful, FlowSteps, CameBack, SameTasks, W.SmoothFlow, W.FlowAlone, Alone,
        Served, Reports, ExecutionClosed, HoldsClaim;
      Interfere(env.others(1));
      SameRun(old(db), db, task);
      ghost var before := db;
      if env.probe.Unreachable? && attempt < MAX_FAILED_EXECUTIONS {
        Perform(Retry(task, env.token, epoch, env.retryAt));
        SameRun(before, db, task);
        return RetryRequested, Retried(epoch, attempt);
      }
      if !env.probe.Ready? {
        Perform(Fail(task, env.token, epoch, attempt, env.storable));
        SameRun(before, db, task);
        return RaisedError("preflight failed"), Dead(epoch, attempt);
      }
      reply, path := BeginExecution(task, run, week, epoch, attempt, seconds, env);
    }

    /** After a good probe: at most one start, and the flow. */
    method BeginExecution(task: TaskId, run: P.RunId, week: int, epoch: nat, attempt: nat, seconds: nat, env: Environment)
      returns (reply: Reply, path: Path)
      requires Valid() && epoch == attempt && task in db.tasks && db.tasks[task].run == run && env.probe.Ready?
      modifies this
      ensures Valid() && trace == old(trace) + StepsFromStart(path, task, seconds, env) && Asked(path, env)
      ensures Matches(reply, path) && (path.StartFenced? || path.Finished?) && Carries(path, epoch)
      ensures task in db.tasks && db.tasks[task].run == run
      ensures reply.Returned? ==> ExecutionClosed(db.tasks[task].execution)
      ensures reply.Returned? && path.outcome.Recorded? ==> db.tasks[task].published == Some(true) && DurablySuccessful(db, run)
      ensures path.Finished? ==> Reports(db, run, path.outcome, path.session, reply)
      ensures Undisturbed(env) && MayBegin(old(db), task, env.token, epoch) ==>
        path.Finished? && Served(old(db), db, task, run, week, path.outcome, reply, env)
    {
      hide QueueInv, Play, Apply, Times, MayStart, DurablySuccessful, FlowSteps, CameBack, SameTasks, W.SmoothFlow, W.FlowAlone, Alone,
        Served, Reports, ExecutionClosed, HoldsClaim;
      S.StartExact(db, task, env.token, epoch, seconds);
      var started := StartExecution(task, env.token, epoch, seconds);
      ghost var begun := db;
      SameRun(old(db), db, task);
      if !started {
        return RaisedError("execution claim was fenced before Prefect"), StartFenced(epoch);
      }
      var outcome, flow, session;
      reply, outcome, flow, session := RunStarted(task, run, week, epoch, attempt, env);
      path := Finished(epoch, attempt, flow, outcome, session);
      if Undisturbed(env) && MayBegin(old(db), task, env.token, epoch) {
        ServedSince(old(db), begun, db, task, run, week, outcome, reply, env);
      }
    }

    /** After the start: one flow, one close. */
    method RunStarted(task: TaskId, run: P.RunId, week: int, epoch: nat, attempt: nat, env: Environment)
      returns (reply: Reply, outcome: Outcome, flow: seq<Step>, session: nat)
      requires Valid() && task in db.tasks && db.tasks[task].run == run
      modifies this
      ensures Valid() && FlowSteps(flow, env)
      ensures trace == old(trace) + env.others(2) + flow + [Complete(task, env.token, epoch, attempt, outcome, env.storable)]
      ensures !reply.RetryRequested? && (reply.Returned? ==> !outcome.Raised?)
      ensures task in db.tasks && db.tasks[task].run == run
      ensures reply.Returned? ==> ExecutionClosed(db.tasks[task].execution)
      ensures reply.Returned? && outcome.Recorded? ==> db.tasks[task].published == Some(true) && DurablySuccessful(db, run)
      ensures Reports(db, run, outcome, session, reply)
      ensures Undisturbed(env) && S.Executing(old(db).tasks[task], env.token, epoch) ==>
        Served(old(db), db, task, run, week, outcome, reply, env)
    {
      hide QueueInv, Play, Apply, DurablySuccessful, FlowSteps, CameBack, SameTasks, W.SmoothFlow, W.FlowAlone, Alone, Answered,
        ExecutionClosed, S.Executing;
      Interfere(env.others(2));
      SameRun(old(db), db, task);
      ghost var before := db;
      outcome, flow, session := RunPipeline(run, week, env);
      SameRun(before, db, task);
      CompleteKeepsSessions(db, task, env.token, epoch, attempt, outcome, env.storable, session, run);
      reply := CloseExecution(task, epoch, attempt, outcome, env);
    }

    /** `run_weekly_pipeline` on the shared publication tables. A publication comes back only from this worker's own
        coordinator; a result always carries the accepted run, so the check of `_result_payload` never fails. */
    method RunPipeline(run: P.RunId, week: int, env: Environment) returns (outcome: Outcome, flow: seq<Step>, session: nat)
      requires Valid()
      modifies this
      ensures Valid() && trace == old(trace) + flow && FlowSteps(flow, env) && SameTasks(old(db), db)
      ensures session !in old(db).publication.sessions
      ensures outcome.Recorded? <==> CameBack(db, session, run)
      ensures outcome.Recorded? ==> outcome.session == session
      ensures Alone(env) ==> db == old(db).(publication := db.publication)
      ensures W.FlowAlone(env.flow) ==> Answered(old(db).publication, week, run, env.flow, session, outcome)
    {
      hide QueueInv, Play, Apply, P.Play, P.Inv, W.Publishes, SameTasks, W.SmoothFlow, W.FlowCanPublish, W.FlowEndsAs,
        W.FlowAlone, W.FlowRefusal, W.EndedAs, C.CountsAre, Alone, FlowSteps, Answered;
      PublicationInv(db);
      session := NewSession(db.publication);
      var coordinator := new C.Coordinator(db.publication, session);
      var reply := W.WeeklyPerformanceFlow(coordinator, week, run, env.flow);
      flow := Replay(coordinator.trace, env);
      if W.Publishes(coordinator.db, session, week, run, reply) {
        W.PublishesReturned(coordinator.db, session, week, run, reply);
      }
      assert reply.Replied? ==> reply.run == run;
      outcome := OutcomeOf(reply, session);
      if W.FlowAlone(env.flow) {
        FlowIsAnswered(old(db).publication, coordinator.db, week, run, env.flow, session, reply);
      }
    }

    /** The flow's steps enter the shared tables one by one, among everybody else's steps on the task rows. */
    method Replay(steps: seq<P.Step>, env: Environment) returns (flow: seq<Step>)
      requires Valid()
      modifies this
      ensures Valid() && trace == old(trace) + flow && FlowSteps(flow, env) && SameTasks(old(db), db)
      ensures db.publication == P.Play(old(db).publication, steps)
      ensures Alone(env) ==> db == old(db).(publication := db.publication)
    {
      hide QueueInv, Play, Apply, P.Play, P.Apply;
      flow := [];
      P.PlayNothing(db.publication);
      for n := 0 to |steps|
        invariant Valid() && trace == old(trace) + flow && FlowSteps(flow, env) && SameTasks(old(db), db)
        invariant db.publication == P.Play(old(db).publication, steps[..n])
        invariant Alone(env) ==> db == old(db).(publication := db.publication)
      {
        assert steps[..n + 1] == steps[..n] + [steps[n]];
        P.PlayNext(old(db).publication, steps[..n], steps[n]);
        var step := PublishOne(steps[n], env.accepts(n));
        flow := flow + [step];
        var rows := RowSteps(env.rows(n), env, n);
        flow := flow + rows;
      }
      assert steps[..|steps|] == steps;
    }

    /** One publication step; a new run may be part of an acceptance. */
    method PublishOne(p: P.Step, accept: Option<TaskId>) returns (step: Step)
      requires Valid()
      modifies this
      ensures Valid() && trace == old(trace) + [step] && !RowStep(step) && SameTasks(old(db), db)
      ensures db.publication == P.Apply(old(db).publication, p)
      ensures accept.None? ==> db == old(db).(publication := db.publication)
    {
      hide QueueInv, Play, SameTasks, P.Apply, Apply;
      step := Publish(p);
      if accept.Some? && p.CreateRun? && Acceptable(db, accept.value, p.run, p.week) {
        AcceptPublishes(db, accept.value, p.run, p.week);
        step := AcceptTask(accept.value, p.run, p.week);
      } else {
        PublishPublishes(db, p);
      }
      Perform(step);
    }

    method RowSteps(steps: seq<Step>, env: Environment, ghost n: nat) returns (flow: seq<Step>)
      requires Valid() && steps == env.rows(n)
      modifies this
      ensures Valid() && trace == old(trace) + flow && FlowSteps(flow, env) && SameTasks(old(db), db)
      ensures db.publication == old(db).publication && (steps == [] ==> db == old(db))
    {
      hide QueueInv, Play, Apply;
      flow := [];
      for i := 0 to |steps|
        invariant Valid() && trace == old(trace) + flow && FlowSteps(flow, env) && SameTasks(old(db), db)
        invariant db.publication == old(db).publication && (steps == [] ==> db == old(db))
      {
        assert steps[i] in env.rows(n);
        if RowStep(steps[i]) {
          StepSameTasks(db, steps[i]);
          Perform(steps[i]);
          flow := flow + [steps[i]];
        }
      }
    }

    /** The result of the flow, in one fenced update. */
    method CloseExecution(task: TaskId, epoch: nat, attempt: nat, outcome: Outcome, env: Environment)
      returns (reply: Reply)
      requires Valid() && task in db.tasks && (outcome.Recorded? ==> CameBack(db, outcome.session, db.tasks[task].run))
      modifies this
      ensures Valid() && trace == old(trace) + [Complete(task, env.token, epoch, attempt, outcome, env.storable)]
      ensures !reply.RetryRequested? && (reply.Returned? ==> !outcome.Raised?)
      ensures task in db.tasks && db.tasks[task].run == old(db).tasks[task].run
      ensures reply.Returned? ==> ExecutionClosed(db.tasks[task].execution)
      ensures reply.Returned? && outcome.Recorded? ==>
        db.tasks[task].published == Some(true) && DurablySuccessful(db, db.tasks[task].run)
      ensures db == Apply(old(db), Complete(task, env.token, epoch, attempt, outcome, env.storable))
      ensures var held := S.Executing(old(db).tasks[task], env.token, epoch);
        && reply == AnswerTo(outcome, held)
        && db.tasks[task] == if held then ClosedRow(old(db), task, outcome, env.storable) else old(db).tasks[task]
    {
      hide QueueInv, Play, Apply, HoldsExecution, CameBack, DurablySuccessful;
      assert HoldsExecution(db.tasks[task], env.token, epoch) <==> S.Executing(db.tasks[task], env.token, epoch) by {
        Executes(db.tasks[task], env.token, epoch);
      }
      S.CompleteExact(db, task, env.token, epoch, attempt, outcome, env.storable);
      var fenced := !HoldsExecution(db.tasks[task], env.token, epoch);
      CompleteCloses(db, task, env.token, epoch, attempt, outcome, env.storable);
      Perform(Complete(task, env.token, epoch, attempt, outcome, env.storable));
      PublishedIsDurable(db, task);
      if outcome.Raised? { return RaisedError("pipeline raised"); }
      if outcome.Reported? && !outcome.status.BlockedQuality? && !P.Success(outcome.status) {
        return RaisedError("pipeline returned a terminal failure");
      }
      if fenced { return RaisedError("terminal update was fenced"); }
      reply := Returned;
    }

    // ----- relay.py -----

    /** `relay_once`: one claimed row is handed over once, and then acknowledged or delayed under its token. Where
        nobody else touches the row, a due row is relayed, and without one the relay finds nothing. */
    method RelayOnce(task: TaskId, seconds: nat, maxBackoff: nat, limit: nat, env: Environment)
      returns (claimed: Option<Relay>)
      requires Valid()
      modifies this
      ensures Valid()
      ensures claimed.Some? ==> claimed.value.task == task
      ensures trace == old(trace) + env.others(0) + [ClaimRow(task, env.token, seconds, limit)] +
        if claimed.None? then []
        else env.others(1) + [Hand(env.token)] + env.others(2) + [AfterPublishing(env, maxBackoff, limit, claimed.value)]
      ensures (forall n :: env.others(n) == []) && task in old(db).tasks
              && env.token !in old(db).relays && env.token !in old(db).usedTokens ==>
        Relayed(old(db), db, task, maxBackoff, limit, env, claimed)
    {
      hide QueueInv, Play, Apply, Backoff, Wait, S.DueRow, S.RelayedRow, S.SweptQueue, Relayed, SameTasks;
      if task in db.tasks && env.token !in db.relays && env.token !in db.usedTokens {
        RelayedBy(db, task, seconds, maxBackoff, limit, env);
      }
      Interfere(env.others(0));
      Perform(ClaimRow(task, env.token, seconds, limit));
      if env.token !in db.relays || db.relays[env.token].task != task || db.relays[env.token].handed { return None; }
      claimed := Some(db.relays[env.token]);
      Interfere(env.others(1));
      Perform(Hand(env.token));
      Interfere(env.others(2));
      if env.publisherRaises {
        Perform(GiveUp(env.token, Backoff(maxBackoff, claimed.value.attempts), limit));
      } else {
        Perform(Acknowledge(env.token));
      }
    }
  }

  lemma CompleteKeepsSessions(q: State, task: TaskId, token: Token, epoch: nat, attempt: nat, o: Outcome, storable: bool,
                              session: nat, run: P.RunId)
    ensures CameBack(Apply(q, Complete(task, token, epoch, attempt, o, storable)), session, run) <==> CameBack(q, session, run)
  {
    CompleteSameTasks(q, task, token, epoch, attempt, o, storable);
    hide FinishWork;
  }

  lemma Executes(t: Task, token: Token, epoch: nat)
    ensures HoldsExecution(t, token, epoch) <==> S.Executing(t, token, epoch)
  {
  }

  /** The task can be claimed, for this run and week. */
  predicate ToRun(q: State, task: TaskId, run: P.RunId, week: int) {
    && task in q.tasks && S.MayBeClaimed(q.tasks[task], q.publication.clock)
    && q.tasks[task].run == run && q.tasks[task].week == week
  }

  /** The worker turns away exactly where the task cannot be claimed, or is not the one that the message names. */
  ghost predicate Turned(q: State, task: TaskId, run: P.RunId, week: int, seconds: nat, path: Path) {
    var claimable := task in q.tasks && seconds >= 1 && S.MayBeClaimed(q.tasks[task], q.publication.clock);
    && (path.Unclaimed? <==> !claimable)
    && (path.Foreign? <==> claimable && (q.tasks[task].run != run || q.tasks[task].week != week))
  }

  /** The queue with the task claimed. */
  function ClaimedState(q: State, task: TaskId, token: Token, seconds: nat): State
    requires task in q.tasks
  {
    var t := q.tasks[task];
    q.(tasks := q.tasks[task := Task(t.run, t.week, Claimed, Preflight, t.attempts + 1, t.epoch + 1, Some(token),
      Some(q.publication.clock + seconds * 1_000_000), t.nextAttemptAt, t.published, t.dispatch)])
  }

  /** The preflight claim of this worker has not run out. */
  predicate MayBegin(q: State, task: TaskId, token: Token, epoch: nat) {
    && task in q.tasks && S.Preflighting(q.tasks[task], token, epoch)
    && q.tasks[task].expiresAt.Some? && q.publication.clock < q.tasks[task].expiresAt.value
  }

  /** The start changes nothing that the result depends on. */
  lemma ServedSince(q: State, begun: State, q': State, task: TaskId, run: P.RunId, week: int, o: Outcome, reply: Reply,
                    env: Environment)
    requires task in q.tasks && task in begun.tasks && Served(begun, q', task, run, week, o, reply, env)
    requires begun.publication == q.publication && begun.deadLetters == q.deadLetters
    requires begun.tasks[task] == q.tasks[task].(execution := Running, phase := PrefectStarted,
      expiresAt := begun.tasks[task].expiresAt)
    ensures Served(q, q', task, run, week, o, reply, env)
  {
    hide Answered;
  }

  function AfterPublishing(env: Environment, maxBackoff: nat, limit: nat, claimed: Relay): Step {
    if env.publisherRaises then GiveUp(env.token, Backoff(maxBackoff, claimed.attempts), limit)
    else Acknowledge(env.token)
  }

  function Power(n: nat): nat { if n == 0 then 1 else 2 * Power(n - 1) }

  /** `min(max_backoff_seconds, 2 ** min(publish_attempts, 8))` */
  function Backoff(most: nat, attempts: nat): nat {
    var wait := Power(if attempts < 8 then attempts else 8);
    if wait < most then wait else most
  }

  /** Seconds after this attempt: powers of two up to 256, and never more than the configured time. */
  function Wait(most: nat, attempts: nat): nat {
    var waits := [1, 2, 4, 8, 16, 32, 64, 128, 256];
    var wait := if attempts < 8 then waits[attempts] else 256;
    if wait <= most then wait else most
  }

  /** A due row was claimed, and after the publisher answered or raised it is settled. Otherwise only the sweeps took
      effect. */
  ghost predicate Relayed(q: State, q': State, task: TaskId, maxBackoff: nat, limit: nat, env: Environment,
                          claimed: Option<Relay>) {
    if S.DueRow(q, task, limit) then
      var attempts := q.outbox[task].attempts + 1;
      && claimed == Some(Relay(task, attempts, false))
      && S.RelayedRow(q, q', task, attempts, q.publication.clock + Wait(maxBackoff, attempts) * 1_000_000, limit,
           env.publisherRaises)
    else claimed == None && q' == S.SweptQueue(q, limit)
  }

  lemma RelayedBy(q: State, task: TaskId, seconds: nat, maxBackoff: nat, limit: nat, env: Environment)
    requires env.token !in q.relays && env.token !in q.usedTokens && task in q.tasks
    ensures var q' := Apply(q, ClaimRow(task, env.token, seconds, limit));
      if env.token in q'.relays then
        && q'.relays[env.token].task == task && !q'.relays[env.token].handed
        && Relayed(q, Apply(Apply(q', Hand(env.token)), AfterPublishing(env, maxBackoff, limit, q'.relays[env.token])), task,
             maxBackoff, limit, env, Some(q'.relays[env.token]))
      else Relayed(q, q', task, maxBackoff, limit, env, None)
  {
    hide Apply, Backoff, Wait, S.RelayedRow, S.SweptQueue;
    var attempts := if task in q.outbox then q.outbox[task].attempts + 1 else 0;
    BackoffExact(maxBackoff, attempts);
    S.RelayedExact(q, task, env.token, seconds, limit, Backoff(maxBackoff, attempts), env.publisherRaises);
  }

  lemma BackoffExact(most: nat, attempts: nat)
    ensures Backoff(most, attempts) == Wait(most, attempts)
  {
    assert Power(2) == 4 && Power(4) == 16 && Power(6) == 64 && Power(8) == 256;
  }

  lemma ClaimStep(q: State, task: TaskId, token: Token, seconds: nat)
    ensures Apply(q, ClaimTask(task, token, seconds)) == Claim(q, task, token, seconds)
  {
    hide Claim;
  }

  lemma StartStep(q: State, task: TaskId, token: Token, epoch: nat, seconds: nat)
    ensures Apply(q, Start(task, token, epoch, seconds)) == StartPrefect(q, task, token, epoch, seconds)
  {
    hide StartPrefect;
  }

  lemma RepairStep(q: State, task: TaskId, storable: bool)
    ensures Apply(q, Repair(task, storable)) == Reconcile(q, task, storable)
  {
    hide Reconcile;
  }

  /** A live preflight claim belongs to a task that has never been started. */
  lemma NotStarted(q: State, task: TaskId, token: Token, epoch: nat)
    requires QueueInv(q)
    ensures MayStart(q, task, token, epoch) ==> Times(q.starts, task) == 0
  {
    if task in q.tasks { assert TaskOk(q, task); }
  }

  lemma EpochIsAttempt(q: State, task: TaskId)
    requires QueueInv(q)
    ensures task in q.tasks ==> q.tasks[task].attempts == q.tasks[task].epoch
  {
    if task in q.tasks { assert TaskOk(q, task); }
  }

  lemma OneStartEver(task: TaskId)
    ensures forall q: State :: QueueInv(q) ==> Times(q.starts, task) <= 1
  {
    forall q: State | QueueInv(q) ensures Times(q.starts, task) <= 1 { OneStart(q, task); }
  }

  lemma OneStart(q: State, task: TaskId)
    requires QueueInv(q)
    ensures Times(q.starts, task) <= 1
  {
    if task in q.tasks { assert TaskOk(q, task); }
  }

  /** A result that is not fenced closes the task, and a publication that came back marks it published. */
  lemma CompleteCloses(q: State, task: TaskId, token: Token, epoch: nat, attempt: nat, o: Outcome, storable: bool)
    requires task in q.tasks && (o.Recorded? ==> CameBack(q, o.session, q.tasks[task].run))
    ensures var q' := Apply(q, Complete(task, token, epoch, attempt, o, storable));
      HoldsExecution(q.tasks[task], token, epoch) ==>
        task in q'.tasks && (ExecutionClosed(q'.tasks[task].execution) || q'.tasks[task].execution.FailurePendingDlq?)
        && (o.ReportedUncertain? || o.Recorded? || (o.Reported? && (o.status.BlockedQuality? || P.Success(o.status))) ==>
              ExecutionClosed(q'.tasks[task].execution))
        && (o.Recorded? ==> q'.tasks[task].published == Some(true))
  {
    hide CameBack;
  }

  lemma PublishedIsDurable(q: State, task: TaskId)
    requires QueueInv(q)
    ensures task in q.tasks && q.tasks[task].published == Some(true) ==> DurablySuccessful(q, q.tasks[task].run)
  {
    hide P.Inv, Times;
    if task in q.tasks { assert TaskOk(q, task); }
  }

  // ----- the flow inside the queue -----

  function OutcomeOf(reply: C.Reply, session: nat): Outcome {
    match reply
    case Raised(_) => Outcome.Raised
    case Uncertain(_, _) => ReportedUncertain
    case Replied(_, status, commit, _, _, _, recorded) =>
      if commit.CommitUncertain? then ReportedUncertain
      else if P.Success(status) && recorded then Recorded(session)
      else Reported(status)
  }

  lemma FlowIsAnswered(s: P.State, s': P.State, week: int, run: P.RunId, x: W.Execution, session: nat, reply: C.Reply)
    requires W.FlowEndsAs(s, s', week, run, x, reply)
    requires W.Publishes(s', session, week, run, reply) || C.Unsuccessful(run, reply)
    requires W.SmoothFlow(x) ==>
      if W.FlowCanPublish(s, week, run, x) then W.Publishes(s', session, week, run, reply)
      else W.EndedAs(s, s', week, run, reply, W.FlowRefusal(s, week, run, x))
    ensures Answered(s, week, run, x, session, OutcomeOf(reply, session))
  {
    hide W.FlowEndsAs, W.Publishes, W.SmoothFlow, W.FlowCanPublish, W.FlowRefusal;
    if W.Publishes(s', session, week, run, reply) { W.PublishesReturned(s', session, week, run, reply); }
    W.RefusalIsClear(s, week, run, x);
    assert Understood(reply, OutcomeOf(reply, session), session);
  }

  lemma PublicationInv(q: State)
    requires QueueInv(q)
    ensures P.Inv(q.publication)
  {
    hide P.Inv, TaskOk;
  }

  /** A process starts under an identity that no other one has. */
  method NewSession(s: P.State) returns (id: nat)
    ensures id !in s.sessions
  {
    id := 0;
    ghost var left := s.sessions.Keys;
    while id in s.sessions
      invariant left == set k | k in s.sessions && k >= id
      decreases |left|
    {
      left := left - {id};
      id := id + 1;
    }
  }

  /** Every task stays, with its run. */
  ghost predicate SameTasks(q: State, q': State) {
    forall k :: k in q.tasks ==> k in q'.tasks && q'.tasks[k].run == q.tasks[k].run
  }

  /** No step loses a task or gives it another run, and steps on rows leave the publication alone. */
  lemma StepSameTasks(q: State, step: Step)
    ensures SameTasks(q, Apply(q, step))
    ensures RowStep(step) ==> Apply(q, step).publication == q.publication
  {
    if RelayStep(step) {
      RelaySteps(q, step);
      hide Apply;
    } else if step.Fail? || step.Complete? {
      WorkSameTasks(q, step);
      hide Apply;
    } else if step.Repair? {
      RepairFrame(q, step.task, step.storable);
      hide Reconcile;
    } else {
      OtherSameTasks(q, step);
      hide Apply;
    }
  }

  lemma WorkSameTasks(q: State, step: Step)
    requires step.Fail? || step.Complete?
    ensures SameTasks(q, Apply(q, step)) && Apply(q, step).publication == q.publication
  {
    hide FailPreflight, FinishWork, SameTasks;
    if step.Fail? {
      FailSameTasks(q, step.task, step.token, step.epoch, step.attempt, step.storable);
    } else {
      CompleteSameTasks(q, step.task, step.token, step.epoch, step.attempt, step.result, step.storable);
    }
  }

  lemma FailSameTasks(q: State, task: TaskId, token: Token, epoch: nat, attempt: nat, storable: bool)
    ensures var q' := FailPreflight(q, task, token, epoch, attempt, storable);
      SameTasks(q, q') && q'.publication == q.publication
  {
    hide WithDeadLetter, FailedState;
    if task in q.tasks { LetterKept(q, task, q.tasks[task].run, attempt, storable); }
  }

  lemma FinishSameTasks(q: State, task: TaskId, token: Token, epoch: nat, execution: Execution, published: Option<bool>)
    ensures var q' := Finish(q, task, token, epoch, execution, published);
      SameTasks(q, q') && q'.publication == q.publication
  {
  }

  lemma CompleteSameTasks(q: State, task: TaskId, token: Token, epoch: nat, attempt: nat, o: Outcome, storable: bool)
    ensures var q' := FinishWork(q, task, token, epoch, attempt, o, storable);
      SameTasks(q, q') && q'.publication == q.publication
  {
    hide WithDeadLetter, FailedState, CameBack, Finish;
    if task in q.tasks {
      var run := q.tasks[task].run;
      LetterKept(q, task, run, attempt, storable);
      FinishSameTasks(q, task, token, epoch, Succeeded, Some(true));
      FinishSameTasks(q, task, token, epoch, Succeeded, Some(false));
      FinishSameTasks(q, task, token, epoch, ReconciliationRequired, None);
      FinishSameTasks(WithDeadLetter(q, task, run, attempt, storable), task, token, epoch,
        FailedState(q, task, run, storable), Some(false));
    }
  }

  lemma OtherSameTasks(q: State, step: Step)
    requires !RelayStep(step) && !step.Fail? && !step.Complete? && !step.Repair?
    ensures SameTasks(q, Apply(q, step)) && (RowStep(step) ==> Apply(q, step).publication == q.publication)
  {
    hide P.Apply;
  }

  lemma SameRun(q: State, q': State, task: TaskId)
    requires SameTasks(q, q') && task in q.tasks
    ensures task in q'.tasks && q'.tasks[task].run == q.tasks[task].run
  {
  }

  predicate Acceptable(q: State, task: TaskId, run: P.RunId, week: int) {
    && !(exists r :: r in q.publication.runs && Active(q.publication.runs[r], week))
    && run !in q.publication.runs && task !in q.tasks && IsMonday(week)
  }

  lemma AcceptPublishes(q: State, task: TaskId, run: P.RunId, week: int)
    requires Acceptable(q, task, run, week)
    ensures Apply(q, AcceptTask(task, run, week)).publication == P.Apply(q.publication, P.CreateRun(run, week))
  {
    hide P.Apply;
  }

  lemma PublishPublishes(q: State, p: P.Step)
    ensures Apply(q, Publish(p)) == q.(publication := P.Apply(q.publication, p))
  {
    hide P.Apply;
  }
}
