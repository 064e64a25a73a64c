/** What every interleaving of workers, relays, reconciliation and publications keeps of the task queue. */
module TaskQueueSafety {
  import opened Basics
  import opened Vocabulary
  import opened TaskQueue
  import P = PublicationProtocol
  import PS = PublicationSafety
  import U = WeeklyUpsert

  function Times(log: seq<TaskId>, task: TaskId): nat {
    if log == [] then 0
    else Times(log[..|log| - 1], task) + (if log[|log| - 1] == task then 1 else 0)
  }

  lemma TimesNext(log: seq<TaskId>, x: TaskId, task: TaskId)
    ensures Times(log + [x], task) == Times(log, task) + (if x == task then 1 else 0)
  {
    assert (log + [x])[..|log|] == log;
  }

  /** States a task can be in once Prefect was started for it. */
  predicate Begun(e: Execution) { e.Running? || ExecutionClosed(e) || e.FailurePendingDlq? }

  /** The run is durably successful with an observed commit. */
  ghost predicate DurablySuccessful(q: State, run: P.RunId) {
    run in q.publication.runs && P.Success(q.publication.runs[run].status) && q.publication.runs[run].commit.Observed?
  }

  ghost predicate TaskOk(q: State, task: TaskId)
    requires task in q.tasks
  {
    var t := q.tasks[task];
    && t.run in q.publication.runs
    && t.attempts == t.epoch && t.attempts <= MAX_FAILED_EXECUTIONS
    && (t.execution.Claimed? ==> t.phase.Preflight?) && (t.execution.Running? <==> t.phase.PrefectStarted?)
    && (t.published == Some(true) ==> t.execution.Succeeded? && DurablySuccessful(q, t.run))
    && (t.execution.DeadLettered? ==> task in q.deadLetters && q.deadLetters[task].run == t.run)
    && Times(q.starts, task) <= 1 && (Times(q.starts, task) == 1 ==> Begun(t.execution))
  }

  /** Success is only ever recorded together with the observed commit. */
  ghost predicate SuccessObserved(s: P.State) {
    forall r :: r in s.runs && P.Success(s.runs[r].status) ==> s.runs[r].commit.Observed?
  }

  ghost predicate QueueInv(q: State) {
    && P.Inv(q.publication) && SuccessObserved(q.publication)
    && (forall task :: task in q.tasks ==> TaskOk(q, task))
    && (forall task :: task !in q.tasks ==> Times(q.starts, task) == 0)
  }

  lemma InitialQueue(q: State)
    requires Initial(q)
    ensures QueueInv(q)
  {
    P.InitialInv(q.publication);
    hide P.Inv;
  }

  // ----- publication steps -----

  lemma ObservedStep(s: P.State, step: P.Step)
    requires SuccessObserved(s)
    ensures SuccessObserved(P.Apply(s, step))
  {
    hide P.Locked, U.RowsOf, U.Disappeared, U.ValidBatch, P.Recognised, P.L.Free, P.L.Holds, P.ChangesNothing;
  }

  lemma SuccessStays(s: P.State, step: P.Step, run: P.RunId)
    requires P.Inv(s) && run in s.runs
    ensures run in P.Apply(s, step).runs
    ensures P.Success(s.runs[run].status) ==> P.Apply(s, step).runs[run] == s.runs[run]
  {
    hide P.Inv, P.Apply;
    if P.Success(s.runs[run].status) {
      PS.TerminalExact(s.runs[run].status);
      PS.TerminalStays(s, step, run);
    }
    RunsStay(s, step, run);
  }

  lemma RunsStay(s: P.State, step: P.Step, run: P.RunId)
    requires run in s.runs
    ensures run in P.Apply(s, step).runs
  {
    hide P.Locked, U.RowsOf, U.Disappeared, U.ValidBatch, P.Recognised, P.L.Free, P.L.Holds, P.ChangesNothing;
  }

  lemma PublishInv(q: State, step: P.Step)
    requires QueueInv(q)
    ensures QueueInv(q.(publication := P.Apply(q.publication, step)))
  {
    hide P.Inv, P.Apply, P.Success, Times, Begun;
    PS.StepInv(q.publication, step);
    ObservedStep(q.publication, step);
    var q' := q.(publication := P.Apply(q.publication, step));
    forall task | task in q'.tasks ensures TaskOk(q', task) {
      assert TaskOk(q, task);
      SuccessStays(q.publication, step, q.tasks[task].run);
    }
  }

  // ----- steps that touch one task -----

  /** A task whose row, dead letter and starts are untouched stays consistent. */
  lemma TaskKept(q: State, q': State, task: TaskId)
    requires task in q.tasks && TaskOk(q, task) && task in q'.tasks
    requires q'.tasks[task] == q.tasks[task].(dispatch := q'.tasks[task].dispatch)
    requires q'.publication == q.publication && Times(q'.starts, task) == Times(q.starts, task)
    requires task in q.deadLetters ==> task in q'.deadLetters && q'.deadLetters[task] == q.deadLetters[task]
    ensures TaskOk(q', task)
  {
    hide Times, P.Success;
  }

  lemma OneTaskInv(q: State, q': State, task: TaskId)
    requires QueueInv(q) && task in q.tasks && q'.tasks.Keys == q.tasks.Keys
    requires forall k :: k in q.tasks && k != task ==> q'.tasks[k] == q.tasks[k]
    requires q'.publication == q.publication
    requires forall k :: k != task ==> Times(q'.starts, k) == Times(q.starts, k)
    requires forall k :: k in q.deadLetters ==> k in q'.deadLetters && q'.deadLetters[k] == q.deadLetters[k]
    requires TaskOk(q', task)
    ensures QueueInv(q')
  {
    hide TaskOk, P.Inv, Times, SuccessObserved;
    forall k | k in q'.tasks ensures TaskOk(q', k) {
      if k != task { TaskKept(q, q', k); }
    }
  }

  lemma AcceptInv(q: State, task: TaskId, run: P.RunId, week: int)
    requires QueueInv(q)
    ensures QueueInv(Accept(q, task, run, week))
  {
    hide P.Inv, Times, SuccessObserved, TaskOk;
    var q' := Accept(q, task, run, week);
    if q' != q {
      PublishInv(q, P.CreateRun(run, week));
      var q1 := q.(publication := P.Apply(q.publication, P.CreateRun(run, week)));
      AcceptedRun(q.publication, run, week);
      hide P.Apply;
      forall k | k in q'.tasks ensures TaskOk(q', k) {
        if k != task { TaskKept(q1, q', k); } else { AcceptedTask(q', task); }
      }
    }
  }

  lemma AcceptedRun(s: P.State, run: P.RunId, week: int)
    requires run !in s.runs && IsMonday(week)
    ensures run in P.Apply(s, P.CreateRun(run, week)).runs
  {
  }

  lemma AcceptedTask(q: State, task: TaskId)
    requires task in q.tasks && q.tasks[task].run in q.publication.runs && Times(q.starts, task) == 0
    requires var t := q.tasks[task]; t == Task(t.run, t.week, Accepted, Idle, 0, 0, None, None, t.nextAttemptAt, None, Pending)
    ensures TaskOk(q, task)
  {
  }

  lemma ClaimInv(q: State, task: TaskId, token: Token, seconds: nat)
    requires QueueInv(q)
    ensures QueueInv(Claim(q, task, token, seconds))
  {
    hide P.Inv, Times, SuccessObserved;
    if task in q.tasks {
      assert TaskOk(q, task);
      OneTaskInv(q, Claim(q, task, token, seconds), task);
    }
  }

  /** The start of Prefect is the first one of its task: it needs a preflight claim, and no started task has one. */
  lemma StartInv(q: State, task: TaskId, token: Token, epoch: nat, seconds: nat)
    requires QueueInv(q)
    ensures QueueInv(StartPrefect(q, task, token, epoch, seconds))
  {
    hide P.Inv, SuccessObserved, Times;
    var q' := StartPrefect(q, task, token, epoch, seconds);
    if q' != q {
      assert TaskOk(q, task);
      forall k ensures Times(q'.starts, k) == Times(q.starts, k) + (if k == task then 1 else 0) { TimesNext(q.starts, task, k); }
      OneTaskInv(q, q', task);
    }
  }

  lemma HeartbeatInv(q: State, task: TaskId, token: Token, epoch: nat, seconds: nat)
    requires QueueInv(q)
    ensures QueueInv(Heartbeat(q, task, token, epoch, seconds))
  {
    hide P.Inv, Times, SuccessObserved;
    if task in q.tasks {
      assert TaskOk(q, task);
      OneTaskInv(q, Heartbeat(q, task, token, epoch, seconds), task);
    }
  }

  lemma RetryInv(q: State, task: TaskId, token: Token, epoch: nat, at: int)
    requires QueueInv(q)
    ensures QueueInv(ScheduleRetry(q, task, token, epoch, at))
  {
    hide P.Inv, Times, SuccessObserved;
    if task in q.tasks {
      assert TaskOk(q, task);
      OneTaskInv(q, ScheduleRetry(q, task, token, epoch, at), task);
    }
  }

  lemma LetterKept(q: State, task: TaskId, run: P.RunId, attempt: nat, storable: bool)
    ensures var q1 := WithDeadLetter(q, task, run, attempt, storable);
      && q1 == q.(deadLetters := q1.deadLetters)
      && (forall k :: k in q.deadLetters ==> k in q1.deadLetters && q1.deadLetters[k] == q.deadLetters[k])
      && (FailedState(q, task, run, storable).DeadLettered? ==> task in q1.deadLetters && q1.deadLetters[task].run == run)
      && Begun(FailedState(q, task, run, storable)) && !FailedState(q, task, run, storable).Succeeded?
      && !FailedState(q, task, run, storable).Running?
  {
  }

  /** A dead letter alone disturbs nothing. */
  lemma LetterInv(q: State, task: TaskId, run: P.RunId, attempt: nat, storable: bool)
    requires QueueInv(q)
    ensures QueueInv(WithDeadLetter(q, task, run, attempt, storable))
  {
    LetterKept(q, task, run, attempt, storable);
    var q1 := WithDeadLetter(q, task, run, attempt, storable);
    hide P.Inv, Times, SuccessObserved, WithDeadLetter, FailedState;
    forall k | k in q1.tasks ensures TaskOk(q1, k) { TaskKept(q, q1, k); }
  }

  /** A task is closed with an execution state that fits what is stored. */
  ghost predicate Closes(q: State, q': State, task: TaskId)
    requires task in q.tasks
  {
    && task in q'.tasks && q' == q.(tasks := q.tasks[task := q'.tasks[task]])
    && (var t, t' := q.tasks[task], q'.tasks[task];
        && t'.run == t.run && t'.attempts == t.attempts && t'.epoch == t.epoch && t'.phase.Closed?
        && Begun(t'.execution) && !t'.execution.Running?
        && (t'.published == Some(true) ==> t'.execution.Succeeded? && DurablySuccessful(q, t.run))
        && (t'.execution.DeadLettered? ==> task in q.deadLetters && q.deadLetters[task].run == t.run))
  }

  lemma ClosesInv(q: State, q': State, task: TaskId)
    requires QueueInv(q) && task in q.tasks && Closes(q, q', task)
    ensures QueueInv(q')
  {
    hide P.Inv, Times, SuccessObserved, P.Success;
    assert TaskOk(q, task);
    OneTaskInv(q, q', task);
  }

  lemma FailInv(q: State, task: TaskId, token: Token, epoch: nat, attempt: nat, storable: bool)
    requires QueueInv(q)
    ensures QueueInv(FailPreflight(q, task, token, epoch, attempt, storable))
  {
    hide QueueInv, WithDeadLetter, FailedState, P.Success;
    if task in q.tasks {
      var q1 := WithDeadLetter(q, task, q.tasks[task].run, attempt, storable);
      LetterKept(q, task, q.tasks[task].run, attempt, storable);
      LetterInv(q, task, q.tasks[task].run, attempt, storable);
      if HoldsClaim(q.tasks[task], token, epoch) {
        ClosesInv(q1, FailPreflight(q, task, token, epoch, attempt, storable), task);
      }
    }
  }

  lemma FinishInv(q: State, task: TaskId, token: Token, epoch: nat, execution: Execution, published: Option<bool>)
    requires QueueInv(q) && task in q.tasks && Begun(execution) && !execution.Running?
    requires published == Some(true) ==> execution.Succeeded? && DurablySuccessful(q, q.tasks[task].run)
    requires execution.DeadLettered? ==> task in q.deadLetters && q.deadLetters[task].run == q.tasks[task].run
    ensures QueueInv(Finish(q, task, token, epoch, execution, published))
  {
    hide QueueInv, P.Success;
    if HoldsExecution(q.tasks[task], token, epoch) {
      ClosesInv(q, Finish(q, task, token, epoch, execution, published), task);
    }
  }

  /** What a coordinator returned as recorded is durably successful: the publication invariant says so. */
  lemma ReturnedIsDurable(q: State, session: nat)
    requires QueueInv(q) && session in q.publication.sessions && q.publication.sessions[session].Returned?
    ensures DurablySuccessful(q, q.publication.sessions[session].run)
  {
    hide TaskOk, Times, P.Exclusive, P.WeekPublished, P.CommitsOk, P.Tokens, P.SuccessOk, P.TxnOk, P.HasCommit;
  }

  lemma CompleteInv(q: State, task: TaskId, token: Token, epoch: nat, attempt: nat, o: Outcome, storable: bool)
    requires QueueInv(q)
    ensures QueueInv(FinishWork(q, task, token, epoch, attempt, o, storable))
  {
    hide P.Inv, Finish, WithDeadLetter, FailedState, TaskOk, Times;
    if task in q.tasks {
      match o
      case Recorded(session) =>
        if CameBack(q, session, q.tasks[task].run) {
          ReturnedIsDurable(q, session);
          FinishInv(q, task, token, epoch, Succeeded, Some(true));
        }
      case Raised => FinishInv(q, task, token, epoch, ReconciliationRequired, None);
      case ReportedUncertain => FinishInv(q, task, token, epoch, ReconciliationRequired, None);
      case Reported(status) =>
        if status.BlockedQuality? || P.Success(status) {
          FinishInv(q, task, token, epoch, Succeeded, Some(false));
        } else {
          var run := q.tasks[task].run;
          LetterKept(q, task, run, attempt, storable);
          LetterInv(q, task, run, attempt, storable);
          FinishInv(WithDeadLetter(q, task, run, attempt, storable), task, token, epoch,
            FailedState(q, task, run, storable), Some(false));
        }
    }
  }

  lemma RepairInv(q: State, task: TaskId, storable: bool)
    requires QueueInv(q)
    ensures QueueInv(Reconcile(q, task, storable))
  {
    hide QueueInv, WithDeadLetter, FailedState, DeadLetterStored, Verdict;
    if task in q.tasks && q.tasks[task].run in q.publication.runs {
      var t, q' := q.tasks[task], Reconcile(q, task, storable);
      if t.execution.FailurePendingDlq? {
        RepairLetter(q, task, storable);
      } else if !ExecutionClosed(t.execution) && Verdict(q.publication.runs[t.run], t, Now(q)).Some? {
        VerdictFits(q, task);
        ClosesInv(q, q', task);
      }
    }
  }

  lemma VerdictFits(q: State, task: TaskId)
    requires task in q.tasks && q.tasks[task].run in q.publication.runs
    requires Verdict(q.publication.runs[q.tasks[task].run], q.tasks[task], Now(q)).Some?
    ensures var v := Verdict(q.publication.runs[q.tasks[task].run], q.tasks[task], Now(q)).value;
      && ExecutionClosed(v.0) && !v.0.DeadLettered?
      && (v.1 == Some(true) ==> v.0.Succeeded? && DurablySuccessful(q, q.tasks[task].run))
  {
  }

  lemma RepairLetter(q: State, task: TaskId, storable: bool)
    requires QueueInv(q) && task in q.tasks && q.tasks[task].execution.FailurePendingDlq?
    ensures QueueInv(Reconcile(q, task, storable))
  {
    hide P.Inv, Times, SuccessObserved, WithDeadLetter;
    var t, attempt := q.tasks[task], if q.tasks[task].attempts < 1 then 1 else q.tasks[task].attempts;
    assert TaskOk(q, task);
    LetterKept(q, task, t.run, attempt, storable);
    LetterInv(q, task, t.run, attempt, storable);
    var q1, q' := WithDeadLetter(q, task, t.run, attempt, storable), Reconcile(q, task, storable);
    if DeadLetterStored(q, task, t.run, storable) {
      assert TaskOk(q1, task);
      OneTaskInv(q1, q', task);
    }
  }

  // ----- relay steps -----

  /** Relay steps move dispatch states, and a task from accepted to queued; nothing else of a task. */
  ghost predicate RelayMove(q: State, q': State) {
    && q'.publication == q.publication && q'.deadLetters == q.deadLetters && q'.starts == q.starts
    && q'.tasks.Keys == q.tasks.Keys
    && (forall k :: k in q.tasks ==>
          var t, t' := q.tasks[k], q'.tasks[k];
          && t' == t.(dispatch := t'.dispatch, execution := t'.execution)
          && (t'.execution == t.execution || (t.execution.Accepted? && t'.execution.Queued?)))
  }

  lemma SweepMove(q: State, limit: nat)
    ensures RelayMove(q, Sweep(q, limit))
  {
    hide Swept;
  }

  lemma ClaimRowMove(q: State, task: TaskId, token: Token, seconds: nat, limit: nat)
    ensures RelayMove(q, RelayClaim(q, task, token, seconds, limit))
  {
    hide Sweep, Dispatchable;
    SweepMove(q, limit);
  }

  lemma GiveUpMove(q: State, token: Token, seconds: nat, limit: nat)
    ensures RelayMove(q, RelayFailed(q, token, seconds, limit))
  {
  }

  lemma DoneMove(q: State, token: Token)
    ensures RelayMove(q, RelayDone(q, token))
  {
  }

  predicate RelayStep(step: Step) { step.ClaimRow? || step.Hand? || step.Acknowledge? || step.GiveUp? || step.LoseRelay? }

  lemma RelaySteps(q: State, step: Step)
    requires RelayStep(step)
    ensures RelayMove(q, Apply(q, step))
  {
    hide P.Apply, RelayClaim, RelayDone, RelayFailed;
    match step
    case ClaimRow(task, token, seconds, limit) => ClaimRowMove(q, task, token, seconds, limit);
    case GiveUp(token, seconds, limit) => GiveUpMove(q, token, seconds, limit);
    case Acknowledge(token) => DoneMove(q, token);
    case Hand(token) =>
    case LoseRelay(token) =>
  }

  lemma RelayInv(q: State, q': State)
    requires QueueInv(q) && RelayMove(q, q')
    ensures QueueInv(q')
  {
    hide P.Inv, Times, SuccessObserved, P.Success;
    forall k | k in q'.tasks ensures TaskOk(q', k) { assert TaskOk(q, k); }
  }

  // ----- every run -----

  lemma StepInv(q: State, step: Step)
    requires QueueInv(q)
    ensures QueueInv(Apply(q, step))
  {
    hide QueueInv, Accept, Claim, StartPrefect, Heartbeat, ScheduleRetry, FailPreflight, FinishWork, Reconcile,
      RelayMove, RelayClaim, HandOff, RelayDone, RelayFailed, P.Apply;
    match step
    case Publish(s) => PublishInv(q, s);
    case AcceptTask(task, run, week) => AcceptInv(q, task, run, week);
    case ClaimTask(task, token, seconds) => ClaimInv(q, task, token, seconds);
    case Start(task, token, epoch, seconds) => StartInv(q, task, token, epoch, seconds);
    case Beat(task, token, epoch, seconds) => HeartbeatInv(q, task, token, epoch, seconds);
    case Retry(task, token, epoch, at) => RetryInv(q, task, token, epoch, at);
    case Fail(task, token, epoch, attempt, storable) => FailInv(q, task, token, epoch, attempt, storable);
    case Complete(task, token, epoch, attempt, result, storable) =>
      CompleteInv(q, task, token, epoch, attempt, result, storable);
    case Repair(task, storable) => RepairInv(q, task, storable);
    case _ =>
      RelaySteps(q, step);
      RelayInv(q, Apply(q, step));
  }

  lemma PlayNext(q: State, steps: seq<Step>, step: Step)
    ensures Play(q, steps + [step]) == Apply(Play(q, steps), step)
  {
    assert (steps + [step])[..|steps|] == steps;
  }

  lemma {:induction false} PlayQueueInv(q: State, steps: seq<Step>)
    requires QueueInv(q)
    ensures QueueInv(Play(q, steps))
  {
    hide QueueInv, Apply;
    if steps != [] {
      PlayQueueInv(q, steps[..|steps| - 1]);
      StepInv(Play(q, steps[..|steps| - 1]), steps[|steps| - 1]);
    }
  }

  /** At most one `start_prefect` ever succeeds for a task, and the attempt counter is the epoch, at most three. */
  lemma StartsAtMostOnce(q: State, steps: seq<Step>, task: TaskId)
    requires Initial(q)
    ensures var q' := Play(q, steps);
      && Times(q'.starts, task) <= 1
      && (task in q'.tasks ==>
            q'.tasks[task].attempts == q'.tasks[task].epoch && q'.tasks[task].attempts <= MAX_FAILED_EXECUTIONS)
  {
    InitialQueue(q);
    PlayQueueInv(q, steps);
    hide Play, Times, P.Inv, SuccessObserved;
    if task in Play(q, steps).tasks { assert TaskOk(Play(q, steps), task); }
  }

  /** A task that says published belongs to a run that is durably successful, and whose business
      transaction committed. */
  lemma PublishedMeansCommitted(q: State, steps: seq<Step>, task: TaskId)
    requires Initial(q) && task in Play(q, steps).tasks && Play(q, steps).tasks[task].published == Some(true)
    ensures var q' := Play(q, steps);
      DurablySuccessful(q', q'.tasks[task].run) && P.HasCommit(q'.publication, q'.tasks[task].run)
  {
    InitialQueue(q);
    PlayQueueInv(q, steps);
    hide Play, Times, P.SessionsOk, P.Exclusive, P.WeekPublished, P.Tokens, P.CommitsOk, SuccessObserved;
    assert TaskOk(Play(q, steps), task);
  }

  /** A dead-lettered task has a dead letter for its own run. */
  lemma DeadLetteredHasLetter(q: State, steps: seq<Step>, task: TaskId)
    requires Initial(q) && task in Play(q, steps).tasks && Play(q, steps).tasks[task].execution.DeadLettered?
    ensures var q' := Play(q, steps);
      task in q'.deadLetters && q'.deadLetters[task].run == q'.tasks[task].run
  {
    InitialQueue(q);
    PlayQueueInv(q, steps);
    hide Play, Times, P.Inv, SuccessObserved;
    assert TaskOk(Play(q, steps), task);
  }

  ghost predicate StaysClosed(t: Task, t': Task) {
    && t'.published == t.published && t'.run == t.run && t'.attempts == t.attempts
    && (ExecutionClosed(t.execution) ==> t'.execution == t.execution)
    && (t.execution.FailurePendingDlq? ==> t'.execution.FailurePendingDlq? || t'.execution.DeadLettered?)
  }

  lemma RepairClosed(q: State, task: TaskId, other: TaskId, storable: bool)
    requires task in q.tasks
    requires ExecutionClosed(q.tasks[task].execution) || q.tasks[task].execution.FailurePendingDlq?
    ensures task in Reconcile(q, other, storable).tasks
    ensures StaysClosed(q.tasks[task], Reconcile(q, other, storable).tasks[task])
  {
    hide Verdict;
  }

  predicate NotWorking(t: Task) { ExecutionClosed(t.execution) || t.execution.FailurePendingDlq? }

  lemma FailClosed(q: State, task: TaskId, other: TaskId, token: Token, epoch: nat, attempt: nat, storable: bool)
    requires task in q.tasks && NotWorking(q.tasks[task])
    ensures var q' := FailPreflight(q, other, token, epoch, attempt, storable); task in q'.tasks && q'.tasks[task] == q.tasks[task]
  {
    hide FailedState, DeadLetterStored;
  }

  lemma CompleteClosed(q: State, task: TaskId, other: TaskId, token: Token, epoch: nat, attempt: nat, o: Outcome, storable: bool)
    requires task in q.tasks && NotWorking(q.tasks[task])
    ensures var q' := FinishWork(q, other, token, epoch, attempt, o, storable);
      task in q'.tasks && q'.tasks[task] == q.tasks[task]
  {
    hide FailedState, CameBack, WithDeadLetter;
    if other in q.tasks { LetterKept(q, other, q.tasks[other].run, attempt, storable); }
  }

  lemma WorkClosed(q: State, step: Step, task: TaskId)
    requires step.Fail? || step.Complete?
    requires task in q.tasks && NotWorking(q.tasks[task])
    ensures task in Apply(q, step).tasks && StaysClosed(q.tasks[task], Apply(q, step).tasks[task])
  {
    hide FailPreflight, FinishWork;
    if step.Fail? {
      FailClosed(q, task, step.task, step.token, step.epoch, step.attempt, step.storable);
    } else {
      CompleteClosed(q, task, step.task, step.token, step.epoch, step.attempt, step.result, step.storable);
    }
  }

  lemma OtherClosed(q: State, step: Step, task: TaskId)
    requires !RelayStep(step) && !step.Fail? && !step.Complete? && !step.Repair?
    requires task in q.tasks
    requires ExecutionClosed(q.tasks[task].execution) || q.tasks[task].execution.FailurePendingDlq?
    ensures task in Apply(q, step).tasks && StaysClosed(q.tasks[task], Apply(q, step).tasks[task])
  {
    hide P.Apply;
  }

  /** Closed states are absorbing; a task waiting for its dead letter can only get it. */
  lemma ClosedStays(q: State, step: Step, task: TaskId)
    requires task in q.tasks
    requires ExecutionClosed(q.tasks[task].execution) || q.tasks[task].execution.FailurePendingDlq?
    ensures task in Apply(q, step).tasks && StaysClosed(q.tasks[task], Apply(q, step).tasks[task])
  {
    if RelayStep(step) {
      RelaySteps(q, step);
      hide Apply;
    } else if step.Repair? {
      RepairClosed(q, task, step.task, step.storable);
      hide Reconcile;
    } else if step.Fail? || step.Complete? {
      WorkClosed(q, step, task);
      hide Apply;
    } else {
      OtherClosed(q, step, task);
      hide Apply;
    }
  }

  /** A repair touches its own task and its letter only. */
  lemma RepairFrame(q: State, k: TaskId, storable: bool)
    ensures var q' := Reconcile(q, k, storable);
      && q'.publication == q.publication && q'.starts == q.starts && q'.tasks.Keys == q.tasks.Keys
      && (k in q.tasks ==> q'.tasks[k].attempts == q.tasks[k].attempts && q'.tasks[k].run == q.tasks[k].run)
      && (forall j :: j in q.tasks && j != k ==> q'.tasks[j] == q.tasks[j])
  {
    hide Verdict, DeadLetterStored;
  }

  /** One repair closes every task that `reconcile_one` selects, once its dead letter can be stored. */
  lemma RepairCloses(q: State, task: TaskId, storable: bool)
    requires QueueInv(q) && NeedsRepair(q, task)
    requires q.tasks[task].execution.FailurePendingDlq? ==> DeadLetterStored(q, task, q.tasks[task].run, storable)
    ensures var q' := Apply(q, Repair(task, storable));
      task in q'.tasks && ExecutionClosed(q'.tasks[task].execution) && !NeedsRepair(q', task)
  {
    hide P.Inv, Times;
    assert TaskOk(q, task);
  }
}
