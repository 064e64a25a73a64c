/** How tasks leave, or never leave, the states that failed workers put them in. */
module TaskExits {
  import opened Basics
  import opened TaskQueue
  import opened TaskQueueSafety
  import P = PublicationProtocol
  import S = PublicationSafety

  // ----- the third claim -----

  /** Out of attempts and without a live claim or execution. */
  predicate Stuck(q: State, task: TaskId) {
    && task in q.tasks && q.tasks[task].attempts == MAX_FAILED_EXECUTIONS && !q.tasks[task].execution.Running?
    && (q.tasks[task].execution.Claimed? ==> Expired(q.tasks[task], Now(q)))
  }

  /** The steps that take a task out of `claimed`: a repair that the run's history decides, or the claim's own holder. */
  predicate Leaves(q: State, step: Step, task: TaskId)
    requires task in q.tasks
  {
    var t := q.tasks[task];
    match step
    case Repair(k, _) => k == task && t.run in q.publication.runs && Verdict(q.publication.runs[t.run], t, Now(q)).Some?
    case Retry(k, token, epoch, _) => k == task && HoldsClaim(t, token, epoch)
    case Fail(k, token, epoch, _, _) => k == task && HoldsClaim(t, token, epoch)
    case _ => false
  }

  /** Each step keeps a stuck task stuck and starts nothing for it; from `claimed` it leaves exactly by an exit. */
  lemma StuckStep(q: State, step: Step, task: TaskId)
    requires Stuck(q, task)
    ensures Stuck(Apply(q, step), task) && Times(Apply(q, step).starts, task) == Times(q.starts, task)
    ensures Apply(q, step).tasks[task].execution.Claimed? <==> q.tasks[task].execution.Claimed? && !Leaves(q, step, task)
  {
    hide Apply, Leaves, Stuck, Times;
    if RelayStep(step) {
      StuckRelay(q, step, task);
    } else if step.Fail? || step.Complete? {
      StuckWork(q, step, task);
    } else if step.Repair? {
      StuckRepair(q, task, step.task, step.storable);
    } else {
      StuckOther(q, step, task);
    }
  }

  lemma StuckRepair(q: State, task: TaskId, k: TaskId, storable: bool)
    requires Stuck(q, task)
    ensures Stuck(Apply(q, Repair(k, storable)), task) && Apply(q, Repair(k, storable)).starts == q.starts
    ensures Apply(q, Repair(k, storable)).tasks[task].execution.Claimed? <==>
      q.tasks[task].execution.Claimed? && !Leaves(q, Repair(k, storable), task)
  {
    hide Verdict, Reconcile;
    RepairFrame(q, k, storable);
    if k == task { StuckRepaired(q, task, storable); }
  }

  lemma StuckRepaired(q: State, task: TaskId, storable: bool)
    requires Stuck(q, task)
    ensures var q' := Reconcile(q, task, storable);
      task in q'.tasks && (if Leaves(q, Repair(task, storable), task) && q.tasks[task].execution.Claimed?
        then ExecutionClosed(q'.tasks[task].execution)
        else (q'.tasks[task] == q.tasks[task]
          || (ExecutionClosed(q'.tasks[task].execution) && !q.tasks[task].execution.Claimed?)))
  {
    hide Verdict, DeadLetterStored;
    if q.tasks[task].run in q.publication.runs && Verdict(q.publication.runs[q.tasks[task].run], q.tasks[task], Now(q)).Some? {
      VerdictFits(q, task);
    }
  }

  lemma StuckRelay(q: State, step: Step, task: TaskId)
    requires Stuck(q, task) && RelayStep(step)
    ensures Stuck(Apply(q, step), task) && Apply(q, step).starts == q.starts && !Leaves(q, step, task)
    ensures Apply(q, step).tasks[task].execution.Claimed? <==> q.tasks[task].execution.Claimed?
  {
    hide Apply;
    RelaySteps(q, step);
  }

  lemma StuckWork(q: State, step: Step, task: TaskId)
    requires Stuck(q, task) && (step.Fail? || step.Complete?)
    ensures Stuck(Apply(q, step), task) && Apply(q, step).starts == q.starts
    ensures Apply(q, step).tasks[task].execution.Claimed? <==> q.tasks[task].execution.Claimed? && !Leaves(q, step, task)
  {
    hide FailPreflight, FinishWork;
    if step.Fail? {
      StuckFail(q, task, step.task, step.token, step.epoch, step.attempt, step.storable);
    } else {
      StuckComplete(q, task, step.task, step.token, step.epoch, step.attempt, step.result, step.storable);
    }
  }

  lemma StuckFail(q: State, task: TaskId, k: TaskId, token: Token, epoch: nat, attempt: nat, storable: bool)
    requires Stuck(q, task)
    ensures var q' := FailPreflight(q, k, token, epoch, attempt, storable);
      && Stuck(q', task) && q'.starts == q.starts
      && (q'.tasks[task].execution.Claimed? <==>
            q.tasks[task].execution.Claimed? && !(k == task && HoldsClaim(q.tasks[task], token, epoch)))
  {
    hide WithDeadLetter, FailedState;
    if k in q.tasks { LetterKept(q, k, q.tasks[k].run, attempt, storable); }
    FailedIsClosed(q, k, if k in q.tasks then q.tasks[k].run else "", storable);
  }

  lemma FailedIsClosed(q: State, task: TaskId, run: P.RunId, storable: bool)
    ensures var e := FailedState(q, task, run, storable); e.DeadLettered? || e.FailurePendingDlq?
  {
    hide DeadLetterStored;
  }

  lemma StuckComplete(q: State, task: TaskId, k: TaskId, token: Token, epoch: nat, attempt: nat, o: Outcome, storable: bool)
    requires Stuck(q, task)
    ensures var q' := FinishWork(q, k, token, epoch, attempt, o, storable);
      && Stuck(q', task) && q'.starts == q.starts && q'.tasks[task] == q.tasks[task]
  {
    hide WithDeadLetter, FailedState, CameBack;
    if k in q.tasks { LetterKept(q, k, q.tasks[k].run, attempt, storable); }
  }

  lemma StuckOther(q: State, step: Step, task: TaskId)
    requires Stuck(q, task) && !RelayStep(step) && !step.Fail? && !step.Complete? && !step.Repair?
    ensures Stuck(Apply(q, step), task) && Times(Apply(q, step).starts, task) == Times(q.starts, task)
    ensures Apply(q, step).tasks[task].execution.Claimed? <==> q.tasks[task].execution.Claimed? && !Leaves(q, step, task)
  {
    hide P.Apply, Times;
    if step.Publish? { S.ClockForward(q.publication, step.step); }
    if step.AcceptTask? { S.ClockForward(q.publication, P.CreateRun(step.run, step.week)); }
    if step.Start? { TimesNext(q.starts, step.task, task); }
  }

  /** A third claim that expired never starts Prefect, over any run; and it stays claimed if and only if the run
      takes none of the exits. */
  lemma {:induction false} ThirdClaimIsStuck(q: State, steps: seq<Step>, task: TaskId)
    requires Stuck(q, task)
    ensures var q' := Play(q, steps);
      && Stuck(q', task) && Times(q'.starts, task) == Times(q.starts, task)
      && (q'.tasks[task].execution.Claimed? <==> q.tasks[task].execution.Claimed? && NeverLeaves(q, steps, task))
  {
    hide Stuck, Apply, Times, Leaves;
    if steps == [] {
      assert NeverLeaves(q, steps, task);
    } else {
      var before, last := steps[..|steps| - 1], steps[|steps| - 1];
      ThirdClaimIsStuck(q, before, task);
      StuckExists(Play(q, before), task);
      StuckStep(Play(q, before), last, task);
      NeverLeavesNext(q, before, last, task);
      assert steps == before + [last];
    }
  }

  lemma StuckExists(q: State, task: TaskId)
    requires Stuck(q, task)
    ensures task in q.tasks
  {
  }

  predicate LeavesAt(q: State, steps: seq<Step>, n: nat, task: TaskId)
    requires n < |steps|
  {
    task in Play(q, steps[..n]).tasks && Leaves(Play(q, steps[..n]), steps[n], task)
  }

  /** No step of the run is an exit where it is taken. */
  predicate NeverLeaves(q: State, steps: seq<Step>, task: TaskId) {
    forall n :: 0 <= n < |steps| ==> !LeavesAt(q, steps, n, task)
  }

  lemma NeverLeavesNext(q: State, steps: seq<Step>, step: Step, task: TaskId)
    requires task in Play(q, steps).tasks
    ensures NeverLeaves(q, steps + [step], task) <==> NeverLeaves(q, steps, task) && !Leaves(Play(q, steps), step, task)
  {
    hide Play, Leaves;
    var all := steps + [step];
    assert all[..|steps|] == steps;
    forall n | 0 <= n < |steps| ensures LeavesAt(q, all, n, task) <==> LeavesAt(q, steps, n, task) {
      assert all[..n] == steps[..n];
    }
    assert LeavesAt(q, all, |steps|, task) <==> Leaves(Play(q, steps), step, task);
  }

  // ----- runs that get there -----

  /** The task can be claimed at once: it is new, or its preflight claim expired. */
  predicate Open(q: State, task: TaskId, attempts: nat) {
    && task in q.tasks && q.tasks[task].attempts == attempts && task !in q.deadLetters
    && (q.tasks[task].execution.Accepted?
        || (q.tasks[task].execution.Claimed? && q.tasks[task].phase.Preflight? && Expired(q.tasks[task], Now(q))))
  }

  lemma NewTask(q: State)
    requires Initial(q)
    ensures Open(Play(q, [AcceptTask(1, "r", 4)]), 1, 0)
  {
    PlayNext(q, [], AcceptTask(1, "r", 4));
    assert [] + [AcceptTask(1, "r", 4)] == [AcceptTask(1, "r", 4)];
    hide P.Apply;
  }

  /** One claim that its worker abandons. */
  lemma Abandon(q: State, steps: seq<Step>, task: TaskId, attempts: nat, token: Token)
    requires Open(Play(q, steps), task, attempts) && attempts < MAX_FAILED_EXECUTIONS
    ensures var claimed := Play(q, steps + [ClaimTask(task, token, 1)]);
      && task in claimed.tasks && task !in claimed.deadLetters && claimed.tasks[task].execution.Claimed?
      && claimed.tasks[task].phase.Preflight? && claimed.tasks[task].token == Some(token)
      && claimed.tasks[task].attempts == attempts + 1 && claimed.tasks[task].epoch == Play(q, steps).tasks[task].epoch + 1
    ensures var after := Play(q, steps + [ClaimTask(task, token, 1), Publish(P.Tick(1_000_000))]);
      Open(after, task, attempts + 1) && after.tasks[task].execution.Claimed? && after.tasks[task].phase.Preflight?
      && after.tasks[task].epoch == Play(q, steps).tasks[task].epoch + 1
  {
    PlayNext(q, steps, ClaimTask(task, token, 1));
    PlayNext(q, steps + [ClaimTask(task, token, 1)], Publish(P.Tick(1_000_000)));
    assert steps + [ClaimTask(task, token, 1)] + [Publish(P.Tick(1_000_000))]
      == steps + [ClaimTask(task, token, 1), Publish(P.Tick(1_000_000))];
    hide Play;
  }

  /** Three abandoned claims lead there. */
  lemma ThirdClaimIsReached(q: State)
    requires Initial(q)
    ensures exists steps :: Stuck(Play(q, steps), 1) && Play(q, steps).tasks[1].execution.Claimed?
  {
    hide Play, Initial;
    var tick := Publish(P.Tick(1_000_000));
    var a := [AcceptTask(1, "r", 4)];
    NewTask(q);
    Abandon(q, a, 1, 0, 10);
    var b := a + [ClaimTask(1, 10, 1), tick];
    Abandon(q, b, 1, 1, 20);
    var c := b + [ClaimTask(1, 20, 1), tick];
    Abandon(q, c, 1, 2, 30);
    var d := c + [ClaimTask(1, 30, 1), tick];
    assert Stuck(Play(q, d), 1);
  }

  // ----- dead letters without a dead task -----

  /** The letter and the state of a task after a failed worker wrote them; `held` says whether it was not fenced. */
  predicate LetterExact(q: State, q': State, task: TaskId, held: bool, storable: bool)
    requires task in q.tasks
  {
    var t := q.tasks[task];
    && task in q'.tasks && (task in q'.deadLetters <==> task in q.deadLetters || storable)
    && (task !in q.deadLetters && storable ==> q'.deadLetters[task].run == t.run)
    && (q'.tasks[task].execution.DeadLettered? <==>
          t.execution.DeadLettered? || (held && DeadLetterStored(q, task, t.run, storable)))
    && (!held ==> q'.tasks[task] == t)
  }

  /** After a preflight failure: the letter is written whether or not the worker still holds its claim, the state of
      the task changes only if it does. */
  lemma LetterAfterFail(q: State, task: TaskId, token: Token, epoch: nat, attempt: nat, storable: bool)
    requires task in q.tasks
    ensures LetterExact(q, Apply(q, Fail(task, token, epoch, attempt, storable)), task,
      HoldsClaim(q.tasks[task], token, epoch), storable)
  {
  }

  /** The same after a flow that failed: a fenced worker leaves its letter too. */
  lemma LetterAfterComplete(q: State, task: TaskId, token: Token, epoch: nat, attempt: nat, status: P.RunStatus, storable: bool)
    requires task in q.tasks && !status.BlockedQuality? && !P.Success(status)
    ensures LetterExact(q, Apply(q, Complete(task, token, epoch, attempt, Reported(status), storable)), task,
      HoldsExecution(q.tasks[task], token, epoch), storable)
  {
  }

  ghost predicate DeadIffHeld(q: State, q': State, task: TaskId, held: bool)
    requires task in q.tasks
  {
    && task in q'.tasks && task in q'.deadLetters && q'.deadLetters[task].run == q.tasks[task].run
    && (q'.tasks[task].execution.DeadLettered? <==> held)
  }

  /** The first letter of a task, after either kind of failure: it exists, and the task is dead if and only if the
      worker was not fenced. */
  lemma LetterOfALiveTask(q: State, task: TaskId, token: Token, epoch: nat, attempt: nat, status: P.RunStatus)
    requires QueueInv(q) && task in q.tasks && task !in q.deadLetters
    requires !status.BlockedQuality? && !P.Success(status)
    ensures DeadIffHeld(q, Apply(q, Fail(task, token, epoch, attempt, true)), task, HoldsClaim(q.tasks[task], token, epoch))
    ensures DeadIffHeld(q, Apply(q, Complete(task, token, epoch, attempt, Reported(status), true)), task,
      HoldsExecution(q.tasks[task], token, epoch))
  {
    hide P.Inv, Times, Apply;
    LetterAfterFail(q, task, token, epoch, attempt, true);
    LetterAfterComplete(q, task, token, epoch, attempt, status, true);
    assert TaskOk(q, task);
  }

  /** A run from the start that ends so: the first worker's claim expires, a second worker claims the task, and the
      first one then fails its preflight. */
  lemma LetterOfALiveTaskIsReached(q: State)
    requires Initial(q)
    ensures exists steps :: LiveWithLetter(Play(q, steps), 1)
  {
    hide Play, Initial;
    var a := [AcceptTask(1, "r", 4)];
    NewTask(q);
    Abandon(q, a, 1, 0, 10);
    var b := a + [ClaimTask(1, 10, 1), Publish(P.Tick(1_000_000))];
    Abandon(q, b, 1, 1, 20);
    var c := b + [ClaimTask(1, 20, 1)];
    PlayNext(q, c, Fail(1, 10, 1, 1, true));
    assert LiveWithLetter(Play(q, c + [Fail(1, 10, 1, 1, true)]), 1);
  }

  predicate LiveWithLetter(q: State, task: TaskId) {
    task in q.tasks && task in q.deadLetters && q.tasks[task].execution.Claimed? && q.tasks[task].token == Some(20)
  }
}
