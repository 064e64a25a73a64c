/** The durable task queue over the publication database: tasks, dispatch outbox, dead letters, and their steps. */
module TaskQueue {
  import opened Basics
  import opened Vocabulary
  import P = PublicationProtocol

  /** Identities drawn by `uuid4()`. */
  type TaskId = nat
  type Token = nat

  const MAX_FAILED_EXECUTIONS := 3

  datatype Execution =
    | Accepted | Queued | Claimed | Running | RetryWait | Succeeded | Failed | DeadLettered | FailurePendingDlq
    | ReconciliationRequired

  datatype Phase = Idle | Preflight | PrefectStarted | Closed

  datatype Dispatch = Pending | Publishing | DispatchRetry | Published | PublicationUncertain | DispatchReconciliation

  datatype Task = Task(
    run: P.RunId, week: int, execution: Execution, phase: Phase, attempts: nat, epoch: nat, token: Option<Token>,
    expiresAt: Option<int>, nextAttemptAt: int, published: Option<bool>, dispatch: Dispatch)

  datatype DeadLetter = DeadLetter(run: P.RunId, attempt: nat)

  datatype OutboxRow = OutboxRow(
    status: Dispatch, attempts: nat, nextAttemptAt: int, token: Option<Token>, expiresAt: Option<int>)

  /** What a relay process remembers of its claim. */
  datatype Relay = Relay(task: TaskId, attempts: nat, handed: bool)

  /** `starts` and `handoffs` record every successful `start_prefect` and every call of the publisher. */
  datatype State = State(
    publication: P.State, tasks: map<TaskId, Task>, outbox: map<TaskId, OutboxRow>, deadLetters: map<TaskId, DeadLetter>,
    relays: map<Token, Relay>, usedTokens: set<Token>, starts: seq<TaskId>, handoffs: seq<TaskId>)

  predicate Initial(q: State) {
    P.Initial(q.publication)
    && q == State(q.publication, map[], map[], map[], map[], {}, [], [])
  }

  function Now(q: State): int { q.publication.clock }

  // ----- acceptance -----

  predicate Active(r: P.Run, week: int) { r.week == week && (r.status.Pending? || r.status.Running?) }

  /** `accept_async_task`: run, task and outbox row in one transaction, unless the week has an active run. */
  function Accept(q: State, task: TaskId, run: P.RunId, week: int): State {
    if (exists r :: r in q.publication.runs && Active(q.publication.runs[r], week))
       || run in q.publication.runs || task in q.tasks || !IsMonday(week)
    then q
    else q.(publication := P.Apply(q.publication, P.CreateRun(run, week)),
            tasks := q.tasks[task := Task(run, week, Accepted, Idle, 0, 0, None, None, Now(q), None, Pending)],
            outbox := q.outbox[task := OutboxRow(Pending, 0, Now(q), None, None)])
  }

  // ----- claims -----

  predicate Claimable(t: Task, now: int) {
    && t.attempts < MAX_FAILED_EXECUTIONS
    && (t.execution.Accepted? || t.execution.Queued?
        || (t.execution.RetryWait? && t.nextAttemptAt <= now)
        || (t.execution.Claimed? && t.phase.Preflight? && t.expiresAt.Some? && t.expiresAt.value <= now))
  }

  function Claim(q: State, task: TaskId, token: Token, seconds: nat): State {
    if task !in q.tasks || seconds < 1 || !Claimable(q.tasks[task], Now(q)) then q
    else
      var t := q.tasks[task];
      q.(tasks := q.tasks[task := t.(execution := Claimed, phase := Preflight, attempts := t.attempts + 1,
        epoch := t.epoch + 1, token := Some(token), expiresAt := Some(Now(q) + seconds * 1_000_000))])
  }

  /** The compare-and-set predicate of a preflight claim. */
  predicate HoldsClaim(t: Task, token: Token, epoch: nat) {
    t.execution.Claimed? && t.phase.Preflight? && t.token == Some(token) && t.epoch == epoch
  }

  predicate HoldsExecution(t: Task, token: Token, epoch: nat) {
    t.execution.Running? && t.phase.PrefectStarted? && t.token == Some(token) && t.epoch == epoch
  }

  predicate MayStart(q: State, task: TaskId, token: Token, epoch: nat) {
    task in q.tasks && HoldsClaim(q.tasks[task], token, epoch)
    && q.tasks[task].expiresAt.Some? && q.tasks[task].expiresAt.value > Now(q)
  }

  function StartPrefect(q: State, task: TaskId, token: Token, epoch: nat, seconds: nat): State {
    if !MayStart(q, task, token, epoch) then q
    else q.(starts := q.starts + [task],
            tasks := q.tasks[task := q.tasks[task].(execution := Running, phase := PrefectStarted,
              expiresAt := Some(Now(q) + seconds * 1_000_000))])
  }

  function Heartbeat(q: State, task: TaskId, token: Token, epoch: nat, seconds: nat): State {
    if task !in q.tasks || !HoldsExecution(q.tasks[task], token, epoch) then q
    else q.(tasks := q.tasks[task := q.tasks[task].(expiresAt := Some(Now(q) + seconds * 1_000_000))])
  }

  function ScheduleRetry(q: State, task: TaskId, token: Token, epoch: nat, at: int): State {
    if task !in q.tasks || !HoldsClaim(q.tasks[task], token, epoch) then q
    else q.(tasks := q.tasks[task := q.tasks[task].(execution := RetryWait, phase := Idle, nextAttemptAt := at,
      token := None, expiresAt := None)])
  }

  // ----- dead letters -----

  /** `_try_dead_letter`: the upsert in a savepoint, which may also fail. */
  predicate DeadLetterStored(q: State, task: TaskId, run: P.RunId, storable: bool) {
    storable && (task in q.deadLetters ==> q.deadLetters[task].run == run)
  }

  function WithDeadLetter(q: State, task: TaskId, run: P.RunId, attempt: nat, storable: bool): State {
    if !DeadLetterStored(q, task, run, storable) || task in q.deadLetters then q
    else q.(deadLetters := q.deadLetters[task := DeadLetter(run, attempt)])
  }

  function FailedState(q: State, task: TaskId, run: P.RunId, storable: bool): Execution {
    if DeadLetterStored(q, task, run, storable) then DeadLettered else FailurePendingDlq
  }

  /** The worker's preflight failure: the dead letter first, then the fenced `fail_claim`, whose result is ignored. */
  function FailPreflight(q: State, task: TaskId, token: Token, epoch: nat, attempt: nat, storable: bool): State {
    if task !in q.tasks then q else
    var t := q.tasks[task];
    var q1 := WithDeadLetter(q, task, t.run, attempt, storable);
    if !HoldsClaim(t, token, epoch) then q1
    else q1.(tasks := q1.tasks[task := t.(execution := FailedState(q, task, t.run, storable), phase := Closed,
      published := Some(false), expiresAt := None)])
  }

  // ----- results -----

  /** What `run_weekly_pipeline` came back with. `Recorded` is a recorded publication; its holder got it from the
      coordinator `session`. */
  datatype Outcome = Raised | Reported(status: P.RunStatus) | ReportedUncertain | Recorded(session: nat)

  function Finish(q: State, task: TaskId, token: Token, epoch: nat, execution: Execution, published: Option<bool>): State {
    if task !in q.tasks || !HoldsExecution(q.tasks[task], token, epoch) then q
    else q.(tasks := q.tasks[task := q.tasks[task].(execution := execution, phase := Closed, published := published,
      expiresAt := None)])
  }

  /** The coordinator `session` returned a publication of this run; nothing is said of the run's history. */
  predicate CameBack(q: State, session: nat, run: P.RunId) {
    && session in q.publication.sessions && q.publication.sessions[session].Returned?
    && q.publication.sessions[session].run == run
  }

  /** The worker's last transaction. A result that no coordinator returned for the run cannot be held. */
  function FinishWork(q: State, task: TaskId, token: Token, epoch: nat, attempt: nat, o: Outcome, storable: bool): State {
    if task !in q.tasks then q else
    match o
    case Recorded(session) =>
      if CameBack(q, session, q.tasks[task].run) then Finish(q, task, token, epoch, Succeeded, Some(true)) else q
    case Raised => Finish(q, task, token, epoch, ReconciliationRequired, None)
    case ReportedUncertain => Finish(q, task, token, epoch, ReconciliationRequired, None)
    case Reported(status) =>
      if status.BlockedQuality? || P.Success(status) then Finish(q, task, token, epoch, Succeeded, Some(false))
      else
        var t := q.tasks[task];
        Finish(WithDeadLetter(q, task, t.run, attempt, storable), task, token, epoch,
          FailedState(q, task, t.run, storable), Some(false))
  }

  // ----- reconciliation -----

  predicate ExecutionClosed(e: Execution) {
    e.Succeeded? || e.DeadLettered? || e.Failed? || e.ReconciliationRequired?
  }

  predicate Expired(t: Task, now: int) { t.expiresAt.Some? && t.expiresAt.value <= now }

  predicate Abandoned(t: Task, now: int) { t.execution.Running? && t.phase.PrefectStarted? && Expired(t, now) }

  predicate Refused(status: P.RunStatus) { status.Superseded? || status.SkippedInProgress? || status.FailedRetryable? }

  /** What the run's history decides about an open task: its state, `published`, and the claim token it keeps. */
  function Verdict(r: P.Run, t: Task, now: int): Option<(Execution, Option<bool>, Option<Token>)> {
    if r.commit.CommitUncertain? then Some((ReconciliationRequired, None, None))
    else if P.Success(r.status) && r.commit.Observed? then Some((Succeeded, Some(true), None))
    else if r.status.BlockedQuality? then Some((Succeeded, Some(false), None))
    else if Refused(r.status) then Some((Failed, Some(false), None))
    else if Abandoned(t, now) then Some((ReconciliationRequired, None, t.token))
    else None
  }

  function Reconcile(q: State, task: TaskId, storable: bool): State {
    if task !in q.tasks || q.tasks[task].run !in q.publication.runs then q else
    var t := q.tasks[task];
    if t.execution.FailurePendingDlq? then
      var q1 := WithDeadLetter(q, task, t.run, if t.attempts < 1 then 1 else t.attempts, storable);
      if !DeadLetterStored(q, task, t.run, storable) then q1
      else q1.(tasks := q1.tasks[task := t.(execution := DeadLettered)])
    else if ExecutionClosed(t.execution) then q
    else
      var v := Verdict(q.publication.runs[t.run], t, Now(q));
      if v.None? then q
      else q.(tasks := q.tasks[task := t.(execution := v.value.0, phase := Closed, published := v.value.1,
        token := v.value.2, expiresAt := None)])
  }

  /** The tasks that `reconcile_one` selects. */
  predicate NeedsRepair(q: State, task: TaskId) {
    task in q.tasks && q.tasks[task].run in q.publication.runs &&
    var t := q.tasks[task];
    var status := q.publication.runs[t.run].status;
    && (t.execution.FailurePendingDlq? || Abandoned(t, Now(q))
        || ((t.execution.Claimed? || t.execution.Running?) && Expired(t, Now(q))
            && (P.Success(status) || status.BlockedQuality? || Refused(status))))
  }

  // ----- the dispatch relay -----

  predicate Waiting(s: Dispatch) { s.Pending? || s.DispatchRetry? || s.PublicationUncertain? }

  /** The two sweeps of `_claim_one` over the outbox. */
  function Swept(r: OutboxRow, now: int, limit: nat): OutboxRow {
    var r1 := if r.status.Publishing? && r.expiresAt.Some? && r.expiresAt.value <= now
      then r.(status := PublicationUncertain) else r;
    if Waiting(r1.status) && r1.attempts >= limit then r1.(status := DispatchReconciliation) else r1
  }

  function Sweep(q: State, limit: nat): State {
    var outbox := map k | k in q.outbox :: Swept(q.outbox[k], Now(q), limit);
    q.(outbox := outbox,
       tasks := map k | k in q.tasks ::
         if k in outbox && outbox[k].status.DispatchReconciliation? then q.tasks[k].(dispatch := DispatchReconciliation)
         else q.tasks[k])
  }

  predicate Dispatchable(r: OutboxRow, now: int, limit: nat) {
    && Waiting(r.status) && r.attempts < limit && r.nextAttemptAt <= now
    && (r.expiresAt.None? || r.expiresAt.value <= now)
  }

  /** One `_claim_one` transaction that picks row `task`, or only sweeps if that row cannot be claimed. */
  function RelayClaim(q: State, task: TaskId, token: Token, seconds: nat, limit: nat): State {
    var q1 := Sweep(q, limit);
    if token in q.usedTokens || task !in q1.outbox || !Dispatchable(q1.outbox[task], Now(q), limit) then q1
    else
      var r := q1.outbox[task];
      q1.(outbox := q1.outbox[task := r.(status := Publishing, token := Some(token),
            expiresAt := Some(Now(q) + seconds * 1_000_000), attempts := r.attempts + 1)],
          relays := q1.relays[token := Relay(task, r.attempts + 1, false)], usedTokens := q1.usedTokens + {token})
  }

  /** The call of the publisher: it may deliver, raise or be lost, but it is one hand-off. */
  function HandOff(q: State, token: Token): State {
    if token !in q.relays || q.relays[token].handed then q
    else q.(relays := q.relays[token := q.relays[token].(handed := true)], handoffs := q.handoffs + [q.relays[token].task])
  }

  predicate RelayHolds(q: State, task: TaskId, token: Token) {
    task in q.outbox && q.outbox[task].token == Some(token) && q.outbox[task].status.Publishing?
  }

  /** After the publisher returned: the fenced update, and the task's status only if it took effect. */
  function RelayDone(q: State, token: Token): State {
    if token !in q.relays || !q.relays[token].handed then q else
    var task := q.relays[token].task;
    var q1 := q.(relays := q.relays - {token});
    if !RelayHolds(q, task, token) || task !in q.tasks then q1
    else q1.(outbox := q1.outbox[task := q1.outbox[task].(status := Published, token := None, expiresAt := None)],
             tasks := q1.tasks[task := q1.tasks[task].(dispatch := Published,
               execution := if q1.tasks[task].execution.Accepted? then Queued else q1.tasks[task].execution)])
  }

  /** After the publisher raised: the fenced update of the outbox; at the limit the task's status is set without a fence. */
  function RelayFailed(q: State, token: Token, delay: nat, limit: nat): State {
    if token !in q.relays || !q.relays[token].handed then q else
    var relay := q.relays[token];
    var q1 := q.(relays := q.relays - {token});
    var q2 := if !RelayHolds(q, relay.task, token) then q1
      else q1.(outbox := q1.outbox[relay.task := q1.outbox[relay.task].(
        status := if q1.outbox[relay.task].attempts >= limit then DispatchReconciliation else DispatchRetry,
        nextAttemptAt := Now(q) + delay * 1_000_000, token := None, expiresAt := None)]);
    if relay.attempts < limit || relay.task !in q2.tasks then q2
    else q2.(tasks := q2.tasks[relay.task := q2.tasks[relay.task].(dispatch := DispatchReconciliation)])
  }

  // ----- runs -----

  datatype Step =
    | Publish(step: P.Step)
    | AcceptTask(task: TaskId, run: P.RunId, week: int)
    | ClaimTask(task: TaskId, token: Token, seconds: nat)
    | Start(task: TaskId, token: Token, epoch: nat, seconds: nat)
    | Beat(task: TaskId, token: Token, epoch: nat, seconds: nat)
    | Retry(task: TaskId, token: Token, epoch: nat, at: int)
    | Fail(task: TaskId, token: Token, epoch: nat, attempt: nat, storable: bool)
    | Complete(task: TaskId, token: Token, epoch: nat, attempt: nat, result: Outcome, storable: bool)
    | Repair(task: TaskId, storable: bool)
    | ClaimRow(task: TaskId, token: Token, seconds: nat, limit: nat)
    | Hand(token: Token)
    | Acknowledge(token: Token)
    | GiveUp(token: Token, seconds: nat, limit: nat)
    | LoseRelay(token: Token)

  function Apply(q: State, step: Step): State {
    match step
    case Publish(s) => q.(publication := P.Apply(q.publication, s))
    case AcceptTask(task, run, week) => Accept(q, task, run, week)
    case ClaimTask(task, token, seconds) => Claim(q, task, token, seconds)
    case Start(task, token, epoch, seconds) => StartPrefect(q, task, token, epoch, seconds)
    case Beat(task, token, epoch, seconds) => Heartbeat(q, task, token, epoch, seconds)
    case Retry(task, token, epoch, at) => ScheduleRetry(q, task, token, epoch, at)
    case Fail(task, token, epoch, attempt, storable) => FailPreflight(q, task, token, epoch, attempt, storable)
    case Complete(task, token, epoch, attempt, result, storable) =>
      FinishWork(q, task, token, epoch, attempt, result, storable)
    case Repair(task, storable) => Reconcile(q, task, storable)
    case ClaimRow(task, token, seconds, limit) => RelayClaim(q, task, token, seconds, limit)
    case Hand(token) => HandOff(q, token)
    case Acknowledge(token) => RelayDone(q, token)
    case GiveUp(token, seconds, limit) => RelayFailed(q, token, seconds, limit)
    case LoseRelay(token) => q.(relays := q.relays - {token})
  }

  function Play(q: State, steps: seq<Step>): State {
    if steps == [] then q else Apply(Play(q, steps[..|steps| - 1]), steps[|steps| - 1])
  }
}
