/** What each transaction of the task queue leaves on the columns of its rows, and the way of an undisturbed task. */
module TaskSteps {
  import opened Basics
  import opened Vocabulary
  import opened TaskQueue
  import opened TaskQueueSafety
  import P = PublicationProtocol

  // ----- acceptance -----

  /** A task is accepted exactly for a Monday week without a pending or running run, under new ids; its run, its row
      and its dispatch row appear together. */
  lemma AcceptExact(q: State, task: TaskId, run: P.RunId, week: int)
    ensures var now := q.publication.clock;
      Apply(q, AcceptTask(task, run, week)) ==
        if week % 7 == 4 && run !in q.publication.runs && task !in q.tasks
           && (forall r :: r in q.publication.runs && q.publication.runs[r].week == week ==>
                 q.publication.runs[r].status !in {P.Pending, P.Running})
        then q.(publication := q.publication.(runs := q.publication.runs[run := P.Run(week, P.Pending, P.NotAttempted)]),
                tasks := q.tasks[task := Task(run, week, Accepted, Idle, 0, 0, None, None, now, None, Pending)],
                outbox := q.outbox[task := OutboxRow(Pending, 0, now, None, None)])
        else q
  {
    WeekStartExact(0);
  }

  // ----- claims of workers -----

  /** The task may be claimed: attempts are left, and it is new, queued, due again, or its claim ran out. */
  predicate MayBeClaimed(t: Task, now: int) {
    && t.attempts < 3
    && (t.execution == Accepted || t.execution == Queued || (t.execution == RetryWait && t.nextAttemptAt <= now)
        || (t.execution == Claimed && t.phase == Preflight && t.expiresAt.Some? && t.expiresAt.value <= now))
  }

  /** A claim takes effect exactly then: the task is in preflight under the next epoch and attempt, with the token and
      a lease of the given seconds. */
  lemma ClaimExact(q: State, task: TaskId, token: Token, seconds: nat)
    ensures Apply(q, ClaimTask(task, token, seconds)) ==
      if task in q.tasks && seconds >= 1 && MayBeClaimed(q.tasks[task], q.publication.clock)
      then var t := q.tasks[task];
        q.(tasks := q.tasks[task := Task(t.run, t.week, Claimed, Preflight, t.attempts + 1, t.epoch + 1, Some(token),
          Some(q.publication.clock + seconds * 1_000_000), t.nextAttemptAt, t.published, t.dispatch)])
      else q
  {
  }

  /** The worker's claim is still its own. */
  predicate Preflighting(t: Task, token: Token, epoch: nat) {
    t.execution == Claimed && t.phase == Preflight && t.token == Some(token) && t.epoch == epoch
  }

  /** The worker's execution is still its own. */
  predicate Executing(t: Task, token: Token, epoch: nat) {
    t.execution == Running && t.phase == PrefectStarted && t.token == Some(token) && t.epoch == epoch
  }

  /** Prefect is started exactly by the holder of an unexpired preflight claim. */
  lemma StartExact(q: State, task: TaskId, token: Token, epoch: nat, seconds: nat)
    ensures var now := q.publication.clock;
      Apply(q, Start(task, token, epoch, seconds)) ==
        if task in q.tasks && Preflighting(q.tasks[task], token, epoch)
           && q.tasks[task].expiresAt.Some? && now < q.tasks[task].expiresAt.value
        then q.(starts := q.starts + [task], tasks := q.tasks[task := q.tasks[task].(execution := Running,
               phase := PrefectStarted, expiresAt := Some(now + seconds * 1_000_000))])
        else q
  {
  }

  /** A heartbeat prolongs the worker's own execution; a retry gives its own claim back until the given time. */
  lemma HolderSteps(q: State, task: TaskId, token: Token, epoch: nat, seconds: nat, at: int)
    ensures Apply(q, Beat(task, token, epoch, seconds)) ==
      if task in q.tasks && Executing(q.tasks[task], token, epoch)
      then q.(tasks := q.tasks[task := q.tasks[task].(expiresAt := Some(q.publication.clock + seconds * 1_000_000))])
      else q
    ensures Apply(q, Retry(task, token, epoch, at)) ==
      if task in q.tasks && Preflighting(q.tasks[task], token, epoch)
      then q.(tasks := q.tasks[task := q.tasks[task].(execution := RetryWait, phase := Idle, nextAttemptAt := at,
             token := None, expiresAt := None)])
      else q
  {
  }

  // ----- results -----

  /** The letter that a failed attempt writes: an earlier letter of the task stays as it is. */
  function Letters(q: State, task: TaskId, run: P.RunId, attempt: nat, storable: bool): map<TaskId, DeadLetter> {
    if storable && task !in q.deadLetters then q.deadLetters[task := DeadLetter(run, attempt)] else q.deadLetters
  }

  /** Dead-lettered when the letter of this run is stored, and otherwise waiting for it. */
  function Buried(q: State, task: TaskId, run: P.RunId, storable: bool): Execution {
    if storable && (task !in q.deadLetters || q.deadLetters[task].run == run) then DeadLettered else FailurePendingDlq
  }

  /** A failed preflight writes its letter in any case, and closes the task only under the worker's own claim. */
  lemma FailExact(q: State, task: TaskId, token: Token, epoch: nat, attempt: nat, storable: bool)
    ensures Apply(q, Fail(task, token, epoch, attempt, storable)) ==
      if task !in q.tasks then q
      else
        var t := q.tasks[task];
        q.(deadLetters := Letters(q, task, t.run, attempt, storable),
           tasks := if Preflighting(t, token, epoch)
             then q.tasks[task := t.(execution := Buried(q, task, t.run, storable), phase := Closed,
               published := Some(false), expiresAt := None)]
             else q.tasks)
  {
  }

  /** What a result makes of the worker's own execution: its state, and whether it published. */
  function ResultOf(q: State, task: TaskId, run: P.RunId, o: Outcome, storable: bool): (Execution, Option<bool>) {
    match o
    case Recorded(_) => (Succeeded, Some(true))
    case Raised => (ReconciliationRequired, None)
    case ReportedUncertain => (ReconciliationRequired, None)
    case Reported(status) =>
      if status in {P.BlockedQuality, P.Succeeded, P.SucceededNoop} then (Succeeded, Some(false))
      else (Buried(q, task, run, storable), Some(false))
  }

  /** The result of a flow closes the worker's own execution; a failed flow leaves its letter in any case. */
  lemma CompleteExact(q: State, task: TaskId, token: Token, epoch: nat, attempt: nat, o: Outcome, storable: bool)
    requires task in q.tasks && (o.Recorded? ==> CameBack(q, o.session, q.tasks[task].run))
    ensures var t := q.tasks[task]; var result := ResultOf(q, task, t.run, o, storable);
      Apply(q, Complete(task, token, epoch, attempt, o, storable)) ==
        q.(deadLetters := if o.Reported? && o.status !in {P.BlockedQuality, P.Succeeded, P.SucceededNoop}
             then Letters(q, task, t.run, attempt, storable) else q.deadLetters,
           tasks := if Executing(t, token, epoch)
             then q.tasks[task := t.(execution := result.0, phase := Closed, published := result.1, expiresAt := None)]
             else q.tasks)
  {
    hide CameBack;
  }

  // ----- reconciliation -----

  /** The row of an open task after its repair: the unclear commit first, then success, a quality block, an outcome
      without publication, and at last an abandoned execution. */
  function Repaired(r: P.Run, t: Task, now: int): Task {
    if r.commit == P.CommitUncertain
    then t.(execution := ReconciliationRequired, phase := Closed, published := None, token := None, expiresAt := None)
    else if r.status in {P.Succeeded, P.SucceededNoop} && r.commit == P.Observed
    then t.(execution := Succeeded, phase := Closed, published := Some(true), token := None, expiresAt := None)
    else if r.status == P.BlockedQuality
    then t.(execution := Succeeded, phase := Closed, published := Some(false), token := None, expiresAt := None)
    else if r.status in {P.Superseded, P.SkippedInProgress, P.FailedRetryable}
    then t.(execution := Failed, phase := Closed, published := Some(false), token := None, expiresAt := None)
    else if t.execution == Running && t.phase == PrefectStarted && t.expiresAt.Some? && t.expiresAt.value <= now
    then t.(execution := ReconciliationRequired, phase := Closed, published := None, expiresAt := None)
    else t
  }

  /** A repair follows the status and the commit of the run; a task that waits for its letter gets it, and a closed
      task stays. */
  lemma RepairExact(q: State, task: TaskId, storable: bool)
    requires task in q.tasks && q.tasks[task].run in q.publication.runs
    ensures var t := q.tasks[task];
      Apply(q, Repair(task, storable)) ==
        if t.execution == FailurePendingDlq
        then q.(deadLetters := Letters(q, task, t.run, if t.attempts < 1 then 1 else t.attempts, storable),
                tasks := q.tasks[task := t.(execution := Buried(q, task, t.run, storable))])
        else if t.execution in {Succeeded, Failed, DeadLettered, ReconciliationRequired} then q
        else q.(tasks := q.tasks[task := Repaired(q.publication.runs[t.run], t, q.publication.clock)])
  {
    assert q.tasks[task := q.tasks[task]] == q.tasks;
  }

  /** The tasks a reconciler looks for: those waiting for a letter, abandoned executions, and expired leases of runs
      that have ended. */
  lemma SelectedExact(q: State, task: TaskId)
    requires task in q.tasks && q.tasks[task].run in q.publication.runs
    ensures var t, status := q.tasks[task], q.publication.runs[q.tasks[task].run].status;
      var expired := t.expiresAt.Some? && t.expiresAt.value <= q.publication.clock;
      NeedsRepair(q, task) <==>
        || t.execution == FailurePendingDlq || (t.execution == Running && t.phase == PrefectStarted && expired)
        || (t.execution in {Claimed, Running} && expired && status !in {P.Pending, P.Running})
  {
  }

  // ----- the dispatch relay -----

  /** A dispatch row after the sweeps of a relay: an overdue hand-off is uncertain, a waiting row at the limit is given
      up. */
  function SweptRow(r: OutboxRow, now: int, limit: nat): OutboxRow {
    var overdue := r.status == Publishing && r.expiresAt.Some? && r.expiresAt.value <= now;
    if (overdue || r.status in {Pending, DispatchRetry, PublicationUncertain}) && r.attempts >= limit
    then r.(status := DispatchReconciliation)
    else if overdue then r.(status := PublicationUncertain) else r
  }

  /** The queue after the sweeps: a given-up row marks its task. */
  function SweptQueue(q: State, limit: nat): State {
    q.(outbox := map k | k in q.outbox :: SweptRow(q.outbox[k], q.publication.clock, limit),
       tasks := map k | k in q.tasks ::
         if k in q.outbox && SweptRow(q.outbox[k], q.publication.clock, limit).status == DispatchReconciliation
         then q.tasks[k].(dispatch := DispatchReconciliation) else q.tasks[k])
  }

  lemma SweepExact(q: State, limit: nat)
    ensures Sweep(q, limit) == SweptQueue(q, limit)
  {
    forall k | k in q.outbox ensures Swept(q.outbox[k], Now(q), limit) == SweptRow(q.outbox[k], q.publication.clock, limit) {}
    hide Swept, SweptRow;
  }

  /** A row is claimed, under a new token, exactly when it waits with attempts left, is due, and nobody's lease on it
      runs. */
  lemma ClaimRowExact(q: State, task: TaskId, token: Token, seconds: nat, limit: nat)
    ensures var now, q1 := q.publication.clock, SweptQueue(q, limit);
      Apply(q, ClaimRow(task, token, seconds, limit)) ==
        if token !in q.usedTokens && task in q1.outbox
           && q1.outbox[task].status in {Pending, DispatchRetry, PublicationUncertain}
           && q1.outbox[task].attempts < limit && q1.outbox[task].nextAttemptAt <= now
           && (q1.outbox[task].expiresAt.Some? ==> q1.outbox[task].expiresAt.value <= now)
        then var r := q1.outbox[task];
          q1.(outbox := q1.outbox[task := OutboxRow(Publishing, r.attempts + 1, r.nextAttemptAt, Some(token),
                Some(now + seconds * 1_000_000))],
              relays := q.relays[token := Relay(task, r.attempts + 1, false)], usedTokens := q.usedTokens + {token})
        else q1
  {
    SweepExact(q, limit);
    hide Sweep;
    assert SweptQueue(q, limit).publication == q.publication && SweptQueue(q, limit).relays == q.relays
      && SweptQueue(q, limit).usedTokens == q.usedTokens;
    hide SweptQueue;
  }

  /** The relay's own row is still being published under its token. */
  predicate OwnRow(q: State, task: TaskId, token: Token) {
    task in q.outbox && q.outbox[task].token == Some(token) && q.outbox[task].status == Publishing
  }

  /** One claim is one hand-off. An acknowledgement publishes the relay's own row, and with it the task, which becomes
      queued if it was not claimed before; under a lost token it changes nothing. */
  lemma AcknowledgeExact(q: State, token: Token)
    requires token in q.relays
    ensures Apply(q, Hand(token)) ==
      if q.relays[token].handed then q
      else q.(relays := q.relays[token := q.relays[token].(handed := true)], handoffs := q.handoffs + [q.relays[token].task])
    ensures var task := q.relays[token].task;
      Apply(q, Acknowledge(token)) ==
        if !q.relays[token].handed then q
        else if !OwnRow(q, task, token) || task !in q.tasks then q.(relays := q.relays - {token})
        else q.(relays := q.relays - {token},
                outbox := q.outbox[task := q.outbox[task].(status := Published, token := None, expiresAt := None)],
                tasks := q.tasks[task := q.tasks[task].(dispatch := Published,
                  execution := if q.tasks[task].execution == Accepted then Queued else q.tasks[task].execution)])
  {
  }

  /** After an error of the publisher the relay's own row waits for the given time, or is given up at the limit; the
      task is marked at the limit whoever owns the row. */
  lemma GiveUpExact(q: State, token: Token, delay: nat, limit: nat)
    requires token in q.relays && q.relays[token].handed
    ensures var relay := q.relays[token]; var task := relay.task;
      Apply(q, GiveUp(token, delay, limit)) ==
        q.(relays := q.relays - {token},
           outbox := if !OwnRow(q, task, token) then q.outbox
             else q.outbox[task := OutboxRow(
               if q.outbox[task].attempts >= limit then DispatchReconciliation else DispatchRetry, q.outbox[task].attempts,
               q.publication.clock + delay * 1_000_000, None, None)],
           tasks := if relay.attempts < limit || task !in q.tasks then q.tasks
             else q.tasks[task := q.tasks[task].(dispatch := DispatchReconciliation)])
  {
  }

  /** The row of the task can be claimed by a relay: it waits, attempts are left, it is due, and nobody's lease runs. */
  predicate DueRow(q: State, task: TaskId, limit: nat) {
    && task in q.outbox
    && var r := SweptRow(q.outbox[task], q.publication.clock, limit);
       && (r.status == Pending || r.status == DispatchRetry || r.status == PublicationUncertain)
       && r.attempts < limit && r.nextAttemptAt <= q.publication.clock
       && (r.expiresAt.Some? ==> r.expiresAt.value <= q.publication.clock)
  }

  /** One relay of a row that nobody else touches: a claim adds an attempt and hands the row over once. A publisher
      that answers makes the row published and its task queued; one that raises makes it wait, or gives it up when the
      attempt was the last. Without a due row the sweeps alone take effect. */
  lemma RelayedExact(q: State, task: TaskId, token: Token, seconds: nat, limit: nat, wait: nat, raises: bool)
    requires token !in q.usedTokens && token !in q.relays && task in q.tasks
    ensures !DueRow(q, task, limit) ==>
      Apply(q, ClaimRow(task, token, seconds, limit)) == SweptQueue(q, limit) && token !in SweptQueue(q, limit).relays
    ensures DueRow(q, task, limit) ==>
      var claimed := Apply(q, ClaimRow(task, token, seconds, limit));
      var handed := Apply(claimed, Hand(token));
      var q' := Apply(handed, if raises then GiveUp(token, wait, limit) else Acknowledge(token));
      var attempts, now := q.outbox[task].attempts + 1, q.publication.clock;
      && token in claimed.relays && claimed.relays[token] == Relay(task, attempts, false)
      && RelayedRow(q, q', task, attempts, now + wait * 1_000_000, limit, raises)
  {
    hide Apply;
    ClaimedRow(q, task, token, seconds, limit);
    if DueRow(q, task, limit) {
      hide DueRow;
      var claimed := Apply(q, ClaimRow(task, token, seconds, limit));
      AcknowledgeExact(claimed, token);
      var handed := Apply(claimed, Hand(token));
      AcknowledgeExact(handed, token);
      GiveUpExact(handed, token, wait, limit);
    }
  }

  /** The claim of a due row. */
  lemma ClaimedRow(q: State, task: TaskId, token: Token, seconds: nat, limit: nat)
    requires token !in q.usedTokens && token !in q.relays
    ensures var q' := Apply(q, ClaimRow(task, token, seconds, limit));
      if DueRow(q, task, limit)
      then
        && token in q'.relays && q'.relays[token] == Relay(task, q.outbox[task].attempts + 1, false)
        && task in q'.outbox && q'.outbox[task] == OutboxRow(Publishing, q.outbox[task].attempts + 1,
             q.outbox[task].nextAttemptAt, Some(token), Some(q.publication.clock + seconds * 1_000_000))
        && (task in q'.tasks <==> task in q.tasks) && (task in q.tasks ==> q'.tasks[task] == q.tasks[task])
        && q'.publication == q.publication && q'.handoffs == q.handoffs
      else q' == SweptQueue(q, limit) && token !in q'.relays
  {
    hide Apply;
    ClaimRowExact(q, task, token, seconds, limit);
    SweptParts(q, task, limit);
    hide SweptQueue, SweptRow;
  }

  /** The row, its task and the hand-offs after one relay of a due row. */
  ghost predicate RelayedRow(q: State, q': State, task: TaskId, attempts: nat, next: int, limit: nat, raises: bool) {
    && q'.handoffs == q.handoffs + [task] && task in q.outbox && task in q'.outbox
    && q'.outbox[task] == (
         if !raises then OutboxRow(Published, attempts, q.outbox[task].nextAttemptAt, None, None)
         else OutboxRow(if attempts >= limit then DispatchReconciliation else DispatchRetry, attempts, next, None, None))
    && task in q.tasks && task in q'.tasks
    && q'.tasks[task] == (
         if !raises then q.tasks[task].(dispatch := Published,
           execution := if q.tasks[task].execution == Accepted then Queued else q.tasks[task].execution)
         else if attempts >= limit then q.tasks[task].(dispatch := DispatchReconciliation) else q.tasks[task])
  }

  lemma SweptParts(q: State, task: TaskId, limit: nat)
    ensures SweptQueue(q, limit) == q.(outbox := SweptQueue(q, limit).outbox, tasks := SweptQueue(q, limit).tasks)
    ensures task in SweptQueue(q, limit).outbox <==> task in q.outbox
    ensures task in q.outbox ==>
      SweptQueue(q, limit).outbox[task] == SweptRow(q.outbox[task], q.publication.clock, limit)
    ensures task in SweptQueue(q, limit).tasks <==> task in q.tasks
    ensures DueRow(q, task, limit) ==>
      var r := SweptRow(q.outbox[task], q.publication.clock, limit);
      r.attempts == q.outbox[task].attempts && r.nextAttemptAt == q.outbox[task].nextAttemptAt
    ensures DueRow(q, task, limit) && task in q.tasks ==> SweptQueue(q, limit).tasks[task] == q.tasks[task]
  {
  }

  // ----- the ordinary way -----

  /** Accepted, handed over and acknowledged: the delivered message of a new task can be claimed, under epoch 1. */
  lemma DeliveredTaskIsClaimed(q: State, task: TaskId, run: P.RunId, week: int, relay: Token, lease: nat, limit: nat,
                               token: Token, seconds: nat)
    requires Initial(q) && IsMonday(week) && limit >= 1 && seconds >= 1
    ensures var q' := Play(q, [AcceptTask(task, run, week), ClaimRow(task, relay, lease, limit), Hand(relay),
        Acknowledge(relay), ClaimTask(task, token, seconds)]);
      && task in q'.tasks && q'.tasks[task] == Task(run, week, Claimed, Preflight, 1, 1, Some(token),
           Some(q.publication.clock + seconds * 1_000_000), q.publication.clock, None, Published)
      && task in q'.outbox && q'.outbox[task].status == Published && q'.outbox[task].attempts == 1
      && q'.handoffs == [task] && q'.starts == []
  {
    hide Apply, Play, Initial;
    var a := [AcceptTask(task, run, week)];
    var d := a + [ClaimRow(task, relay, lease, limit), Hand(relay), Acknowledge(relay)];
    PlayFour(q, a[0], ClaimRow(task, relay, lease, limit), Hand(relay), Acknowledge(relay));
    PlayNext(q, d, ClaimTask(task, token, seconds));
    NewTaskAccepted(q, task, run, week);
    Delivered(Apply(q, a[0]), task, relay, lease, limit);
    ClaimExact(Play(q, d), task, token, seconds);
    assert d + [ClaimTask(task, token, seconds)] == [AcceptTask(task, run, week), ClaimRow(task, relay, lease, limit),
      Hand(relay), Acknowledge(relay), ClaimTask(task, token, seconds)];
  }

  lemma PlayFour(q: State, a: Step, b: Step, c: Step, d: Step)
    ensures Play(q, [a] + [b, c, d]) == Apply(Apply(Apply(Apply(q, a), b), c), d)
  {
    hide Apply;
    PlayNext(q, [], a);
    PlayNext(q, [a], b);
    PlayNext(q, [a, b], c);
    PlayNext(q, [a, b, c], d);
    assert Play(q, []) == q;
    assert [] + [a] == [a] && [a] + [b] == [a, b] && [a, b] + [c] == [a, b, c] && [a, b, c] + [d] == [a] + [b, c, d];
  }

  lemma NewTaskAccepted(q: State, task: TaskId, run: P.RunId, week: int)
    requires Initial(q) && IsMonday(week)
    ensures var q' := Apply(q, AcceptTask(task, run, week)); var now := q.publication.clock;
      && task in q'.tasks && q'.tasks[task] == Task(run, week, Accepted, Idle, 0, 0, None, None, now, None, Pending)
      && task in q'.outbox && q'.outbox[task] == OutboxRow(Pending, 0, now, None, None)
      && q'.publication.clock == now && q'.usedTokens == {} && q'.relays == map[] && q'.handoffs == [] && q'.starts == []
  {
    hide Apply;
    AcceptExact(q, task, run, week);
    WeekStartExact(0);
  }

  /** One undisturbed relay of a new row: claimed, handed over, acknowledged. */
  lemma Delivered(q: State, task: TaskId, relay: Token, lease: nat, limit: nat)
    requires task in q.tasks && q.tasks[task].execution == Accepted && task in q.outbox && relay !in q.usedTokens
    requires q.outbox[task] == OutboxRow(Pending, 0, q.publication.clock, None, None) && limit >= 1
    ensures var q' := Apply(Apply(Apply(q, ClaimRow(task, relay, lease, limit)), Hand(relay)), Acknowledge(relay));
      && task in q'.tasks && q'.tasks[task] == q.tasks[task].(dispatch := Published, execution := Queued)
      && task in q'.outbox && q'.outbox[task].status == Published && q'.outbox[task].attempts == 1
      && q'.publication == q.publication && q'.starts == q.starts && q'.handoffs == q.handoffs + [task]
  {
    hide Apply;
    ClaimRowExact(q, task, relay, lease, limit);
    FirstRow(q, task, limit);
    hide SweptQueue;
    var claimed := Apply(q, ClaimRow(task, relay, lease, limit));
    AcknowledgeExact(claimed, relay);
    AcknowledgeExact(Apply(claimed, Hand(relay)), relay);
  }

  lemma FirstRow(q: State, task: TaskId, limit: nat)
    requires task in q.tasks && task in q.outbox && q.outbox[task] == OutboxRow(Pending, 0, q.publication.clock, None, None)
    requires limit >= 1
    ensures task in SweptQueue(q, limit).outbox && SweptQueue(q, limit).outbox[task] == q.outbox[task]
    ensures task in SweptQueue(q, limit).tasks && SweptQueue(q, limit).tasks[task] == q.tasks[task]
    ensures SweptQueue(q, limit) == q.(outbox := SweptQueue(q, limit).outbox, tasks := SweptQueue(q, limit).tasks)
  {
  }
}
