/** The dispatch relay: bounded hand-offs, fenced updates, and agreement of outbox and task. */
module DispatchSafety {
  import opened Basics
  import opened TaskQueue
  import opened TaskQueueSafety
  import P = PublicationProtocol

  /** Every relay is configured with the same attempt limit. */
  predicate FixedLimit(step: Step, limit: nat) {
    (step.ClaimRow? ==> step.limit == limit) && (step.GiveUp? ==> step.limit == limit)
  }

  /** The relays of a row that have claimed it and not yet called the publisher. */
  function Waiters(q: State, task: TaskId): set<Token> {
    set token | token in q.relays && q.relays[token].task == task && !q.relays[token].handed
  }

  /** Hand-offs made, and those that may still come. */
  function Load(q: State, task: TaskId): nat { Times(q.handoffs, task) + |Waiters(q, task)| }

  lemma LoadSame(q: State, q': State, task: TaskId)
    requires Times(q'.handoffs, task) == Times(q.handoffs, task)
    requires forall t :: t in Waiters(q', task) ==> t in Waiters(q, task)
    ensures Load(q', task) <= Load(q, task)
  {
    hide Times;
    SubsetCount(Waiters(q', task), Waiters(q, task));
  }

  lemma SubsetCount<T(!new)>(a: set<T>, b: set<T>)
    requires a <= b
    ensures |a| <= |b|
  {
    assert b == a + (b - a);
  }

  ghost predicate RelayOk(q: State, token: Token)
    requires token in q.relays
  {
    var relay := q.relays[token];
    && relay.task in q.outbox && relay.attempts <= q.outbox[relay.task].attempts && token in q.usedTokens
    && (q.outbox[relay.task].token == Some(token) ==> relay.attempts == q.outbox[relay.task].attempts)
    && (q.outbox[relay.task].status.Published? ==> relay.attempts < q.outbox[relay.task].attempts)
  }

  ghost predicate RowOk(q: State, task: TaskId, limit: nat)
    requires task in q.outbox
  {
    var r := q.outbox[task];
    && task in q.tasks && r.attempts <= limit
    && (r.token.Some? ==> r.token.value in q.usedTokens)
    && (r.token.Some? && r.token.value in q.relays ==> q.relays[r.token.value].task == task)
    && (r.status.Published? <==> q.tasks[task].dispatch.Published?)
    && Load(q, task) <= r.attempts
  }

  /** Two relays of one row never claimed it with the same attempt number. */
  ghost predicate AttemptsDiffer(q: State) {
    forall a, b :: (a in q.relays && b in q.relays && q.relays[a].task == q.relays[b].task
                    && q.relays[a].attempts == q.relays[b].attempts) ==> a == b
  }

  ghost predicate DispatchInv(q: State, limit: nat) {
    && (forall token :: token in q.relays ==> RelayOk(q, token))
    && (forall task :: task in q.outbox ==> RowOk(q, task, limit))
    && (forall task :: task in q.tasks ==> task in q.outbox)
    && (forall task :: task !in q.tasks ==> Times(q.handoffs, task) == 0)
    && AttemptsDiffer(q)
  }

  lemma InitialDispatch(q: State, limit: nat)
    requires Initial(q)
    ensures DispatchInv(q, limit)
  {
  }

  // ----- steps that leave the dispatch alone -----

  /** Only execution columns moved. */
  ghost predicate SameDispatch(q: State, q': State) {
    && q'.outbox == q.outbox && q'.relays == q.relays && q'.usedTokens == q.usedTokens && q'.handoffs == q.handoffs
    && q'.tasks.Keys == q.tasks.Keys && forall k :: k in q.tasks ==> q'.tasks[k].dispatch == q.tasks[k].dispatch
  }

  lemma SameDispatchInv(q: State, q': State, limit: nat)
    requires DispatchInv(q, limit) && SameDispatch(q, q')
    ensures DispatchInv(q', limit)
  {
    hide Times, Load, Waiters;
    forall token | token in q'.relays ensures RelayOk(q', token) { assert RelayOk(q, token); }
    forall task | task in q'.outbox ensures RowOk(q', task, limit) {
      assert RowOk(q, task, limit);
      SameLoad(q, q', task);
    }
  }

  lemma SameLoad(q: State, q': State, task: TaskId)
    requires q'.handoffs == q.handoffs && q'.relays == q.relays
    ensures Load(q', task) == Load(q, task)
  {
    assert Waiters(q', task) == Waiters(q, task);
  }

  lemma LetterDispatch(q: State, task: TaskId, run: P.RunId, attempt: nat, storable: bool)
    ensures SameDispatch(q, WithDeadLetter(q, task, run, attempt, storable))
  {
  }

  lemma FinishDispatch(q: State, task: TaskId, token: Token, epoch: nat, attempt: nat, o: Outcome, storable: bool)
    ensures SameDispatch(q, FinishWork(q, task, token, epoch, attempt, o, storable))
  {
    hide FailedState, CameBack, WithDeadLetter;
    if task in q.tasks { LetterDispatch(q, task, q.tasks[task].run, attempt, storable); }
  }

  lemma FailDispatch(q: State, task: TaskId, token: Token, epoch: nat, attempt: nat, storable: bool)
    ensures SameDispatch(q, FailPreflight(q, task, token, epoch, attempt, storable))
  {
    hide FailedState, DeadLetterStored;
  }

  lemma RepairDispatch(q: State, task: TaskId, storable: bool)
    ensures SameDispatch(q, Reconcile(q, task, storable))
  {
    hide DeadLetterStored, Verdict;
  }

  lemma ExecutionSteps(q: State, step: Step)
    requires !RelayStep(step) && !step.AcceptTask?
    ensures SameDispatch(q, Apply(q, step))
  {
    hide P.Apply, FailPreflight, FinishWork, Reconcile;
    match step
    case Fail(task, token, epoch, attempt, storable) => FailDispatch(q, task, token, epoch, attempt, storable);
    case Complete(task, token, epoch, attempt, result, storable) =>
      FinishDispatch(q, task, token, epoch, attempt, result, storable);
    case Repair(task, storable) => RepairDispatch(q, task, storable);
    case _ =>
  }

  lemma AcceptDispatch(q: State, task: TaskId, run: P.RunId, week: int, limit: nat)
    requires DispatchInv(q, limit)
    ensures DispatchInv(Accept(q, task, run, week), limit)
  {
    hide P.Apply, Times, Load, Waiters;
    var q' := Accept(q, task, run, week);
    if q' != q {
      forall token | token in q'.relays ensures RelayOk(q', token) { assert RelayOk(q, token); }
      forall k | k in q'.outbox ensures RowOk(q', k, limit) {
        SameLoad(q, q', k);
        if k != task { assert RowOk(q, k, limit); } else { NoWaiters(q, task); }
      }
    }
  }

  lemma NoWaiters(q: State, task: TaskId)
    requires task !in q.outbox && Times(q.handoffs, task) == 0 && forall token :: token in q.relays ==> RelayOk(q, token)
    ensures Load(q, task) == 0
  {
    hide Times;
    forall token ensures token !in Waiters(q, task) { if token in q.relays { assert RelayOk(q, token); } }
    assert Waiters(q, task) == {};
  }

  // ----- relay steps -----

  lemma SweptKeeps(r: OutboxRow, now: int, limit: nat)
    ensures var r' := Swept(r, now, limit);
      && r' == r.(status := r'.status) && (r'.status.Published? <==> r.status.Published?)
      && (r'.status.Publishing? ==> r.status.Publishing?)
  {
  }

  lemma SweepInv(q: State, limit: nat)
    requires DispatchInv(q, limit)
    ensures DispatchInv(Sweep(q, limit), limit)
  {
    hide Times, Swept, Load, Waiters;
    var q' := Sweep(q, limit);
    forall k | k in q.outbox ensures q'.outbox[k] == Swept(q.outbox[k], Now(q), limit) {}
    forall token | token in q'.relays ensures RelayOk(q', token) {
      assert RelayOk(q, token);
      SweptKeeps(q.outbox[q.relays[token].task], Now(q), limit);
    }
    forall k | k in q'.outbox ensures RowOk(q', k, limit) {
      assert RowOk(q, k, limit);
      SameLoad(q, q', k);
      SweptKeeps(q.outbox[k], Now(q), limit);
    }
  }

  lemma ClaimRowInv(q: State, task: TaskId, token: Token, seconds: nat, limit: nat)
    requires DispatchInv(q, limit)
    ensures DispatchInv(RelayClaim(q, task, token, seconds, limit), limit)
  {
    hide Sweep, DispatchInv;
    SweepInv(q, limit);
    var q1, q' := Sweep(q, limit), RelayClaim(q, task, token, seconds, limit);
    SweepTokens(q, limit);
    if q' != q1 {
      var row := q'.outbox[task];
      assert q' == q1.(outbox := q1.outbox[task := row],
        relays := q1.relays[token := Relay(task, row.attempts, false)], usedTokens := q1.usedTokens + {token});
      ClaimedRow(q1, q', task, token, limit);
    }
  }

  lemma SweepTokens(q: State, limit: nat)
    ensures Sweep(q, limit).usedTokens == q.usedTokens && Sweep(q, limit).relays == q.relays
    ensures Now(Sweep(q, limit)) == Now(q)
  {
  }

  /** What a successful claim does to the state. */
  ghost predicate Claims(q: State, q': State, task: TaskId, token: Token, limit: nat) {
    && token !in q.usedTokens && task in q.outbox && task in q'.outbox
    && q.outbox[task].attempts < limit && Waiting(q.outbox[task].status)
    && q'.outbox[task].status.Publishing? && q'.outbox[task].token == Some(token)
    && q'.outbox[task].attempts == q.outbox[task].attempts + 1
    && q' == q.(outbox := q.outbox[task := q'.outbox[task]],
         relays := q.relays[token := Relay(task, q'.outbox[task].attempts, false)], usedTokens := q.usedTokens + {token})
  }

  lemma ClaimedRow(q: State, q': State, task: TaskId, token: Token, limit: nat)
    requires DispatchInv(q, limit) && Claims(q, q', task, token, limit)
    ensures DispatchInv(q', limit)
  {
    hide RelayOk, RowOk, Claims, AttemptsDiffer;
    forall t | t in q'.relays ensures RelayOk(q', t) { ClaimedRelay(q, q', task, token, limit, t); }
    forall k | k in q'.outbox ensures RowOk(q', k, limit) { ClaimedLoad(q, q', task, token, limit, k); }
    ClaimedAttempts(q, q', task, token, limit);
  }

  lemma ClaimedRelay(q: State, q': State, task: TaskId, token: Token, limit: nat, t: Token)
    requires DispatchInv(q, limit) && Claims(q, q', task, token, limit)
    ensures t in q'.relays ==> RelayOk(q', t)
    ensures t in q'.relays ==> q'.relays[t].task in q'.outbox
    ensures forall k :: k in q'.outbox <==> k in q.outbox
    ensures forall k :: k in q'.tasks <==> k in q.tasks
    ensures q'.handoffs == q.handoffs
  {
    hide Times, Load, Waiters;
    if t in q'.relays && t != token { assert RelayOk(q, t); }
  }

  lemma ClaimedLoad(q: State, q': State, task: TaskId, token: Token, limit: nat, k: TaskId)
    requires DispatchInv(q, limit) && Claims(q, q', task, token, limit) && k in q'.outbox
    ensures RowOk(q', k, limit)
  {
    hide Times, Waiters;
    assert RowOk(q, k, limit);
    ClaimedWaiters(q, q', task, token, limit, k);
    if k == task {
      SubsetCount(Waiters(q', k), Waiters(q, k) + {token});
    } else {
      SubsetCount(Waiters(q', k), Waiters(q, k));
    }
  }

  lemma ClaimedWaiters(q: State, q': State, task: TaskId, token: Token, limit: nat, k: TaskId)
    requires Claims(q, q', task, token, limit)
    ensures Waiters(q', k) <= Waiters(q, k) + (if k == task then {token} else {})
  {
  }

  lemma ClaimedAttempts(q: State, q': State, task: TaskId, token: Token, limit: nat)
    requires DispatchInv(q, limit) && Claims(q, q', task, token, limit)
    ensures AttemptsDiffer(q')
    ensures forall k :: k in q'.tasks ==> k in q'.outbox
    ensures forall k :: k !in q'.tasks ==> Times(q'.handoffs, k) == 0
  {
    hide Times, Load, Waiters;
    forall t | t in q.relays && q.relays[t].task == task ensures q.relays[t].attempts != q.outbox[task].attempts + 1 {
      assert RelayOk(q, t);
    }
  }

  lemma HandInv(q: State, token: Token, limit: nat)
    requires DispatchInv(q, limit)
    ensures DispatchInv(HandOff(q, token), limit)
  {
    hide Times, RowOk, Load, Waiters;
    var q' := HandOff(q, token);
    if q' != q {
      var task := q.relays[token].task;
      assert RelayOk(q, token);
      forall k ensures Times(q'.handoffs, k) == Times(q.handoffs, k) + (if k == task then 1 else 0) { TimesNext(q.handoffs, task, k); }
      RowHasTask(q, task, limit);
      forall t | t in q'.relays ensures RelayOk(q', t) { assert RelayOk(q, t); }
      forall k | k in q'.outbox ensures RowOk(q', k, limit) { HandedRow(q, q', token, limit, k); }
    }
  }

  lemma RowHasTask(q: State, task: TaskId, limit: nat)
    requires task in q.outbox && RowOk(q, task, limit)
    ensures task in q.tasks
  {
  }

  lemma HandedRow(q: State, q': State, token: Token, limit: nat, k: TaskId)
    requires RowOk0(q, k, limit) && token in q.relays && !q.relays[token].handed
    requires q' == q.(relays := q.relays[token := q.relays[token].(handed := true)], handoffs := q'.handoffs)
    requires Times(q'.handoffs, k) == Times(q.handoffs, k) + (if k == q.relays[token].task then 1 else 0)
    ensures RowOk0(q', k, limit)
  {
    hide Times;
    if k == q.relays[token].task {
      assert token in Waiters(q, k);
      assert Waiters(q', k) <= Waiters(q, k) - {token};
      SubsetCount(Waiters(q', k), Waiters(q, k) - {token});
    } else {
      assert Waiters(q', k) <= Waiters(q, k);
      SubsetCount(Waiters(q', k), Waiters(q, k));
    }
  }

  ghost predicate RowOk0(q: State, task: TaskId, limit: nat) { task in q.outbox && RowOk(q, task, limit) }

  /** A relay leaves, and at most its own row moves, to a state without its token. */
  ghost predicate Leaves(q: State, q': State, token: Token) {
    && token in q.relays
    && var task := q.relays[token].task;
      && task in q.outbox && task in q.tasks && task in q'.outbox && task in q'.tasks
      && q' == q.(relays := q.relays - {token}, outbox := q.outbox[task := q'.outbox[task]], tasks := q.tasks[task := q'.tasks[task]])
      && q'.outbox[task].attempts == q.outbox[task].attempts
      && (q'.outbox[task].token.Some? ==> q'.outbox[task].token == q.outbox[task].token)
      && (q'.outbox[task].status.Published? <==> q'.tasks[task].dispatch.Published?)
      && (q'.outbox[task].status.Published? && !q.outbox[task].status.Published? ==> q.outbox[task].token == Some(token))
  }

  lemma RelayLeaves(q: State, q': State, token: Token, limit: nat)
    requires DispatchInv(q, limit) && Leaves(q, q', token)
    ensures DispatchInv(q', limit)
  {
    hide RelayOk, RowOk, Times;
    forall t | t in q'.relays ensures RelayOk(q', t) { LeftRelay(q, q', token, limit, t); }
    forall k | k in q'.outbox ensures RowOk(q', k, limit) { LeftRow(q, q', token, limit, k); }
  }

  lemma LeftRelay(q: State, q': State, token: Token, limit: nat, t: Token)
    requires DispatchInv(q, limit) && Leaves(q, q', token) && t in q'.relays
    ensures RelayOk(q', t)
  {
    hide Times, Load, RowOk;
    assert RelayOk(q, token) && RelayOk(q, t);
    assert q.relays[t].task == q.relays[token].task ==> q.relays[t].attempts != q.relays[token].attempts;
  }

  lemma LeftRow(q: State, q': State, token: Token, limit: nat, k: TaskId)
    requires DispatchInv(q, limit) && Leaves(q, q', token) && k in q'.outbox
    ensures RowOk(q', k, limit)
  {
    hide Times, RelayOk, Load;
    assert RowOk(q, k, limit);
    LoadSame(q, q', k);
  }

  lemma LoseInv(q: State, token: Token, limit: nat)
    requires DispatchInv(q, limit)
    ensures DispatchInv(q.(relays := q.relays - {token}), limit)
  {
    hide Times, Load, Waiters;
    if token in q.relays {
      assert RelayOk(q, token) && RowOk(q, q.relays[token].task, limit);
      var q' := q.(relays := q.relays - {token});
      assert q'.outbox == q.outbox[q.relays[token].task := q'.outbox[q.relays[token].task]];
      assert q'.tasks == q.tasks[q.relays[token].task := q'.tasks[q.relays[token].task]];
      RelayLeaves(q, q', token, limit);
    } else {
      assert q.relays - {token} == q.relays;
    }
  }

  lemma DoneInv(q: State, token: Token, limit: nat)
    requires DispatchInv(q, limit)
    ensures DispatchInv(RelayDone(q, token), limit)
  {
    hide Times, Waiters, Load;
    if token in q.relays && q.relays[token].handed {
      assert RelayOk(q, token) && RowOk(q, q.relays[token].task, limit);
      var task, q' := q.relays[token].task, RelayDone(q, token);
      assert q'.outbox == q.outbox[task := q'.outbox[task]] && q'.tasks == q.tasks[task := q'.tasks[task]];
      RelayLeaves(q, q', token, limit);
    }
  }

  lemma GiveUpInv(q: State, token: Token, seconds: nat, limit: nat)
    requires DispatchInv(q, limit)
    ensures DispatchInv(RelayFailed(q, token, seconds, limit), limit)
  {
    hide Times, Waiters, Load;
    if token in q.relays && q.relays[token].handed {
      assert RelayOk(q, token) && RowOk(q, q.relays[token].task, limit);
      var task, q' := q.relays[token].task, RelayFailed(q, token, seconds, limit);
      assert q'.outbox == q.outbox[task := q'.outbox[task]] && q'.tasks == q.tasks[task := q'.tasks[task]];
      RelayLeaves(q, q', token, limit);
    }
  }

  lemma StepDispatch(q: State, step: Step, limit: nat)
    requires DispatchInv(q, limit) && FixedLimit(step, limit)
    ensures DispatchInv(Apply(q, step), limit)
  {
    hide DispatchInv, Accept, RelayClaim, HandOff, RelayDone, RelayFailed;
    match step
    case AcceptTask(task, run, week) => AcceptDispatch(q, task, run, week, limit);
    case ClaimRow(task, token, seconds, l) => ClaimRowInv(q, task, token, seconds, limit);
    case Hand(token) => HandInv(q, token, limit);
    case Acknowledge(token) => DoneInv(q, token, limit);
    case GiveUp(token, seconds, l) => GiveUpInv(q, token, seconds, limit);
    case LoseRelay(token) => LoseInv(q, token, limit);
    case _ =>
      ExecutionSteps(q, step);
      SameDispatchInv(q, Apply(q, step), limit);
  }

  lemma {:induction false} PlayDispatch(q: State, steps: seq<Step>, limit: nat)
    requires DispatchInv(q, limit) && forall s :: s in steps ==> FixedLimit(s, limit)
    ensures DispatchInv(Play(q, steps), limit)
  {
    hide DispatchInv, Apply, FixedLimit;
    if steps != [] {
      PlayDispatch(q, steps[..|steps| - 1], limit);
      StepDispatch(Play(q, steps[..|steps| - 1]), steps[|steps| - 1], limit);
    }
  }

  // ----- results -----

  /** With one attempt limit, no row is handed to the publisher more often than it allows. */
  lemma HandOffsBounded(q: State, steps: seq<Step>, limit: nat, task: TaskId)
    requires Initial(q) && forall s :: s in steps ==> FixedLimit(s, limit)
    ensures Times(Play(q, steps).handoffs, task) <= limit
  {
    InitialDispatch(q, limit);
    PlayDispatch(q, steps, limit);
    hide Play, Times;
    var q' := Play(q, steps);
    if task in q'.tasks { assert RowOk(q', task, limit); }
  }

  /** With one attempt limit, a row is published exactly when its task says so. */
  lemma PublishedAgree(q: State, steps: seq<Step>, limit: nat, task: TaskId)
    requires Initial(q) && forall s :: s in steps ==> FixedLimit(s, limit)
    requires task in Play(q, steps).tasks
    ensures var q' := Play(q, steps);
      task in q'.outbox && (q'.outbox[task].status.Published? <==> q'.tasks[task].dispatch.Published?)
  {
    InitialDispatch(q, limit);
    PlayDispatch(q, steps, limit);
    hide Play, Times;
    assert RowOk(Play(q, steps), task, limit);
  }

  /** A relay whose token was replaced, or whose row was declared uncertain, cannot change the row. */
  lemma SupersededRelayIsHarmless(q: State, token: Token, seconds: nat, limit: nat)
    requires token in q.relays && !RelayHolds(q, q.relays[token].task, token)
    ensures RelayDone(q, token).outbox == q.outbox && RelayFailed(q, token, seconds, limit).outbox == q.outbox
  {
  }

  /** A published row is final, whatever the limits. */
  lemma PublishedIsFinal(q: State, step: Step, task: TaskId)
    requires task in q.outbox && q.outbox[task].status.Published? && (step.AcceptTask? ==> task in q.tasks)
    ensures task in Apply(q, step).outbox && Apply(q, step).outbox[task] == q.outbox[task]
  {
    hide P.Apply, FailPreflight, FinishWork, Reconcile;
    if !RelayStep(step) && !step.AcceptTask? { ExecutionSteps(q, step); }
    SweptKeeps(q.outbox[task], Now(q), if step.ClaimRow? then step.limit else 0);
  }
}
