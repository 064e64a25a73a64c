/** Relays with different attempt limits: exactly when outbox and task stop agreeing. */
module DispatchLimits {
  import opened Basics
  import opened TaskQueue
  import opened TaskQueueSafety
  import opened DispatchSafety
  import P = PublicationProtocol

  /** The row is published if and only if its task says so. */
  predicate Agree(q: State, task: TaskId) {
    && task in q.tasks && task in q.outbox && (q.outbox[task].status.Published? <==> q.tasks[task].dispatch.Published?)
  }

  predicate Disagree(q: State, task: TaskId) {
    task in q.tasks && task in q.outbox && q.outbox[task].status.Published? && !q.tasks[task].dispatch.Published?
  }

  /** A relay that is out of attempts by its own limit gives up a row that another one has published. */
  predicate Loses(q: State, step: Step, task: TaskId) {
    && step.GiveUp? && step.token in q.relays && q.relays[step.token].handed && q.relays[step.token].task == task
    && q.relays[step.token].attempts >= step.limit && task in q.outbox && q.outbox[task].status.Published?
  }

  lemma ClaimRowAgree(q: State, k: TaskId, token: Token, seconds: nat, limit: nat, task: TaskId)
    requires task in q.tasks && task in q.outbox
    ensures var q' := RelayClaim(q, k, token, seconds, limit);
      && (Agree(q, task) ==> Agree(q', task)) && (Disagree(q, task) ==> Disagree(q', task))
  {
    hide Swept;
    SweptKeeps(q.outbox[task], Now(q), limit);
    var q1 := Sweep(q, limit);
    assert q1.outbox[task] == Swept(q.outbox[task], Now(q), limit);
    assert Agree(q, task) ==> Agree(q1, task);
    assert Disagree(q, task) ==> Disagree(q1, task);
  }

  lemma GiveUpAgree(q: State, token: Token, delay: nat, limit: nat, task: TaskId)
    requires task in q.tasks && task in q.outbox
    ensures var q', lost := RelayFailed(q, token, delay, limit), Loses(q, GiveUp(token, delay, limit), task);
      && (Agree(q, task) ==> (Agree(q', task) <==> !lost) && (lost ==> Disagree(q', task)))
      && (Disagree(q, task) ==> Disagree(q', task))
  {
  }

  /** One step: from agreement exactly such a step loses it, whatever the limits; and what is lost stays lost. */
  lemma AgreementStep(q: State, step: Step, task: TaskId)
    requires task in q.tasks && task in q.outbox
    ensures Agree(q, task) ==> (Agree(Apply(q, step), task) <==> !Loses(q, step, task))
    ensures Agree(q, task) && Loses(q, step, task) ==> Disagree(Apply(q, step), task)
    ensures Disagree(q, task) ==> Disagree(Apply(q, step), task)
  {
    hide RelayClaim, HandOff, RelayDone, RelayFailed, Accept;
    match step
    case ClaimRow(k, token, seconds, limit) => ClaimRowAgree(q, k, token, seconds, limit, task);
    case GiveUp(token, delay, limit) => GiveUpAgree(q, token, delay, limit, task);
    case Hand(token) => HandAgree(q, token, task);
    case Acknowledge(token) => DoneAgree(q, token, task);
    case LoseRelay(token) =>
    case AcceptTask(k, run, week) => AcceptAgree(q, k, run, week, task);
    case _ => ExecutionSteps(q, step);
  }

  lemma HandAgree(q: State, token: Token, task: TaskId)
    ensures var q' := HandOff(q, token); q'.tasks == q.tasks && q'.outbox == q.outbox
  {
  }

  lemma DoneAgree(q: State, token: Token, task: TaskId)
    requires task in q.tasks && task in q.outbox
    ensures var q' := RelayDone(q, token);
      && (Agree(q, task) ==> Agree(q', task)) && (Disagree(q, task) ==> Disagree(q', task))
  {
  }

  lemma AcceptAgree(q: State, k: TaskId, run: P.RunId, week: int, task: TaskId)
    requires task in q.tasks && task in q.outbox
    ensures var q' := Accept(q, k, run, week);
      && task in q'.tasks && task in q'.outbox && q'.tasks[task] == q.tasks[task] && q'.outbox[task] == q.outbox[task]
  {
    hide P.Apply;
  }

  // ----- over whole runs -----

  predicate SameKeys(q: State) { q.tasks.Keys == q.outbox.Keys }

  lemma StepKeys(q: State, step: Step)
    requires SameKeys(q)
    ensures SameKeys(Apply(q, step)) && q.tasks.Keys <= Apply(q, step).tasks.Keys
    ensures forall k :: k in Apply(q, step).tasks && k !in q.tasks ==> Agree(Apply(q, step), k)
  {
    hide P.Apply, FailPreflight, FinishWork, Reconcile, Swept;
    if !RelayStep(step) && !step.AcceptTask? { ExecutionSteps(q, step); }
  }

  lemma {:induction false} PlayKeys(q: State, steps: seq<Step>)
    requires SameKeys(q)
    ensures SameKeys(Play(q, steps))
  {
    hide SameKeys, Apply;
    if steps != [] {
      PlayKeys(q, steps[..|steps| - 1]);
      StepKeys(Play(q, steps[..|steps| - 1]), steps[|steps| - 1]);
    }
  }

  predicate NeverLoses(q: State, steps: seq<Step>, task: TaskId) {
    forall n :: 0 <= n < |steps| ==> !Loses(Play(q, steps[..n]), steps[n], task)
  }

  lemma NeverLosesNext(q: State, steps: seq<Step>, step: Step, task: TaskId)
    ensures NeverLoses(q, steps + [step], task) <==> NeverLoses(q, steps, task) && !Loses(Play(q, steps), step, task)
  {
    hide Play, Loses;
    var all := steps + [step];
    assert all[..|steps|] == steps;
    assert forall n :: 0 <= n < |steps| ==> all[..n] == steps[..n] && all[n] == steps[n];
    assert NeverLoses(q, all, task) ==> !Loses(Play(q, all[..|steps|]), all[|steps|], task);
    forall n | 0 <= n < |all| && NeverLoses(q, steps, task) && !Loses(Play(q, steps), step, task)
      ensures !Loses(Play(q, all[..n]), all[n], task)
    {
      if n < |steps| { assert !Loses(Play(q, steps[..n]), steps[n], task); }
    }
  }

  /** Over any run, with any limits: row and task agree at the end if and only if no relay of the run gave up, at or
      over its own limit, a row that another one had published. Otherwise the row is published and the task says not. */
  lemma {:induction false} AgreementIsExact(q: State, steps: seq<Step>, task: TaskId)
    requires Initial(q) && task in Play(q, steps).tasks
    ensures Agree(Play(q, steps), task) <==> NeverLoses(q, steps, task)
    ensures Agree(Play(q, steps), task) || Disagree(Play(q, steps), task)
  {
    hide Apply, Loses, Initial, P.Initial;
    InitialKeys(q);
    if steps == [] {
      NoTasks(q, task);
    } else {
      var before, last := steps[..|steps| - 1], steps[|steps| - 1];
      assert steps == before + [last];
      PlayKeys(q, before);
      StepKeys(Play(q, before), last);
      NeverLosesNext(q, before, last, task);
      if task in Play(q, before).tasks {
        AgreementIsExact(q, before, task);
        AgreementStep(Play(q, before), last, task);
      } else {
        NotYetAccepted(q, before, task);
        NotLost(Play(q, before), last, task);
      }
    }
  }

  lemma InitialKeys(q: State)
    requires Initial(q)
    ensures SameKeys(q)
  {
  }

  lemma NoTasks(q: State, task: TaskId)
    requires Initial(q)
    ensures task !in q.tasks
  {
  }

  lemma NotLost(q: State, step: Step, task: TaskId)
    requires SameKeys(q) && task !in q.tasks
    ensures !Loses(q, step, task)
  {
  }

  /** Before a task exists it is neither published nor lost. */
  lemma {:induction false} NotYetAccepted(q: State, steps: seq<Step>, task: TaskId)
    requires SameKeys(q) && task !in Play(q, steps).tasks
    ensures NeverLoses(q, steps, task)
  {
    hide Apply, Loses, SameKeys;
    if steps != [] {
      var before, last := steps[..|steps| - 1], steps[|steps| - 1];
      assert steps == before + [last];
      PlayKeys(q, before);
      StepKeys(Play(q, before), last);
      NotYetAccepted(q, before, task);
      NeverLosesNext(q, before, last, task);
      NotLost(Play(q, before), last, task);
    }
  }

  // ----- every pair of limits -----

  /** The row of task 1 can be claimed, for the `n + 1`-st time, by a relay under token `n`. */
  predicate Due(q: State, n: nat) {
    && 1 in q.tasks && 1 in q.outbox && q.outbox[1].attempts == n && q.outbox[1].nextAttemptAt <= Now(q)
    && (q.outbox[1].status.Pending? || q.outbox[1].status.Publishing?)
    && (q.outbox[1].expiresAt.None? || q.outbox[1].expiresAt.value <= Now(q))
    && (q.outbox[1].status.Publishing? ==> q.outbox[1].expiresAt.Some?)
    && forall token :: token in q.usedTokens ==> token < n
  }

  /** Relay `n` has just claimed the row, as its attempt `n + 1`. */
  predicate Held(q: State, n: nat, handed: bool) {
    && 1 in q.tasks && 1 in q.outbox && q.outbox[1].attempts == n + 1 && q.outbox[1].nextAttemptAt <= Now(q)
    && q.outbox[1].status.Publishing? && q.outbox[1].token == Some(n)
    && q.outbox[1].expiresAt == Some(Now(q) + 1_000_000)
    && n in q.relays && q.relays[n] == Relay(1, n + 1, handed)
    && forall token :: token in q.usedTokens ==> token <= n
  }

  lemma FirstDue(q: State)
    requires Initial(q)
    ensures Due(Apply(q, AcceptTask(1, "r", 4)), 0)
  {
    hide P.Apply;
    AcceptClock(q.publication);
  }

  lemma AcceptClock(s: P.State)
    ensures P.Apply(s, P.CreateRun("r", 4)).clock == s.clock
  {
  }

  lemma ClaimDue(q: State, n: nat, limit: nat)
    requires Due(q, n) && n < limit
    ensures var q' := Apply(q, ClaimRow(1, n, 1, limit));
      Held(q', n, false) && forall token :: token in q.relays && token != n ==> token in q'.relays && q'.relays[token] == q.relays[token]
  {
    var q1 := Sweep(q, limit);
    assert q1.outbox[1] == Swept(q.outbox[1], Now(q), limit);
    assert n !in q.usedTokens;
  }

  lemma HandHeld(q: State, n: nat)
    requires Held(q, n, false)
    ensures var q' := Apply(q, Hand(n));
      Held(q', n, true) && forall token :: token in q.relays && token != n ==> token in q'.relays && q'.relays[token] == q.relays[token]
  {
  }

  lemma TickDue(q: State, n: nat, handed: bool)
    requires Held(q, n, handed)
    ensures var q' := Apply(q, Publish(P.Tick(1_000_000)));
      Due(q', n + 1) && q'.relays == q.relays && Now(q') == Now(q) + 1_000_000
  {
  }

  /** `n` relays that claim the row and vanish. */
  function Vanished(n: nat, limit: nat): seq<Step> {
    if n == 0 then [AcceptTask(1, "r", 4)]
    else Vanished(n - 1, limit) + [ClaimRow(1, n - 1, 1, limit), Publish(P.Tick(1_000_000))]
  }

  lemma PlayTwo(q: State, steps: seq<Step>, a: Step, b: Step)
    ensures Play(q, steps + [a, b]) == Apply(Apply(Play(q, steps), a), b)
  {
    hide Play, Apply;
    PlayNext(q, steps, a);
    PlayNext(q, steps + [a], b);
    assert steps + [a] + [b] == steps + [a, b];
  }

  lemma {:induction false} VanishedDue(q: State, n: nat, limit: nat)
    requires Initial(q) && n <= limit
    ensures Due(Play(q, Vanished(n, limit)), n)
  {
    hide Play, Apply, Due, Initial;
    if n == 0 {
      FirstDue(q);
      PlayNext(q, [], AcceptTask(1, "r", 4));
      EmptyPlay(q);
      assert [] + [AcceptTask(1, "r", 4)] == [AcceptTask(1, "r", 4)];
    } else {
      VanishedDue(q, n - 1, limit);
      var before := Play(q, Vanished(n - 1, limit));
      ClaimDue(before, n - 1, limit);
      TickDue(Apply(before, ClaimRow(1, n - 1, 1, limit)), n - 1, false);
      PlayTwo(q, Vanished(n - 1, limit), ClaimRow(1, n - 1, 1, limit), Publish(P.Tick(1_000_000)));
    }
  }

  lemma EmptyPlay(q: State)
    ensures Play(q, []) == q
  {
  }

  /** The last claim within the smaller limit hands over and stalls; a relay with the larger limit publishes. */
  lemma StaleGiveUp(q: State, m: nat, low: nat)
    requires Held(q, m + 1, true) && m in q.relays && q.relays[m] == Relay(1, m + 1, true) && low <= m + 1
    ensures Disagree(Apply(Apply(q, Acknowledge(m + 1)), GiveUp(m, 1, low)), 1)
  {
    var q1 := Apply(q, Acknowledge(m + 1));
    assert q1.outbox[1].status.Published? && q1.outbox[1].token == None && q1.relays[m] == q.relays[m];
    hide RelayDone;
  }

  /** For every two different limits there is a run that ends in disagreement. */
  lemma TwoLimitsDisagree(q: State, low: nat, high: nat)
    requires Initial(q) && 1 <= low < high
    ensures exists steps :: Disagree(Play(q, steps), 1)
  {
    hide Play, Apply, Due, Held, Disagree, Initial, Vanished;
    var m := low - 1;
    var a := Vanished(m, low);
    VanishedDue(q, m, low);
    var q0 := Play(q, a);
    ClaimDue(q0, m, low);
    var q1 := Apply(q0, ClaimRow(1, m, 1, low));
    HandHeld(q1, m);
    var q2 := Apply(q1, Hand(m));
    HeldRelay(q2, m);
    TickDue(q2, m, true);
    var q3 := Apply(q2, Publish(P.Tick(1_000_000)));
    ClaimDue(q3, m + 1, high);
    var q4 := Apply(q3, ClaimRow(1, m + 1, 1, high));
    HandHeld(q4, m + 1);
    var q5 := Apply(q4, Hand(m + 1));
    StaleGiveUp(q5, m, low);
    PlayTwo(q, a, ClaimRow(1, m, 1, low), Hand(m));
    var b := a + [ClaimRow(1, m, 1, low), Hand(m)];
    PlayTwo(q, b, Publish(P.Tick(1_000_000)), ClaimRow(1, m + 1, 1, high));
    var c := b + [Publish(P.Tick(1_000_000)), ClaimRow(1, m + 1, 1, high)];
    PlayTwo(q, c, Hand(m + 1), Acknowledge(m + 1));
    var d := c + [Hand(m + 1), Acknowledge(m + 1)];
    PlayNext(q, d, GiveUp(m, 1, low));
    assert Disagree(Play(q, d + [GiveUp(m, 1, low)]), 1);
  }

  lemma HeldRelay(q: State, n: nat)
    requires Held(q, n, true)
    ensures n in q.relays && q.relays[n] == Relay(1, n + 1, true)
  {
  }
}
