/** The weekly flow of one accepted run: gate, lease and publication, as one program over the shared database. */
module WeeklyFlow {
  import opened Basics
  import opened WeeklyPerformance
  import opened WeeklyUpsert
  import opened QualityGate
  import opened PublicationProtocol
  import opened C = Coordinator
  import L = Lease
  import S = PublicationSteps

  /** What extraction and transformation came to. */
  datatype Calculation =
    | Failed(stage: string)
    | Calculated(batch: seq<Aggregate>, quality: Option<Result>, coverage: Option<Coverage>, fingerprint: string,
        fingerprintComplete: bool, rules: string)

  /** One execution of the flow: its inputs, its clock readings, and everybody else's steps in between. */
  datatype Execution = Execution(
    calculation: Calculation, gateNow: int, now: int, seconds: int, readings: L.Clock, grantCommitted: bool,
    fault: OperationalFault, others: nat -> seq<Step>, call: Environment)

  function InputOf(week: int, run: RunId, x: Execution, claim: Option<Claim>, now: int): Input
    requires x.calculation.Calculated?
  {
    var c := x.calculation;
    Input(week, run, c.batch, c.quality, c.coverage, c.fingerprint, c.fingerprintComplete, c.rules, claim, now)
  }

  // ----- an undisturbed flow -----

  /** Nobody interferes and nothing fails. */
  ghost predicate SmoothFlow(x: Execution) {
    (forall n :: x.others(n) == []) && x.fault.Confirmed? && x.grantCommitted && Smooth(x.call)
  }

  predicate IsPending(s: State, week: int, run: RunId) { run in s.runs && s.runs[run] == Run(week, Pending, s.runs[run].commit) }

  /** The control row can be locked, with a duration between one second and one day and a clock that goes on. */
  ghost predicate CanLock(s: State, week: int, x: Execution) {
    && S.Unlocked(s, week) && 1 <= x.seconds <= 86_400
    && s.clock <= x.readings.locked <= x.readings.checked <= x.readings.acquired <= x.readings.expiring
  }

  /** Nobody holds the week, or its lease ran out. */
  predicate WeekIsFree(s: State, week: int, x: Execution) {
    var row := L.At(s.controls, week);
    row.owner == None || (row.expiresAt.Some? && row.expiresAt.value <= x.readings.locked)
  }

  /** The calculated batch passes the gate at this time. */
  ghost predicate Passes(week: int, run: RunId, x: Execution, now: int) {
    x.calculation.Calculated? && Authorised(InputOf(week, run, x, None, now))
  }

  /** What an undisturbed flow needs to publish. */
  ghost predicate FlowCanPublish(s: State, week: int, run: RunId, x: Execution) {
    && IsPending(s, week, run) && Passes(week, run, x, x.gateNow) && Passes(week, run, x, x.now)
    && CanLock(s, week, x) && WeekIsFree(s, week, x) && AllKept(s.kpis, week, x.calculation.batch)
  }

  function Ended(run: RunId, status: RunStatus, commit: CommitResult): Reply { Replied(run, status, commit, 0, 0, 0, false) }

  /** How an undisturbed flow ends that cannot publish: the first condition that fails decides. */
  ghost function FlowRefusal(s: State, week: int, run: RunId, x: Execution): Reply {
    if !IsPending(s, week, run) then Raised("accepted run is missing, mismatched, or no longer pending")
    else if x.calculation.Failed? then Ended(run, FailedRetryable, NotAttempted)
    else if !Passes(week, run, x, x.gateNow) then Ended(run, BlockedQuality, NotAttempted)
    else if !(1 <= x.seconds <= 86_400) then Raised("lease_arguments")
    else if !CanLock(s, week, x) then Raised("lock_not_obtained")
    else if !WeekIsFree(s, week, x) then Ended(run, SkippedInProgress, NotAttempted)
    else if !Passes(week, run, x, x.now) then Ended(run, BlockedQuality, NotAttempted)
    else Ended(run, BlockedQuality, RolledBack)
  }

  lemma RefusalIsClear(s: State, week: int, run: RunId, x: Execution)
    ensures var reply := FlowRefusal(s, week, run, x);
      && !reply.Uncertain? && (reply.Replied? ==> reply.commit != CommitUncertain && !Success(reply.status))
  {
    hide IsPending, Passes, CanLock, WeekIsFree;
  }

  /** The flow ended with this reply, and an answer other than an error is what the run's record says. */
  ghost predicate EndedAs(s: State, s': State, week: int, run: RunId, reply: Reply, expected: Reply) {
    && reply == expected
    && s'.runs == (if reply.Replied? then s.runs[run := Run(week, reply.status, reply.commit)] else s.runs)
  }

  /** After the grant the coordinator meets the state the flow started from, with the week leased to this run. */
  ghost predicate Granted(s: State, s': State, week: int, run: RunId, x: Execution, claim: Option<Claim>) {
    && claim == Some(Claim(week, run, L.At(s.controls, week).token + 1, true))
    && s'.runs == s.runs && s'.kpis == s.kpis && s'.sessions == s.sessions && s'.clock == x.readings.expiring
    && week in s'.controls
    && s'.controls[week].owner == Some(run) && s'.controls[week].token == L.At(s.controls, week).token + 1
    && s'.controls[week].expiresAt == Some(x.readings.expiring + x.seconds * 1_000_000)
  }

  lemma GrantedState(s: State, week: int, run: RunId, x: Execution)
    requires CanLock(s, week, x) && WeekIsFree(s, week, x) && run in s.runs && s.runs[run].week == week && x.grantCommitted
    ensures Granted(s, Apply(s, Acquire(run, week, x.seconds, x.readings, true)), week, run, x,
      Some(Claim(week, run, L.At(s.controls, week).token + 1, true)))
  {
    hide Apply, S.Unlocked;
    S.AcquireExact(s, run, week, x.seconds, x.readings, true);
  }

  /** With the lease granted only the second reading of the gate and a disappeared key can refuse. */
  lemma AfterGrant(s: State, s': State, week: int, run: RunId, x: Execution, claim: Option<Claim>)
    requires Granted(s, s', week, run, x, claim) && CanLock(s, week, x) && IsPending(s, week, run) && x.calculation.Calculated?
    ensures var i := InputOf(week, run, x, claim, x.now);
      && (CanPublish(s', i) <==> Passes(week, run, x, x.now) && AllKept(s.kpis, week, x.calculation.batch))
      && (!CanPublish(s', i) ==>
            RefusalOf(s', i) == Ended(run, BlockedQuality, if Passes(week, run, x, x.now) then RolledBack else NotAttempted))
  {
    hide GateClear, CoverageSufficient, ValidBatch, S.Unlocked, Locked, Disappeared, AllKept;
    S.UnlockedExact(s, week);
    S.UnlockedExact(s', week);
    assert S.Unlocked(s', week) by { SameSessions(s, s', week); }
    DisappearedSpelled(s.kpis, week, x.calculation.batch);
    assert x.readings.expiring + x.seconds * 1_000_000 > x.readings.expiring;
  }

  lemma SameSessions(s: State, s': State, week: int)
    requires s'.sessions == s.sessions && S.Unlocked(s, week)
    ensures S.Unlocked(s', week)
  {
  }

  // ----- a flow that meets faults -----

  /** Nobody interferes; the databases may fail at any point. */
  ghost predicate FlowAlone(x: Execution) { (forall n :: x.others(n) == []) && Alone(x.call) }

  /** The flow closed the run itself, before the coordinator was called. */
  ghost predicate FlowClosed(s: State, s': State, week: int, run: RunId, x: Execution, reply: Reply, status: RunStatus) {
    && s'.kpis == s.kpis && s'.runs == RecordedAs(s.runs, run, Run(week, status, NotAttempted), x.fault)
    && if x.fault.Confirmed? then reply == Ended(run, status, NotAttempted) else reply.Raised?
  }

  /** What the attempt to lock and lease the week comes to. */
  ghost predicate LeaseAttempted(s: State, s': State, week: int, run: RunId, x: Execution, claim: Option<Claim>,
                                 stop: Option<Reply>) {
    if !CanLock(s, week, x) then stop.Some? && stop.value.Raised? && s' == s
    else if !WeekIsFree(s, week, x) then stop.Some? && FlowClosed(s, s', week, run, x, stop.value, SkippedInProgress)
    else if !x.grantCommitted then stop.Some? && stop.value.Raised? && s' == s.(clock := x.readings.expiring)
    else claim == Some(Claim(week, run, L.At(s.controls, week).token + 1, true)) && s' == Leasing(s, week, run, x)
  }

  /** The state with the week leased to the run. */
  ghost function Leasing(s: State, week: int, run: RunId, x: Execution): State {
    Apply(s, Acquire(run, week, x.seconds, x.readings, true))
  }

  /** Every way a flow can end that nobody disturbs, whatever the databases do to it. */
  ghost predicate FlowEndsAs(s: State, s': State, week: int, run: RunId, x: Execution, reply: Reply) {
    if !IsPending(s, week, run) then reply.Raised? && s' == s
    else if x.calculation.Failed? then FlowClosed(s, s', week, run, x, reply, FailedRetryable)
    else if !Passes(week, run, x, x.gateNow) then FlowClosed(s, s', week, run, x, reply, BlockedQuality)
    else if CanLock(s, week, x) && WeekIsFree(s, week, x) && x.grantCommitted then
      EndsAs(Leasing(s, week, run, x), s',
        InputOf(week, run, x, Some(Claim(week, run, L.At(s.controls, week).token + 1, true)), x.now), x.call, reply)
    else LeaseAttempted(s, s', week, run, x, None, Some(reply))
  }

  lemma NotCommitted(s: State, week: int, run: RunId, x: Execution)
    requires CanLock(s, week, x) && run in s.runs && s.runs[run].week == week
    ensures Apply(s, Acquire(run, week, x.seconds, x.readings, false)) == s.(clock := x.readings.expiring)
  {
    hide L.Free, L.Grant;
    S.UnlockedExact(s, week);
  }

  // ----- the flow -----

  /** The reply is a publication of this week under this run. */
  ghost predicate Publishes(s: State, id: nat, week: int, run: RunId, reply: Reply) {
    exists i :: Published(s, id, i, reply) && i.week == week && i.run == run
  }

  lemma PublishesReturned(s: State, id: nat, week: int, run: RunId, reply: Reply)
    requires Publishes(s, id, week, run, reply)
    ensures reply.Replied? && reply.run == run && reply.recorded && Success(reply.status) && reply.commit == Observed
    ensures id in s.sessions && s.sessions[id] == Returned(run, reply.status) && IsSuccess(s, run, reply.status)
  {
    hide Authorised, PublicationOf;
  }

  /** `acquire_lease_task`: the claim that is returned is the latest grant of the week; every other decision closes
      the run, or raises. */
  method AcquireLeaseTask(c: Coordinator, week: int, run: RunId, x: Execution)
    returns (claim: Option<Claim>, stop: Option<Reply>)
    requires c.Valid()
    modifies c
    ensures c.Valid() && SameSession(old(c.db), c.db, c.id) && old(c.db).commits <= c.db.commits
    ensures claim.Some? <==> stop.None?
    ensures stop.Some? ==> Unsuccessful(run, stop.value)
    ensures claim.Some? ==> claim.value.week == week && claim.value.run == run && claim.value.acquisitionCommitted
    ensures claim.Some? ==> claim.value.token >= 0
    ensures claim.Some? ==> LastGrant(c.db.grants, week) == Some(GrantRecord(week, run, claim.value.token))
    ensures SmoothFlow(x) && IsPending(old(c.db), week, run) && x.calculation.Calculated? && Passes(week, run, x, x.gateNow) ==>
      if CanLock(old(c.db), week, x) && WeekIsFree(old(c.db), week, x) then Granted(old(c.db), c.db, week, run, x, claim)
      else stop.Some? && EndedAs(old(c.db), c.db, week, run, stop.value, FlowRefusal(old(c.db), week, run, x))
    ensures FlowAlone(x) && IsPending(old(c.db), week, run) ==> LeaseAttempted(old(c.db), c.db, week, run, x, claim, stop)
  {
    hide Inv, Play, Apply, Undisturbed, Locked, L.Grant, L.Free, Passes, S.Unlocked, Smooth;
    c.Interfere(x.others(1), map[]);
    SessionKept(old(c.db), c.db, c.id, map[]);
    NothingPlayed(old(c.db), x.others(1));
    S.UnlockedExact(c.db, week);
    LeaseFree(c.db, week, run, x);
    if run in c.db.runs && c.db.runs[run].week == week && CanLock(c.db, week, x) && WeekIsFree(c.db, week, x) && x.grantCommitted {
      GrantedState(c.db, week, run, x);
    }
    if run in c.db.runs && c.db.runs[run].week == week && CanLock(c.db, week, x) { NotCommitted(c.db, week, run, x); }
    if run !in c.db.runs || c.db.runs[run].week != week || !(L.MIN_SECONDS <= x.seconds <= L.MAX_SECONDS) {
      return None, Some(Raised("lease_arguments"));
    }
    if Locked(c.db, week) || !Later(c.db, x.readings) { return None, Some(Raised("lock_not_obtained")); }
    var row := L.At(c.db.controls, week);
    if !L.Free(row, x.readings.locked) {
      var reply := c.FinishOther(run, c.db.runs[run].status, SkippedInProgress, NotAttempted, NotAttempted, x.fault);
      return None, Some(reply);
    }
    if L.Grant(row, run, x.seconds, x.readings).None? { return None, Some(Raised("transaction_uncertain")); }
    AcquireGrants(c.db, run, week, x, c.id);
    c.Perform(Acquire(run, week, x.seconds, x.readings, x.grantCommitted));
    if !x.grantCommitted { return None, Some(Raised("grant_not_committed")); }
    claim, stop := Some(Claim(week, run, row.token + 1, true)), None;
  }

  lemma LeaseFree(s: State, week: int, run: RunId, x: Execution)
    ensures L.Free(L.At(s.controls, week), x.readings.locked) <==> WeekIsFree(s, week, x)
    ensures WeekIsFree(s, week, x) && Later(s, x.readings) ==> L.Grant(L.At(s.controls, week), run, x.seconds, x.readings).Some?
  {
  }

  lemma AcquireGrants(s: State, run: RunId, week: int, x: Execution, id: nat)
    requires !Locked(s, week) && run in s.runs && s.runs[run].week == week && Later(s, x.readings)
    requires L.MIN_SECONDS <= x.seconds <= L.MAX_SECONDS
    requires L.Free(L.At(s.controls, week), x.readings.locked)
      && L.Grant(L.At(s.controls, week), run, x.seconds, x.readings).Some?
    ensures var s' := Apply(s, Acquire(run, week, x.seconds, x.readings, x.grantCommitted));
      && SameSession(s, s', id)
      && (x.grantCommitted ==>
            LastGrant(s'.grants, week) == Some(GrantRecord(week, run, L.At(s.controls, week).token + 1)))
  {
    hide Locked, L.Grant, L.Free;
  }

  /** `publish_weekly_business_report_flow` after `create_run_task` accepted the run. */
  method WeeklyPerformanceFlow(c: Coordinator, week: int, run: RunId, x: Execution) returns (reply: Reply)
    requires c.Valid() && c.id !in c.db.sessions
    modifies c
    ensures c.Valid() && old(c.db).commits <= c.db.commits && !OpenAt(c.db, c.id)
    ensures Publishes(c.db, c.id, week, run, reply) || (c.id !in c.db.sessions && Unsuccessful(run, reply))
    ensures SmoothFlow(x) ==>
      if FlowCanPublish(old(c.db), week, run, x)
      then Publishes(c.db, c.id, week, run, reply) && CountsAre(old(c.db).kpis, x.calculation.batch, reply)
      else EndedAs(old(c.db), c.db, week, run, reply, FlowRefusal(old(c.db), week, run, x))
    ensures FlowAlone(x) ==> FlowEndsAs(old(c.db), c.db, week, run, x, reply)
  {
    hide Inv, Play, Apply, Undisturbed, Authorised, Published, Smooth, CanPublish, S.Unlocked, RefusalOf, CountsAre, Alone,
      EndsAs, Leasing;
    c.Interfere(x.others(0), map[]);
    SessionKept(old(c.db), c.db, c.id, map[]);
    NothingPlayed(old(c.db), x.others(0));
    if run !in c.db.runs || c.db.runs[run].week != week || !c.db.runs[run].status.Pending? {
      return Raised("accepted run is missing, mismatched, or no longer pending");
    }
    if x.calculation.Failed? {
      reply := c.FinishOther(run, Pending, FailedRetryable, NotAttempted, NotAttempted, x.fault);
      return;
    }
    if !Authorised(InputOf(week, run, x, None, x.gateNow)) {
      reply := c.FinishOther(run, Pending, BlockedQuality, NotAttempted, NotAttempted, x.fault);
      return;
    }
    reply := LeaseAndPublish(c, week, run, x);
  }

  /** The lease task and the publication task, for a pending run whose batch passes the gate. */
  method LeaseAndPublish(c: Coordinator, week: int, run: RunId, x: Execution) returns (reply: Reply)
    requires c.Valid() && c.id !in c.db.sessions
    requires IsPending(c.db, week, run) && x.calculation.Calculated? && Passes(week, run, x, x.gateNow)
    modifies c
    ensures c.Valid() && old(c.db).commits <= c.db.commits && !OpenAt(c.db, c.id)
    ensures Publishes(c.db, c.id, week, run, reply) || (c.id !in c.db.sessions && Unsuccessful(run, reply))
    ensures SmoothFlow(x) ==>
      if FlowCanPublish(old(c.db), week, run, x)
      then Publishes(c.db, c.id, week, run, reply) && CountsAre(old(c.db).kpis, x.calculation.batch, reply)
      else EndedAs(old(c.db), c.db, week, run, reply, FlowRefusal(old(c.db), week, run, x))
    ensures FlowAlone(x) ==> FlowEndsAs(old(c.db), c.db, week, run, x, reply)
  {
    hide Inv, Play, Apply, Undisturbed, Authorised, Published, Smooth, CanPublish, S.Unlocked, RefusalOf, CountsAre, Alone,
      EndsAs, Leasing;
    ghost var start := c.db;
    var claim, stop := AcquireLeaseTask(c, week, run, x);
    if stop.Some? { return stop.value; }
    var i := InputOf(week, run, x, claim, x.now);
    if SmoothFlow(x) && CanLock(start, week, x) { AfterGrant(start, c.db, week, run, x, claim); }
    reply := c.PublishWeekTask(i, x.call);
  }
}
