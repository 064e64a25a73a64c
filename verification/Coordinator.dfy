/** One coordinator publishing a week while any other steps of the protocol run in between. */
module Coordinator {
  import opened Basics
  import opened Identifiers
  import opened Vocabulary
  import opened WeeklyPerformance
  import opened WeeklyUpsert
  import opened QualityGate
  import opened PublicationProtocol
  import opened PublicationSafety
  import L = Lease
  import PS = PublicationSteps

  // ----- inputs -----

  datatype Claim = Claim(week: int, run: RunId, token: int, acquisitionCommitted: bool)

  datatype CoverageSource = SyntheticFixture | OperationalCheckpoints | OtherSource(name: string)

  datatype Coverage = Coverage(
    source: CoverageSource, lookupComplete: bool, confirmed: set<EventType>, pairs: seq<(string, string)>)

  const REQUIRED_EVENTS := {StockThresholdTriggered, InventoryDiscrepancyDetected}

  /** `_coverage_issues` finds nothing: a known source, the required events confirmed, one order for each dispatch. */
  predicate CoverageSufficient(c: Coverage) {
    && !c.source.OtherSource? && c.lookupComplete && REQUIRED_EVENTS <= c.confirmed
    && (forall i :: 0 <= i < |c.pairs| ==> c.pairs[i].0 != "" && c.pairs[i].1 != "")
    && (forall i, j :: 0 <= i < j < |c.pairs| ==> c.pairs[i].0 != c.pairs[j].0)
  }

  datatype Input = Input(
    week: int, run: RunId, batch: seq<Aggregate>, quality: Option<Result>, coverage: Option<Coverage>,
    fingerprint: string, fingerprintComplete: bool, rules: string, claim: Option<Claim>, now: int)

  /** `_pre_write_issues` finds nothing. */
  predicate Authorised(i: Input) {
    && ValidBatch(i.week, i.batch, i.now) && i.quality.Some? && GateClear(i.quality.value)
    && i.coverage.Some? && CoverageSufficient(i.coverage.value) && i.fingerprintComplete && !Blank(i.rules)
  }

  /** `_durable_claim` */
  predicate DurableClaim(i: Input) {
    i.claim.Some? && i.claim.value.acquisitionCommitted && i.claim.value.week == i.week && i.claim.value.run == i.run
    && i.claim.value.token >= 0
  }

  /** Coverage is sufficient with one of the two known sources, a complete lookup, the two required event types, and
      non-empty pairs without a repeated dispatch. */
  lemma CoverageExact(c: Coverage)
    ensures CoverageSufficient(c) <==>
      && c.source in {SyntheticFixture, OperationalCheckpoints} && c.lookupComplete
      && StockThresholdTriggered in c.confirmed && InventoryDiscrepancyDetected in c.confirmed
      && (forall i :: 0 <= i < |c.pairs| ==> |c.pairs[i].0| > 0 && |c.pairs[i].1| > 0)
      && |set i | 0 <= i < |c.pairs| :: c.pairs[i].0| == |c.pairs|
  {
    FirstsCount(c.pairs);
    assert REQUIRED_EVENTS <= c.confirmed <==>
      StockThresholdTriggered in c.confirmed && InventoryDiscrepancyDetected in c.confirmed;
  }

  function Firsts(pairs: seq<(string, string)>): set<string> { set i | 0 <= i < |pairs| :: pairs[i].0 }

  lemma {:induction false} FirstsCount(pairs: seq<(string, string)>)
    ensures |Firsts(pairs)| <= |pairs|
    ensures |Firsts(pairs)| == |pairs| <==> forall i, j :: 0 <= i < j < |pairs| ==> pairs[i].0 != pairs[j].0
  {
    if pairs != [] {
      var front, last := pairs[..|pairs| - 1], pairs[|pairs| - 1].0;
      FirstsCount(front);
      assert Firsts(pairs) == Firsts(front) + {last};
      if last in Firsts(front) {
        assert Firsts(pairs) == Firsts(front);
        var i :| 0 <= i < |front| && front[i].0 == last;
        assert pairs[i].0 == pairs[|pairs| - 1].0;
      } else {
        forall i, j | 0 <= i < j < |pairs| && (forall a, b :: 0 <= a < b < |front| ==> front[a].0 != front[b].0)
          ensures pairs[i].0 != pairs[j].0
        {
          if j < |front| { assert front[i].0 != front[j].0; } else { assert front[i].0 in Firsts(front); }
        }
        if forall i, j :: 0 <= i < j < |pairs| ==> pairs[i].0 != pairs[j].0 {
          forall i, j | 0 <= i < j < |front| ensures front[i].0 != front[j].0 { assert pairs[i].0 != pairs[j].0; }
        }
      }
    }
  }

  /** The input is authorised exactly when nothing is wrong with the batch, the report blocks nowhere and confirms its
      coverage, the coverage is sufficient, the fingerprint is complete and the rules version has a visible character. */
  lemma AuthorisedExact(i: Input)
    ensures Authorised(i) <==>
      && (forall issue :: !BatchWrong(i.week, i.batch, i.now, issue))
      && i.quality.Some? && i.quality.value.coverageConfirmed
      && (forall q :: q in i.quality.value.issues ==>
            q.code !in {IntegerOverflow, InvalidRowId, ValidationFailed, RowIdConflict})
      && i.quality.value.conflicts == {} && i.quality.value.pending == {}
      && i.coverage.Some? && CoverageSufficient(i.coverage.value)
      && i.fingerprintComplete && exists c :: c in i.rules && !IsSpace(c)
  {
    BatchExact(i.week, i.batch, i.now);
    hide ValidBatch, BatchWrong, CoverageSufficient, IsSpace;
  }

  // ----- the environment -----

  datatype OperationalFault = Confirmed | Lost(applied: bool)

  /** What the databases do at each point of one call; `others(n)` are the steps of everybody else before point `n`. */
  datatype Environment = Environment(
    others: nat -> seq<Step>, verifyFails: bool, mark: MarkOutcome, stage: StageOutcome, metadataFails: bool,
    commit: CommitOutcome, finish: OperationalFault)

  /** Staging may be blocked by an unreadable snapshot, or fail with its rollback observed or not. */
  datatype StageOutcome = StageRuns | StageBlocked | StageFails(observed: bool)

  datatype Reply =
    | Raised(code: string)
    | Replied(run: RunId, status: RunStatus, commit: CommitResult, inserted: nat, updated: nat, same: nat, recorded: bool)
    | Uncertain(run: RunId, commit: CommitResult)

  /** A call that nobody disturbs; the databases may fail at any of its points. */
  ghost predicate Alone(env: Environment) { forall n :: env.others(n) == [] }

  /** A call that nobody disturbs and that meets no fault. */
  ghost predicate Smooth(env: Environment) {
    && Alone(env) && !env.verifyFails && env.mark.MarkedOk? && env.stage.StageRuns?
    && !env.metadataFails && env.commit.CommitSeen? && env.finish.Confirmed?
  }

  /** What a call needs: a complete input, a pending run, a lease in force, and no published key left out. */
  ghost predicate CanPublish(s: State, i: Input) { Leased(s, i) && Disappeared(s.kpis, i.week, i.batch) == {} }

  ghost predicate Leased(s: State, i: Input) {
    && Authorised(i) && DurableClaim(i) && i.run in s.runs && s.runs[i.run].week == i.week && s.runs[i.run].status.Pending?
    && !Locked(s, i.week) && i.week in s.controls && L.Holds(s.controls[i.week], i.run, i.claim.value.token, s.clock)
  }

  ghost predicate Markable(s: State, i: Input) {
    i.run in s.runs && s.runs[i.run].week == i.week && s.runs[i.run].status.Pending?
  }

  ghost predicate Underway(s: State, i: Input) {
    i.run in s.runs && s.runs[i.run].week == i.week && s.runs[i.run].status.Running?
  }

  function Closed(i: Input, status: RunStatus, commit: CommitResult): Reply { Replied(i.run, status, commit, 0, 0, 0, false) }

  /** How an undisturbed call ends that cannot publish: the first condition that fails decides. */
  ghost function RefusalOf(s: State, i: Input): Reply {
    if i.run !in s.runs then Raised("run_not_found")
    else if s.runs[i.run].week != i.week then Raised("week_mismatch")
    else if s.runs[i.run].status != Pending then Raised("status_conflict")
    else if !Authorised(i) then Closed(i, BlockedQuality, NotAttempted)
    else if i.claim.None? || i.claim.value.token < 0 || i.claim.value != Claim(i.week, i.run, i.claim.value.token, true)
    then Closed(i, Superseded, NotAttempted)
    else if Locked(s, i.week) then Closed(i, FailedRetryable, NotAttempted)
    else if !Leased(s, i) then
      Closed(i, if L.At(s.controls, i.week).owner in {None, Some(i.run)} then Superseded else SkippedInProgress, NotAttempted)
    else Closed(i, BlockedQuality, RolledBack)
  }

  lemma RefusesLease(s: State, i: Input)
    requires Authorised(i) && DurableClaim(i) && Markable(s, i) && !Leased(s, i)
    ensures RefusalOf(s, i) == if Locked(s, i.week) then Closed(i, FailedRetryable, NotAttempted) else
      Closed(i, if L.At(s.controls, i.week).owner in {None, Some(i.run)} then Superseded else SkippedInProgress, NotAttempted)
  {
    hide Authorised, Locked, L.Holds;
  }

  lemma LockedIsNotLeased(s: State, i: Input)
    ensures Locked(s, i.week) ==> !Leased(s, i)
    ensures CanPublish(s, i) ==> Leased(s, i)
    ensures Leased(s, i) ==> Markable(s, i) && Authorised(i) && DurableClaim(i)
  {
    hide Authorised, Locked, L.Holds;
  }

  lemma RefusesRows(s: State, i: Input)
    requires Leased(s, i)
    ensures RefusalOf(s, i) == Closed(i, BlockedQuality, RolledBack)
    ensures i.run in s.runs && s.runs[i.run].week == i.week
  {
    hide Authorised, Locked, L.Holds;
  }

  /** The call ended that way, and the run's record has the answered status. Of a verification that failed the record
      says that the commit is uncertain, while the answer says that none was attempted. */
  ghost predicate RefusedAs(s: State, s': State, i: Input, reply: Reply) {
    && reply == RefusalOf(s, i)
    && s'.runs == (if reply.Replied? then s.runs[i.run := Run(i.week, reply.status,
         if reply.status == FailedRetryable then CommitUncertain else reply.commit)] else s.runs)
  }

  // ----- how a call ends that meets faults -----

  /** The run's record after its last transaction, unless that transaction was lost. */
  function RecordedAs(runs: map<RunId, Run>, run: RunId, record: Run, fault: OperationalFault): map<RunId, Run> {
    if fault == Lost(false) then runs else runs[run := record]
  }

  /** The call wrote no row and closed its run with this status; the answer is an error when the record's own
      transaction was not confirmed. */
  ghost predicate ClosedAs(s: State, s': State, i: Input, reply: Reply, status: RunStatus, record: CommitResult,
                           answer: CommitResult, fault: OperationalFault) {
    && s'.kpis == s.kpis && s'.runs == RecordedAs(s.runs, i.run, Run(i.week, status, record), fault)
    && if fault.Confirmed? then reply == Closed(i, status, answer) else reply.Raised?
  }

  ghost predicate RaisedWith(s: State, s': State, reply: Reply, code: string) {
    reply == Raised(code) && s'.runs == s.runs && s'.kpis == s.kpis
  }

  /** What makes a call end before its mark: the first condition that holds decides. */
  ghost predicate EndsEarly(s: State, s': State, i: Input, env: Environment, reply: Reply) {
    if i.run !in s.runs then RaisedWith(s, s', reply, "run_not_found")
    else if s.runs[i.run].week != i.week then RaisedWith(s, s', reply, "week_mismatch")
    else if s.runs[i.run].status != Pending then RaisedWith(s, s', reply, "status_conflict")
    else if !Authorised(i) then ClosedAs(s, s', i, reply, BlockedQuality, NotAttempted, NotAttempted, env.finish)
    else if !DurableClaim(i) then ClosedAs(s, s', i, reply, Superseded, NotAttempted, NotAttempted, env.finish)
    else if env.verifyFails || Locked(s, i.week)
    then ClosedAs(s, s', i, reply, FailedRetryable, CommitUncertain, NotAttempted, env.finish)
    else ClosedAs(s, s', i, reply, if L.At(s.controls, i.week).owner in {None, Some(i.run)} then Superseded else SkippedInProgress,
      NotAttempted, NotAttempted, env.finish)
  }

  /** The mark is refused or lost; of a lost one the run keeps what the database applied. */
  ghost predicate MarkFailed(s: State, s': State, i: Input, env: Environment, reply: Reply) {
    && reply.Raised? && s'.kpis == s.kpis
    && s'.runs == if env.mark == MarkLost(true) then s.runs[i.run := Run(i.week, Running, Uncommitted)] else s.runs
  }

  ghost predicate NowRunning(s: State, s': State, i: Input) {
    s'.kpis == s.kpis && s'.runs == s.runs[i.run := Run(i.week, Running, Uncommitted)]
  }

  /** The first part of a call that nobody disturbs: it is under way exactly when the lease is in force, the
      verification answers and the mark is confirmed. */
  ghost predicate Begun(s: State, s': State, i: Input, env: Environment, stop: Option<Reply>) {
    if !Leased(s, i) || env.verifyFails then stop.Some? && EndsEarly(s, s', i, env, stop.value)
    else if !env.mark.MarkedOk? then stop.Some? && MarkFailed(s, s', i, env, stop.value)
    else stop.None? && Underway(s', i) && NowRunning(s, s', i)
  }

  /** The rows are staged exactly when staging runs and loses no published key. */
  ghost predicate RowsWritten(s: State, s': State, i: Input, env: Environment, stop: Option<Reply>) {
    match env.stage
    case StageBlocked => stop.Some? && ClosedAs(s, s', i, stop.value, BlockedQuality, RolledBack, RolledBack, env.finish)
    case StageFails(observed) =>
      var commit := if observed then RolledBack else CommitUncertain;
      stop.Some? && ClosedAs(s, s', i, stop.value, FailedRetryable, commit, commit, env.finish)
    case StageRuns =>
      if Disappeared(s.kpis, i.week, i.batch) == {}
      then stop.None? && Underway(s', i) && s'.runs == s.runs && s'.kpis == s.kpis
      else stop.Some? && ClosedAs(s, s', i, stop.value, BlockedQuality, RolledBack, RolledBack, env.finish)
  }

  ghost predicate PointerWritten(s: State, s': State, i: Input, env: Environment, stop: Option<Reply>) {
    if env.metadataFails
    then stop.Some? && ClosedAs(s, s', i, stop.value, FailedRetryable, RolledBack, RolledBack, env.finish)
    else stop.None? && Underway(s', i) && s'.runs == s.runs && s'.kpis == s.kpis
  }

  predicate TookEffect(outcome: CommitOutcome) { outcome.CommitSeen? || outcome == CommitLost(true) }

  /** What the commit leaves: its rows exactly if it took effect, and a record that says no more than the coordinator
      observed. */
  ghost predicate Concluded(s: State, s': State, i: Input, env: Environment, reply: Reply) {
    && s'.kpis == (if TookEffect(env.commit) then s.kpis + RowsOf(i.batch) else s.kpis)
    && var uncertain := if env.commit.CommitLost? then CommitUncertain else RolledBack;
       match env.commit
       case CommitSeen => SuccessRecorded(s, s', i, env, reply)
       case _ =>
         && s'.runs == RecordedAs(s.runs, i.run, Run(i.week, Running, uncertain), env.finish)
         && if env.finish.Confirmed? then reply == Uncertain(i.run, uncertain) else reply.Raised?
  }

  /** After an observed commit the run succeeds; without a new or changed row it is a no-op. */
  ghost predicate SuccessRecorded(s: State, s': State, i: Input, env: Environment, reply: Reply) {
    var status := if PS.Unchanged(s.kpis, i.batch) then SucceededNoop else Succeeded;
    && s'.runs == RecordedAs(s.runs, i.run, Run(i.week, status, Observed), env.finish)
    && if env.finish.Confirmed? then reply.Replied? && reply.status == status && reply.recorded else reply.Raised?
  }

  /** Every way a call can end that nobody disturbs, whatever the databases do to it: its answer, the run's record and
      the reported rows. */
  ghost predicate EndsAs(s: State, s': State, i: Input, env: Environment, reply: Reply) {
    if !Leased(s, i) || env.verifyFails then EndsEarly(s, s', i, env, reply)
    else if !env.mark.MarkedOk? then MarkFailed(s, s', i, env, reply)
    else Written(s.(runs := s.runs[i.run := Run(i.week, Running, Uncommitted)]), s', i, env, reply)
  }

  /** How the call ends after its mark. */
  ghost predicate Written(s: State, s': State, i: Input, env: Environment, reply: Reply) {
    if !env.stage.StageRuns? || Disappeared(s.kpis, i.week, i.batch) != {} then RowsWritten(s, s', i, env, Some(reply))
    else if env.metadataFails then PointerWritten(s, s', i, env, Some(reply))
    else Concluded(s, s', i, env, reply)
  }

  /** The coordinator a step belongs to. */
  function Actor(step: Step): Option<nat> {
    match step
    case Verify(id, _, _, _, _, _, _, _) => Some(id)
    case MarkRunning(id, _) => Some(id)
    case Stage(id) => Some(id)
    case Point(id) => Some(id)
    case ReleaseLease(id) => Some(id)
    case Commit(id, _) => Some(id)
    case Crash(id) => Some(id)
    case Finish(id) => Some(id)
    case Observe(id) => Some(id)
    case _ => None
  }

  // ----- what others leave alone -----

  predicate SameSession(s: State, s': State, id: nat) {
    (id in s.sessions <==> id in s'.sessions) && (id in s.sessions ==> s'.sessions[id] == s.sessions[id])
  }

  lemma OthersKeepSession(s: State, step: Step, id: nat)
    requires Actor(step) != Some(id)
    ensures SameSession(s, Apply(s, step), id)
  {
    hide RowsOf, Disappeared, ValidBatch, Locked, L.Free, L.Holds, Recognised, ChangesNothing;
  }

  /** The week of an open transaction, as it was when `rows` were read. */
  predicate Frozen(s: State, id: nat, rows: Table) {
    id in s.sessions && s.sessions[id].Open? && WeekOf(s.kpis, s.sessions[id].txn.week) == rows
  }

  lemma FrozenStays(s: State, step: Step, id: nat, rows: Table)
    requires Inv(s) && Frozen(s, id, rows) && Actor(step) != Some(id)
    ensures Frozen(Apply(s, step), id, rows)
  {
    OthersKeepSession(s, step, id);
    OpenWeekIsFrozen(s, step, id);
  }

  lemma SameCounts(s: State, rows: Table, week: int, batch: seq<Aggregate>)
    requires WeekOf(s.kpis, week) == rows && forall a :: a in batch ==> a.key.week == week
    ensures InsertedKeys(s.kpis, RowsOf(batch)) == InsertedKeys(rows, RowsOf(batch))
    ensures UpdatedKeys(s.kpis, RowsOf(batch)) == UpdatedKeys(rows, RowsOf(batch))
    ensures UnchangedKeys(s.kpis, RowsOf(batch)) == UnchangedKeys(rows, RowsOf(batch))
  {
    SnapshotClassifies(s.kpis, week, batch);
  }

  /** What a run of other coordinators' steps leaves of this one's world. */
  ghost predicate Undisturbed(s: State, s': State, id: nat, rows: Table) {
    SameSession(s, s', id) && (Frozen(s, id, rows) ==> Frozen(s', id, rows)) && s.commits <= s'.commits
  }

  lemma StepUndisturbed(start: State, s: State, step: Step, id: nat, rows: Table)
    requires Inv(s) && Undisturbed(start, s, id, rows) && Actor(step) != Some(id)
    ensures Undisturbed(start, Apply(s, step), id, rows)
  {
    hide Inv, Apply, Frozen;
    OthersKeepSession(s, step, id);
    StepCommits(s, step, 0);
    if Frozen(s, id, rows) { FrozenStays(s, step, id, rows); }
  }

  function TxnOf(i: Input, phase: Phase): Txn
    requires DurableClaim(i)
  {
    Txn(i.run, i.week, i.claim.value.token, i.batch, i.fingerprint, i.rules, i.now, phase)
  }

  predicate InTxn(s: State, id: nat, txn: Txn) { id in s.sessions && s.sessions[id] == Open(txn) }

  predicate Unsuccessful(run: RunId, reply: Reply) {
    && (reply.Replied? ==> reply.run == run && !Success(reply.status) && !reply.recorded)
    && (reply.Uncertain? ==> reply.run == run)
  }

  predicate OpenAt(s: State, id: nat) { id in s.sessions && s.sessions[id].Open? }

  // ----- the one way to leave the transaction open -----

  /** Step `n` of a run is this call's mark, under a verified lease, and it is refused or fails. */
  ghost predicate RefusedAt(origin: State, trace: seq<Step>, n: nat, id: nat, i: Input, mark: MarkOutcome)
    requires n < |trace|
  {
    && trace[n] == MarkRunning(id, mark) && DurableClaim(i)
    && InTxn(Play(origin, trace[..n]), id, TxnOf(i, LeaseChecked)) && MarkRefused(Play(origin, trace[..n]), i.run, mark)
  }

  ghost predicate RefusedSince(origin: State, trace: seq<Step>, from: nat, id: nat, i: Input, mark: MarkOutcome) {
    exists n :: from <= n < |trace| && RefusedAt(origin, trace, n, id, i, mark)
  }

  /** The run went on without a mark of this coordinator. */
  ghost predicate Quiet(before: seq<Step>, after: seq<Step>, id: nat) {
    before <= after && forall n :: |before| <= n < |after| ==> !(after[n].MarkRunning? && after[n].id == id)
  }

  lemma QuietKeeps(origin: State, before: seq<Step>, after: seq<Step>, from: nat, id: nat, i: Input, mark: MarkOutcome)
    requires Quiet(before, after, id) && from <= |before|
    ensures RefusedSince(origin, after, from, id, i, mark) <==> RefusedSince(origin, before, from, id, i, mark)
  {
    hide MarkRefused, Play;
    assert forall n :: 0 <= n < |before| ==> after[n] == before[n] && after[..n] == before[..n];
    forall n | from <= n < |before| ensures RefusedAt(origin, before, n, id, i, mark) <==> RefusedAt(origin, after, n, id, i, mark) {}
  }

  lemma MarkDecides(origin: State, trace: seq<Step>, from: nat, s: State, id: nat, i: Input, mark: MarkOutcome)
    requires from <= |trace| && Quiet(trace[..from], trace, id) && s == Play(origin, trace) && DurableClaim(i)
    requires InTxn(s, id, TxnOf(i, LeaseChecked))
    ensures RefusedSince(origin, trace + [MarkRunning(id, mark)], from, id, i, mark) <==> MarkRefused(s, i.run, mark)
  {
    hide MarkRefused, Play;
    var after := trace + [MarkRunning(id, mark)];
    assert after[..|trace|] == trace;
    assert forall n :: from <= n < |trace| ==> after[n] == trace[n];
    if MarkRefused(s, i.run, mark) { assert RefusedAt(origin, after, |trace|, id, i, mark); }
  }

  lemma VerifyOpens(s: State, id: nat, txn: Txn)
    requires txn.phase.LeaseChecked?
    ensures var s' := Apply(s, Verify(id, txn.run, txn.week, txn.token, txn.batch, txn.fingerprint, txn.rules, txn.now));
      id !in s.sessions ==> id !in s'.sessions || InTxn(s', id, txn)
  {
    hide ValidBatch, Locked, L.Holds;
  }

  lemma VerifyPasses(s: State, id: nat, i: Input)
    requires Leased(s, i) && id !in s.sessions
    ensures var s' := Apply(s, Verify(id, i.run, i.week, i.claim.value.token, i.batch, i.fingerprint, i.rules, i.now));
      id in s'.sessions && Markable(s', i) && s'.kpis == s.kpis && s'.runs == s.runs
  {
    hide ValidBatch, Locked, L.Holds, GateClear, CoverageSufficient;
  }

  lemma VerifyRefuses(s: State, id: nat, i: Input)
    requires !Leased(s, i) && id !in s.sessions && Authorised(i) && DurableClaim(i) && Markable(s, i)
    ensures var s' := Apply(s, Verify(id, i.run, i.week, i.claim.value.token, i.batch, i.fingerprint, i.rules, i.now)); s' == s
  {
    hide ValidBatch, Locked, L.Holds, GateClear, CoverageSufficient;
  }

  /** The mark takes effect, or the call ends with it. */
  ghost predicate Tried(s: State, s': State, i: Input, env: Environment, stop: Option<Reply>) {
    if env.mark.MarkedOk? then stop.None? && Underway(s', i) && NowRunning(s, s', i)
    else stop.Some? && MarkFailed(s, s', i, env, stop.value)
  }

  lemma MarkTried(s: State, id: nat, i: Input, mark: MarkOutcome)
    requires DurableClaim(i) && InTxn(s, id, TxnOf(i, LeaseChecked)) && Markable(s, i)
    ensures var s' := Apply(s, MarkRunning(id, mark));
      && s'.kpis == s.kpis && (mark.MarkedOk? ==> id in s'.sessions && Underway(s', i))
      && (mark.MarkFails? <==> MarkRefused(s, i.run, mark))
      && (mark.MarkLost? ==> id !in s'.sessions)
      && s'.runs == if mark == MarkedOk || mark == MarkLost(true) then s.runs[i.run := Run(i.week, Running, Uncommitted)]
         else s.runs
  {
  }

  lemma BegunMarked(s: State, s': State, i: Input, env: Environment, stop: Option<Reply>)
    requires Leased(s, i) && !env.verifyFails && Tried(s, s', i, env, stop)
    ensures Begun(s, s', i, env, stop)
  {
    hide Leased, MarkFailed, Underway;
  }

  lemma BegunRefused(s: State, s': State, i: Input, env: Environment, stop: Option<Reply>)
    requires Authorised(i) && DurableClaim(i) && Markable(s, i) && (!Leased(s, i) || env.verifyFails) && stop.Some?
    requires var locked, owner := env.verifyFails || Locked(s, i.week), L.At(s.controls, i.week).owner;
      ClosedAs(s, s', i, stop.value,
        if locked then FailedRetryable else if owner.Some? && owner != Some(i.run) then SkippedInProgress else Superseded,
        if locked then CommitUncertain else NotAttempted, NotAttempted, env.finish)
    ensures Begun(s, s', i, env, stop)
  {
    hide Authorised, Leased, Locked, ClosedAs;
  }

  /** The steps between the mark and the commit refuse nothing that the mark allowed. */
  lemma StepsPass(s: State, id: nat, i: Input, step: Step)
    requires Underway(s, i)
    requires step == Stage(id) || step == Point(id) || step == ReleaseLease(id)
    ensures Underway(Apply(s, step), i) && Apply(s, step).runs == s.runs && Apply(s, step).kpis == s.kpis
    ensures step.Stage? && DurableClaim(i) && InTxn(s, id, TxnOf(i, Marked)) ==>
      (id in Apply(s, step).sessions <==> Disappeared(s.kpis, i.week, i.batch) == {})
  {
    hide Disappeared;
  }

  lemma CommitKeepsRuns(s: State, id: nat, i: Input, outcome: CommitOutcome)
    requires DurableClaim(i) && InTxn(s, id, TxnOf(i, LeaseReleased))
    ensures var s' := Apply(s, Commit(id, outcome));
      && s'.runs == s.runs && s'.kpis == (if TookEffect(outcome) then s.kpis + RowsOf(i.batch) else s.kpis)
      && id in s'.sessions
      && (!outcome.CommitSeen? ==>
            s'.sessions[id] == Unsure(i.run, if outcome.CommitLost? then CommitUncertain else RolledBack))
  {
    hide RowsOf, ChangesNothing;
  }

  /** A refused mark changes nothing and leaves the lock; a mark whose commit is lost is rolled back. */
  lemma MarkOpens(s: State, id: nat, mark: MarkOutcome)
    requires InPhase(s, id, LeaseChecked)
    ensures var s', txn := Apply(s, MarkRunning(id, mark)), s.sessions[id].txn;
      if MarkRefused(s, txn.run, mark) then s' == s
      else if mark.MarkLost? then id !in s'.sessions
      else InTxn(s', id, txn.(phase := Marked))
  {
  }

  lemma StageOpens(s: State, id: nat)
    requires InPhase(s, id, Marked)
    ensures var s', txn := Apply(s, Stage(id)), s.sessions[id].txn;
      && (id !in s'.sessions || InTxn(s', id, txn.(phase := RowsStaged)))
      && (id in s'.sessions ==> Frozen(s', id, WeekOf(s.kpis, txn.week)))
  {
    hide Disappeared, WeekOf;
  }

  lemma PointOpens(s: State, id: nat, rows: Table)
    requires InPhase(s, id, RowsStaged) && Frozen(s, id, rows)
    ensures InTxn(Apply(s, Point(id)), id, s.sessions[id].txn.(phase := Pointed)) && Frozen(Apply(s, Point(id)), id, rows)
  {
    hide WeekOf;
  }

  /** The branch for a rejected release is never taken. */
  lemma ReleaseOpens(s: State, id: nat, rows: Table)
    requires Inv(s) && InPhase(s, id, Pointed) && Frozen(s, id, rows)
    ensures InTxn(Apply(s, ReleaseLease(id)), id, s.sessions[id].txn.(phase := LeaseReleased))
    ensures Frozen(Apply(s, ReleaseLease(id)), id, rows)
  {
    hide WeekOf, Inv;
    ReleaseNeverRejected(s, id);
  }

  function CountOf(rows: Table, batch: seq<Aggregate>): Staging {
    Staged(|InsertedKeys(rows, RowsOf(batch))|, |UpdatedKeys(rows, RowsOf(batch))|, |UnchangedKeys(rows, RowsOf(batch))|)
  }

  /** The counts classify the batch against the rows of the week. */
  ghost predicate IsCount(counts: Staging, rows: Table, batch: seq<Aggregate>) { counts == CountOf(rows, batch) }

  /** The counts tell the rows of the batch that are new, that change a stored row, and that repeat one. */
  ghost predicate CountsAre(kpis: Table, batch: seq<Aggregate>, reply: Reply) {
    && reply.Replied?
    && reply.inserted == |set k | k in KeysIn(batch) && k !in kpis|
    && reply.updated == |set k | k in KeysIn(batch) && k in kpis && kpis[k] != RowsOf(batch)[k]|
    && reply.same == |set k | k in KeysIn(batch) && k in kpis && kpis[k] == RowsOf(batch)[k]|
  }

  lemma CountsOfWeek(kpis: Table, week: int, batch: seq<Aggregate>, counts: Staging, reply: Reply)
    requires IsCount(counts, WeekOf(kpis, week), batch) && forall a :: a in batch ==> a.key.week == week
    requires reply.Replied? && counts == Staged(reply.inserted, reply.updated, reply.same)
    ensures CountsAre(kpis, batch, reply)
  {
    hide RowsOf, WeekOf, InsertedKeys, UpdatedKeys, UnchangedKeys, KeysIn;
    SnapshotClassifies(kpis, week, batch);
    InsertedSpelled(kpis, batch);
    UpdatedSpelled(kpis, batch);
    UnchangedSpelled(kpis, batch);
  }

  lemma AuthorisedWeek(i: Input)
    requires Authorised(i)
    ensures forall a :: a in i.batch ==> a.key.week == i.week
  {
    hide GateClear, CoverageSufficient;
  }

  lemma CountIsExact(rows: Table, batch: seq<Aggregate>)
    ensures IsCount(CountOf(rows, batch), rows, batch)
  {
  }

  lemma CrashCloses(s: State, id: nat)
    ensures id !in Apply(s, Crash(id)).sessions
  {
  }

  lemma CrashKeepsRuns(s: State, id: nat)
    ensures Apply(s, Crash(id)).runs == s.runs && Apply(s, Crash(id)).kpis == s.kpis
  {
  }

  lemma CommitEnds(s: State, id: nat, i: Input, outcome: CommitOutcome, counts: Staging, rows: Table)
    requires Inv(s) && DurableClaim(i) && Authorised(i) && InTxn(s, id, TxnOf(i, LeaseReleased)) && Frozen(s, id, rows)
    requires IsCount(counts, rows, i.batch)
    ensures counts.Staged?
    ensures var s' := Apply(s, Commit(id, outcome));
      && id in s'.sessions
      && (outcome.CommitSeen? ==>
            && s'.sessions[id] == Done(i.run, counts.inserted == 0 && counts.updated == 0)
            && CommitRecord(i.week, i.run, i.batch, PublicationOf(TxnOf(i, LeaseReleased))) in s'.commits)
      && (!outcome.CommitSeen? ==> s'.sessions[id].Unsure?)
    ensures counts.inserted + counts.updated + counts.same == |i.batch|
    ensures counts.inserted == 0 && counts.updated == 0 <==> PS.Unchanged(s.kpis, i.batch)
  {
    PS.NoopExact(s.kpis, i.batch);
    hide PS.Unchanged, RowsOf, Inv, WeekOf, L.Holds, GateClear, CoverageSufficient, InsertedKeys, UpdatedKeys, UnchangedKeys;
    BatchWeek(i.week, i.batch);
    SameCounts(s, rows, i.week, i.batch);
    Classified(s.kpis, i.batch);
    EmptyCount(InsertedKeys(s.kpis, RowsOf(i.batch)));
    EmptyCount(UpdatedKeys(s.kpis, RowsOf(i.batch)));
    var s' := Apply(s, Commit(id, outcome));
    if outcome.CommitSeen? {
      assert s'.commits[|s.commits|] == CommitRecord(i.week, i.run, i.batch, PublicationOf(TxnOf(i, LeaseReleased)));
    }
  }

  lemma EmptyCount<T(!new)>(s: set<T>)
    ensures |s| == 0 <==> s == {}
  {
  }

  lemma ObserveCloses(s: State, id: nat)
    requires id in s.sessions && s.sessions[id].Unsure?
    ensures var s', run := Apply(s, Observe(id)), s.sessions[id].run;
      && id !in s'.sessions && s'.kpis == s.kpis
      && (run in s.runs && s.runs[run].status.Running? ==>
            s'.runs == s.runs[run := Run(s.runs[run].week, Running, s.sessions[id].result)])
  {
  }

  lemma FinishReturns(s: State, id: nat)
    requires id in s.sessions && s.sessions[id].Done? && s.sessions[id].run in s.runs
    requires s.runs[s.sessions[id].run].status.Running?
    ensures var s', d := Apply(s, Finish(id)), s.sessions[id];
      var status := if d.noop then SucceededNoop else Succeeded;
      && id in s'.sessions && s'.sessions[id] == Returned(d.run, status)
      && IsSuccess(s', d.run, status) && s'.commits == s.commits && s'.kpis == s.kpis
      && s'.runs == s.runs[d.run := Run(s.runs[d.run].week, status, Observed)]
  {
  }

  class Coordinator {
    var db: State
    /** The steps performed so far, this coordinator's and everybody else's. */
    var trace: seq<Step>
    ghost const origin: State
    const id: nat

    /** The databases are where the protocol's steps led. */
    ghost predicate Valid()
      reads this
    {
      Inv(db) && db == Play(origin, trace)
    }

    constructor (shared: State, me: nat)
      requires Inv(shared)
      ensures Valid() && db == shared && id == me && origin == shared && trace == []
    {
      db, id, trace, origin := shared, me, [], shared;
    }

    /** One step of the protocol. */
    method Perform(step: Step)
      requires Valid()
      modifies this
      ensures Valid() && db == Apply(old(db), step) && old(db).commits <= db.commits && trace == old(trace) + [step]
    {
      StepInv(db, step);
      StepCommits(db, step, 0);
      PlayNext(origin, trace, step);
      hide Inv, Apply, Play;
      db := Apply(db, step);
      trace := trace + [step];
    }

    /** Everybody else's steps; nobody else acts for this coordinator. */
    method Interfere(steps: seq<Step>, ghost rows: Table)
      requires Valid()
      modifies this
      ensures Valid() && Undisturbed(old(db), db, id, rows) && Quiet(old(trace), trace, id)
      ensures (forall step :: step in steps ==> Actor(step) != Some(id)) ==> db == Play(old(db), steps)
    {
      hide Inv, Apply, Play, Undisturbed;
      NothingDone(db, id, rows);
      for i := 0 to |steps|
        invariant Valid() && Undisturbed(old(db), db, id, rows) && Quiet(old(trace), trace, id)
        invariant (forall step :: step in steps ==> Actor(step) != Some(id)) ==> db == Play(old(db), steps[..i])
      {
        assert steps[..i + 1] == steps[..i] + [steps[i]] && steps[i] in steps;
        PlayNext(old(db), steps[..i], steps[i]);
        if Actor(steps[i]) != Some(id) {
          StepUndisturbed(old(db), db, steps[i], id, rows);
          Perform(steps[i]);
        }
      }
      assert steps[..|steps|] == steps;
    }

    /** `_finish_run` for an outcome without success: the run must still be in the expected status. What is recorded of
        the commit is not always what is answered. */
    method FinishOther(run: RunId, expected: RunStatus, status: RunStatus, commit: CommitResult, answer: CommitResult,
                       fault: OperationalFault)
      returns (reply: Reply)
      requires Valid() && !Success(status) && !status.Running?
      modifies this
      ensures Valid() && SameSession(old(db), db, id) && old(db).commits == db.commits && Quiet(old(trace), trace, id)
      ensures reply == Replied(run, status, answer, 0, 0, 0, false) || reply.Raised?
      ensures run in old(db).runs && old(db).runs[run].status == expected && Allowed(expected, status) ==>
        && db.runs == RecordedAs(old(db).runs, run, Run(old(db).runs[run].week, status, commit), fault)
        && (fault.Confirmed? <==> reply.Replied?)
      ensures db.kpis == old(db).kpis
    {
      hide Inv, Play;
      if run !in db.runs || db.runs[run].status != expected || !Allowed(expected, status) { return Raised("status_conflict"); }
      if fault.Lost? && !fault.applied { return Raised("operational_commit_failed"); }
      Perform(UpdateRun(run, expected, status, commit));
      reply := if fault.Lost? then Raised("operational_commit_failed") else Replied(run, status, answer, 0, 0, 0, false);
    }

    /** Up to the running mark: gate, claim, lease verification, mark. */
    method Begin(i: Input, env: Environment) returns (stop: Option<Reply>)
      requires Valid() && id !in db.sessions
      modifies this
      ensures Valid() && old(db).commits <= db.commits && old(trace) <= trace
      ensures stop.Some? ==> (id in db.sessions ==> OpenAt(db, id)) && Unsuccessful(i.run, stop.value)
      ensures stop.None? ==> Authorised(i) && DurableClaim(i) && InTxn(db, id, TxnOf(i, Marked))
      ensures stop.Some? && OpenAt(db, id) <==> RefusedSince(origin, trace, |old(trace)|, id, i, env.mark)
      ensures Alone(env) ==> Begun(old(db), db, i, env, stop)
      ensures Rivalled(env, i) && CanPublish(old(db), i) ==> stop.Some? && OpenAt(db, id)
    {
      hide Inv, Play, Apply, Frozen, GateClear, CoverageSufficient, ValidBatch, L.Holds, Underway, Disappeared, Locked,
        Undisturbed, RefusedSince, Leased;
      ghost var start := trace;
      LockedIsNotLeased(db, i);
      NotRefusedYet(origin, trace, id, i, env.mark);
      Interfere(env.others(0), map[]);
      NothingPlayed(old(db), env.others(0));
      SessionKept(old(db), db, id, map[]);
      QuietKeeps(origin, start, trace, |start|, id, i, env.mark);
      if i.run !in db.runs { return Some(Raised("run_not_found")); }
      if db.runs[i.run].week != i.week { return Some(Raised("week_mismatch")); }
      if !db.runs[i.run].status.Pending? { return Some(Raised("status_conflict")); }
      if !Authorised(i) || !DurableClaim(i) {
        ghost var before := trace;
        var reply := FinishOther(i.run, Pending, if !Authorised(i) then BlockedQuality else Superseded, NotAttempted, NotAttempted,
          env.finish);
        QuietKeeps(origin, before, trace, |start|, id, i, env.mark);
        return Some(reply);
      }
      stop := OpenTransaction(i, env, |start|);
    }

    /** The locked control row must still carry the claim; then the run is marked. */
    method OpenTransaction(i: Input, env: Environment, ghost from: nat) returns (stop: Option<Reply>)
      requires Valid() && id !in db.sessions && Authorised(i) && DurableClaim(i)
      requires from <= |trace| && Quiet(trace[..from], trace, id)
      modifies this
      ensures Valid() && old(db).commits <= db.commits && old(trace) <= trace
      ensures stop.Some? ==> (id in db.sessions ==> OpenAt(db, id)) && Unsuccessful(i.run, stop.value)
      ensures stop.None? ==> InTxn(db, id, TxnOf(i, Marked))
      ensures stop.Some? && OpenAt(db, id) <==> RefusedSince(origin, trace, from, id, i, env.mark)
      ensures Alone(env) && Markable(old(db), i) ==> Begun(old(db), db, i, env, stop)
      ensures Rivalled(env, i) && CanPublish(old(db), i) ==> stop.Some? && OpenAt(db, id)
    {
      hide Inv, Play, Apply, Frozen, Authorised, L.Holds, Underway, Disappeared, Markable, Undisturbed, RefusedSince,
        Begun, Leased;
      ghost var start := trace;
      NotRefusedSince(origin, trace, from, id, i, env.mark);
      Interfere(env.others(1), map[]);
      NothingPlayed(old(db), env.others(1));
      SessionKept(old(db), db, id, map[]);
      QuietKeeps(origin, start, trace, from, id, i, env.mark);
      LockedIsNotLeased(db, i);
      if env.verifyFails || Locked(db, i.week) {
        stop := Refuse(i, FailedRetryable, CommitUncertain, env, from);
        if Alone(env) && Markable(old(db), i) { BegunRefused(old(db), db, i, env, stop); }
        return;
      }
      QuietFrom(start, start, trace, from, id);
      stop := VerifyClaim(i, env, from);
    }

    /** `verify_week_lease` on the unlocked row, and the mark under it. */
    method VerifyClaim(i: Input, env: Environment, ghost from: nat) returns (stop: Option<Reply>)
      requires Valid() && id !in db.sessions && Authorised(i) && DurableClaim(i) && !Locked(db, i.week) && !env.verifyFails
      requires from <= |trace| && Quiet(trace[..from], trace, id)
      modifies this
      ensures Valid() && old(db).commits <= db.commits && old(trace) <= trace
      ensures stop.Some? ==> (id in db.sessions ==> OpenAt(db, id)) && Unsuccessful(i.run, stop.value)
      ensures stop.None? ==> InTxn(db, id, TxnOf(i, Marked))
      ensures stop.Some? && OpenAt(db, id) <==> RefusedSince(origin, trace, from, id, i, env.mark)
      ensures Alone(env) && Markable(old(db), i) ==> Begun(old(db), db, i, env, stop)
      ensures Rivalled(env, i) && CanPublish(old(db), i) ==> stop.Some? && OpenAt(db, id)
    {
      hide Inv, Play, Apply, Frozen, Authorised, L.Holds, Underway, Disappeared, Markable, Undisturbed, RefusedSince,
        Begun, Leased, Locked;
      ghost var start := trace;
      NotRefusedSince(origin, trace, from, id, i, env.mark);
      LockedIsNotLeased(db, i);
      var owner := L.At(db.controls, i.week).owner;
      VerifyOpens(db, id, TxnOf(i, LeaseChecked));
      if Leased(db, i) { VerifyPasses(db, id, i); } else if Markable(db, i) { VerifyRefuses(db, id, i); }
      Perform(Verify(id, i.run, i.week, i.claim.value.token, i.batch, i.fingerprint, i.rules, i.now));
      QuietKeeps(origin, start, trace, from, id, i, env.mark);
      if id !in db.sessions {
        stop := Refuse(i, if owner.Some? && owner != Some(i.run) then SkippedInProgress else Superseded, NotAttempted, env, from);
        if Alone(env) && Markable(old(db), i) { BegunRefused(old(db), db, i, env, stop); }
        return;
      }
      QuietFrom(start, start, trace, from, id);
      stop := Mark(i, env, from);
      if Alone(env) && Leased(old(db), i) { BegunMarked(old(db), db, i, env, stop); }
    }

    /** An outcome before the mark: recorded on a pending run. */
    method Refuse(i: Input, status: RunStatus, commit: CommitResult, env: Environment, ghost from: nat)
      returns (stop: Option<Reply>)
      requires Valid() && id !in db.sessions && !Success(status) && !status.Running? && from <= |trace|
      requires Allowed(Pending, status)
      requires !RefusedSince(origin, trace, from, id, i, env.mark)
      modifies this
      ensures Valid() && old(db).commits <= db.commits && old(trace) <= trace && id !in db.sessions
      ensures stop.Some? && Unsuccessful(i.run, stop.value) && !RefusedSince(origin, trace, from, id, i, env.mark)
      ensures Markable(old(db), i) ==> ClosedAs(old(db), db, i, stop.value, status, commit, NotAttempted, env.finish)
    {
      hide Inv, Play, Apply, RefusedSince;
      ghost var before := trace;
      var reply := FinishOther(i.run, Pending, status, commit, NotAttempted, env.finish);
      QuietKeeps(origin, before, trace, from, id, i, env.mark);
      stop := Some(reply);
    }

    /** `_mark_running` on the operational connection, with the control row locked. Its refusal leaves the call by
        an exception that rolls nothing back. */
    method Mark(i: Input, env: Environment, ghost from: nat) returns (stop: Option<Reply>)
      requires Valid() && DurableClaim(i) && InTxn(db, id, TxnOf(i, LeaseChecked))
      requires from <= |trace| && Quiet(trace[..from], trace, id)
      modifies this
      ensures Valid() && old(db).commits <= db.commits && old(trace) <= trace
      ensures stop.Some? ==> (id in db.sessions ==> OpenAt(db, id)) && Unsuccessful(i.run, stop.value)
      ensures stop.None? ==> InTxn(db, id, TxnOf(i, Marked))
      ensures stop.Some? && OpenAt(db, id) <==> RefusedSince(origin, trace, from, id, i, env.mark)
      ensures Alone(env) && Markable(old(db), i) ==> Tried(old(db), db, i, env, stop)
      ensures Rivalled(env, i) && Markable(old(db), i) ==> stop.Some? && OpenAt(db, id)
    {
      hide Inv, Play, Apply, Frozen, Authorised, Underway, Disappeared, RefusedSince, Undisturbed;
      ghost var start := trace;
      Interfere(env.others(2), map[]);
      NothingPlayed(old(db), env.others(2));
      SessionKept(old(db), db, id, map[]);
      QuietFrom(start, start, trace, from, id);
      if Rivalled(env, i) && Markable(old(db), i) { RivalSkips(old(db), i, env.others(2)); }
      MarkOpens(db, id, env.mark);
      MarkDecides(origin, trace, from, db, id, i, env.mark);
      if Markable(db, i) { MarkTried(db, id, i, env.mark); }
      var refused := MarkRefused(db, i.run, env.mark);
      Perform(MarkRunning(id, env.mark));
      if refused { return Some(Raised("status_conflict")); }
      if id !in db.sessions { return Some(Raised("operational_commit_failed")); }
      stop := None;
    }

    /** The rows of the batch inside the open transaction; the counts are those of the locked week. */
    method WriteRows(i: Input, env: Environment) returns (stop: Option<Reply>, counts: Staging, ghost rows: Table)
      requires Valid() && Authorised(i) && DurableClaim(i) && InTxn(db, id, TxnOf(i, Marked))
      modifies this
      ensures Valid() && old(db).commits <= db.commits && Quiet(old(trace), trace, id)
      ensures stop.Some? ==> id !in db.sessions && Unsuccessful(i.run, stop.value)
      ensures stop.None? ==> InTxn(db, id, TxnOf(i, RowsStaged)) && Frozen(db, id, rows) && IsCount(counts, rows, i.batch)
      ensures Alone(env) && Underway(old(db), i) ==>
        RowsWritten(old(db), db, i, env, stop) && (stop.None? ==> rows == WeekOf(old(db).kpis, i.week))
    {
      hide Inv, Play, Apply, Authorised, Frozen, Disappeared, RowsOf, WeekOf, IsCount;
      Interfere(env.others(3), map[]);
      NothingPlayed(old(db), env.others(3));
      if !env.stage.StageRuns? {
        var clean := env.stage.StageBlocked? || env.stage.observed;
        var reply := Fail(i, env, if clean then RolledBack else CommitUncertain,
          if env.stage.StageBlocked? then BlockedQuality else FailedRetryable);
        return Some(reply), Staged(0, 0, 0), map[];
      }
      rows := WeekOf(db.kpis, i.week);
      counts := CountOf(WeekOf(db.kpis, i.week), i.batch);
      StageOpens(db, id);
      if Underway(db, i) { StepsPass(db, id, i, Stage(id)); }
      CountIsExact(rows, i.batch);
      Perform(Stage(id));
      if id !in db.sessions {
        var reply := FinishOther(i.run, Running, BlockedQuality, RolledBack, RolledBack, env.finish);
        return Some(reply), counts, rows;
      }
      stop := None;
    }

    /** The pointer and the release inside the open transaction. */
    method WritePointer(i: Input, env: Environment, ghost rows: Table) returns (stop: Option<Reply>)
      requires Valid() && DurableClaim(i) && InTxn(db, id, TxnOf(i, RowsStaged)) && Frozen(db, id, rows)
      modifies this
      ensures Valid() && old(db).commits <= db.commits && Quiet(old(trace), trace, id)
      ensures stop.Some? ==> id !in db.sessions && Unsuccessful(i.run, stop.value)
      ensures stop.None? ==> InTxn(db, id, TxnOf(i, LeaseReleased)) && Frozen(db, id, rows)
      ensures Alone(env) && Underway(old(db), i) ==> PointerWritten(old(db), db, i, env, stop)
    {
      hide Inv, Play, Apply, Frozen, WeekOf, Underway;
      Interfere(env.others(4), rows);
      NothingPlayed(old(db), env.others(4));
      if env.metadataFails {
        var reply := Fail(i, env, RolledBack, FailedRetryable);
        return Some(reply);
      }
      PointOpens(db, id, rows);
      if Underway(db, i) { StepsPass(db, id, i, Point(id)); }
      Perform(Point(id));
      Release(i, env, rows);
      stop := None;
    }

    /** `release_week_lease` in the same transaction; it cannot be refused. */
    method Release(i: Input, env: Environment, ghost rows: Table)
      requires Valid() && DurableClaim(i) && InTxn(db, id, TxnOf(i, Pointed)) && Frozen(db, id, rows)
      modifies this
      ensures Valid() && old(db).commits <= db.commits && Quiet(old(trace), trace, id)
      ensures InTxn(db, id, TxnOf(i, LeaseReleased)) && Frozen(db, id, rows)
      ensures Alone(env) && Underway(old(db), i) ==> Underway(db, i) && db.runs == old(db).runs && db.kpis == old(db).kpis
    {
      hide Inv, Play, Apply, Frozen, WeekOf, Underway;
      Interfere(env.others(5), rows);
      NothingPlayed(old(db), env.others(5));
      ReleaseOpens(db, id, rows);
      if Underway(db, i) { StepsPass(db, id, i, ReleaseLease(id)); }
      Perform(ReleaseLease(id));
      ghost var released := db;
      Interfere(env.others(6), rows);
      NothingPlayed(released, env.others(6));
    }

    /** The business transaction is rolled back and the run closed without success. */
    method Fail(i: Input, env: Environment, commit: CommitResult, status: RunStatus) returns (reply: Reply)
      requires Valid() && !Success(status) && !status.Running? && Allowed(Running, status)
      modifies this
      ensures Valid() && old(db).commits <= db.commits && id !in db.sessions && Quiet(old(trace), trace, id)
      ensures Unsuccessful(i.run, reply)
      ensures Underway(old(db), i) ==> ClosedAs(old(db), db, i, reply, status, commit, commit, env.finish)
    {
      hide Inv, Play;
      CrashKeepsRuns(db, id);
      Perform(Crash(id));
      reply := FinishOther(i.run, Running, status, commit, commit, env.finish);
    }

    /** The business commit, and what run history then says about it. */
    method CommitAndFinish(i: Input, env: Environment, counts: Staging, ghost rows: Table) returns (reply: Reply)
      requires Valid() && DurableClaim(i) && Authorised(i) && InTxn(db, id, TxnOf(i, LeaseReleased)) && Frozen(db, id, rows)
      requires IsCount(counts, rows, i.batch)
      modifies this
      ensures Valid() && old(db).commits <= db.commits && Quiet(old(trace), trace, id)
      ensures Published(db, id, i, reply) || (id !in db.sessions && Unsuccessful(i.run, reply))
      ensures Smooth(env) && Underway(old(db), i) ==> Published(db, id, i, reply)
      ensures Alone(env) && Underway(old(db), i) ==> Concluded(old(db), db, i, env, reply)
      ensures Published(db, id, i, reply) ==> counts == Staged(reply.inserted, reply.updated, reply.same)
    {
      hide Inv, Play, Apply, GateClear, CoverageSufficient, ValidBatch, Frozen, RowsOf, IsCount, PublicationOf, Authorised,
        PS.Unchanged;
      CommitEnds(db, id, i, env.commit, counts, rows);
      CommitKeepsRuns(db, id, i, env.commit);
      Perform(Commit(id, env.commit));
      ghost var committed := db;
      Interfere(env.others(7), map[]);
      NothingPlayed(committed, env.others(7));
      if !env.commit.CommitSeen? {
        reply := ObserveUncertain(i, env);
        return;
      }
      reply := RecordSuccess(i, env, counts);
    }

    /** The last transaction of the run history: the success that is then returned. */
    method RecordSuccess(i: Input, env: Environment, counts: Staging) returns (reply: Reply)
      requires Valid() && DurableClaim(i) && Authorised(i) && counts.Staged?
      requires id in db.sessions && db.sessions[id] == Done(i.run, counts.inserted == 0 && counts.updated == 0)
      requires CommitRecord(i.week, i.run, i.batch, PublicationOf(TxnOf(i, LeaseReleased))) in db.commits
      requires counts.inserted + counts.updated + counts.same == |i.batch|
      modifies this
      ensures Valid() && old(db).commits <= db.commits && Quiet(old(trace), trace, id)
      ensures Published(db, id, i, reply) || (id !in db.sessions && Unsuccessful(i.run, reply))
      ensures Underway(old(db), i) && env.finish.Confirmed? ==> Published(db, id, i, reply)
      ensures Underway(old(db), i) ==>
        var status := if counts.inserted == 0 && counts.updated == 0 then SucceededNoop else Succeeded;
        && db.kpis == old(db).kpis && db.runs == RecordedAs(old(db).runs, i.run, Run(i.week, status, Observed), env.finish)
        && if env.finish.Confirmed? then reply.Replied? && reply.status == status && reply.recorded else reply.Raised?
      ensures Published(db, id, i, reply) ==> counts == Staged(reply.inserted, reply.updated, reply.same)
    {
      hide Inv, Play, Apply, PublicationOf, Authorised;
      CrashCloses(db, id);
      CrashKeepsRuns(db, id);
      if i.run !in db.runs || !db.runs[i.run].status.Running? || env.finish == Lost(false) {
        Perform(Crash(id));
        return Raised("run_not_finished");
      }
      var status := if counts.inserted == 0 && counts.updated == 0 then SucceededNoop else Succeeded;
      FinishReturns(db, id);
      Perform(Finish(id));
      if env.finish.Lost? {
        CrashCloses(db, id);
        CrashKeepsRuns(db, id);
        Perform(Crash(id));
        return Raised("operational_commit_failed");
      }
      reply := Replied(i.run, status, Observed, counts.inserted, counts.updated, counts.same, true);
    }

    /** `_observe_uncertain`: an unclear commit leaves the run as it is, marked as uncertain. */
    method ObserveUncertain(i: Input, env: Environment) returns (reply: Reply)
      requires Valid() && id in db.sessions && !env.commit.CommitSeen?
      requires db.sessions[id] == Unsure(i.run, if env.commit.CommitLost? then CommitUncertain else RolledBack)
      modifies this
      ensures Valid() && old(db).commits <= db.commits && id !in db.sessions && Quiet(old(trace), trace, id)
      ensures Unsuccessful(i.run, reply)
      ensures Underway(old(db), i) ==>
        var uncertain := if env.commit.CommitLost? then CommitUncertain else RolledBack;
        && db.kpis == old(db).kpis && db.runs == RecordedAs(old(db).runs, i.run, Run(i.week, Running, uncertain), env.finish)
        && if env.finish.Confirmed? then reply == Uncertain(i.run, uncertain) else reply.Raised?
    {
      hide Inv, Play, Apply;
      var running := i.run in db.runs && db.runs[i.run].status.Running?;
      ObserveCloses(db, id);
      CrashCloses(db, id);
      CrashKeepsRuns(db, id);
      Perform(if env.finish == Lost(false) then Crash(id) else Observe(id));
      if !running || env.finish.Lost? { return Raised("observation_not_recorded"); }
      reply := Uncertain(i.run, if env.commit.CommitLost? then CommitUncertain else RolledBack);
    }

    /** `publish_weekly_business_report`: whatever the others do and wherever the call fails, it reports a publication
        only if its own batch was committed under its own run, which is then recorded as successful. It leaves the
        business transaction open, with the lock of its week, if and only if it verified its lease and its mark was
        refused or failed. An undisturbed call with a lease in force publishes. */
    method PublishWeeklyBusinessReport(i: Input, env: Environment) returns (reply: Reply)
      requires Valid() && id !in db.sessions
      modifies this
      ensures Valid() && old(db).commits <= db.commits && old(trace) <= trace
      ensures Published(db, id, i, reply) || ((id in db.sessions ==> OpenAt(db, id)) && Unsuccessful(i.run, reply))
      ensures OpenAt(db, id) <==> RefusedSince(origin, trace, |old(trace)|, id, i, env.mark)
      ensures Smooth(env) ==>
        if CanPublish(old(db), i) then Published(db, id, i, reply) && CountsAre(old(db).kpis, i.batch, reply)
        else RefusedAs(old(db), db, i, reply)
      ensures Alone(env) ==> EndsAs(old(db), db, i, env, reply)
      ensures Rivalled(env, i) && CanPublish(old(db), i) ==> OpenAt(db, id)
    {
      hide Inv, Play, Apply, Frozen, Authorised, RefusedSince, Leased, Underway, Published, Disappeared, RefusalOf, CountsAre,
        EndsAs, Written, Begun, RefusedAs, CanPublish, Alone, Smooth, NowRunning;
      ghost var start := |trace|;
      SmoothIsAlone(env);
      var stop := Begin(i, env);
      if stop.Some? {
        UnsuccessfulIsUnpublished(db, id, i, stop.value);
        if Alone(env) { EndsAtBegin(old(db), db, i, env, stop.value); }
        return stop.value;
      }
      ghost var before, begun := trace, db;
      reply := WriteAndCommit(i, env);
      if Alone(env) { EndsWritten(old(db), begun, db, i, env, reply); }
      QuietKeeps(origin, before, trace, start, id, i, env.mark);
      PublishedReturned(db, id, i, reply);
    }

    /** The rest of the call, after its mark. */
    method WriteAndCommit(i: Input, env: Environment) returns (reply: Reply)
      requires Valid() && Authorised(i) && DurableClaim(i) && InTxn(db, id, TxnOf(i, Marked))
      modifies this
      ensures Valid() && old(db).commits <= db.commits && Quiet(old(trace), trace, id)
      ensures Published(db, id, i, reply) || (id !in db.sessions && Unsuccessful(i.run, reply))
      ensures Alone(env) && Underway(old(db), i) ==> Written(old(db), db, i, env, reply)
      ensures Smooth(env) && Underway(old(db), i) && Disappeared(old(db).kpis, i.week, i.batch) == {} ==>
        Published(db, id, i, reply) && CountsAre(old(db).kpis, i.batch, reply)
    {
      hide Inv, Play, Apply, Frozen, RowsOf, IsCount, PublicationOf, Authorised, Underway, Published, Disappeared, WeekOf,
        CountsAre, RowsWritten, PointerWritten, Concluded, Alone, Smooth;
      SmoothIsAlone(env);
      var stop, counts;
      ghost var rows;
      stop, counts, rows := WriteRows(i, env);
      if stop.Some? {
        if Alone(env) && Underway(old(db), i) { WrittenRows(old(db), db, i, env, stop.value); }
        return stop.value;
      }
      ghost var staged := db;
      if Alone(env) && Underway(old(db), i) { RowsExact(old(db), db, i, env); }
      stop := WritePointer(i, env, rows);
      if stop.Some? {
        if Alone(env) && Underway(old(db), i) { WrittenPointer(old(db), staged, db, i, env, stop.value); }
        return stop.value;
      }
      ghost var pointed := db;
      if Alone(env) && Underway(old(db), i) { PointerExact(staged, db, i, env); }
      reply := CommitAndFinish(i, env, counts, rows);
      if Alone(env) && Underway(old(db), i) { WrittenCommit(old(db), pointed, db, i, env, reply); }
      PublishedReturned(db, id, i, reply);
      AuthorisedWeek(i);
      if Published(db, id, i, reply) && rows == WeekOf(old(db).kpis, i.week) {
        CountsOfWeek(old(db).kpis, i.week, i.batch, counts, reply);
      }
    }

    /** `publish_week_task`: however the coordinator leaves, closing the connections ends its transaction. */
    method PublishWeekTask(i: Input, env: Environment) returns (reply: Reply)
      requires Valid() && id !in db.sessions
      modifies this
      ensures Valid() && old(db).commits <= db.commits && old(trace) <= trace && !OpenAt(db, id)
      ensures Published(db, id, i, reply) || (id !in db.sessions && Unsuccessful(i.run, reply))
      ensures Smooth(env) && i.claim.Some? ==>
        if CanPublish(old(db), i) then Published(db, id, i, reply) && CountsAre(old(db).kpis, i.batch, reply)
        else RefusedAs(old(db), db, i, reply)
      ensures Alone(env) && i.claim.Some? ==> EndsAs(old(db), db, i, env, reply)
    {
      hide Inv, Play, Apply, RefusedSince, CanPublish, Published, Undisturbed, CountsAre, RefusalOf;
      if i.claim.None? { return Raised("a durable lease is required for publication"); }
      reply := PublishWeeklyBusinessReport(i, env);
      PublishedReturned(db, id, i, reply);
      ghost var before := db;
      Interfere(env.others(8), map[]);
      NothingPlayed(before, env.others(8));
      SessionKept(before, db, id, map[]);
      PublishedStays(before, db, id, i, reply);
      if id in db.sessions && db.sessions[id].Open? {
        ghost var open := db;
        CrashKeepsRuns(db, id);
        CrashCloses(db, id);
        Perform(Crash(id));
        if Published(before, id, i, reply) { PublishedReturned(open, id, i, reply); }
      }
    }
  }

  /** A published reply: its batch is committed under its run, which is recorded as successful, and the counts add up. */
  ghost predicate Published(s: State, id: nat, i: Input, reply: Reply) {
    && reply.Replied? && reply.run == i.run && reply.recorded && reply.commit == Observed
    && id in s.sessions && s.sessions[id] == Returned(i.run, reply.status)
    && DurableClaim(i) && Authorised(i)
    && CommitRecord(i.week, i.run, i.batch, PublicationOf(TxnOf(i, LeaseReleased))) in s.commits
    && IsSuccess(s, i.run, reply.status)
    && (reply.status.SucceededNoop? <==> reply.inserted == 0 && reply.updated == 0)
    && reply.inserted + reply.updated + reply.same == |i.batch|
  }

  lemma PublishedReturned(s: State, id: nat, i: Input, reply: Reply)
    ensures Published(s, id, i, reply) ==> id in s.sessions && s.sessions[id].Returned? && reply.Replied?
  {
    hide Authorised, PublicationOf;
  }

  lemma UnsuccessfulIsUnpublished(s: State, id: nat, i: Input, reply: Reply)
    requires Unsuccessful(i.run, reply)
    ensures !Published(s, id, i, reply)
  {
    hide Authorised, PublicationOf;
  }

  lemma PublishedStays(s: State, s': State, id: nat, i: Input, reply: Reply)
    requires Inv(s') && SameSession(s, s', id) && s.commits <= s'.commits
    ensures Published(s, id, i, reply) ==> Published(s', id, i, reply)
  {
    hide Authorised, PublicationOf, WeekPublished, Exclusive, CommitsOk, Tokens, SuccessOk, TxnOk, HasCommit;
  }

  // ----- the parts of a call -----

  lemma SmoothIsAlone(env: Environment)
    ensures Smooth(env) ==> Alone(env) && env.stage.StageRuns? && !env.metadataFails && env.commit.CommitSeen?
  {
  }

  lemma EndsAtBegin(s: State, s': State, i: Input, env: Environment, reply: Reply)
    requires Begun(s, s', i, env, Some(reply))
    ensures EndsAs(s, s', i, env, reply)
    ensures Smooth(env) ==> !CanPublish(s, i) && RefusedAs(s, s', i, reply)
  {
    hide Leased, Authorised, Locked, Disappeared;
    LockedIsNotLeased(s, i);
    if Smooth(env) && Authorised(i) && DurableClaim(i) && Markable(s, i) { RefusesLease(s, i); }
  }

  lemma EndsWritten(s: State, s1: State, s': State, i: Input, env: Environment, reply: Reply)
    requires Begun(s, s1, i, env, None)
    ensures Underway(s1, i) && s1.kpis == s.kpis
    ensures Written(s1, s', i, env, reply) ==> EndsAs(s, s', i, env, reply)
    ensures Smooth(env) ==> (CanPublish(s, i) <==> Disappeared(s1.kpis, i.week, i.batch) == {})
    ensures Smooth(env) && !CanPublish(s, i) && Written(s1, s', i, env, reply) ==> RefusedAs(s, s', i, reply)
  {
    hide Leased, EndsEarly, MarkFailed, Disappeared, RowsOf, PS.Unchanged;
    RefusesRows(s, i);
    LockedIsNotLeased(s, i);
  }

  lemma WrittenRows(s: State, s': State, i: Input, env: Environment, reply: Reply)
    requires RowsWritten(s, s', i, env, Some(reply))
    ensures Written(s, s', i, env, reply)
    ensures Smooth(env) ==> Disappeared(s.kpis, i.week, i.batch) != {}
  {
    hide Disappeared, ClosedAs;
  }

  lemma RowsExact(s: State, s': State, i: Input, env: Environment)
    requires RowsWritten(s, s', i, env, None)
    ensures env.stage.StageRuns? && Disappeared(s.kpis, i.week, i.batch) == {}
    ensures Underway(s', i) && s'.runs == s.runs && s'.kpis == s.kpis
  {
    hide Disappeared, ClosedAs, Underway;
  }

  lemma WrittenPointer(s: State, s2: State, s': State, i: Input, env: Environment, reply: Reply)
    requires env.stage.StageRuns? && Disappeared(s.kpis, i.week, i.batch) == {}
    requires s2.runs == s.runs && s2.kpis == s.kpis && PointerWritten(s2, s', i, env, Some(reply))
    ensures Written(s, s', i, env, reply) && !Smooth(env)
  {
    hide Disappeared;
  }

  lemma PointerExact(s: State, s': State, i: Input, env: Environment)
    requires PointerWritten(s, s', i, env, None)
    ensures !env.metadataFails && Underway(s', i) && s'.runs == s.runs && s'.kpis == s.kpis
  {
    hide ClosedAs, Underway;
  }

  lemma WrittenCommit(s: State, s3: State, s': State, i: Input, env: Environment, reply: Reply)
    requires env.stage.StageRuns? && Disappeared(s.kpis, i.week, i.batch) == {} && !env.metadataFails
    requires s3.runs == s.runs && s3.kpis == s.kpis && Concluded(s3, s', i, env, reply)
    ensures Written(s, s', i, env, reply)
  {
    hide Disappeared, RowsOf, PS.Unchanged;
  }

  // ----- interference -----

  /** Another flow of the same accepted run finds its lease held and closes the run between verification and mark. */
  ghost predicate Rivalled(env: Environment, i: Input) {
    && (forall n :: n != 2 ==> env.others(n) == []) && !env.verifyFails
    && env.others(2) == [UpdateRun(i.run, Pending, SkippedInProgress, NotAttempted)]
  }

  lemma RivalSkips(s: State, i: Input, steps: seq<Step>)
    requires Markable(s, i) && steps == [UpdateRun(i.run, Pending, SkippedInProgress, NotAttempted)]
    ensures i.run in Play(s, steps).runs && !Play(s, steps).runs[i.run].status.Pending?
  {
    hide Disappeared;
    assert steps[..|steps| - 1] == [];
  }

  lemma NothingPlayed(s: State, steps: seq<Step>)
    ensures steps == [] ==> Play(s, steps) == s
  {
  }

  lemma NothingDone(s: State, id: nat, rows: Table)
    ensures Undisturbed(s, s, id, rows) && Play(s, []) == s
  {
  }

  lemma SessionKept(s: State, s': State, id: nat, rows: Table)
    requires Undisturbed(s, s', id, rows)
    ensures SameSession(s, s', id) && s.commits <= s'.commits
  {
    hide Frozen;
  }

  lemma NotRefusedYet(origin: State, trace: seq<Step>, id: nat, i: Input, mark: MarkOutcome)
    ensures !RefusedSince(origin, trace, |trace|, id, i, mark)
  {
  }

  lemma NotRefusedSince(origin: State, trace: seq<Step>, from: nat, id: nat, i: Input, mark: MarkOutcome)
    requires from <= |trace| && Quiet(trace[..from], trace, id)
    ensures !RefusedSince(origin, trace, from, id, i, mark)
  {
    hide Play, MarkRefused;
  }

  lemma QuietFrom(start: seq<Step>, before: seq<Step>, after: seq<Step>, from: nat, id: nat)
    requires from <= |start| && Quiet(start[..from], start, id) && Quiet(start, before, id) && Quiet(before, after, id)
    ensures from <= |after| && Quiet(after[..from], after, id)
  {
    assert after[..from] == start[..from];
  }
}
