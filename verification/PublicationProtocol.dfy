/** Competing coordinators over one reporting database: interleaved steps, expiring leases, lost commits. */
module PublicationProtocol {
  import opened Basics
  import opened Vocabulary
  import opened WeeklyPerformance
  import opened WeeklyUpsert
  import L = Lease

  type RunId = L.RunId

  // ----- run history -----

  datatype RunStatus =
    | Pending | Running | Succeeded | SucceededNoop | FailedRetryable | BlockedQuality | Superseded | SkippedInProgress

  datatype CommitResult = NotAttempted | Uncommitted | CommitUncertain | RolledBack | Observed

  datatype Run = Run(week: int, status: RunStatus, commit: CommitResult)

  /** `RUN_TRANSITIONS` */
  predicate Allowed(from: RunStatus, to: RunStatus) {
    match from
    case Pending =>
      to.Running? || to.SkippedInProgress? || to.Superseded? || to.BlockedQuality? || to.FailedRetryable?
    case Running =>
      to.Succeeded? || to.SucceededNoop? || to.FailedRetryable? || to.BlockedQuality? || to.Superseded?
    case _ => false
  }

  predicate Terminal(s: RunStatus) { forall to :: !Allowed(s, to) }

  predicate Success(s: RunStatus) { s.Succeeded? || s.SucceededNoop? }

  // ----- coordinators -----

  datatype Phase = LeaseChecked | Marked | RowsStaged | Pointed | LeaseReleased

  /** The open business transaction of one coordinator; it holds the lock of its week's control row. */
  datatype Txn = Txn(
    run: RunId, week: int, token: nat, batch: seq<Aggregate>, fingerprint: string, rules: string, now: int, phase: Phase)

  /** What a coordinator process knows: an open transaction, an observed commit, an unclear one, or the
      successful result it returned. */
  datatype Session =
    | Open(txn: Txn) | Done(run: RunId, noop: bool) | Unsure(run: RunId, result: CommitResult)
    | Returned(run: RunId, status: RunStatus)

  datatype GrantRecord = GrantRecord(week: int, run: RunId, token: nat)

  datatype CommitRecord = CommitRecord(week: int, run: RunId, batch: seq<Aggregate>, publication: L.Publication)

  /** The committed tables, the coordinators, and what was granted and committed so far. */
  datatype State = State(
    clock: int, controls: L.Controls, kpis: Table, runs: map<RunId, Run>, sessions: map<nat, Session>,
    grants: seq<GrantRecord>, commits: seq<CommitRecord>)

  predicate Initial(s: State) {
    s.controls == map[] && s.kpis == map[] && s.runs == map[] && s.sessions == map[] && s.grants == [] && s.commits == []
  }

  predicate HoldsLock(s: State, id: nat, week: int) { id in s.sessions && s.sessions[id].Open? && s.sessions[id].txn.week == week }

  predicate Locked(s: State, week: int) { exists id :: id in s.sessions && HoldsLock(s, id, week) }

  /** The update of `_mark_running` succeeds or fails; after it, its commit may be lost. */
  datatype MarkOutcome = MarkedOk | MarkFails | MarkLost(applied: bool)

  datatype CommitOutcome = CommitSeen | CommitLost(applied: bool) | CommitRefused

  datatype Step =
    | Tick(elapsed: nat)
    | CreateRun(run: RunId, week: int)
    | Acquire(run: RunId, week: int, seconds: int, readings: L.Clock, committed: bool)
    | Renew(run: RunId, week: int, token: nat, seconds: int, readings: L.Clock)
    | UpdateRun(run: RunId, expected: RunStatus, status: RunStatus, result: CommitResult)
    | Verify(id: nat, run: RunId, week: int, token: nat, batch: seq<Aggregate>, fingerprint: string, rules: string, now: int)
    | MarkRunning(id: nat, mark: MarkOutcome)
    | Stage(id: nat)
    | Point(id: nat)
    | ReleaseLease(id: nat)
    | Commit(id: nat, outcome: CommitOutcome)
    | Crash(id: nat)
    | Finish(id: nat)
    | Observe(id: nat)
    | Resolve(run: RunId, week: int, fingerprint: string, rules: string, count: Option<nat>, persist: bool)

  // ----- steps -----

  predicate Later(s: State, r: L.Clock) { s.clock <= r.locked && L.Forward(r) }

  function AcquireStep(s: State, run: RunId, week: int, seconds: int, r: L.Clock, committed: bool): State {
    var row := L.At(s.controls, week);
    if Locked(s, week) || run !in s.runs || s.runs[run].week != week || !Later(s, r)
       || !(L.MIN_SECONDS <= seconds <= L.MAX_SECONDS)
    then s
    else if !committed || !L.Free(row, r.locked) || L.Grant(row, run, seconds, r).None? then s.(clock := r.expiring)
    else s.(clock := r.expiring, controls := s.controls[week := L.Grant(row, run, seconds, r).value],
            grants := s.grants + [GrantRecord(week, run, row.token + 1)])
  }

  function RenewStep(s: State, run: RunId, week: int, token: nat, seconds: int, r: L.Clock): State {
    if Locked(s, week) || week !in s.controls || !Later(s, r) || !(L.MIN_SECONDS <= seconds <= L.MAX_SECONDS) then s
    else
      var row := L.Renew(s.controls[week], run, token, seconds, r);
      if row.None? then s else s.(clock := r.expiring, controls := s.controls[week := row.value])
  }

  /** Any other actor's update of run history; only a coordinator marks a run running or successful. */
  function UpdateRunStep(s: State, run: RunId, expected: RunStatus, status: RunStatus, commit: CommitResult): State {
    if run !in s.runs || s.runs[run].status != expected || !Allowed(expected, status) || status.Running? || Success(status)
    then s else s.(runs := s.runs[run := s.runs[run].(status := status, commit := commit)])
  }

  function VerifyStep(s: State, id: nat, txn: Txn): State {
    if id in s.sessions || Locked(s, txn.week) || txn.run !in s.runs || s.runs[txn.run].week != txn.week
       || !ValidBatch(txn.week, txn.batch, txn.now) || txn.week !in s.controls
       || !L.Holds(s.controls[txn.week], txn.run, txn.token, s.clock)
    then s else s.(sessions := s.sessions[id := Open(txn)])
  }

  function Close(s: State, id: nat): State { s.(sessions := s.sessions - {id}) }

  function SetPhase(s: State, id: nat, phase: Phase): State
    requires id in s.sessions && s.sessions[id].Open?
  {
    s.(sessions := s.sessions[id := Open(s.sessions[id].txn.(phase := phase))])
  }

  predicate InPhase(s: State, id: nat, phase: Phase) {
    id in s.sessions && s.sessions[id].Open? && s.sessions[id].txn.phase == phase
  }

  /** The update of `_mark_running` is refused, or fails: an error that no handler of the coordinator catches. */
  predicate MarkRefused(s: State, run: RunId, outcome: MarkOutcome) {
    run !in s.runs || !s.runs[run].status.Pending? || outcome.MarkFails?
  }

  /** A refused mark leaves the business transaction open, with its lock. */
  function MarkStep(s: State, id: nat, outcome: MarkOutcome): State {
    if !InPhase(s, id, LeaseChecked) || MarkRefused(s, s.sessions[id].txn.run, outcome) then s else
    var run := s.sessions[id].txn.run;
    var running := s.runs[run := s.runs[run].(status := Running, commit := Uncommitted)];
    match outcome
    case MarkLost(applied) => Close(s, id).(runs := if applied then running else s.runs)
    case _ => SetPhase(s, id, Marked).(runs := running)
  }

  function StageStep(s: State, id: nat): State {
    if !InPhase(s, id, Marked) then s else
    var txn := s.sessions[id].txn;
    if Disappeared(s.kpis, txn.week, txn.batch) != {} then Close(s, id) else SetPhase(s, id, RowsStaged)
  }

  function ReleaseStep(s: State, id: nat): State {
    if !InPhase(s, id, Pointed) then s else
    var txn := s.sessions[id].txn;
    if L.Release(L.At(s.controls, txn.week), txn.run, txn.token).None? then Close(s, id) else SetPhase(s, id, LeaseReleased)
  }

  function PublicationOf(txn: Txn): L.Publication {
    L.Publication(txn.run, txn.now, |txn.batch|, txn.fingerprint, txn.rules)
  }

  /** The business transaction takes effect: rows, pointer and released lease at once. */
  function Committed(s: State, txn: Txn): State {
    var row := L.At(s.controls, txn.week);
    s.(kpis := s.kpis + RowsOf(txn.batch),
       controls := s.controls[txn.week :=
         row.(owner := None, acquiredAt := None, expiresAt := None, pointer := Some(PublicationOf(txn)))],
       commits := s.commits + [CommitRecord(txn.week, txn.run, txn.batch, PublicationOf(txn))])
  }

  predicate ChangesNothing(s: State, txn: Txn) {
    InsertedKeys(s.kpis, RowsOf(txn.batch)) == {} && UpdatedKeys(s.kpis, RowsOf(txn.batch)) == {}
  }

  function CommitStep(s: State, id: nat, outcome: CommitOutcome): State {
    if !InPhase(s, id, LeaseReleased) then s else
    var txn := s.sessions[id].txn;
    match outcome
    case CommitSeen =>
      Committed(s, txn).(sessions := s.sessions[id := Done(txn.run, ChangesNothing(s, txn))])
    case CommitLost(applied) =>
      (if applied then Committed(s, txn) else s).(sessions := s.sessions[id := Unsure(txn.run, CommitUncertain)])
    case CommitRefused => s.(sessions := s.sessions[id := Unsure(txn.run, RolledBack)])
  }

  function SetRun(s: State, run: RunId, status: RunStatus, commit: CommitResult): State {
    if run in s.runs && s.runs[run].status.Running?
    then s.(runs := s.runs[run := s.runs[run].(status := status, commit := commit)]) else s
  }

  /** The last transaction records the success that is then returned, unless the run is no longer running. */
  function FinishStep(s: State, id: nat): State {
    if id !in s.sessions || !s.sessions[id].Done? then s else
    var d := s.sessions[id];
    var status := if d.noop then SucceededNoop else Succeeded;
    if d.run !in s.runs || !s.runs[d.run].status.Running? then Close(s, id)
    else SetRun(s, d.run, status, Observed).(sessions := s.sessions[id := Returned(d.run, status)])
  }

  function ObserveStep(s: State, id: nat): State {
    if id !in s.sessions || !s.sessions[id].Unsure? then s else
    Close(SetRun(s, s.sessions[id].run, Running, s.sessions[id].result), id)
  }

  /** `resolve_uncertain_publication` recognises the run behind the pointer. */
  predicate Recognised(s: State, run: RunId, week: int, fingerprint: string, rules: string, count: Option<nat>) {
    var p := L.At(s.controls, week).pointer;
    && p.Some? && p.value.run == run && p.value.fingerprint == fingerprint && p.value.rules == rules
    && (count.Some? ==> p.value.rowCount == count.value)
  }

  function ResolveStep(s: State, run: RunId, week: int, fingerprint: string, rules: string, count: Option<nat>,
                       persist: bool): State {
    if !persist then s
    else if Recognised(s, run, week, fingerprint, rules, count) then SetRun(s, run, Succeeded, Observed)
    else SetRun(s, run, Running, CommitUncertain)
  }

  /** Disabled steps change nothing. */
  function Apply(s: State, step: Step): State {
    match step
    case Tick(elapsed) => s.(clock := s.clock + elapsed)
    case CreateRun(run, week) =>
      if run in s.runs || !IsMonday(week) then s else s.(runs := s.runs[run := Run(week, Pending, NotAttempted)])
    case Acquire(run, week, seconds, readings, committed) => AcquireStep(s, run, week, seconds, readings, committed)
    case Renew(run, week, token, seconds, readings) => RenewStep(s, run, week, token, seconds, readings)
    case UpdateRun(run, expected, status, result) => UpdateRunStep(s, run, expected, status, result)
    case Verify(id, run, week, token, batch, fingerprint, rules, now) =>
      VerifyStep(s, id, Txn(run, week, token, batch, fingerprint, rules, now, LeaseChecked))
    case MarkRunning(id, mark) => MarkStep(s, id, mark)
    case Stage(id) => StageStep(s, id)
    case Point(id) => if InPhase(s, id, RowsStaged) then SetPhase(s, id, Pointed) else s
    case ReleaseLease(id) => ReleaseStep(s, id)
    case Commit(id, outcome) => CommitStep(s, id, outcome)
    case Crash(id) => Close(s, id)
    case Finish(id) => FinishStep(s, id)
    case Observe(id) => ObserveStep(s, id)
    case Resolve(run, week, fingerprint, rules, count, persist) =>
      ResolveStep(s, run, week, fingerprint, rules, count, persist)
  }

  function Play(s: State, steps: seq<Step>): State {
    if steps == [] then s else Apply(Play(s, steps[..|steps| - 1]), steps[|steps| - 1])
  }

  lemma PlayNext(s: State, steps: seq<Step>, step: Step)
    ensures Play(s, steps + [step]) == Apply(Play(s, steps), step)
  {
    assert (steps + [step])[..|steps|] == steps;
  }

  lemma PlayNothing(s: State)
    ensures Play(s, []) == s
  {
  }

  // ----- what every run keeps -----

  function LastCommit(commits: seq<CommitRecord>, week: int): Option<CommitRecord> {
    if commits == [] then None
    else if commits[|commits| - 1].week == week then Some(commits[|commits| - 1])
    else LastCommit(commits[..|commits| - 1], week)
  }

  function LastGrant(grants: seq<GrantRecord>, week: int): Option<GrantRecord> {
    if grants == [] then None
    else if grants[|grants| - 1].week == week then Some(grants[|grants| - 1])
    else LastGrant(grants[..|grants| - 1], week)
  }

  predicate Past(phase: Phase) { !phase.LeaseChecked? }

  /** An open transaction still owns its week, under its token. */
  ghost predicate TxnOk(s: State, txn: Txn) {
    && txn.run in s.runs && s.runs[txn.run].week == txn.week
    && txn.week in s.controls && s.controls[txn.week].owner == Some(txn.run) && s.controls[txn.week].token == txn.token
    && ValidBatch(txn.week, txn.batch, txn.now)
    && (Past(txn.phase) ==> !s.runs[txn.run].status.Pending?)
    && (Past(txn.phase) && !txn.phase.Marked? ==> Disappeared(s.kpis, txn.week, txn.batch) == {})
  }

  ghost predicate HasCommit(s: State, run: RunId) {
    exists i :: 0 <= i < |s.commits| && s.commits[i].run == run
  }

  ghost predicate SessionsOk(s: State) {
    && (forall id :: id in s.sessions && s.sessions[id].Open? ==> TxnOk(s, s.sessions[id].txn))
    && (forall id :: id in s.sessions && s.sessions[id].Done? ==> HasCommit(s, s.sessions[id].run))
    && (forall id :: id in s.sessions && s.sessions[id].Returned? ==> IsSuccess(s, s.sessions[id].run, s.sessions[id].status))
  }

  /** The run is recorded with this successful status. */
  predicate IsSuccess(s: State, run: RunId, status: RunStatus) {
    run in s.runs && s.runs[run].status == status && Success(status)
  }

  /** A week's control row is locked by at most one transaction; a run is being published by at most one. */
  ghost predicate Exclusive(s: State) {
    && (forall i, j :: (i in s.sessions && j in s.sessions && s.sessions[i].Open? && s.sessions[j].Open?
                        && s.sessions[i].txn.week == s.sessions[j].txn.week) ==> i == j)
    && (forall i, j :: (i in s.sessions && j in s.sessions && s.sessions[i].Open? && s.sessions[j].Open?
                        && Past(s.sessions[i].txn.phase) && Past(s.sessions[j].txn.phase)
                        && s.sessions[i].txn.run == s.sessions[j].txn.run) ==> i == j)
    && (forall i :: i in s.sessions && s.sessions[i].Open? && Past(s.sessions[i].txn.phase) ==>
          !HasCommit(s, s.sessions[i].txn.run))
  }

  /** The pointer of a week names its last commit, and the week's rows are exactly that commit's batch. */
  ghost predicate WeekPublished(s: State, week: int) {
    var last := LastCommit(s.commits, week);
    && L.At(s.controls, week).pointer == (if last.Some? then Some(last.value.publication) else None)
    && WeekOf(s.kpis, week) == (if last.Some? then RowsOf(last.value.batch) else map[])
  }

  ghost predicate CommitsOk(s: State) {
    && (forall i :: 0 <= i < |s.commits| ==>
          && s.commits[i].publication.run == s.commits[i].run
          && s.commits[i].publication.rowCount == |RowsOf(s.commits[i].batch)|
          && s.commits[i].run in s.runs && s.runs[s.commits[i].run].week == s.commits[i].week
          && !s.runs[s.commits[i].run].status.Pending?)
    && (forall i, j :: 0 <= i < j < |s.commits| ==> s.commits[i].run != s.commits[j].run)
  }

  ghost predicate Tokens(s: State) {
    && (forall i, j :: 0 <= i < j < |s.grants| && s.grants[i].week == s.grants[j].week ==> s.grants[i].token < s.grants[j].token)
    && (forall week :: L.At(s.controls, week).token == (if LastGrant(s.grants, week).Some? then LastGrant(s.grants, week).value.token else 0))
    && (forall week :: L.At(s.controls, week).owner.Some? ==>
          LastGrant(s.grants, week) == Some(GrantRecord(week, L.At(s.controls, week).owner.value, L.At(s.controls, week).token)))
  }

  ghost predicate SuccessOk(s: State) {
    forall r :: r in s.runs && Success(s.runs[r].status) ==> HasCommit(s, r)
  }

  ghost predicate Inv(s: State) {
    && SessionsOk(s) && Exclusive(s) && (forall week :: WeekPublished(s, week)) && CommitsOk(s) && Tokens(s) && SuccessOk(s)
  }

  lemma InitialInv(s: State)
    requires Initial(s)
    ensures Inv(s)
  {
  }
}
