/** What each step of the publication protocol leaves on the columns of its tables, and how an unclear commit is resolved. */
module PublicationSteps {
  import opened Basics
  import opened WeeklyPerformance
  import opened WeeklyUpsert
  import opened PublicationProtocol
  import opened PublicationSafety
  import L = Lease

  // ----- run history -----

  /** The ten moves that run history allows. */
  const MOVES: set<(RunStatus, RunStatus)> := {
    (Pending, Running), (Pending, SkippedInProgress), (Pending, Superseded), (Pending, BlockedQuality),
    (Pending, FailedRetryable), (Running, Succeeded), (Running, SucceededNoop), (Running, FailedRetryable),
    (Running, BlockedQuality), (Running, Superseded)}

  lemma MovesAreAllowed(from: RunStatus, to: RunStatus)
    ensures Allowed(from, to) <==> (from, to) in MOVES
  {
  }

  /** Over any run a run's record moves by allowed moves only, or keeps its status. */
  ghost predicate Moves(a: State, b: State, run: RunId) {
    run in a.runs ==>
      (run in b.runs && b.runs[run].week == a.runs[run].week
       && (b.runs[run].status == a.runs[run].status || (a.runs[run].status, b.runs[run].status) in MOVES))
  }

  /** No step moves a run's status but along an allowed move. */
  lemma StepMoves(s: State, step: Step, run: RunId)
    ensures Moves(s, Apply(s, step), run)
  {
    hide RowsOf, Disappeared, ValidBatch, Locked, L.Free, L.Holds, L.Grant, L.Renew, L.Release, Recognised, ChangesNothing;
  }

  /** An update by another actor: it takes effect if and only if the run is in the expected status and may move; a
      coordinator alone marks runs running or successful. */
  lemma UpdateRunExact(s: State, run: RunId, expected: RunStatus, status: RunStatus, commit: CommitResult)
    ensures Apply(s, UpdateRun(run, expected, status, commit)) ==
      if run in s.runs && s.runs[run].status == expected && (expected, status) in MOVES
         && status in {FailedRetryable, BlockedQuality, Superseded, SkippedInProgress}
      then s.(runs := s.runs[run := Run(s.runs[run].week, status, commit)])
      else s
  {
    MovesAreAllowed(expected, status);
    hide Allowed;
  }

  // ----- leases -----

  /** No open business transaction locks the week's control row. */
  predicate Unlocked(s: State, week: int) {
    forall id :: id in s.sessions && s.sessions[id].Open? ==> s.sessions[id].txn.week != week
  }

  lemma UnlockedExact(s: State, week: int)
    ensures Unlocked(s, week) <==> !Locked(s, week)
  {
    assert forall id :: HoldsLock(s, id, week) ==> id in s.sessions;
  }

  /** A lease is granted, and the grant recorded, exactly when nobody holds the week or its lease ran out, for one
      second to one day from the reading that sets the expiry; the pointer stays. */
  lemma AcquireExact(s: State, run: RunId, week: int, seconds: int, r: L.Clock, committed: bool)
    ensures var row := L.At(s.controls, week);
      Apply(s, Acquire(run, week, seconds, r, committed)) ==
        if !Unlocked(s, week) || run !in s.runs || s.runs[run].week != week || !(1 <= seconds <= 86_400)
           || !(s.clock <= r.locked <= r.checked <= r.acquired <= r.expiring)
        then s
        else if committed && (row.owner == None || (row.expiresAt.Some? && row.expiresAt.value <= r.locked))
        then s.(clock := r.expiring,
                controls := s.controls[week := L.Control(Some(run), Some(r.acquired),
                  Some(r.expiring + seconds * 1_000_000), row.token + 1, row.pointer)],
                grants := s.grants + [GrantRecord(week, run, row.token + 1)])
        else s.(clock := r.expiring)
  {
    UnlockedExact(s, week);
    hide Locked, Unlocked;
  }

  /** A renewal moves the expiry of the holder's own lease, while it has not run out, and nothing else. */
  lemma RenewExact(s: State, run: RunId, week: int, token: nat, seconds: int, r: L.Clock)
    ensures Apply(s, Renew(run, week, token, seconds, r)) ==
      if Unlocked(s, week) && week in s.controls && 1 <= seconds <= 86_400
         && s.clock <= r.locked <= r.checked <= r.acquired <= r.expiring
         && s.controls[week].owner == Some(run) && s.controls[week].token == token
         && s.controls[week].expiresAt.Some? && s.controls[week].expiresAt.value > r.checked
      then s.(clock := r.expiring,
              controls := s.controls[week := s.controls[week].(expiresAt := Some(r.expiring + seconds * 1_000_000))])
      else s
  {
    UnlockedExact(s, week);
    hide Locked, Unlocked;
  }

  // ----- one publication -----

  /** The verification opens a transaction exactly for the owner of an unexpired lease of an unlocked week. */
  lemma VerifyExact(s: State, id: nat, run: RunId, week: int, token: nat, batch: seq<Aggregate>, fingerprint: string,
                    rules: string, now: int)
    ensures Apply(s, Verify(id, run, week, token, batch, fingerprint, rules, now)) ==
      if id !in s.sessions && Unlocked(s, week) && run in s.runs && s.runs[run].week == week
         && ValidBatch(week, batch, now) && week in s.controls && s.controls[week].owner == Some(run)
         && s.controls[week].token == token && s.controls[week].expiresAt.Some?
         && s.controls[week].expiresAt.value > s.clock
      then s.(sessions := s.sessions[id := Open(Txn(run, week, token, batch, fingerprint, rules, now, LeaseChecked))])
      else s
  {
    UnlockedExact(s, week);
    hide Locked, Unlocked, ValidBatch;
  }

  /** The mark makes a pending run running and uncommitted, or is refused; a lost commit of it may have taken effect,
      and its error ends the transaction. */
  lemma MarkExact(s: State, id: nat, outcome: MarkOutcome)
    requires id in s.sessions && s.sessions[id].Open? && s.sessions[id].txn.phase.LeaseChecked?
    ensures var txn, s' := s.sessions[id].txn, Apply(s, MarkRunning(id, outcome));
      var running := s.runs[txn.run := Run(if txn.run in s.runs then s.runs[txn.run].week else 0, Running, Uncommitted)];
      if txn.run !in s.runs || s.runs[txn.run].status != Pending || outcome == MarkFails then s' == s
      else if outcome == MarkedOk
      then s' == s.(runs := running, sessions := s.sessions[id := Open(txn.(phase := Marked))])
      else s' == s.(runs := if outcome == MarkLost(true) then running else s.runs, sessions := s.sessions - {id})
  {
  }

  /** Staging goes on exactly when every stored row of the week has a row in the batch. */
  lemma StageExact(s: State, id: nat)
    requires id in s.sessions && s.sessions[id].Open? && s.sessions[id].txn.phase.Marked?
    ensures var txn := s.sessions[id].txn;
      Apply(s, Stage(id)) ==
        if AllKept(s.kpis, txn.week, txn.batch)
        then s.(sessions := s.sessions[id := Open(txn.(phase := RowsStaged))])
        else s.(sessions := s.sessions - {id})
  {
    DisappearedSpelled(s.kpis, s.sessions[id].txn.week, s.sessions[id].txn.batch);
    hide Disappeared;
  }

  /** Every row of the batch is stored as it is. */
  predicate Unchanged(kpis: Table, batch: seq<Aggregate>) {
    forall k :: k in KeysIn(batch) ==> k in kpis && kpis[k] == RowsOf(batch)[k]
  }

  /** The commit touches no run; its process knows what the tables were, or that it does not know. */
  lemma CommitExact(s: State, id: nat, outcome: CommitOutcome)
    requires id in s.sessions && s.sessions[id].Open? && s.sessions[id].txn.phase.LeaseReleased?
    ensures var txn, s' := s.sessions[id].txn, Apply(s, Commit(id, outcome));
      && s'.runs == s.runs
      && s'.sessions == s.sessions[id :=
           if outcome.CommitSeen? then Done(txn.run, Unchanged(s.kpis, txn.batch))
           else Unsure(txn.run, if outcome.CommitRefused? then RolledBack else CommitUncertain)]
  {
    var txn := s.sessions[id].txn;
    NoopTxn(s, txn);
    hide RowsOf, ChangesNothing, Unchanged;
  }

  /** After an observed commit: the success of a running run, with the no-op told apart, is recorded and returned; a
      run that is no longer running stays as it is. */
  lemma FinishExact(s: State, id: nat)
    requires id in s.sessions && s.sessions[id].Done?
    ensures var d, s' := s.sessions[id], Apply(s, Finish(id));
      var status := if d.noop then SucceededNoop else Succeeded;
      if d.run in s.runs && s.runs[d.run].status == Running
      then s' == s.(runs := s.runs[d.run := Run(s.runs[d.run].week, status, Observed)],
                    sessions := s.sessions[id := Returned(d.run, status)])
      else s' == s.(sessions := s.sessions - {id})
  {
  }

  /** After an unclear commit: a running run stays running, with what is known of the commit. */
  lemma ObserveExact(s: State, id: nat)
    requires id in s.sessions && s.sessions[id].Unsure?
    ensures var u, s' := s.sessions[id], Apply(s, Observe(id));
      if u.run in s.runs && s.runs[u.run].status == Running
      then s' == s.(runs := s.runs[u.run := Run(s.runs[u.run].week, Running, u.result)], sessions := s.sessions - {id})
      else s' == s.(sessions := s.sessions - {id})
  {
  }

  lemma NoopExact(kpis: Table, batch: seq<Aggregate>)
    ensures InsertedKeys(kpis, RowsOf(batch)) == {} && UpdatedKeys(kpis, RowsOf(batch)) == {} <==> Unchanged(kpis, batch)
  {
    hide RowsOf;
    if InsertedKeys(kpis, RowsOf(batch)) == {} && UpdatedKeys(kpis, RowsOf(batch)) == {} {
      forall k | k in KeysIn(batch) ensures k in kpis && kpis[k] == RowsOf(batch)[k] {
        assert k !in InsertedKeys(kpis, RowsOf(batch)) && k !in UpdatedKeys(kpis, RowsOf(batch));
      }
    }
  }

  lemma NoopTxn(s: State, txn: Txn)
    ensures ChangesNothing(s, txn) <==> Unchanged(s.kpis, txn.batch)
  {
    NoopExact(s.kpis, txn.batch);
    hide RowsOf, InsertedKeys, UpdatedKeys, Unchanged;
  }

  // ----- recovery -----

  /** The run made the last commit of the week, with these values. */
  ghost predicate MadeLast(s: State, run: RunId, week: int, fingerprint: string, rules: string, count: Option<nat>) {
    var last := LastCommit(s.commits, week);
    && last.Some? && last.value.run == run && last.value.publication.fingerprint == fingerprint
    && last.value.publication.rules == rules && (count.Some? ==> count.value == |RowsOf(last.value.batch)|)
  }

  /** The resolution of an unclear publication, after any run of the protocol: a running run becomes successful with
      an observed commit if and only if it made the last commit of the week with those values, and stays running and
      uncertain otherwise; any other run, and every table of a resolution that is not persisted, is left alone. */
  lemma ResolveIsExact(s0: State, steps: seq<Step>, run: RunId, week: int, fingerprint: string, rules: string,
                       count: Option<nat>, persist: bool)
    requires Initial(s0)
    ensures var s := Play(s0, steps); var s' := Play(s0, steps + [Resolve(run, week, fingerprint, rules, count, persist)]);
      if !persist || run !in s.runs || s.runs[run].status != Running then s' == s
      else if MadeLast(s, run, week, fingerprint, rules, count)
      then s' == s.(runs := s.runs[run := Run(s.runs[run].week, Succeeded, Observed)])
      else s' == s.(runs := s.runs[run := Run(s.runs[run].week, Running, CommitUncertain)])
  {
    hide Play, Recognised, LastCommit, RowsOf, Apply;
    RecoveryIsExact(s0, steps, run, week, fingerprint, rules, count);
    PlayNext(s0, steps, Resolve(run, week, fingerprint, rules, count, persist));
    ResolveApplies(Play(s0, steps), run, week, fingerprint, rules, count, persist);
  }

  lemma ResolveApplies(s: State, run: RunId, week: int, fingerprint: string, rules: string, count: Option<nat>, persist: bool)
    ensures Apply(s, Resolve(run, week, fingerprint, rules, count, persist)) ==
      if !persist || run !in s.runs || s.runs[run].status != Running then s
      else s.(runs := s.runs[run := if Recognised(s, run, week, fingerprint, rules, count)
        then Run(s.runs[run].week, Succeeded, Observed) else Run(s.runs[run].week, Running, CommitUncertain)])
  {
    hide Recognised;
  }

  /** A publication whose commit reply is lost: the observation leaves the run running and uncertain, and a resolution
      with the run's own values then records success if and only if the commit took effect. */
  lemma LostCommitIsResolved(s: State, id: nat, applied: bool)
    requires Inv(s) && id in s.sessions && s.sessions[id].Open? && s.sessions[id].txn.phase.LeaseReleased?
    requires s.sessions[id].txn.run in s.runs && s.runs[s.sessions[id].txn.run].status.Running?
    ensures var txn := s.sessions[id].txn;
      var unclear := Apply(Apply(s, Commit(id, CommitLost(applied))), Observe(id));
      var resolved := Apply(unclear, Resolve(txn.run, txn.week, txn.fingerprint, txn.rules, Some(|txn.batch|), true));
      && unclear.runs == s.runs[txn.run := Run(s.runs[txn.run].week, Running, CommitUncertain)]
      && resolved.runs == s.runs[txn.run := if applied then Run(s.runs[txn.run].week, Succeeded, Observed)
           else Run(s.runs[txn.run].week, Running, CommitUncertain)]
  {
    hide Inv, RowsOf, Apply;
    var txn := s.sessions[id].txn;
    NotPointed(s, id);
    CommitExact(s, id, CommitLost(applied));
    var lost := Apply(s, Commit(id, CommitLost(applied)));
    ObserveExact(lost, id);
    LostPointer(s, id, applied);
    var unclear := Apply(lost, Observe(id));
    ResolveOnPointer(unclear, txn.run, txn.week, txn.fingerprint, txn.rules, Some(|txn.batch|));
  }

  /** The resolution reads the pointer of the week. */
  lemma ResolveOnPointer(s: State, run: RunId, week: int, fingerprint: string, rules: string, count: Option<nat>)
    requires run in s.runs && s.runs[run].status.Running?
    ensures var p := L.At(s.controls, week).pointer;
      Apply(s, Resolve(run, week, fingerprint, rules, count, true)) == s.(runs := s.runs[run :=
        if p.Some? && p.value.run == run && p.value.fingerprint == fingerprint && p.value.rules == rules
           && (count.Some? ==> p.value.rowCount == count.value)
        then Run(s.runs[run].week, Succeeded, Observed) else Run(s.runs[run].week, Running, CommitUncertain)])
  {
  }

  lemma LostPointer(s: State, id: nat, applied: bool)
    requires id in s.sessions && s.sessions[id].Open? && s.sessions[id].txn.phase.LeaseReleased?
    ensures var txn, s' := s.sessions[id].txn, Apply(s, Commit(id, CommitLost(applied)));
      L.At(s'.controls, txn.week).pointer == if applied then Some(PublicationOf(txn)) else L.At(s.controls, txn.week).pointer
  {
    hide RowsOf;
  }

  /** The pointer of the week never names the run whose transaction is still open. */
  lemma NotPointed(s: State, id: nat)
    requires Inv(s) && id in s.sessions && s.sessions[id].Open? && s.sessions[id].txn.phase.LeaseReleased?
    ensures var txn := s.sessions[id].txn; var p := L.At(s.controls, txn.week).pointer;
      p.Some? ==> p.value.run != txn.run
  {
    hide SessionsOk, Tokens, SuccessOk, RowsOf, LastCommit, HasCommit;
    var txn := s.sessions[id].txn;
    assert WeekPublished(s, txn.week);
    assert !HasCommit(s, txn.run);
    if LastCommit(s.commits, txn.week).Some? {
      var i := LastCommitFound(s.commits, txn.week);
      assert HasCommit(s, s.commits[i].run) by { CommittedAt(s, i); }
    }
  }

  lemma CommittedAt(s: State, i: nat)
    requires i < |s.commits|
    ensures HasCommit(s, s.commits[i].run)
  {
  }
}
