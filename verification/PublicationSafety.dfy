/** What every interleaving of competing coordinators keeps, and what a reader can see. */
module PublicationSafety {
  import opened Basics
  import opened WeeklyPerformance
  import opened WeeklyUpsert
  import opened PublicationProtocol
  import L = Lease

  // ----- run history -----

  ghost predicate RunsForward(s: State, s': State) {
    forall r :: r in s.runs ==>
      && r in s'.runs && s'.runs[r].week == s.runs[r].week && (!s.runs[r].status.Pending? ==> !s'.runs[r].status.Pending?)
      && (Success(s.runs[r].status) ==> s'.runs[r] == s.runs[r])
  }

  ghost predicate SameButRuns(s: State, s': State) {
    s'.controls == s.controls && s'.kpis == s.kpis && s'.sessions == s.sessions && s'.grants == s.grants && s'.commits == s.commits
  }

  lemma TxnForward(s: State, s': State, txn: Txn)
    requires TxnOk(s, txn) && RunsForward(s, s') && s'.controls == s.controls && s'.kpis == s.kpis
    ensures TxnOk(s', txn)
  {
    hide ValidBatch, Disappeared;
  }

  lemma CommitsForward(s: State, s': State)
    requires CommitsOk(s) && RunsForward(s, s') && s'.commits == s.commits
    ensures CommitsOk(s')
  {
    hide RowsOf;
  }

  lemma SameCommits(s: State, s': State)
    requires s'.commits == s.commits
    ensures forall r :: HasCommit(s', r) == HasCommit(s, r)
  {
  }

  lemma ExclusiveSame(s: State, s': State)
    requires Exclusive(s) && s'.sessions == s.sessions && s'.commits == s.commits
    ensures Exclusive(s')
  {
    SameCommits(s, s');
    hide HasCommit;
  }

  lemma SuccessSame(s: State, s': State)
    requires SuccessOk(s) && s'.runs == s.runs && s'.commits == s.commits
    ensures SuccessOk(s')
  {
    SameCommits(s, s');
    hide HasCommit;
  }

  lemma PublishedSame(s: State, s': State)
    requires (forall week :: WeekPublished(s, week)) && s'.kpis == s.kpis && s'.commits == s.commits
    requires forall week :: L.At(s'.controls, week).pointer == L.At(s.controls, week).pointer
    ensures forall week :: WeekPublished(s', week)
  {
    hide RowsOf, WeekOf, LastCommit;
    forall week ensures WeekPublished(s', week) { assert WeekPublished(s, week); }
  }

  /** Sessions, when nothing but leases of unlocked weeks and run history moved. */
  lemma SessionsSame(s: State, s': State)
    requires SessionsOk(s) && s'.sessions == s.sessions && s'.commits == s.commits && RunsForward(s, s')
    requires forall id :: id in s.sessions && s.sessions[id].Open? ==> TxnOk(s', s.sessions[id].txn)
    ensures SessionsOk(s')
  {
    SameCommits(s, s');
    hide HasCommit, TxnOk;
  }

  lemma RunsKeepInv(s: State, s': State)
    requires Inv(s) && SameButRuns(s, s') && RunsForward(s, s') && SuccessOk(s')
    ensures Inv(s')
  {
    hide TxnOk, RunsForward, SuccessOk, CommitsOk, WeekPublished, SessionsOk, Exclusive, Tokens, L.At;
    forall id | id in s.sessions && s.sessions[id].Open? ensures TxnOk(s', s.sessions[id].txn) {
      SessionTxn(s, id);
      TxnForward(s, s', s.sessions[id].txn);
    }
    SessionsSame(s, s');
    ExclusiveSame(s, s');
    PublishedSame(s, s');
    CommitsForward(s, s');
    TokensSame(s, s');
  }

  lemma SessionTxn(s: State, id: nat)
    requires SessionsOk(s) && id in s.sessions && s.sessions[id].Open?
    ensures TxnOk(s, s.sessions[id].txn)
  {
    hide TxnOk;
  }

  lemma SetRunForward(s: State, run: RunId, status: RunStatus, commit: CommitResult)
    requires Inv(s) && !status.Pending? && (Success(status) ==> HasCommit(s, run))
    ensures Inv(SetRun(s, run, status, commit))
  {
    hide WeekPublished, SessionsOk, Exclusive, CommitsOk, Tokens, HasCommit, SuccessOk;
    var s' := SetRun(s, run, status, commit);
    SetRunSuccess(s, run, status, commit);
    RunsKeepInv(s, s');
  }

  lemma SetRunSuccess(s: State, run: RunId, status: RunStatus, commit: CommitResult)
    requires SuccessOk(s) && (Success(status) ==> HasCommit(s, run))
    ensures SuccessOk(SetRun(s, run, status, commit))
  {
    SameCommits(s, SetRun(s, run, status, commit));
    hide HasCommit;
  }

  lemma UpdateRunInv(s: State, run: RunId, expected: RunStatus, status: RunStatus, commit: CommitResult)
    requires Inv(s)
    ensures Inv(UpdateRunStep(s, run, expected, status, commit))
  {
    hide WeekPublished, SessionsOk, Exclusive, CommitsOk, Tokens;
    var s' := UpdateRunStep(s, run, expected, status, commit);
    SameCommits(s, s');
    RunsKeepInv(s, s');
  }

  lemma CreateRunInv(s: State, run: RunId, week: int)
    requires Inv(s) && run !in s.runs
    ensures Inv(s.(runs := s.runs[run := Run(week, Pending, NotAttempted)]))
  {
    hide WeekPublished, SessionsOk, Exclusive, CommitsOk, Tokens;
    var s' := s.(runs := s.runs[run := Run(week, Pending, NotAttempted)]);
    SameCommits(s, s');
    RunsKeepInv(s, s');
  }

  lemma ClockInv(s: State, clock: int)
    requires Inv(s)
    ensures Inv(s.(clock := clock))
  {
    hide WeekPublished, CommitsOk, Tokens;
    var s' := s.(clock := clock);
    SameCommits(s, s');
    RunsKeepInv(s, s');
  }

  lemma CloseInv(s: State, id: nat)
    requires Inv(s)
    ensures Inv(Close(s, id))
  {
    hide WeekPublished, CommitsOk, Tokens, SuccessOk, TxnOk, HasCommit;
    var s' := Close(s, id);
    SameCommits(s, s');
    CommitsForward(s, s');
    TokensSame(s, s');
    PublishedSame(s, s');
    SuccessSame(s, s');
    forall i | i in s'.sessions && s'.sessions[i].Open? ensures TxnOk(s', s'.sessions[i].txn) {
      TxnForward(s, s', s.sessions[i].txn);
    }
  }

  // ----- leases -----

  lemma {:induction false} LastGrantTop(grants: seq<GrantRecord>, week: int, i: nat)
    requires forall i, j :: 0 <= i < j < |grants| && grants[i].week == grants[j].week ==> grants[i].token < grants[j].token
    requires i < |grants| && grants[i].week == week
    ensures LastGrant(grants, week).Some? && grants[i].token <= LastGrant(grants, week).value.token
  {
    if grants[|grants| - 1].week != week { LastGrantTop(grants[..|grants| - 1], week, i); }
  }

  lemma GrantTokens(s: State, run: RunId, week: int, row: L.Control)
    requires Tokens(s) && row.owner == Some(run) && row.token == L.At(s.controls, week).token + 1
    ensures Tokens(s.(controls := s.controls[week := row], grants := s.grants + [GrantRecord(week, run, row.token)]))
  {
    var s' := s.(controls := s.controls[week := row], grants := s.grants + [GrantRecord(week, run, row.token)]);
    assert s'.grants[..|s'.grants| - 1] == s.grants;
    forall i, j | 0 <= i < j < |s'.grants| && s'.grants[i].week == s'.grants[j].week
      ensures s'.grants[i].token < s'.grants[j].token
    {
      if j == |s.grants| { LastGrantTop(s.grants, week, i); }
    }
    assert LastGrant(s'.grants, week) == Some(GrantRecord(week, run, row.token));
    assert forall w :: w != week ==> LastGrant(s'.grants, w) == LastGrant(s.grants, w);
  }

  /** A lease operation on an unlocked week leaves every open transaction in force. */
  lemma LeaseMoveInv(s: State, s': State, week: int)
    requires Inv(s) && !Locked(s, week) && Tokens(s')
    requires s'.runs == s.runs && s'.kpis == s.kpis && s'.sessions == s.sessions && s'.commits == s.commits
    requires forall w :: w != week ==> L.At(s'.controls, w) == L.At(s.controls, w) && (w in s.controls ==> w in s'.controls)
    requires L.At(s'.controls, week).pointer == L.At(s.controls, week).pointer
    ensures Inv(s')
  {
    hide TxnOk, SuccessOk, CommitsOk, WeekPublished, SessionsOk, Exclusive, Tokens;
    forall id | id in s.sessions && s.sessions[id].Open? ensures TxnOk(s', s.sessions[id].txn) {
      assert !HoldsLock(s, id, week);
      SessionTxn(s, id);
      TxnOtherWeek(s, s', s.sessions[id].txn, week);
    }
    SessionsSame(s, s');
    ExclusiveSame(s, s');
    PublishedSame(s, s');
    CommitsForward(s, s');
    SuccessSame(s, s');
  }

  lemma AcquireInv(s: State, run: RunId, week: int, seconds: int, r: L.Clock, committed: bool)
    requires Inv(s)
    ensures Inv(AcquireStep(s, run, week, seconds, r, committed))
  {
    hide TxnOk, SuccessOk, CommitsOk, WeekPublished, SessionsOk, Exclusive, Tokens, L.Free, Locked;
    var s' := AcquireStep(s, run, week, seconds, r, committed);
    if s'.grants != s.grants {
      GrantTokens(s, run, week, s'.controls[week]);
      ClockTokens(s.(controls := s'.controls, grants := s'.grants), r.expiring);
      LeaseMoveInv(s, s', week);
    } else {
      ClockInv(s, r.expiring);
      assert s' == s || s' == s.(clock := r.expiring);
    }
  }

  lemma ClockTokens(s: State, clock: int)
    requires Tokens(s)
    ensures Tokens(s.(clock := clock))
  {
  }

  lemma TxnOtherWeek(s: State, s': State, txn: Txn, week: int)
    requires TxnOk(s, txn) && txn.week != week && s'.runs == s.runs && s'.kpis == s.kpis
    requires forall w :: w != week ==> L.At(s'.controls, w) == L.At(s.controls, w) && (w in s.controls ==> w in s'.controls)
    ensures TxnOk(s', txn)
  {
    hide ValidBatch, Disappeared;
  }

  lemma RenewTokens(s: State, week: int, row: L.Control, clock: int)
    requires Tokens(s) && row.owner == L.At(s.controls, week).owner && row.token == L.At(s.controls, week).token
    ensures Tokens(s.(clock := clock, controls := s.controls[week := row]))
  {
    hide LastGrant;
  }

  lemma RenewInv(s: State, run: RunId, week: int, token: nat, seconds: int, r: L.Clock)
    requires Inv(s)
    ensures Inv(RenewStep(s, run, week, token, seconds, r))
  {
    hide TxnOk, SuccessOk, CommitsOk, WeekPublished, SessionsOk, Exclusive, Tokens, L.Holds, Locked;
    var s' := RenewStep(s, run, week, token, seconds, r);
    if s' != s {
      RenewTokens(s, week, s'.controls[week], r.expiring);
      LeaseMoveInv(s, s', week);
    }
  }

  // ----- transactions -----

  lemma VerifyInv(s: State, id: nat, txn: Txn)
    requires Inv(s) && txn.phase.LeaseChecked?
    ensures Inv(VerifyStep(s, id, txn))
  {
    hide ValidBatch, Disappeared, WeekPublished, CommitsOk, Tokens, SuccessOk, Exclusive, SessionsOk, TxnOk;
    var s' := VerifyStep(s, id, txn);
    if s' != s {
      CommitsForward(s, s');
      TokensSame(s, s');
      PublishedSame(s, s');
      SuccessSame(s, s');
      assert TxnOk(s, txn) by { VerifiedTxn(s, id, txn); }
      assert !Locked(s, txn.week);
      TxnForward(s, s', txn);
      SessionReplaced(s, s', id, txn);
      ExclusiveVerified(s, s', id, txn);
    }
  }

  lemma VerifiedTxn(s: State, id: nat, txn: Txn)
    requires txn.phase.LeaseChecked? && VerifyStep(s, id, txn) != s
    ensures TxnOk(s, txn)
  {
    hide ValidBatch, Locked, Disappeared;
  }

  lemma ExclusiveVerified(s: State, s': State, id: nat, txn: Txn)
    requires Exclusive(s) && s'.commits == s.commits && s'.sessions == s.sessions[id := Open(txn)]
    requires txn.phase.LeaseChecked? && !Locked(s, txn.week)
    ensures Exclusive(s')
  {
    SameCommits(s, s');
    hide HasCommit;
    forall i | i in s.sessions && s.sessions[i].Open? ensures s.sessions[i].txn.week != txn.week {
      assert !HoldsLock(s, i, txn.week);
    }
  }

  lemma SessionReplaced(s: State, s': State, id: nat, txn: Txn)
    requires SessionsOk(s) && TxnOk(s', txn) && s'.sessions == s.sessions[id := Open(txn)] && s'.commits == s.commits
    requires s'.controls == s.controls && s'.kpis == s.kpis && RunsForward(s, s')
    ensures SessionsOk(s')
  {
    SameCommits(s, s');
    hide HasCommit, TxnOk, RunsForward;
    forall i | i in s'.sessions && s'.sessions[i].Open? && i != id ensures TxnOk(s', s'.sessions[i].txn) {
      SessionTxn(s, i);
      TxnForward(s, s', s.sessions[i].txn);
    }
  }

  lemma TokensSame(s: State, s': State)
    requires Tokens(s) && s'.grants == s.grants && s'.controls == s.controls
    ensures Tokens(s')
  {
  }

  /** Moving one transaction to its next phase. */
  lemma PhaseInv(s: State, id: nat, phase: Phase)
    requires Inv(s) && id in s.sessions && s.sessions[id].Open? && Past(s.sessions[id].txn.phase)
    requires TxnOk(s, s.sessions[id].txn.(phase := phase))
    ensures Inv(SetPhase(s, id, phase))
  {
    hide WeekPublished, CommitsOk, Tokens, SuccessOk, Exclusive, SessionsOk, TxnOk;
    var s' := SetPhase(s, id, phase);
    CommitsForward(s, s');
    TokensSame(s, s');
    PublishedSame(s, s');
    SuccessSame(s, s');
    TxnForward(s, s', s.sessions[id].txn.(phase := phase));
    SessionReplaced(s, s', id, s.sessions[id].txn.(phase := phase));
    ExclusivePhase(s, s', id, phase);
  }

  lemma ExclusivePhase(s: State, s': State, id: nat, phase: Phase)
    requires Exclusive(s) && id in s.sessions && s.sessions[id].Open? && s'.commits == s.commits
    requires s'.sessions == s.sessions[id := Open(s.sessions[id].txn.(phase := phase))]
    requires Past(s.sessions[id].txn.phase) || NobodyPublishes(s, s.sessions[id].txn.run)
    ensures Exclusive(s')
  {
    SameCommits(s, s');
    hide HasCommit;
  }

  /** No transaction is past its mark for this run, and the run has no commit. */
  ghost predicate NobodyPublishes(s: State, run: RunId) {
    && !HasCommit(s, run)
    && forall i :: i in s.sessions && s.sessions[i].Open? && Past(s.sessions[i].txn.phase) ==> s.sessions[i].txn.run != run
  }

  lemma PendingIsUnpublished(s: State, run: RunId)
    requires SessionsOk(s) && CommitsOk(s) && run in s.runs && s.runs[run].status.Pending?
    ensures NobodyPublishes(s, run)
  {
    PendingNotCommitted(s, run);
    hide CommitsOk, SessionsOk, HasCommit, TxnOk;
    forall i | i in s.sessions && s.sessions[i].Open? && Past(s.sessions[i].txn.phase)
      ensures s.sessions[i].txn.run != run
    {
      SessionTxn(s, i);
      PastNotPending(s, s.sessions[i].txn);
    }
  }

  lemma MarkedInv(s: State, id: nat)
    requires Inv(s) && InPhase(s, id, LeaseChecked)
    requires s.sessions[id].txn.run in s.runs && s.runs[s.sessions[id].txn.run].status.Pending?
    ensures var run := s.sessions[id].txn.run;
      Inv(SetPhase(s, id, Marked).(runs := s.runs[run := s.runs[run].(status := Running, commit := Uncommitted)]))
  {
    hide WeekPublished, CommitsOk, Tokens, Exclusive, SessionsOk, TxnOk, HasCommit, SuccessOk;
    var run := s.sessions[id].txn.run;
    var s' := SetPhase(s, id, Marked).(runs := s.runs[run := s.runs[run].(status := Running, commit := Uncommitted)]);
    CommitsForward(s, s');
    TokensSame(s, s');
    PublishedSame(s, s');
    SuccessRunning(s, s', run);
    SessionTxn(s, id);
    TxnForward(s, s', s.sessions[id].txn);
    TxnMarked(s', s.sessions[id].txn);
    SessionReplaced(s, s', id, s.sessions[id].txn.(phase := Marked));
    PendingIsUnpublished(s, run);
    ExclusivePhase(s, s', id, Marked);
  }

  lemma SuccessRunning(s: State, s': State, run: RunId)
    requires SuccessOk(s) && s'.commits == s.commits && run in s.runs
    requires s'.runs == s.runs[run := s.runs[run].(status := Running, commit := Uncommitted)]
    ensures SuccessOk(s')
  {
    SameCommits(s, s');
    hide HasCommit;
  }

  lemma TxnMarked(s: State, txn: Txn)
    requires TxnOk(s, txn) && !s.runs[txn.run].status.Pending?
    ensures TxnOk(s, txn.(phase := Marked))
  {
  }

  lemma PastNotPending(s: State, txn: Txn)
    requires TxnOk(s, txn) && Past(txn.phase)
    ensures txn.run in s.runs && !s.runs[txn.run].status.Pending?
  {
  }

  lemma PendingNotCommitted(s: State, run: RunId)
    requires CommitsOk(s) && run in s.runs && s.runs[run].status.Pending?
    ensures !HasCommit(s, run)
  {
  }

  lemma MarkInv(s: State, id: nat, mark: MarkOutcome)
    requires Inv(s)
    ensures Inv(MarkStep(s, id, mark))
  {
    hide Inv, SetPhase;
    if InPhase(s, id, LeaseChecked) && !MarkRefused(s, s.sessions[id].txn.run, mark) {
      CloseInv(s, id);
      MarkedInv(s, id);
      MarkLostInv(s, id, s.sessions[id].txn.run);
    }
  }

  lemma MarkLostInv(s: State, id: nat, run: RunId)
    requires Inv(s) && run in s.runs && s.runs[run].status.Pending?
    ensures Inv(Close(s, id).(runs := s.runs[run := s.runs[run].(status := Running, commit := Uncommitted)]))
  {
    hide WeekPublished, SessionsOk, Exclusive, CommitsOk, Tokens;
    CloseInv(s, id);
    var closed := Close(s, id);
    var s' := closed.(runs := s.runs[run := s.runs[run].(status := Running, commit := Uncommitted)]);
    assert forall r :: HasCommit(s', r) == HasCommit(closed, r);
    RunsKeepInv(closed, s');
  }

  lemma StageInv(s: State, id: nat)
    requires Inv(s)
    ensures Inv(StageStep(s, id))
  {
    hide ValidBatch, Disappeared, WeekPublished, CommitsOk, Tokens, Exclusive, SuccessOk, HasCommit;
    if InPhase(s, id, Marked) {
      CloseInv(s, id);
      assert TxnOk(s, s.sessions[id].txn);
      if Disappeared(s.kpis, s.sessions[id].txn.week, s.sessions[id].txn.batch) == {} { PhaseInv(s, id, RowsStaged); }
    }
  }

  lemma PointInv(s: State, id: nat)
    requires Inv(s) && InPhase(s, id, RowsStaged)
    ensures Inv(SetPhase(s, id, Pointed))
  {
    hide ValidBatch, Disappeared, WeekPublished, CommitsOk, Tokens, Exclusive, SuccessOk, HasCommit;
    assert TxnOk(s, s.sessions[id].txn);
    PhaseInv(s, id, Pointed);
  }

  /** The lease is never found released or taken over before the transaction that holds its row ends. */
  lemma ReleaseNeverRejected(s: State, id: nat)
    requires Inv(s) && InPhase(s, id, Pointed)
    ensures ReleaseStep(s, id) == SetPhase(s, id, LeaseReleased) && Inv(ReleaseStep(s, id))
  {
    hide ValidBatch, Disappeared, WeekPublished, CommitsOk, Tokens, Exclusive, SuccessOk, HasCommit;
    assert TxnOk(s, s.sessions[id].txn);
    PhaseInv(s, id, LeaseReleased);
  }

  // ----- commit -----

  lemma CommitTables(s: State, txn: Txn)
    requires Inv(s) && TxnOk(s, txn) && txn.phase.LeaseReleased? && !HasCommit(s, txn.run)
    ensures var s' := Committed(s, txn);
      && (forall week :: WeekPublished(s', week)) && CommitsOk(s') && Tokens(s') && SuccessOk(s')
      && (forall r :: HasCommit(s', r) <==> HasCommit(s, r) || r == txn.run)
  {
    CommitPublishes(s, txn);
    CommitRecords(s, txn);
    CommitTokens(s, txn);
    hide WeekPublished, CommitsOk, Tokens, TxnOk;
  }

  lemma CommitPublishes(s: State, txn: Txn)
    requires (forall week :: WeekPublished(s, week)) && TxnOk(s, txn) && txn.phase.LeaseReleased?
    ensures forall week :: WeekPublished(Committed(s, txn), week)
  {
    hide RowsOf, WeekOf, Publishable;
    var s' := Committed(s, txn);
    assert s'.commits[..|s'.commits| - 1] == s.commits;
    BatchWeek(txn.week, txn.batch);
    forall week ensures WeekPublished(s', week) {
      assert WeekPublished(s, week);
      if week == txn.week {
        WeekStaged(s.kpis, week, txn.batch);
      } else {
        OtherWeeksKept(s.kpis, txn.week, week, txn.batch);
      }
    }
  }

  lemma BatchWeek(week: int, batch: seq<Aggregate>)
    requires forall a :: a in batch ==> Publishable(week, a)
    ensures forall a :: a in batch ==> a.key.week == week
  {
  }

  lemma CommitRecords(s: State, txn: Txn)
    requires CommitsOk(s) && SuccessOk(s) && TxnOk(s, txn) && txn.phase.LeaseReleased? && !HasCommit(s, txn.run)
    ensures var s' := Committed(s, txn);
      CommitsOk(s') && SuccessOk(s') && (forall r :: HasCommit(s', r) <==> HasCommit(s, r) || r == txn.run)
  {
    hide RowsOf, ValidBatch, Disappeared;
    var s' := Committed(s, txn);
    BatchCount(txn.week, txn.batch, txn.now);
    CommitAdded(s, s', txn.run);
    CommitsAppended(s, s', CommitRecord(txn.week, txn.run, txn.batch, PublicationOf(txn)));
    hide HasCommit;
  }

  lemma BatchCount(week: int, batch: seq<Aggregate>, now: int)
    requires ValidBatch(week, batch, now)
    ensures |RowsOf(batch)| == |batch|
  {
    hide RowsOf, Publishable;
    DistinctCount(batch);
    assert |RowsOf(batch)| == |RowsOf(batch).Keys|;
  }

  lemma CommitAdded(s: State, s': State, run: RunId)
    requires |s'.commits| == |s.commits| + 1 && s'.commits[..|s.commits|] == s.commits && s'.commits[|s.commits|].run == run
    ensures forall r :: HasCommit(s', r) <==> HasCommit(s, r) || r == run
  {
    forall r | HasCommit(s, r) ensures HasCommit(s', r) {
      var i :| 0 <= i < |s.commits| && s.commits[i].run == r;
      assert s'.commits[i] == s.commits[i];
    }
    forall r | HasCommit(s', r) ensures HasCommit(s, r) || r == run {
      var i :| 0 <= i < |s'.commits| && s'.commits[i].run == r;
      if i < |s.commits| { assert s'.commits[i] == s.commits[i]; }
    }
  }

  lemma CommitsAppended(s: State, s': State, c: CommitRecord)
    requires CommitsOk(s) && s'.runs == s.runs && s'.commits == s.commits + [c]
    requires c.publication.run == c.run && c.publication.rowCount == |RowsOf(c.batch)|
    requires c.run in s.runs && s.runs[c.run].week == c.week && !s.runs[c.run].status.Pending? && !HasCommit(s, c.run)
    ensures CommitsOk(s')
  {
    hide RowsOf;
    forall i | 0 <= i < |s.commits| ensures s.commits[i].run != c.run && s'.commits[i] == s.commits[i] {}
  }

  lemma CommitTokens(s: State, txn: Txn)
    requires Tokens(s) && TxnOk(s, txn)
    ensures Tokens(Committed(s, txn))
  {
    hide RowsOf, LastGrant, ValidBatch, Disappeared;
  }

  /** Ending a transaction: its session becomes `Done` or `Unsure`; the other transactions stay as they were. */
  lemma SessionEndInv(s: State, s': State, id: nat, end: Session)
    requires Inv(s) && InPhase(s, id, LeaseReleased) && (end.Done? || end.Unsure?)
    requires s' == s.(sessions := s.sessions[id := end])
      || s' == Committed(s, s.sessions[id].txn).(sessions := s.sessions[id := end])
    requires (forall week :: WeekPublished(s', week)) && CommitsOk(s') && Tokens(s') && SuccessOk(s')
    requires forall r :: HasCommit(s', r) ==> HasCommit(s, r) || r == s.sessions[id].txn.run
    requires forall r :: HasCommit(s, r) ==> HasCommit(s', r)
    requires end.Done? ==> HasCommit(s', end.run)
    ensures Inv(s')
  {
    hide WeekPublished, CommitsOk, Tokens, SuccessOk, TxnOk, HasCommit, Committed, SessionsOk, Exclusive;
    SessionsEnded(s, s', id, end);
    ExclusiveEnded(s, s', id, end);
  }

  lemma SessionsEnded(s: State, s': State, id: nat, end: Session)
    requires SessionsOk(s) && Exclusive(s) && InPhase(s, id, LeaseReleased) && (end.Done? || end.Unsure?)
    requires s' == s.(sessions := s.sessions[id := end])
      || s' == Committed(s, s.sessions[id].txn).(sessions := s.sessions[id := end])
    requires forall r :: HasCommit(s, r) ==> HasCommit(s', r)
    requires end.Done? ==> HasCommit(s', end.run)
    ensures SessionsOk(s')
  {
    hide TxnOk, HasCommit, RowsOf, PublicationOf;
    var txn := s.sessions[id].txn;
    forall i | i in s'.sessions && s'.sessions[i].Open? ensures TxnOk(s', s'.sessions[i].txn) {
      assert i != id && TxnOk(s, s.sessions[i].txn) && s.sessions[i].txn.week != txn.week;
      TxnAside(s, s', s.sessions[i].txn, txn);
    }
  }

  lemma ExclusiveEnded(s: State, s': State, id: nat, end: Session)
    requires Exclusive(s) && InPhase(s, id, LeaseReleased) && !end.Open? && s'.sessions == s.sessions[id := end]
    requires forall r :: HasCommit(s', r) ==> HasCommit(s, r) || r == s.sessions[id].txn.run
    ensures Exclusive(s')
  {
    hide HasCommit;
  }

  lemma TxnAside(s: State, s': State, other: Txn, txn: Txn)
    requires TxnOk(s, other) && TxnOk(s, txn) && other.week != txn.week && s'.runs == s.runs
    requires (s'.controls == s.controls && s'.kpis == s.kpis)
      || (s'.controls == Committed(s, txn).controls && s'.kpis == Committed(s, txn).kpis)
    ensures TxnOk(s', other)
  {
    hide RowsOf, Publishable;
    BatchWeek(txn.week, txn.batch);
    OtherWeeksKept(s.kpis, txn.week, other.week, txn.batch);
  }

  lemma CommitInv(s: State, id: nat, outcome: CommitOutcome)
    requires Inv(s)
    ensures Inv(CommitStep(s, id, outcome))
  {
    hide ValidBatch, RowsOf, CommitsOk, Tokens, SuccessOk, TxnOk, Committed, ChangesNothing, Disappeared;
    if InPhase(s, id, LeaseReleased) {
      var txn, s' := s.sessions[id].txn, CommitStep(s, id, outcome);
      CommitTables(s, txn);
      var base := if outcome.CommitSeen? || (outcome.CommitLost? && outcome.applied) then Committed(s, txn) else s;
      CommitSame(base, s');
      SessionEndInv(s, s', id, s'.sessions[id]);
    }
  }

  lemma CommitSame(base: State, s': State)
    requires s' == base.(sessions := s'.sessions)
    requires (forall week :: WeekPublished(base, week)) && CommitsOk(base) && Tokens(base) && SuccessOk(base)
    ensures (forall week :: WeekPublished(s', week)) && CommitsOk(s') && Tokens(s') && SuccessOk(s')
    ensures forall r :: HasCommit(s', r) == HasCommit(base, r)
  {
    hide RowsOf, WeekOf, LastCommit, LastGrant;
    forall week ensures WeekPublished(s', week) { assert WeekPublished(base, week); }
  }

  // ----- after the commit -----

  lemma FinishInv(s: State, id: nat)
    requires Inv(s)
    ensures Inv(FinishStep(s, id))
  {
    hide Inv, HasCommit;
    if id in s.sessions && s.sessions[id].Done? {
      var d := s.sessions[id];
      var status := if d.noop then SucceededNoop else Succeeded;
      DoneCommitted(s, id);
      SetRunForward(s, d.run, status, Observed);
      CloseInv(s, id);
      if d.run in s.runs && s.runs[d.run].status.Running? { ReturnInv(SetRun(s, d.run, status, Observed), id, d.run, status); }
    }
  }

  lemma DoneCommitted(s: State, id: nat)
    requires Inv(s) && id in s.sessions && s.sessions[id].Done?
    ensures HasCommit(s, s.sessions[id].run)
  {
    hide WeekPublished, Exclusive, CommitsOk, Tokens, SuccessOk, TxnOk, HasCommit;
  }

  /** A process returns the success that is recorded. */
  lemma ReturnInv(s: State, id: nat, run: RunId, status: RunStatus)
    requires Inv(s) && IsSuccess(s, run, status)
    ensures Inv(s.(sessions := s.sessions[id := Returned(run, status)]))
  {
    hide WeekPublished, CommitsOk, Tokens, SuccessOk, SessionsOk, Exclusive;
    var s' := s.(sessions := s.sessions[id := Returned(run, status)]);
    CommitsForward(s, s');
    TokensSame(s, s');
    PublishedSame(s, s');
    SuccessSame(s, s');
    ReturnSessions(s, s', id, run, status);
    ReturnExclusive(s, s', id, run, status);
  }

  lemma ReturnSessions(s: State, s': State, id: nat, run: RunId, status: RunStatus)
    requires SessionsOk(s) && IsSuccess(s, run, status) && s' == s.(sessions := s.sessions[id := Returned(run, status)])
    ensures SessionsOk(s')
  {
    SameCommits(s, s');
    hide HasCommit, TxnOk;
    forall i | i in s'.sessions && s'.sessions[i].Open? ensures TxnOk(s', s'.sessions[i].txn) {
      TxnForward(s, s', s.sessions[i].txn);
    }
  }

  lemma ReturnExclusive(s: State, s': State, id: nat, run: RunId, status: RunStatus)
    requires Exclusive(s) && s' == s.(sessions := s.sessions[id := Returned(run, status)])
    ensures Exclusive(s')
  {
    SameCommits(s, s');
    hide HasCommit;
  }

  lemma ObserveInv(s: State, id: nat)
    requires Inv(s)
    ensures Inv(ObserveStep(s, id))
  {
    hide Inv;
    if id in s.sessions && s.sessions[id].Unsure? {
      SetRunForward(s, s.sessions[id].run, Running, s.sessions[id].result);
      CloseInv(SetRun(s, s.sessions[id].run, Running, s.sessions[id].result), id);
    }
  }

  lemma {:induction false} LastCommitFound(commits: seq<CommitRecord>, week: int) returns (i: nat)
    requires LastCommit(commits, week).Some?
    ensures i < |commits| && commits[i] == LastCommit(commits, week).value && commits[i].week == week
    ensures forall j :: i < j < |commits| ==> commits[j].week != week
  {
    if commits[|commits| - 1].week == week { i := |commits| - 1; }
    else { i := LastCommitFound(commits[..|commits| - 1], week); }
  }

  lemma RecognisedCommitted(s: State, run: RunId, week: int, fingerprint: string, rules: string, count: Option<nat>)
    requires Inv(s) && Recognised(s, run, week, fingerprint, rules, count)
    ensures HasCommit(s, run)
  {
    hide SessionsOk, Exclusive, Tokens, SuccessOk, LastCommit;
    assert WeekPublished(s, week);
    var i := LastCommitFound(s.commits, week);
  }

  lemma ResolveInv(s: State, run: RunId, week: int, fingerprint: string, rules: string, count: Option<nat>, persist: bool)
    requires Inv(s)
    ensures Inv(ResolveStep(s, run, week, fingerprint, rules, count, persist))
  {
    hide Inv, Recognised;
    if persist {
      if Recognised(s, run, week, fingerprint, rules, count) {
        RecognisedCommitted(s, run, week, fingerprint, rules, count);
        SetRunForward(s, run, Succeeded, Observed);
      } else {
        SetRunForward(s, run, Running, CommitUncertain);
      }
    }
  }

  // ----- every run -----

  lemma StepInv(s: State, step: Step)
    requires Inv(s)
    ensures Inv(Apply(s, step))
  {
    hide Inv, AcquireStep, RenewStep, UpdateRunStep, VerifyStep, MarkStep, StageStep, ReleaseStep, CommitStep,
      FinishStep, ObserveStep, ResolveStep, SetPhase, Close;
    match step
    case Tick(elapsed) => ClockInv(s, s.clock + elapsed);
    case CreateRun(run, week) => if run !in s.runs { CreateRunInv(s, run, week); }
    case Acquire(run, week, seconds, readings, committed) => AcquireInv(s, run, week, seconds, readings, committed);
    case Renew(run, week, token, seconds, readings) => RenewInv(s, run, week, token, seconds, readings);
    case UpdateRun(run, expected, status, result) => UpdateRunInv(s, run, expected, status, result);
    case Verify(id, run, week, token, batch, fingerprint, rules, now) =>
      VerifyInv(s, id, Txn(run, week, token, batch, fingerprint, rules, now, LeaseChecked));
    case MarkRunning(id, mark) => MarkInv(s, id, mark);
    case Stage(id) => StageInv(s, id);
    case Point(id) => if InPhase(s, id, RowsStaged) { PointInv(s, id); }
    case ReleaseLease(id) => ReleaseInv(s, id);
    case Commit(id, outcome) => CommitInv(s, id, outcome);
    case Crash(id) => CloseInv(s, id);
    case Finish(id) => FinishInv(s, id);
    case Observe(id) => ObserveInv(s, id);
    case Resolve(run, week, fingerprint, rules, count, persist) =>
      ResolveInv(s, run, week, fingerprint, rules, count, persist);
  }

  lemma ReleaseInv(s: State, id: nat)
    requires Inv(s)
    ensures Inv(ReleaseStep(s, id))
  {
    hide Inv;
    if InPhase(s, id, Pointed) { ReleaseNeverRejected(s, id); }
  }

  lemma {:induction false} PlayInv(s: State, steps: seq<Step>)
    requires Inv(s)
    ensures Inv(Play(s, steps))
  {
    hide Inv, Apply;
    if steps != [] {
      PlayInv(s, steps[..|steps| - 1]);
      StepInv(Play(s, steps[..|steps| - 1]), steps[|steps| - 1]);
    }
  }

  /** The database clock never goes back. */
  lemma ClockForward(s: State, step: Step)
    ensures Apply(s, step).clock >= s.clock
  {
    hide RowsOf, Disappeared, ValidBatch, Locked, L.Free, L.Holds, L.Grant, L.Renew, Recognised, ChangesNothing, MarkRefused;
  }

  // ----- readers -----

  /** `weekly_report` with its two reads: the pointer in one state, the rows in a later one. */
  function WeeklyReport(first: State, second: State, week: int): Option<Table> {
    if L.At(first.controls, week).pointer.None? then None else Some(WeekOf(second.kpis, week))
  }

  lemma {:induction false} LastCommitKept(s: State, steps: seq<Step>, week: int)
    requires LastCommit(s.commits, week).Some?
    ensures LastCommit(Play(s, steps).commits, week).Some?
  {
    hide LastCommit;
    if steps != [] {
      LastCommitKept(s, steps[..|steps| - 1], week);
      StepCommits(Play(s, steps[..|steps| - 1]), steps[|steps| - 1], week);
    }
  }

  lemma StepCommits(s: State, step: Step, week: int)
    ensures Apply(s, step).commits == s.commits || |Apply(s, step).commits| == |s.commits| + 1
    ensures s.commits <= Apply(s, step).commits
    ensures LastCommit(s.commits, week).Some? ==> LastCommit(Apply(s, step).commits, week).Some?
  {
    hide Locked, RowsOf, Disappeared, ValidBatch;
    var s' := Apply(s, step);
    if |s'.commits| == |s.commits| + 1 { assert s'.commits[..|s'.commits| - 1] == s.commits; }
  }

  /** In every reachable state the pointer of a week and its rows are those of one commit, and a
      report read across any number of later steps is one whole published batch. */
  lemma ReaderSeesWholeBatch(s0: State, before: seq<Step>, between: seq<Step>, week: int)
    requires Initial(s0)
    ensures var first := Play(s0, before); var second := Play(first, between);
      var report := WeeklyReport(first, second, week);
      && (report.None? <==> LastCommit(first.commits, week).None?)
      && (report.Some? ==>
            var last := LastCommit(second.commits, week);
            && last.Some? && report.value == RowsOf(last.value.batch)
            && L.At(second.controls, week).pointer == Some(last.value.publication)
            && |report.value| == last.value.publication.rowCount)
  {
    InitialInv(s0);
    PlayInv(s0, before);
    var first := Play(s0, before);
    PlayInv(first, between);
    var second := Play(first, between);
    hide Play, LastCommit, SessionsOk, Exclusive, Tokens, SuccessOk;
    assert WeekPublished(first, week) && WeekPublished(second, week);
    if LastCommit(first.commits, week).Some? {
      LastCommitKept(first, between, week);
      var i := LastCommitFound(second.commits, week);
    }
  }

  // ----- fencing -----

  /** Tokens of a week strictly increase, so no two grants of it ever share one. */
  lemma GrantsAreFenced(s0: State, steps: seq<Step>, i: nat, j: nat)
    requires Initial(s0)
    requires i < j < |Play(s0, steps).grants| && Play(s0, steps).grants[i].week == Play(s0, steps).grants[j].week
    ensures Play(s0, steps).grants[i].token < Play(s0, steps).grants[j].token
  {
    InitialInv(s0);
    PlayInv(s0, steps);
    hide Play, SessionsOk, Exclusive, WeekPublished, SuccessOk, CommitsOk;
  }

  /** A lease verifies only for the latest grant of its week, while that grant is not released. */
  lemma OnlyLatestGrantVerifies(s0: State, steps: seq<Step>, run: RunId, week: int, token: nat)
    requires Initial(s0)
    requires var s := Play(s0, steps); week in s.controls && L.Holds(s.controls[week], run, token, s.clock)
    ensures LastGrant(Play(s0, steps).grants, week) == Some(GrantRecord(week, run, token))
  {
    InitialInv(s0);
    PlayInv(s0, steps);
    hide Play, SessionsOk, Exclusive, WeekPublished, SuccessOk, CommitsOk, LastGrant;
  }

  /** While a publication is open nobody else can take, renew or publish its week, expired or not:
      the week's control row and rows stay as they were until that transaction commits. */
  lemma OpenWeekIsFrozen(s: State, step: Step, id: nat)
    requires Inv(s) && id in s.sessions && s.sessions[id].Open?
    requires !(step.Commit? && step.id == id)
    ensures var week := s.sessions[id].txn.week;
      && L.At(Apply(s, step).controls, week) == L.At(s.controls, week)
      && WeekOf(Apply(s, step).kpis, week) == WeekOf(s.kpis, week)
  {
    hide WeekPublished, CommitsOk, Tokens, SuccessOk, HasCommit, Apply, CommitStep, Committed, WeekOf, TxnOk;
    var week := s.sessions[id].txn.week;
    assert HoldsLock(s, id, week);
    assert Locked(s, week);
    if step.Commit? {
      CommitAside(s, step.id, step.outcome, id);
      assert step == Commit(step.id, step.outcome);
    } else {
      OthersKeepWeek(s, step, week);
    }
  }

  lemma OthersKeepWeek(s: State, step: Step, week: int)
    requires !step.Commit? && Locked(s, week)
    ensures L.At(Apply(s, step).controls, week) == L.At(s.controls, week) && Apply(s, step).kpis == s.kpis
  {
    hide Locked, Disappeared, ValidBatch, L.Free, L.Holds, Recognised;
  }

  lemma CommitAside(s: State, other: nat, outcome: CommitOutcome, id: nat)
    requires Inv(s) && id in s.sessions && s.sessions[id].Open? && other != id
    ensures var week := s.sessions[id].txn.week;
      && L.At(Apply(s, Commit(other, outcome)).controls, week) == L.At(s.controls, week)
      && WeekOf(Apply(s, Commit(other, outcome)).kpis, week) == WeekOf(s.kpis, week)
  {
    hide WeekPublished, CommitsOk, Tokens, SuccessOk, HasCommit, Committed, WeekOf, ChangesNothing;
    if InPhase(s, other, LeaseReleased) {
      assert TxnOk(s, s.sessions[other].txn);
      CommitElsewhere(s, s.sessions[other].txn, s.sessions[id].txn.week);
    }
  }

  lemma CommitElsewhere(s: State, txn: Txn, week: int)
    requires SessionsOk(s) && txn.week != week && ValidBatch(txn.week, txn.batch, txn.now)
    ensures L.At(Committed(s, txn).controls, week) == L.At(s.controls, week)
    ensures WeekOf(Committed(s, txn).kpis, week) == WeekOf(s.kpis, week)
  {
    hide RowsOf, Publishable;
    BatchWeek(txn.week, txn.batch);
    OtherWeeksKept(s.kpis, txn.week, week, txn.batch);
  }

  // ----- success and recovery -----

  /** A run is recorded successful only if its business transaction committed. */
  lemma SuccessMeansCommitted(s0: State, steps: seq<Step>, run: RunId)
    requires Initial(s0) && run in Play(s0, steps).runs && Success(Play(s0, steps).runs[run].status)
    ensures HasCommit(Play(s0, steps), run)
  {
    InitialInv(s0);
    PlayInv(s0, steps);
    hide Play, SessionsOk, Exclusive, WeekPublished, Tokens, CommitsOk;
  }

  /** A commit makes its run the week's pointer and its batch the week's rows, at once. */
  lemma CommitIsThePointer(s: State, id: nat, outcome: CommitOutcome)
    requires Inv(s) && InPhase(s, id, LeaseReleased) && CommitStep(s, id, outcome).commits != s.commits
    ensures var txn, s' := s.sessions[id].txn, CommitStep(s, id, outcome);
      && s'.commits == s.commits + [CommitRecord(txn.week, txn.run, txn.batch, PublicationOf(txn))]
      && L.At(s'.controls, txn.week).pointer == Some(PublicationOf(txn))
      && WeekOf(s'.kpis, txn.week) == RowsOf(txn.batch) && L.At(s'.controls, txn.week).owner == None
  {
    hide RowsOf, WeekOf, SessionsOk, Exclusive, Tokens, CommitsOk, SuccessOk;
    CommitInv(s, id, outcome);
    var txn, s' := s.sessions[id].txn, CommitStep(s, id, outcome);
    assert WeekPublished(s', txn.week);
  }

  /** Every run commits at most once. */
  lemma OneCommitPerRun(s0: State, steps: seq<Step>, i: nat, j: nat)
    requires Initial(s0) && i < j < |Play(s0, steps).commits|
    ensures Play(s0, steps).commits[i].run != Play(s0, steps).commits[j].run
  {
    InitialInv(s0);
    PlayInv(s0, steps);
    hide Play, SessionsOk, Exclusive, WeekPublished, Tokens, SuccessOk;
  }

  /** Terminal history is never replaced. */
  lemma TerminalStays(s: State, step: Step, run: RunId)
    requires Inv(s) && run in s.runs && Terminal(s.runs[run].status)
    ensures run in Apply(s, step).runs && Apply(s, step).runs[run] == s.runs[run]
  {
    hide RowsOf, Disappeared, ValidBatch, Locked, Inv, L.Free, L.Holds;
    TerminalExact(s.runs[run].status);
  }

  lemma TerminalExact(status: RunStatus)
    ensures Terminal(status) <==> !status.Pending? && !status.Running?
  {
    assert Allowed(Pending, Running) && Allowed(Running, Succeeded);
  }

  /** Recovery: a run is recognised exactly when it made the last commit of the week with that
      fingerprint, rules version and row count; so it is recognised from its commit until the week
      is published again, and never otherwise. */
  lemma RecoveryIsExact(s0: State, steps: seq<Step>, run: RunId, week: int, fingerprint: string, rules: string,
                        count: Option<nat>)
    requires Initial(s0)
    ensures var s := Play(s0, steps); var last := LastCommit(s.commits, week);
      Recognised(s, run, week, fingerprint, rules, count) <==>
        (last.Some? && last.value.run == run
         && last.value.publication.fingerprint == fingerprint && last.value.publication.rules == rules
         && (count.Some? ==> count.value == |RowsOf(last.value.batch)|))
  {
    InitialInv(s0);
    PlayInv(s0, steps);
    var s := Play(s0, steps);
    hide Play, SessionsOk, Exclusive, Tokens, SuccessOk, LastCommit;
    assert WeekPublished(s, week);
    if LastCommit(s.commits, week).Some? { var i := LastCommitFound(s.commits, week); }
  }
}
