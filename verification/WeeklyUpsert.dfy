/** Staging one week of aggregates: batch validation, reconciliation, the UPSERT and its classification. */
module WeeklyUpsert {
  import opened Basics
  import opened Identifiers
  import opened Vocabulary
  import opened WeeklyPerformance

  // ----- batch validation -----

  datatype BatchIssue =
    | InvalidWeekStart | IncompleteWeek | EmptyBatch | DuplicateKey | WeekMismatch | NoncanonicalWarehouse
    | InvalidClient | NegativeCounter | CounterOverflow | RateMismatch | ReconciliationConflict | ResultUnreadable

  function Counters(a: Aggregate): seq<int> { [a.inbound, a.outbound, a.stockouts, a.discrepancies] }

  predicate CountersFit(a: Aggregate) { forall n :: n in Counters(a) ==> 0 <= n <= POSTGRES_INTEGER_MAX }

  predicate Publishable(week: int, a: Aggregate) {
    && a.key.week == week && (a.key.warehouse == "los_angeles" || a.key.warehouse == "zaragoza")
    && !Blank(a.key.clientId) && CountersFit(a) && a.rate == Rate(a.discrepancies, a.outbound)
  }

  predicate DistinctKeys(batch: seq<Aggregate>) {
    forall i, j :: 0 <= i < j < |batch| ==> batch[i].key != batch[j].key
  }

  /** A closed ISO week with at least one row, one row a key, each of them publishable. */
  predicate ValidBatch(week: int, batch: seq<Aggregate>, now: int) {
    && IsMonday(week) && now >= (week + 7) * DAY && batch != [] && DistinctKeys(batch)
    && forall a :: a in batch ==> Publishable(week, a)
  }

  function AggregateIssues(week: int, a: Aggregate): set<BatchIssue> {
    (if a.key.week != week then {WeekMismatch} else {})
    + (if a.key.warehouse != "los_angeles" && a.key.warehouse != "zaragoza" then {NoncanonicalWarehouse} else {})
    + (if Blank(a.key.clientId) then {InvalidClient} else {})
    + (if exists n :: n in Counters(a) && n < 0 then {NegativeCounter} else {})
    + (if exists n :: n in Counters(a) && n > POSTGRES_INTEGER_MAX then {CounterOverflow} else {})
    + (if CountersFit(a) && a.rate != Rate(a.discrepancies, a.outbound) then {RateMismatch} else {})
  }

  lemma NoIssues(week: int, a: Aggregate)
    ensures AggregateIssues(week, a) == {} <==> Publishable(week, a)
  {
    assert AggregateIssues(week, a) == {} <==> forall i :: i !in AggregateIssues(week, a);
  }

  predicate AnyNegative(a: Aggregate) { a.inbound < 0 || a.outbound < 0 || a.stockouts < 0 || a.discrepancies < 0 }

  predicate AnyTooLarge(a: Aggregate) {
    || a.inbound > 2_147_483_647 || a.outbound > 2_147_483_647 || a.stockouts > 2_147_483_647
    || a.discrepancies > 2_147_483_647
  }

  /** What each issue says of one row of the batch. */
  predicate RowWrong(week: int, a: Aggregate, issue: BatchIssue) {
    match issue
    case WeekMismatch => a.key.week != week
    case NoncanonicalWarehouse => a.key.warehouse != "los_angeles" && a.key.warehouse != "zaragoza"
    case InvalidClient => Blank(a.key.clientId)
    case NegativeCounter => AnyNegative(a)
    case CounterOverflow => AnyTooLarge(a)
    case RateMismatch =>
      !AnyNegative(a) && !AnyTooLarge(a)
      && a.rate != (if a.outbound == 0 then 0.0 else a.discrepancies as real / a.outbound as real)
    case _ => false
  }

  /** What each issue says of the batch. */
  ghost predicate BatchWrong(week: int, batch: seq<Aggregate>, now: int, issue: BatchIssue) {
    match issue
    case InvalidWeekStart => week % 7 != 4
    case IncompleteWeek => week % 7 == 4 && now < (week + 7) * 86_400_000_000
    case EmptyBatch => batch == []
    case DuplicateKey => exists i, j :: 0 <= i < j < |batch| && batch[i].key == batch[j].key
    case _ => exists a :: a in batch && RowWrong(week, a, issue)
  }

  lemma CountersOut(a: Aggregate)
    ensures (exists n :: n in Counters(a) && n < 0) <==> AnyNegative(a)
    ensures (exists n :: n in Counters(a) && n > POSTGRES_INTEGER_MAX) <==> AnyTooLarge(a)
    ensures CountersFit(a) <==> !AnyNegative(a) && !AnyTooLarge(a)
  {
    var all := Counters(a);
    assert all[0] == a.inbound && all[1] == a.outbound && all[2] == a.stockouts && all[3] == a.discrepancies;
    assert a.inbound in all && a.outbound in all && a.stockouts in all && a.discrepancies in all;
    assert forall n :: n in Counters(a) ==> n == a.inbound || n == a.outbound || n == a.stockouts || n == a.discrepancies;
  }

  lemma RowIssuesExact(week: int, a: Aggregate, issue: BatchIssue)
    ensures issue in AggregateIssues(week, a) <==> RowWrong(week, a, issue)
  {
    CountersOut(a);
    hide CountersFit, AnyNegative, AnyTooLarge, Blank;
  }

  /** No issue says anything wrong exactly when the batch is valid, which is: a closed week that starts on a Monday,
      at least one row, one row for each key, and each row for the week, a site and a visible client, with counters
      that fit and their rate. */
  lemma BatchExact(week: int, batch: seq<Aggregate>, now: int)
    ensures ValidBatch(week, batch, now) <==> forall issue :: !BatchWrong(week, batch, now, issue)
  {
    hide Publishable, RowWrong, AggregateIssues;
    WeekStartExact(0);
    forall a | a in batch ensures Publishable(week, a) <==> forall issue :: !RowWrong(week, a, issue) {
      NoIssues(week, a);
      forall issue ensures issue in AggregateIssues(week, a) <==> RowWrong(week, a, issue) { RowIssuesExact(week, a, issue); }
    }
    if ValidBatch(week, batch, now) {
      forall issue ensures !BatchWrong(week, batch, now, issue) {}
    }
    if forall issue :: !BatchWrong(week, batch, now, issue) {
      assert !BatchWrong(week, batch, now, InvalidWeekStart) && !BatchWrong(week, batch, now, IncompleteWeek);
      assert !BatchWrong(week, batch, now, EmptyBatch) && !BatchWrong(week, batch, now, DuplicateKey);
      forall a, issue | a in batch ensures !RowWrong(week, a, issue) {
        assert !BatchWrong(week, batch, now, issue);
        RowIssueKinds(week, a, issue);
      }
    }
  }

  lemma RowIssueKinds(week: int, a: Aggregate, issue: BatchIssue)
    ensures RowWrong(week, a, issue) ==>
      !issue.InvalidWeekStart? && !issue.IncompleteWeek? && !issue.EmptyBatch? && !issue.DuplicateKey?
  {
  }

  /** What the loop has found so far. */
  ghost predicate FoundSo(week: int, batch: seq<Aggregate>, early: set<BatchIssue>, issues: set<BatchIssue>) {
    forall issue :: issue in issues <==>
      issue in early || (issue.DuplicateKey? && !DistinctKeys(batch)) || exists a :: a in batch && RowWrong(week, a, issue)
  }

  lemma FoundNext(week: int, batch: seq<Aggregate>, early: set<BatchIssue>, issues: set<BatchIssue>, a: Aggregate)
    requires FoundSo(week, batch, early, issues)
    ensures FoundSo(week, batch + [a], early, issues + AggregateIssues(week, a)
      + if a.key in (set b | b in batch :: b.key) then {DuplicateKey} else {})
  {
    hide RowWrong, AggregateIssues;
    DistinctNext(batch + [a], |batch|);
    assert (batch + [a])[..|batch|] == batch && (batch + [a])[..|batch| + 1] == batch + [a];
    forall issue ensures issue in AggregateIssues(week, a) <==> RowWrong(week, a, issue) { RowIssuesExact(week, a, issue); }
    assert forall b :: b in batch + [a] <==> b in batch || b == a;
  }

  /** `validate_weekly_publication_batch`: each issue is reported exactly when it holds; no issue exactly for a valid
      batch. */
  method ValidateBatch(week: int, batch: seq<Aggregate>, now: int) returns (issues: set<BatchIssue>)
    ensures forall issue :: issue in issues <==> BatchWrong(week, batch, now, issue)
    ensures issues == {} <==> ValidBatch(week, batch, now)
    ensures ReconciliationConflict !in issues && ResultUnreadable !in issues
  {
    hide AggregateIssues, Publishable, RowWrong, ValidBatch, FoundSo;
    BatchExact(week, batch, now);
    WeekStartExact(0);
    issues := {};
    if !IsMonday(week) { issues := issues + {InvalidWeekStart}; }
    else if now < (week + 7) * DAY { issues := issues + {IncompleteWeek}; }
    if batch == [] { return issues + {EmptyBatch}; }
    ghost var early := issues;
    var seen: set<AggregateKey> := {};
    FoundNothing(week, batch, early);
    for i := 0 to |batch|
      invariant seen == set a | a in batch[..i] :: a.key
      invariant FoundSo(week, batch[..i], early, issues)
    {
      var a := batch[i];
      assert batch[..i + 1] == batch[..i] + [a];
      FoundNext(week, batch[..i], early, issues, a);
      var again := a.key in seen;
      issues := issues + AggregateIssues(week, a) + if again then {DuplicateKey} else {};
      seen := seen + {a.key};
    }
    assert batch[..|batch|] == batch;
    FoundAll(week, batch, now, early, issues);
  }

  lemma FoundNothing(week: int, batch: seq<Aggregate>, early: set<BatchIssue>)
    ensures FoundSo(week, batch[..0], early, early)
  {
  }

  lemma FoundAll(week: int, batch: seq<Aggregate>, now: int, early: set<BatchIssue>, issues: set<BatchIssue>)
    requires FoundSo(week, batch, early, issues) && batch != []
    requires early == if week % 7 != 4 then {InvalidWeekStart}
      else if now < (week + 7) * 86_400_000_000 then {IncompleteWeek} else {}
    ensures forall issue :: issue in issues <==> BatchWrong(week, batch, now, issue)
    ensures ReconciliationConflict !in issues && ResultUnreadable !in issues
  {
    forall issue ensures issue in issues <==> BatchWrong(week, batch, now, issue) {
      forall a ensures RowWrong(week, a, issue) ==>
        !issue.InvalidWeekStart? && !issue.IncompleteWeek? && !issue.EmptyBatch? && !issue.DuplicateKey?
        && !issue.ReconciliationConflict? && !issue.ResultUnreadable?
      {
      }
    }
    hide RowWrong;
  }

  lemma DistinctNext(batch: seq<Aggregate>, i: nat)
    requires i < |batch|
    ensures DistinctKeys(batch[..i + 1]) <==> DistinctKeys(batch[..i]) && batch[i].key !in (set a | a in batch[..i] :: a.key)
  {
    var next := batch[..i + 1];
    if DistinctKeys(next) {
      forall a | a in batch[..i] ensures a.key != batch[i].key {
        var j :| 0 <= j < i && batch[j] == a;
        assert next[j] == a && next[i] == batch[i];
      }
      forall j, k | 0 <= j < k < i ensures batch[..i][j].key != batch[..i][k].key { assert next[j] == batch[j] && next[k] == batch[k]; }
    }
    if DistinctKeys(batch[..i]) && batch[i].key !in (set a | a in batch[..i] :: a.key) {
      forall j, k | 0 <= j < k < i + 1 ensures next[j].key != next[k].key {
        assert batch[..i][j] == next[j] && batch[..i][j] in batch[..i];
        if k < i { assert batch[..i][k] == next[k]; }
      }
    }
  }

  // ----- the destination table -----

  datatype Kpi = Kpi(inbound: int, outbound: int, stockouts: int, discrepancies: int, rate: real)

  type Table = map<AggregateKey, Kpi>

  function KpiOf(a: Aggregate): Kpi { Kpi(a.inbound, a.outbound, a.stockouts, a.discrepancies, a.rate) }

  function WeekOf(rows: Table, week: int): Table { map k | k in rows && k.week == week :: rows[k] }

  function KeysIn(batch: seq<Aggregate>): set<AggregateKey> { set a | a in batch :: a.key }

  /** The batch as rows. */
  function RowsOf(batch: seq<Aggregate>): (rows: Table)
    ensures rows.Keys == KeysIn(batch)
  {
    if batch == [] then map[]
    else
      assert batch == batch[..|batch| - 1] + [batch[|batch| - 1]];
      RowsOf(batch[..|batch| - 1])[batch[|batch| - 1].key := KpiOf(batch[|batch| - 1])]
  }

  lemma {:induction false} RowOf(batch: seq<Aggregate>, a: Aggregate)
    requires DistinctKeys(batch) && a in batch
    ensures a.key in RowsOf(batch) && RowsOf(batch)[a.key] == KpiOf(a)
  {
    var last := |batch| - 1;
    if a != batch[last] {
      assert batch == batch[..last] + [batch[last]];
      assert a in batch[..last];
      RowOf(batch[..last], a);
      var i :| 0 <= i < last && batch[i] == a;
      assert batch[i].key != batch[last].key;
    }
  }

  function InsertedKeys(rows: Table, batch: Table): set<AggregateKey> { batch.Keys - rows.Keys }

  function UpdatedKeys(rows: Table, batch: Table): set<AggregateKey> {
    set k | k in batch && k in rows && rows[k] != batch[k]
  }

  function UnchangedKeys(rows: Table, batch: Table): set<AggregateKey> {
    set k | k in batch && k in rows && rows[k] == batch[k]
  }

  /** The keys RETURNING yields. */
  function Touched(rows: Table, batch: Table): set<AggregateKey> { InsertedKeys(rows, batch) + UpdatedKeys(rows, batch) }

  /** Published keys of the week that the batch no longer has. */
  function Disappeared(rows: Table, week: int, batch: seq<Aggregate>): set<AggregateKey> {
    WeekOf(rows, week).Keys - KeysIn(batch)
  }

  lemma InsertedSpelled(kpis: Table, batch: seq<Aggregate>)
    ensures InsertedKeys(kpis, RowsOf(batch)) == set k | k in KeysIn(batch) && k !in kpis
  {
    hide RowsOf;
  }

  lemma UpdatedSpelled(kpis: Table, batch: seq<Aggregate>)
    ensures UpdatedKeys(kpis, RowsOf(batch)) == set k | k in KeysIn(batch) && k in kpis && kpis[k] != RowsOf(batch)[k]
  {
    hide RowsOf;
  }

  lemma UnchangedSpelled(kpis: Table, batch: seq<Aggregate>)
    ensures UnchangedKeys(kpis, RowsOf(batch)) == set k | k in KeysIn(batch) && k in kpis && kpis[k] == RowsOf(batch)[k]
  {
    hide RowsOf;
  }

  /** No published key is missing from the batch. */
  predicate AllKept(rows: Table, week: int, batch: seq<Aggregate>) {
    forall k :: k in rows && k.week == week ==> exists a :: a in batch && a.key == k
  }

  lemma DisappearedSpelled(rows: Table, week: int, batch: seq<Aggregate>)
    ensures Disappeared(rows, week, batch) == {} <==> AllKept(rows, week, batch)
  {
    assert forall k :: k in KeysIn(batch) <==> exists a :: a in batch && a.key == k;
    if Disappeared(rows, week, batch) == {} {
      forall k | k in rows && k.week == week ensures k in KeysIn(batch) {
        assert k in WeekOf(rows, week) && k !in Disappeared(rows, week, batch);
      }
    }
  }

  datatype Staging = Staged(inserted: nat, updated: nat, same: nat) | Refused(issues: set<BatchIssue>)

  lemma {:induction false} DistinctCount(batch: seq<Aggregate>)
    requires DistinctKeys(batch)
    ensures |KeysIn(batch)| == |batch|
  {
    if batch != [] {
      var last := |batch| - 1;
      DistinctCount(batch[..last]);
      assert batch == batch[..last] + [batch[last]];
      assert KeysIn(batch) == KeysIn(batch[..last]) + {batch[last].key};
      assert batch[last].key !in KeysIn(batch[..last]) by {
        forall a | a in batch[..last] ensures a.key != batch[last].key { var i :| 0 <= i < last && batch[i] == a; }
      }
    }
  }

  lemma {:induction false} PrefixRows(batch: seq<Aggregate>, i: nat)
    requires i < |batch|
    ensures RowsOf(batch[..i + 1]) == RowsOf(batch[..i])[batch[i].key := KpiOf(batch[i])]
  {
    assert batch[..i + 1][..i] == batch[..i];
  }

  class KpiTable {
    var rows: Table

    constructor ()
      ensures rows == map[]
    {
      rows := map[];
    }

    /** The multi-row UPSERT: inserts, updates what is distinct, and returns the keys it touched. */
    method Upsert(batch: seq<Aggregate>) returns (returned: seq<AggregateKey>)
      requires DistinctKeys(batch)
      modifies this
      ensures rows == old(rows) + RowsOf(batch)
      ensures Lists(returned, Touched(old(rows), RowsOf(batch)))
    {
      returned := [];
      NothingUpserted(rows, batch);
      for i := 0 to |batch|
        invariant rows == old(rows) + RowsOf(batch[..i]) && Lists(returned, Touched(old(rows), RowsOf(batch[..i])))
      {
        hide *;
        var a := batch[i];
        UpsertNext(old(rows), batch, i, returned);
        if a.key !in rows || rows[a.key] != KpiOf(a) { returned := returned + [a.key]; }
        rows := rows[a.key := KpiOf(a)];
      }
      assert batch[..|batch|] == batch;
    }

    /** `_stage_weekly_upsert` in a transaction that meets no database error: a batch is staged exactly
        when it is valid and no published key disappears; then the week's rows are the batch, no other
        week changes, and the counts classify every row of the batch. */
    method StageWeeklyUpsert(week: int, batch: seq<Aggregate>, now: int) returns (s: Staging)
      modifies this
      ensures s.Staged? <==> (forall issue :: !BatchWrong(week, batch, now, issue)) && AllKept(old(rows), week, batch)
      ensures s.Staged? ==>
        && rows == old(rows) + RowsOf(batch) && WeekOf(rows, week) == RowsOf(batch)
        && s.inserted == |set k | k in KeysIn(batch) && k !in old(rows)|
        && s.updated == |set k | k in KeysIn(batch) && k in old(rows) && old(rows)[k] != RowsOf(batch)[k]|
        && s.same == |set k | k in KeysIn(batch) && k in old(rows) && old(rows)[k] == RowsOf(batch)[k]|
        && s.inserted + s.updated + s.same == |batch|
      ensures s.Refused? ==> rows == old(rows) && ResultUnreadable !in s.issues
    {
      BatchExact(week, batch, now);
      DisappearedSpelled(rows, week, batch);
      InsertedSpelled(rows, batch);
      UpdatedSpelled(rows, batch);
      UnchangedSpelled(rows, batch);
      hide BatchWrong, AllKept, Disappeared, KeysIn, InsertedKeys, UpdatedKeys, UnchangedKeys, RowsOf, WeekOf, ValidBatch;
      if ValidBatch(week, batch, now) { BatchKeys(week, batch, now); }
      var issues := ValidateBatch(week, batch, now);
      if issues != {} && issues != {EmptyBatch} { return Refused(issues); }
      var published := WeekOf(rows, week);
      var disappeared := Disappeared(rows, week, batch);
      if disappeared != {} { issues := issues + {ReconciliationConflict}; }
      if issues != {} { return Refused(issues); }
      ghost var before := rows;
      var returned := Upsert(batch);
      var counts := CountsFromSnapshot(batch, published, returned);
      SnapshotClassifies(before, week, batch);
      WeekStaged(before, week, batch);
      Classified(before, batch);
      s := if counts.None? then Refused({ResultUnreadable}) else counts.value;
    }
  }

  lemma BatchKeys(week: int, batch: seq<Aggregate>, now: int)
    requires ValidBatch(week, batch, now)
    ensures DistinctKeys(batch) && forall a :: a in batch ==> a.key.week == week
  {
  }

  lemma NewKey(batch: seq<Aggregate>, i: nat)
    requires DistinctKeys(batch) && i < |batch|
    ensures batch[i].key !in RowsOf(batch[..i])
  {
    forall a | a in batch[..i] ensures a.key != batch[i].key { var j :| 0 <= j < i && batch[j] == a; }
  }

  lemma NothingUpserted(rows: Table, batch: seq<Aggregate>)
    ensures rows == rows + RowsOf(batch[..0]) && Lists([], Touched(rows, RowsOf(batch[..0])))
  {
  }

  lemma TouchedNext(rows: Table, done: Table, a: Aggregate)
    requires a.key !in done
    ensures var next := done[a.key := KpiOf(a)];
      Touched(rows, next) ==
        if a.key !in rows || rows[a.key] != KpiOf(a) then Touched(rows, done) + {a.key} else Touched(rows, done)
    ensures a.key !in Touched(rows, done)
  {
  }

  lemma UpsertNext(before: Table, batch: seq<Aggregate>, i: nat, returned: seq<AggregateKey>)
    requires i < |batch| && DistinctKeys(batch) && Lists(returned, Touched(before, RowsOf(batch[..i])))
    ensures var a, now := batch[i], before + RowsOf(batch[..i]);
      && before + RowsOf(batch[..i + 1]) == now[a.key := KpiOf(a)]
      && Lists(if a.key !in now || now[a.key] != KpiOf(a) then returned + [a.key] else returned,
           Touched(before, RowsOf(batch[..i + 1])))
  {
    hide RowsOf, Touched, Lists, DistinctKeys;
    var a, done := batch[i], RowsOf(batch[..i]);
    PrefixRows(batch, i);
    NewKey(batch, i);
    TouchedNext(before, done, a);
    ListsNext(returned, Touched(before, done), a.key);
  }

  /** The classification loop of `_counts_from_snapshot`. */
  method Classify(batch: seq<Aggregate>, published: Table)
    returns (inserted: set<AggregateKey>, updated: set<AggregateKey>, same: nat)
    requires DistinctKeys(batch)
    ensures inserted == InsertedKeys(published, RowsOf(batch)) && updated == UpdatedKeys(published, RowsOf(batch))
    ensures same == |UnchangedKeys(published, RowsOf(batch))|
  {
    inserted, updated := {}, {};
    ghost var kept: set<AggregateKey> := {};
    same := 0;
    NothingClassified(published, batch);
    for i := 0 to |batch|
      invariant Classes(published, RowsOf(batch[..i]), inserted, updated, kept) && same == |kept|
    {
      hide *;
      var a := batch[i];
      PrefixRows(batch, i);
      NewKey(batch, i);
      ClassesNext(published, RowsOf(batch[..i]), inserted, updated, kept, a);
      if a.key !in published { inserted := inserted + {a.key}; }
      else if published[a.key] != KpiOf(a) { updated := updated + {a.key}; }
      else { same, kept := same + 1, kept + {a.key}; }
    }
    assert batch[..|batch|] == batch;
  }

  /** `_counts_from_snapshot`: classifies against the locked rows and requires RETURNING to agree. */
  method CountsFromSnapshot(batch: seq<Aggregate>, published: Table, returned: seq<AggregateKey>)
    returns (counts: Option<Staging>)
    requires DistinctKeys(batch)
    ensures counts.Some? <==> Lists(returned, Touched(published, RowsOf(batch)))
    ensures counts.Some? ==> counts.value == Staged(|InsertedKeys(published, RowsOf(batch))|,
      |UpdatedKeys(published, RowsOf(batch))|, |UnchangedKeys(published, RowsOf(batch))|)
  {
    hide RowsOf, InsertedKeys, UpdatedKeys, UnchangedKeys, Lists, DistinctKeys;
    var inserted, updated, same := Classify(batch, published);
    ListsExact(returned, inserted + updated);
    if exists i, j :: 0 <= i < j < |returned| && returned[i] == returned[j] { return None; }
    if (set k | k in returned) != inserted + updated { return None; }
    counts := Some(Staged(|inserted|, |updated|, same));
  }

  lemma NothingClassified(published: Table, batch: seq<Aggregate>)
    ensures Classes(published, RowsOf(batch[..0]), {}, {}, {})
  {
  }

  ghost predicate Classes(published: Table, done: Table, inserted: set<AggregateKey>, updated: set<AggregateKey>,
                          kept: set<AggregateKey>) {
    inserted == InsertedKeys(published, done) && updated == UpdatedKeys(published, done) && kept == UnchangedKeys(published, done)
  }

  lemma ClassesNext(published: Table, done: Table, inserted: set<AggregateKey>, updated: set<AggregateKey>,
                    kept: set<AggregateKey>, a: Aggregate)
    requires Classes(published, done, inserted, updated, kept) && a.key !in done
    ensures a.key !in kept
    ensures var next := done[a.key := KpiOf(a)];
      if a.key !in published then Classes(published, next, inserted + {a.key}, updated, kept)
      else if published[a.key] != KpiOf(a) then Classes(published, next, inserted, updated + {a.key}, kept)
      else Classes(published, next, inserted, updated, kept + {a.key})
  {
  }

  /** The locked rows of the week classify the batch as the whole table does. */
  lemma SnapshotClassifies(rows: Table, week: int, batch: seq<Aggregate>)
    requires forall a :: a in batch ==> a.key.week == week
    ensures InsertedKeys(rows, RowsOf(batch)) == InsertedKeys(WeekOf(rows, week), RowsOf(batch))
    ensures UpdatedKeys(rows, RowsOf(batch)) == UpdatedKeys(WeekOf(rows, week), RowsOf(batch))
    ensures UnchangedKeys(rows, RowsOf(batch)) == UnchangedKeys(WeekOf(rows, week), RowsOf(batch))
  {
    assert forall k :: k in RowsOf(batch) ==> k.week == week;
  }

  lemma WeekStaged(rows: Table, week: int, batch: seq<Aggregate>)
    requires forall a :: a in batch ==> a.key.week == week
    requires Disappeared(rows, week, batch) == {}
    ensures WeekOf(rows + RowsOf(batch), week) == RowsOf(batch)
  {
    forall k | k in WeekOf(rows + RowsOf(batch), week) ensures k in RowsOf(batch) {
      assert k in WeekOf(rows, week) ==> k !in Disappeared(rows, week, batch);
    }
    assert forall k :: k in RowsOf(batch) ==> k.week == week;
  }

  lemma KeysSplit(rows: Table, b: Table)
    ensures b.Keys == InsertedKeys(rows, b) + UpdatedKeys(rows, b) + UnchangedKeys(rows, b)
    ensures InsertedKeys(rows, b) !! UpdatedKeys(rows, b) && InsertedKeys(rows, b) + UpdatedKeys(rows, b) !! UnchangedKeys(rows, b)
  {
  }

  /** Every key of the batch is inserted, updated or unchanged, and only one of them. */
  lemma Classified(rows: Table, batch: seq<Aggregate>)
    requires DistinctKeys(batch)
    ensures |InsertedKeys(rows, RowsOf(batch))| + |UpdatedKeys(rows, RowsOf(batch))|
      + |UnchangedKeys(rows, RowsOf(batch))| == |batch|
  {
    hide *;
    var b := RowsOf(batch);
    KeysSplit(rows, b);
    DistinctCount(batch);
    SplitInThree(b.Keys, InsertedKeys(rows, b), UpdatedKeys(rows, b), UnchangedKeys(rows, b));
  }

  lemma SameRows(rows: Table, b: Table)
    ensures rows + b + b == rows + b && InsertedKeys(rows + b, b) == {} && UpdatedKeys(rows + b, b) == {}
  {
  }

  /** Staging the same batch again inserts and updates nothing. */
  lemma RestagingIsANoop(rows: Table, week: int, batch: seq<Aggregate>, now: int)
    requires ValidBatch(week, batch, now) && Disappeared(rows, week, batch) == {}
    ensures var staged := rows + RowsOf(batch);
      && Disappeared(staged, week, batch) == {} && staged + RowsOf(batch) == staged
      && |InsertedKeys(staged, RowsOf(batch))| == 0 && |UpdatedKeys(staged, RowsOf(batch))| == 0
      && |UnchangedKeys(staged, RowsOf(batch))| == |batch|
  {
    hide RowsOf, InsertedKeys, UpdatedKeys, UnchangedKeys, WeekOf, Publishable, KeysIn;
    var staged := rows + RowsOf(batch);
    assert forall a :: a in batch ==> a.key.week == week by { PublishableWeek(week, batch); }
    WeekStaged(rows, week, batch);
    SameRows(rows, RowsOf(batch));
    Classified(staged, batch);
  }

  lemma PublishableWeek(week: int, batch: seq<Aggregate>)
    requires forall a :: a in batch ==> Publishable(week, a)
    ensures forall a :: a in batch ==> a.key.week == week
  {
  }

  /** Other weeks keep their rows. */
  lemma OtherWeeksKept(rows: Table, week: int, other: int, batch: seq<Aggregate>)
    requires other != week && forall a :: a in batch ==> a.key.week == week
    ensures WeekOf(rows + RowsOf(batch), other) == WeekOf(rows, other)
  {
    assert forall k :: k in RowsOf(batch) ==> k.week == week;
  }
}
