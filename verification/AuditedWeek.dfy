/** What a clean audit says: the extracted rows are the mapped outbox rows of the week, one for each fact. */
module AuditedWeek {
  import opened Basics
  import opened Identifiers
  import opened Vocabulary
  import opened InventoryTables
  import opened OutboxRelay
  import opened CoverageCompleteness
  import opened WeeklyPerformance
  import opened Extraction
  import opened QualityGate
  import OC = OperationalCoverage

  // ----- assumptions on the tables -----

  /** Foreign keys, unique keys, UUID columns and check constraints of the operational database. */
  ghost predicate TableConstraints(t: Tables) {
    && (forall pk :: pk in t.entries ==> t.entries[pk].skuId in t.skus)
    && (forall pk :: pk in t.exits ==> t.exits[pk].skuId in t.skus)
    && (forall pk :: pk in t.exits && t.exits[pk].orderPk.Some? ==> t.exits[pk].exitType == Dispatch)
    && (forall pk :: pk in t.counts ==> t.counts[pk].skuId in t.skus && IsUuid(t.counts[pk].countId))
    && (forall pk :: pk in t.orders ==> IsUuid(t.orders[pk].orderId))
    && (forall k :: k in t.outbox ==> IsUuid(t.outbox[k].eventId) && t.outbox[k].eventType == SourceEvent(k.source))
    && (forall j, k :: j in t.outbox && k in t.outbox && t.outbox[j].eventId == t.outbox[k].eventId ==> j == k)
    && (forall a, b :: a in t.orders && b in t.orders && t.orders[a].orderId == t.orders[b].orderId ==> a == b)
    && (forall a, b :: a in t.counts && b in t.counts && t.counts[a].countId == t.counts[b].countId ==> a == b)
  }

  ghost predicate Keyed(telemetry: map<string, TelemetryRow>) {
    forall id :: id in telemetry ==> telemetry[id].id == id
  }

  // ----- direct counts -----

  /** The two sites and the texts that stand for them: the domain codes, the display names, the reporting names. */
  predicate At(warehouse: string, name: string) {
    || (name == "los_angeles" && (warehouse == "LA" || warehouse == "Los Angeles" || warehouse == "los_angeles"))
    || (name == "zaragoza" && (warehouse == "ZGZ" || warehouse == "Zaragoza" || warehouse == "zaragoza"))
  }

  /** The mapping of producer, validation and order evidence puts every text at its site, and no other text anywhere. */
  lemma CanonicalIsAt(warehouse: string, name: string)
    ensures CanonicalWarehouse(warehouse) == Some(name) <==> At(warehouse, name)
    ensures TelemetryWarehouse(warehouse) == Some(name) <==> At(warehouse, name) && warehouse != name
  {
  }

  lemma OneSite(warehouse: string, a: string, b: string)
    requires At(warehouse, a) && At(warehouse, b)
    ensures a == b
  {
  }

  function InboundPks(t: Tables, week: int, w: string, c: string): set<nat> {
    set pk | pk in t.entries && InWeek(t.entries[pk].createdAt, week) && At(t.entries[pk].warehouse, w)
             && t.entries[pk].skuId in t.skus && t.skus[t.entries[pk].skuId].clientId == Some(c)
  }

  function OrderPks(t: Tables, week: int, w: string, c: string): set<nat> {
    set pk | pk in t.orders && InWeek(t.orders[pk].createdAt, week) && At(t.orders[pk].warehouse, w)
             && t.orders[pk].clientId == c
  }

  predicate CrossingExit(t: Tables, pk: nat) {
    Outbound(pk) in t.checkpoints
    && var c := t.checkpoints[Outbound(pk)]; Crosses(c.threshold, c.before, c.after)
  }

  function CrossingPks(t: Tables, week: int, w: string, c: string): set<nat> {
    set pk | pk in t.exits && InWeek(t.exits[pk].createdAt, week) && At(t.exits[pk].warehouse, w)
             && t.exits[pk].skuId in t.skus && t.skus[t.exits[pk].skuId].clientId == Some(c) && CrossingExit(t, pk)
  }

  function DiscrepantPks(t: Tables, week: int, w: string, c: string): set<nat> {
    set pk | pk in t.counts && InWeek(t.counts[pk].confirmedAt, week) && At(t.counts[pk].warehouse, w)
             && t.counts[pk].clientId == c && t.counts[pk].expected != t.counts[pk].observed
  }

  function UnitsOf(t: Tables): nat -> int { (pk: nat) => if pk in t.entries then t.entries[pk].quantity else 0 }

  /** The four counters of a warehouse and client, counted in the operational tables alone. */
  ghost function DirectAggregate(t: Tables, week: int, w: string, c: string): Aggregate {
    var o, d := |OrderPks(t, week, w, c)|, |DiscrepantPks(t, week, w, c)|;
    Aggregate(AggregateKey(w, c, week), Sum(InboundPks(t, week, w, c), UnitsOf(t)), o, |CrossingPks(t, week, w, c)|, d,
      if o == 0 then 0.0 else d as real / o as real)
  }

  predicate Active(t: Tables, week: int, w: string, c: string) {
    InboundPks(t, week, w, c) != {} || OrderPks(t, week, w, c) != {} || CrossingPks(t, week, w, c) != {}
    || DiscrepantPks(t, week, w, c) != {}
  }

  // ----- what a clean audit says about each outbox row of the week -----

  predicate OfWeek(t: Tables, week: int, k: OutboxKey) { k in t.outbox && InWeek(t.outbox[k].occurredAt, week) }

  lemma OutboxRowsOf(t: Tables, week: int, s: OC.Snapshot, k: OutboxKey)
    requires TableConstraints(t) && Lists(s.outbox, OutboxViews(t, week)) && OfWeek(t, week, k)
    ensures OC.OutboxRows(s.outbox, OC.RowKey(k.source, k.pk, SourceEvent(k.source))) == [OutboxViewOf(t, k)]
  {
    var key := OC.RowKey(k.source, k.pk, SourceEvent(k.source));
    forall x | x in s.outbox && OC.KeyOf(x) == key ensures x == OutboxViewOf(t, k) {
      assert x in OutboxViews(t, week);
      var j := ViewedRow(t, week, x);
      assert j == k;
    }
    assert OutboxViewOf(t, k) in OutboxViews(t, week);
    OneOutboxRow(s.outbox, key, OutboxViewOf(t, k));
  }

  /** A source row of the week whose audit is clean has its outbox row in the week. */
  lemma RowOfKey(t: Tables, week: int, s: OC.Snapshot, source: SourceTable, pk: nat)
    requires TableConstraints(t) && Lists(s.outbox, OutboxViews(t, week))
    requires |OC.OutboxRows(s.outbox, OC.RowKey(source, pk, SourceEvent(source)))| == 1
    ensures OfWeek(t, week, OutboxKey(source, pk))
  {
    var key := OC.RowKey(source, pk, SourceEvent(source));
    var x := OC.OutboxRows(s.outbox, key)[0];
    assert x in OC.OutboxRows(s.outbox, key);
    assert x in OutboxViews(t, week);
    var j := ViewedRow(t, week, x);
    assert j == OutboxKey(source, pk);
  }

  ghost predicate Audited(t: Tables, telemetry: map<string, TelemetryRow>, week: int, s: OC.Snapshot) {
    TableConstraints(t) && Keyed(telemetry) && SnapshotOf(t, telemetry, week, s) && OC.Clean(s)
  }

  // ----- entries -----

  lemma EntryReported(t: Tables, telemetry: map<string, TelemetryRow>, week: int, s: OC.Snapshot, pk: nat)
    requires Audited(t, telemetry, week, s)
    requires pk in t.entries && InWeek(t.entries[pk].createdAt, week)
    ensures OfWeek(t, week, OutboxKey(StockEntryTable, pk))
    ensures t.outbox[OutboxKey(StockEntryTable, pk)].tags == OC.EntryTags(EntryViewOf(t, pk))
  {
    hide OC.EntryTags;
    var e := EntryViewOf(t, pk);
    assert e in EntryViews(t, week);
    assert e in s.entries && OC.EntryDiagnostics(s, e) == {};
    RowOfKey(t, week, s, StockEntryTable, pk);
    OutboxRowsOf(t, week, s, OutboxKey(StockEntryTable, pk));
  }

  lemma RowExpected(t: Tables, telemetry: map<string, TelemetryRow>, week: int, s: OC.Snapshot, k: OutboxKey)
    requires Audited(t, telemetry, week, s) && OfWeek(t, week, k)
    ensures OC.RowKey(k.source, k.pk, SourceEvent(k.source)) in OC.ExpectedKeys(s)
  {
    hide OC.ExpectedKeys;
    assert OutboxViewOf(t, k) in OutboxViews(t, week);
    assert OC.KeyOf(OutboxViewOf(t, k)) in OC.ActualKeys(s);
    assert OC.GlobalDiagnostics(s) == {};
    assert OC.ActualKeys(s) <= OC.ExpectedKeys(s);
  }

  lemma EntryRowHasEntry(t: Tables, telemetry: map<string, TelemetryRow>, week: int, s: OC.Snapshot, pk: nat)
    requires Audited(t, telemetry, week, s) && OfWeek(t, week, OutboxKey(StockEntryTable, pk))
    ensures pk in t.entries && InWeek(t.entries[pk].createdAt, week) && t.entries[pk].skuId in t.skus
  {
    RowExpected(t, telemetry, week, s, OutboxKey(StockEntryTable, pk));
    hide OC.Clean;
    var key := OC.RowKey(StockEntryTable, pk, InboundOrderCreated);
    assert key in OC.EntryKeys(s);
    var e :| e in s.entries && OC.EntryKey(e) == key;
    assert e in EntryViews(t, week);
  }

  // ----- orders -----

  lemma OrderReported(t: Tables, telemetry: map<string, TelemetryRow>, week: int, s: OC.Snapshot, pk: nat)
    requires Audited(t, telemetry, week, s)
    requires pk in t.orders && InWeek(t.orders[pk].createdAt, week)
    ensures OfWeek(t, week, OutboxKey(CommercialOrderTable, pk)) && DispatchesOf(t.exits, pk) != {}
    ensures t.outbox[OutboxKey(CommercialOrderTable, pk)].tags == OC.OrderRowTags(OrderViewOf(t, pk))
  {
    hide OC.OrderRowTags;
    var o := OrderViewOf(t, pk);
    assert o in OrderViews(t, week);
    assert o in s.orders && OC.OrderDiagnostics(s, o) == {};
    assert OC.HasDispatch(s, pk) by { assert OC.OrderWithoutDispatch !in OC.OrderDiagnostics(s, o); }
    assert |OC.OutboxRows(s.outbox, OC.OrderKey(o))| == 1 by {
      assert OC.OutboxCountMismatch(OutboundOrderCreated) !in OC.OrderDiagnostics(s, o);
    }
    RowOfKey(t, week, s, CommercialOrderTable, pk);
    OutboxRowsOf(t, week, s, OutboxKey(CommercialOrderTable, pk));
    assert OC.OutboundContentMismatch !in OC.OrderDiagnostics(s, o);
    var d :| d in s.dispatches && d.orderPk == pk;
    assert d in DispatchViews(t);
    assert d.id in DispatchesOf(t.exits, pk);
  }

  lemma OrderRowHasOrder(t: Tables, telemetry: map<string, TelemetryRow>, week: int, s: OC.Snapshot, pk: nat)
    requires Audited(t, telemetry, week, s) && OfWeek(t, week, OutboxKey(CommercialOrderTable, pk))
    ensures pk in t.orders && InWeek(t.orders[pk].createdAt, week)
  {
    RowExpected(t, telemetry, week, s, OutboxKey(CommercialOrderTable, pk));
    hide OC.Clean;
    var key := OC.RowKey(CommercialOrderTable, pk, OutboundOrderCreated);
    assert key in OC.OrderKeys(s);
    var o :| o in s.orders && OC.OrderKey(o) == key;
    assert o in OrderViews(t, week);
  }

  // ----- threshold crossings -----

  lemma CheckpointOf(t: Tables, telemetry: map<string, TelemetryRow>, week: int, s: OC.Snapshot, pk: nat)
    requires Audited(t, telemetry, week, s)
    requires pk in t.exits && InWeek(t.exits[pk].createdAt, week)
    ensures Outbound(pk) in t.checkpoints
    ensures OC.CheckpointRows(s.checkpoints, Outbound(pk)) == [OC.CheckpointView(Outbound(pk), t.checkpoints[Outbound(pk)])]
    ensures OC.ThresholdDiagnostics(s, MovementViewOf(t, Outbound(pk)), t.checkpoints[Outbound(pk)]) == {}
  {
    hide OC.ThresholdDiagnostics;
    var m := MovementViewOf(t, Outbound(pk));
    MovementListed(t, week, s, Outbound(pk));
    assert OC.MovementDiagnostics(s, m) == {};
    OneCheckpoint(t, week, s, pk);
    var rows := OC.CheckpointRows(s.checkpoints, Outbound(pk));
    assert OC.ThresholdDiagnostics(s, m, rows[0].data) <= OC.MovementDiagnostics(s, m);
  }

  lemma OneCheckpoint(t: Tables, week: int, s: OC.Snapshot, pk: nat)
    requires Lists(s.checkpoints, CheckpointViews(t, week))
    requires |OC.CheckpointRows(s.checkpoints, Outbound(pk))| == 1
    ensures Outbound(pk) in t.checkpoints
    ensures OC.CheckpointRows(s.checkpoints, Outbound(pk)) == [OC.CheckpointView(Outbound(pk), t.checkpoints[Outbound(pk)])]
  {
    var rows := OC.CheckpointRows(s.checkpoints, Outbound(pk));
    assert rows[0] in rows && rows[0] in CheckpointViews(t, week);
    assert rows == [rows[0]];
  }

  lemma CrossingReported(t: Tables, telemetry: map<string, TelemetryRow>, week: int, s: OC.Snapshot, pk: nat)
    requires Audited(t, telemetry, week, s)
    requires pk in t.exits && InWeek(t.exits[pk].createdAt, week) && CrossingExit(t, pk)
    ensures OfWeek(t, week, OutboxKey(StockExitTable, pk))
    ensures var c := t.checkpoints[Outbound(pk)];
      t.outbox[OutboxKey(StockExitTable, pk)].tags == OC.CrossingTags(MovementViewOf(t, Outbound(pk)), c.after, c.threshold.value)
  {
    hide OC.CrossingTags;
    CheckpointOf(t, telemetry, week, s, pk);
    RowOfKey(t, week, s, StockExitTable, pk);
    OutboxRowsOf(t, week, s, OutboxKey(StockExitTable, pk));
  }

  lemma CrossingRowHasExit(t: Tables, telemetry: map<string, TelemetryRow>, week: int, s: OC.Snapshot, pk: nat)
    requires Audited(t, telemetry, week, s) && OfWeek(t, week, OutboxKey(StockExitTable, pk))
    ensures pk in t.exits && InWeek(t.exits[pk].createdAt, week) && CrossingExit(t, pk)
  {
    RowExpected(t, telemetry, week, s, OutboxKey(StockExitTable, pk));
    var key := OC.RowKey(StockExitTable, pk, StockThresholdTriggered);
    assert key in OC.CrossingKeys(s);
    var m :| m in OC.MovementMap(s.movements).Values && OC.ExpectsThreshold(s, m) && OC.ThresholdKey(m.key) == key;
    MappedMovement(t, week, s, m);
    assert m.key == Outbound(pk);
    CheckpointOf(t, telemetry, week, s, pk);
  }

  // ----- discrepancies -----

  lemma DiscrepancyReported(t: Tables, telemetry: map<string, TelemetryRow>, week: int, s: OC.Snapshot, pk: nat)
    requires Audited(t, telemetry, week, s)
    requires pk in t.counts && InWeek(t.counts[pk].confirmedAt, week) && t.counts[pk].expected != t.counts[pk].observed
    ensures OfWeek(t, week, OutboxKey(PhysicalCountTable, pk))
    ensures t.outbox[OutboxKey(PhysicalCountTable, pk)].tags == OC.CountRowTags(CountViewOf(t, pk))
  {
    hide OC.CountRowTags;
    var n := CountViewOf(t, pk);
    assert n in CountViews(t, week);
    assert n in s.counts && OC.CountDiagnostics(s, n) == {};
    RowOfKey(t, week, s, PhysicalCountTable, pk);
    OutboxRowsOf(t, week, s, OutboxKey(PhysicalCountTable, pk));
  }

  lemma DiscrepancyRowHasCount(t: Tables, telemetry: map<string, TelemetryRow>, week: int, s: OC.Snapshot, pk: nat)
    requires Audited(t, telemetry, week, s) && OfWeek(t, week, OutboxKey(PhysicalCountTable, pk))
    ensures pk in t.counts && InWeek(t.counts[pk].confirmedAt, week) && t.counts[pk].expected != t.counts[pk].observed
    ensures t.counts[pk].skuId in t.skus
  {
    RowExpected(t, telemetry, week, s, OutboxKey(PhysicalCountTable, pk));
    hide OC.Clean;
    var key := OC.RowKey(PhysicalCountTable, pk, InventoryDiscrepancyDetected);
    assert key in OC.CountKeys(s);
    var n :| n in s.counts && n.expected != n.observed && OC.CountKey(n) == key;
    assert n in CountViews(t, week);
  }

  // ----- the audited telemetry is the outbox of the week -----

  lemma RowDelivered(t: Tables, telemetry: map<string, TelemetryRow>, week: int, s: OC.Snapshot, k: OutboxKey)
    requires Audited(t, telemetry, week, s) && OfWeek(t, week, k)
    ensures Target(t.outbox[k]) in TelemetryOf(telemetry, week)
  {
    hide FilterTags;
    var v := OutboxViewOf(t, k);
    assert v in OutboxViews(t, week);
    assert v in s.outbox && OC.RowDiagnostics(s, v) == {};
    var targets := OC.TelemetryRows(s.telemetry, v.eventId);
    assert |targets| == 1 by { assert OC.TargetCountMismatch !in OC.RowDiagnostics(s, v); }
    assert targets[0] == OC.MappedRow(v) by { assert OC.TargetContentMismatch !in OC.RowDiagnostics(s, v); }
    assert targets[0] in targets && targets[0] in s.telemetry;
  }

  lemma TelemetryExplained(t: Tables, telemetry: map<string, TelemetryRow>, week: int, s: OC.Snapshot, r: TelemetryRow)
      returns (k: OutboxKey)
    requires Audited(t, telemetry, week, s) && r in TelemetryOf(telemetry, week)
    ensures OfWeek(t, week, k) && r == Target(t.outbox[k])
  {
    hide FilterTags;
    assert r in s.telemetry && OfficialRow(r);
    assert OC.AllFromOutbox(s) by { assert OC.OfficialWithoutOutbox !in OC.GlobalDiagnostics(s); }
    var v :| v in s.outbox && v.eventId == r.id;
    assert v in OutboxViews(t, week);
    k := ViewedRow(t, week, v);
    RowDelivered(t, telemetry, week, s, k);
    assert Target(t.outbox[k]).id == r.id;
  }

  lemma AuditedMembers(rows: seq<TelemetryRow>, e: OC.CanonicalEvent)
    ensures e in OC.CanonicalEvents(OC.OfficialRows(rows)) <==>
      exists r :: r in rows && OfficialRow(r) && OC.CanonicalOf(r) == e
  {
    BagMembers(OC.OfficialRows(rows), OC.CanonicalOf, e);
  }

  lemma ExtractedMembers(rows: seq<RawRow>, e: OC.CanonicalEvent)
    requires Readable(rows)
    ensures e in CanonicalEvents(rows) <==> exists r :: r in rows && CanonicalOf(r) == e
  {
    BagMembers(rows, CanonicalOf, e);
  }

  function WeekKeys(t: Tables, week: int): set<OutboxKey> { set k | k in t.outbox && InWeek(t.outbox[k].occurredAt, week) }

  function RawRows(t: Tables, week: int): set<RawRow> { set k | k in WeekKeys(t, week) :: RawOf(Target(t.outbox[k])) }

  /** The extracted rows are exactly the mapped rows of the week's outbox. */
  lemma ExtractedRows(t: Tables, telemetry: map<string, TelemetryRow>, week: int, s: OC.Snapshot, rows: seq<RawRow>)
    requires Audited(t, telemetry, week, s) && Readable(rows)
    requires CanonicalEvents(rows) == OC.CanonicalEvents(OC.OfficialRows(s.telemetry))
    ensures SetOf(rows) == RawRows(t, week)
  {
    hide OC.Clean, Target, OC.OfficialRows, OC.CanonicalEvents, CanonicalEvents, OfficialRow;
    forall r | r in rows ensures r in RawRows(t, week) {
      var e := CanonicalOf(r);
      ExtractedMembers(rows, e);
      AuditedMembers(s.telemetry, e);
      var q :| q in s.telemetry && OfficialRow(q) && OC.CanonicalOf(q) == e;
      assert q in TelemetryOf(telemetry, week);
      var k := TelemetryExplained(t, telemetry, week, s, q);
      assert r == RawOf(q) && k in WeekKeys(t, week);
    }
    forall k | k in WeekKeys(t, week) ensures RawOf(Target(t.outbox[k])) in rows {
      RowDelivered(t, telemetry, week, s, k);
      var q := Target(t.outbox[k]);
      assert q in s.telemetry;
      OfficialTarget(telemetry, week, q);
      var e := OC.CanonicalOf(q);
      AuditedMembers(s.telemetry, e);
      ExtractedMembers(rows, e);
      var r :| r in rows && CanonicalOf(r) == e;
      assert r == RawOf(q);
    }
  }

  lemma OfficialTarget(telemetry: map<string, TelemetryRow>, week: int, q: TelemetryRow)
    requires q in TelemetryOf(telemetry, week)
    ensures OfficialRow(q)
  {
  }
}
