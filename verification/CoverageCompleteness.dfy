/** Exactly when the audit of a week of a running system is clean. */
module CoverageCompleteness {
  import opened Basics
  import opened Identifiers
  import opened Vocabulary
  import opened InventoryTables
  import opened InventoryCommands
  import opened InventoryInvariants
  import opened InventoryLedger
  import opened InventoryOrders
  import opened InventoryRuns
  import opened OutboxRelay
  import opened ProducerRuns
  import OC = OperationalCoverage

  // ----- the week's rows -----

  function EntryViewOf(t: Tables, pk: nat): OC.EntryView
    requires pk in t.entries && t.entries[pk].skuId in t.skus
  {
    var e, sku := t.entries[pk], t.skus[t.entries[pk].skuId];
    OC.EntryView(pk, e.skuId, e.quantity, e.warehouse, e.createdAt, sku.clientId, sku.category)
  }

  function EntryViews(t: Tables, week: int): set<OC.EntryView> {
    set pk | pk in t.entries && t.entries[pk].skuId in t.skus && InWeek(t.entries[pk].createdAt, week) :: EntryViewOf(t, pk)
  }

  function OrderViewOf(t: Tables, pk: nat): OC.OrderView
    requires pk in t.orders
  {
    OC.OrderView(pk, t.orders[pk].orderId, t.orders[pk].clientId, t.orders[pk].warehouse)
  }

  function OrderViews(t: Tables, week: int): set<OC.OrderView> {
    set pk | pk in t.orders && InWeek(t.orders[pk].createdAt, week) :: OrderViewOf(t, pk)
  }

  /** Dispatches are read without week bounds: later partials of an order count too. */
  function DispatchViews(t: Tables): set<OC.DispatchView> {
    set pk | pk in t.exits && t.exits[pk].orderPk.Some? ::
      OC.DispatchView(pk, t.exits[pk].dispatchId, t.exits[pk].orderPk.value)
  }

  predicate MovementKnown(t: Tables, m: Movement) {
    if m.Inbound? then m.pk in t.entries && t.entries[m.pk].skuId in t.skus
    else m.pk in t.exits && t.exits[m.pk].skuId in t.skus
  }

  function MovementViewOf(t: Tables, m: Movement): OC.MovementView
    requires MovementKnown(t, m)
  {
    match m
    case Inbound(pk) =>
      var e, sku := t.entries[pk], t.skus[t.entries[pk].skuId];
      OC.MovementView(m, e.skuId, e.quantity, e.warehouse, sku.clientId, sku.category, e.createdAt)
    case Outbound(pk) =>
      var x, sku := t.exits[pk], t.skus[t.exits[pk].skuId];
      OC.MovementView(m, x.skuId, x.quantity, x.warehouse, sku.clientId, sku.category, x.createdAt)
  }

  function InboundViews(t: Tables, week: int): set<OC.MovementView> {
    set pk | pk in t.entries && t.entries[pk].skuId in t.skus && InWeek(t.entries[pk].createdAt, week) ::
      MovementViewOf(t, Inbound(pk))
  }

  function OutboundViews(t: Tables, week: int): set<OC.MovementView> {
    set pk | pk in t.exits && t.exits[pk].skuId in t.skus && InWeek(t.exits[pk].createdAt, week) ::
      MovementViewOf(t, Outbound(pk))
  }

  function CheckpointViews(t: Tables, week: int): set<OC.CheckpointView> {
    set m | m in t.checkpoints && InWeek(t.checkpoints[m].evaluatedAt, week) :: OC.CheckpointView(m, t.checkpoints[m])
  }

  function CountViewOf(t: Tables, pk: nat): OC.CountView
    requires pk in t.counts && t.counts[pk].skuId in t.skus
  {
    var n := t.counts[pk];
    OC.CountView(pk, n.countId, n.skuId, n.clientId, n.warehouse, n.expected, n.observed, t.skus[n.skuId].category)
  }

  function CountViews(t: Tables, week: int): set<OC.CountView> {
    set pk | pk in t.counts && t.counts[pk].skuId in t.skus && InWeek(t.counts[pk].confirmedAt, week) :: CountViewOf(t, pk)
  }

  function OutboxViewOf(t: Tables, k: OutboxKey): OC.OutboxView
    requires k in t.outbox
  {
    var r := t.outbox[k];
    OC.OutboxView(r.eventId, r.occurredAt, k.source, k.pk, r.eventType, r.tags, r.publishedAt)
  }

  function OutboxViews(t: Tables, week: int): set<OC.OutboxView> {
    set k | k in t.outbox && InWeek(t.outbox[k].occurredAt, week) :: OutboxViewOf(t, k)
  }

  function TelemetryOf(telemetry: map<string, TelemetryRow>, week: int): set<TelemetryRow> {
    set id | id in telemetry && InWeek(telemetry[id].time, week) && OfficialRow(telemetry[id]) :: telemetry[id]
  }

  /** The audit's queries for one week; SQL may return the rows in any order. */
  ghost predicate SnapshotOf(t: Tables, telemetry: map<string, TelemetryRow>, week: int, s: OC.Snapshot) {
    && Lists(s.entries, EntryViews(t, week)) && Lists(s.orders, OrderViews(t, week))
    && Lists(s.dispatches, DispatchViews(t))
    && Lists(s.movements, InboundViews(t, week) + OutboundViews(t, week))
    && Lists(s.checkpoints, CheckpointViews(t, week)) && Lists(s.counts, CountViews(t, week))
    && Lists(s.outbox, OutboxViews(t, week)) && Lists(s.telemetry, TelemetryOf(telemetry, week))
  }

  // ----- looking rows up -----

  ghost predicate Distinct<T(!new)>(s: seq<T>) { forall i, j :: 0 <= i < j < |s| ==> s[i] != s[j] }

  lemma DistinctRest<T(!new)>(s: seq<T>)
    requires s != [] && Distinct(s)
    ensures Distinct(s[1..]) && s[0] !in s[1..]
  {
  }

  lemma {:induction false} OneOutboxRow(rows: seq<OC.OutboxView>, key: OC.RowKey, r: OC.OutboxView)
    requires Distinct(rows) && r in rows && OC.KeyOf(r) == key
    requires forall x :: x in rows && OC.KeyOf(x) == key ==> x == r
    ensures OC.OutboxRows(rows, key) == [r]
  {
    DistinctRest(rows);
    if rows[0] == r {
      NoOutboxRow(rows[1..], key);
    } else {
      OneOutboxRow(rows[1..], key, r);
    }
  }

  lemma {:induction false} NoOutboxRow(rows: seq<OC.OutboxView>, key: OC.RowKey)
    requires forall x :: x in rows ==> OC.KeyOf(x) != key
    ensures OC.OutboxRows(rows, key) == []
  {
    if rows != [] { NoOutboxRow(rows[1..], key); }
  }

  lemma {:induction false} NoCheckpointRow(rows: seq<OC.CheckpointView>, key: Movement)
    requires forall x :: x in rows ==> x.key != key
    ensures OC.CheckpointRows(rows, key) == []
  {
    if rows != [] { NoCheckpointRow(rows[1..], key); }
  }

  lemma {:induction false} NoTelemetryRow(rows: seq<TelemetryRow>, id: string)
    requires forall x :: x in rows ==> x.id != id
    ensures OC.TelemetryRows(rows, id) == []
  {
    if rows != [] { NoTelemetryRow(rows[1..], id); }
  }

  lemma {:induction false} OneCheckpointRow(rows: seq<OC.CheckpointView>, key: Movement, r: OC.CheckpointView)
    requires Distinct(rows) && r in rows && r.key == key
    requires forall x :: x in rows && x.key == key ==> x == r
    ensures OC.CheckpointRows(rows, key) == [r]
  {
    DistinctRest(rows);
    if rows[0] == r {
      NoCheckpointRow(rows[1..], key);
    } else {
      OneCheckpointRow(rows[1..], key, r);
    }
  }

  lemma {:induction false} OneTelemetryRow(rows: seq<TelemetryRow>, id: string, r: TelemetryRow)
    requires Distinct(rows) && r in rows && r.id == id && OfficialRow(r)
    requires forall x :: x in rows && x.id == id ==> x == r
    ensures OC.TelemetryRows(rows, id) == [r]
  {
    DistinctRest(rows);
    if rows[0] == r {
      NoTelemetryRow(rows[1..], id);
    } else {
      OneTelemetryRow(rows[1..], id, r);
    }
  }

  /** The outbox row of a source row of the week, as the snapshot shows it. */
  lemma RowFound(t: Tables, week: int, rows: seq<OC.OutboxView>, k: OutboxKey)
    requires Good(t) && Lists(rows, OutboxViews(t, week))
    ensures k in t.outbox && InWeek(t.outbox[k].occurredAt, week) ==>
      OC.OutboxRows(rows, OC.RowKey(k.source, k.pk, SourceEvent(k.source))) == [OutboxViewOf(t, k)]
    ensures k !in t.outbox ==> OC.OutboxRows(rows, OC.RowKey(k.source, k.pk, SourceEvent(k.source))) == []
  {
    hide Good;
    var key := OC.RowKey(k.source, k.pk, SourceEvent(k.source));
    forall x | x in rows ensures exists j :: j in t.outbox && x == OutboxViewOf(t, j) { assert x in OutboxViews(t, week); }
    if k in t.outbox && InWeek(t.outbox[k].occurredAt, week) {
      RowEventType(t, k);
      assert OutboxViewOf(t, k) in OutboxViews(t, week);
      OneOutboxRow(rows, key, OutboxViewOf(t, k));
    }
    if k !in t.outbox { NoOutboxRow(rows, key); }
  }

  lemma ViewedRow(t: Tables, week: int, x: OC.OutboxView) returns (k: OutboxKey)
    requires x in OutboxViews(t, week)
    ensures k in t.outbox && InWeek(t.outbox[k].occurredAt, week) && x == OutboxViewOf(t, k)
  {
    k :| k in t.outbox && InWeek(t.outbox[k].occurredAt, week) && x == OutboxViewOf(t, k);
  }

  /** No source row reports another table's event. */
  lemma ForeignRowAbsent(t: Tables, week: int, rows: seq<OC.OutboxView>, source: SourceTable, pk: nat, e: EventType)
    requires Good(t) && Lists(rows, OutboxViews(t, week)) && e != SourceEvent(source)
    ensures OC.OutboxRows(rows, OC.RowKey(source, pk, e)) == []
  {
    hide Good;
    forall x | x in rows ensures OC.KeyOf(x) != OC.RowKey(source, pk, e) {
      var j := ViewedRow(t, week, x);
      RowEventType(t, j);
    }
    NoOutboxRow(rows, OC.RowKey(source, pk, e));
  }

  lemma CheckpointFound(t: Tables, week: int, rows: seq<OC.CheckpointView>, m: Movement)
    requires Lists(rows, CheckpointViews(t, week))
    requires m in t.checkpoints && InWeek(t.checkpoints[m].evaluatedAt, week)
    ensures OC.CheckpointRows(rows, m) == [OC.CheckpointView(m, t.checkpoints[m])]
  {
    forall x | x in rows && x.key == m ensures x == OC.CheckpointView(m, t.checkpoints[m]) {
      assert x in CheckpointViews(t, week);
    }
    assert OC.CheckpointView(m, t.checkpoints[m]) in CheckpointViews(t, week);
    OneCheckpointRow(rows, m, OC.CheckpointView(m, t.checkpoints[m]));
  }

  lemma CanonicalName(w: string)
    requires TelemetryWarehouse(w).Some?
    ensures CanonicalWarehouse(w) == TelemetryWarehouse(w)
  {
  }

  // ----- the condition -----

  /** Every event of the week was acknowledged. */
  ghost predicate AllPublished(t: Tables, week: int) {
    forall k :: k in t.outbox && InWeek(t.outbox[k].occurredAt, week) ==> t.outbox[k].publishedAt.Some?
  }

  /** Every entry of the week is on a SKU with a client. */
  ghost predicate AllHaveClients(t: Tables, week: int) {
    forall pk :: pk in t.entries && InWeek(t.entries[pk].createdAt, week) ==>
      t.entries[pk].skuId in t.skus && t.skus[t.entries[pk].skuId].clientId.Some?
  }

  /** The reporting database shows no event of the week newer than the operational snapshot. */
  ghost predicate NothingNewer(t: Tables, telemetry: map<string, TelemetryRow>, week: int) {
    forall r :: r in TelemetryOf(telemetry, week) ==> exists k :: k in t.outbox && t.outbox[k].eventId == r.id
  }

  // ----- each row of a settled week passes -----

  lemma EntryPasses(t: Tables, week: int, s: OC.Snapshot, pk: nat)
    requires Good(t) && Lists(s.outbox, OutboxViews(t, week))
    requires pk in t.entries && t.entries[pk].skuId in t.skus && InWeek(t.entries[pk].createdAt, week)
    ensures OC.EntryDiagnostics(s, EntryViewOf(t, pk)) == {} <==> t.skus[t.entries[pk].skuId].clientId.Some?
  {
    assert EntryOk(t, pk);
    hide Good;
    RowFound(t, week, s.outbox, OutboxKey(StockEntryTable, pk));
    CanonicalName(t.entries[pk].warehouse);
  }

  lemma OrderPasses(t: Tables, week: int, s: OC.Snapshot, pk: nat)
    requires Good(t) && Lists(s.outbox, OutboxViews(t, week)) && Lists(s.dispatches, DispatchViews(t))
    requires pk in t.orders && InWeek(t.orders[pk].createdAt, week)
    ensures OC.OrderDiagnostics(s, OrderViewOf(t, pk)) == {}
  {
    assert OrderOk(t, pk);
    hide Good;
    RowFound(t, week, s.outbox, OutboxKey(CommercialOrderTable, pk));
    CanonicalName(t.orders[pk].warehouse);
    var x :| x in t.exits && t.exits[x].orderPk == Some(pk);
    var d := OC.DispatchView(x, t.exits[x].dispatchId, pk);
    assert d in DispatchViews(t);
    assert d in s.dispatches && d.orderPk == pk;
  }

  lemma InboundPasses(t: Tables, week: int, s: OC.Snapshot, pk: nat)
    requires Good(t) && Lists(s.outbox, OutboxViews(t, week)) && Lists(s.checkpoints, CheckpointViews(t, week))
    requires pk in t.entries && t.entries[pk].skuId in t.skus && InWeek(t.entries[pk].createdAt, week)
    ensures OC.MovementDiagnostics(s, MovementViewOf(t, Inbound(pk))) == {}
    ensures !OC.ExpectsThreshold(s, MovementViewOf(t, Inbound(pk)))
  {
    assert EntryOk(t, pk);
    hide Good;
    CheckpointFound(t, week, s.checkpoints, Inbound(pk));
    ForeignRowAbsent(t, week, s.outbox, StockEntryTable, pk, StockThresholdTriggered);
  }

  lemma OutboundPasses(t: Tables, week: int, s: OC.Snapshot, pk: nat)
    requires Good(t) && Lists(s.outbox, OutboxViews(t, week)) && Lists(s.checkpoints, CheckpointViews(t, week))
    requires pk in t.exits && t.exits[pk].skuId in t.skus && InWeek(t.exits[pk].createdAt, week)
    ensures OC.MovementDiagnostics(s, MovementViewOf(t, Outbound(pk))) == {}
    ensures OC.ExpectsThreshold(s, MovementViewOf(t, Outbound(pk))) <==> OutboxKey(StockExitTable, pk) in t.outbox
  {
    assert ExitOk(t, pk);
    hide Good;
    CheckpointFound(t, week, s.checkpoints, Outbound(pk));
    RowFound(t, week, s.outbox, OutboxKey(StockExitTable, pk));
    if TelemetryWarehouse(t.exits[pk].warehouse).Some? { CanonicalName(t.exits[pk].warehouse); }
  }

  lemma CountPasses(t: Tables, week: int, s: OC.Snapshot, pk: nat)
    requires Good(t) && Lists(s.outbox, OutboxViews(t, week))
    requires pk in t.counts && t.counts[pk].skuId in t.skus && InWeek(t.counts[pk].confirmedAt, week)
    ensures OC.CountDiagnostics(s, CountViewOf(t, pk)) == {}
  {
    assert CountOk(t, pk);
    hide Good;
    RowFound(t, week, s.outbox, OutboxKey(PhysicalCountTable, pk));
    CanonicalName(t.counts[pk].warehouse);
  }

  lemma RowPasses(w: World, telemetry: map<string, TelemetryRow>, week: int, s: OC.Snapshot, k: OutboxKey)
    requires SoundWorld(w) && Lists(s.telemetry, TelemetryOf(telemetry, week))
    requires forall id :: id in w.telemetry ==> id in telemetry && telemetry[id] == w.telemetry[id]
    requires forall id :: id in telemetry ==> telemetry[id].id == id
    requires k in w.tables.outbox && InWeek(w.tables.outbox[k].occurredAt, week)
    ensures OC.RowDiagnostics(s, OutboxViewOf(w.tables, k)) == {} <==> w.tables.outbox[k].publishedAt.Some?
  {
    hide Good, Balanced, Sourced;
    var r := w.tables.outbox[k];
    if r.publishedAt.Some? {
      RowTarget(w.tables, k);
      var target := Target(r);
      assert telemetry[r.eventId] == target && target in TelemetryOf(telemetry, week);
      forall x | x in s.telemetry && x.id == r.eventId ensures x == target { assert x in TelemetryOf(telemetry, week); }
      OneTelemetryRow(s.telemetry, r.eventId, target);
    }
  }

  // ----- the global checks -----

  lemma DispatchIdsDistinct(t: Tables, s: OC.Snapshot)
    requires Good(t) && Lists(s.dispatches, DispatchViews(t))
    ensures OC.DistinctDispatchIds(s)
  {
    forall i, j | 0 <= i < j < |s.dispatches| ensures s.dispatches[i].dispatchId != s.dispatches[j].dispatchId {
      var a, b := s.dispatches[i], s.dispatches[j];
      assert a in DispatchViews(t) && b in DispatchViews(t) && a != b;
      assert ExitOk(t, a.id) && ExitOk(t, b.id);
    }
  }

  lemma MovementInMap(s: OC.Snapshot, m: OC.MovementView)
    requires m in s.movements && forall x :: x in s.movements && x.key == m.key ==> x == m
    ensures m.key in OC.MovementMap(s.movements) && m in OC.MovementMap(s.movements).Values
  {
    var found := OC.MovementMap(s.movements);
    assert m.key in found && found[m.key] == m;
  }

  lemma MovementListed(t: Tables, week: int, s: OC.Snapshot, m: Movement)
    requires Lists(s.movements, InboundViews(t, week) + OutboundViews(t, week))
    requires MovementKnown(t, m) && InWeek(MovementViewOf(t, m).createdAt, week)
    ensures m in OC.MovementMap(s.movements) && MovementViewOf(t, m) in OC.MovementMap(s.movements).Values
  {
    var v := MovementViewOf(t, m);
    if m.Inbound? { assert v in InboundViews(t, week); } else { assert v in OutboundViews(t, week); }
    forall x | x in s.movements && x.key == m ensures x == v {
      assert x in InboundViews(t, week) + OutboundViews(t, week);
    }
    MovementInMap(s, v);
  }

  lemma MappedMovement(t: Tables, week: int, s: OC.Snapshot, v: OC.MovementView)
    requires Lists(s.movements, InboundViews(t, week) + OutboundViews(t, week))
    requires v in OC.MovementMap(s.movements).Values
    ensures MovementKnown(t, v.key) && v == MovementViewOf(t, v.key) && InWeek(v.createdAt, week)
  {
    assert v in s.movements;
    assert v in InboundViews(t, week) + OutboundViews(t, week);
  }

  lemma NoStrayCheckpoint(t: Tables, week: int, s: OC.Snapshot)
    requires Good(t) && Lists(s.movements, InboundViews(t, week) + OutboundViews(t, week))
    requires Lists(s.checkpoints, CheckpointViews(t, week))
    ensures !OC.StrayCheckpoint(s)
  {
    forall c | c in s.checkpoints ensures c.key in OC.MovementMap(s.movements) {
      assert c in CheckpointViews(t, week);
      if c.key.Inbound? { assert EntryOk(t, c.key.pk); } else { assert ExitOk(t, c.key.pk); }
      MovementListed(t, week, s, c.key);
    }
  }

  /** What the snapshot shows of the operational tables. */
  ghost predicate Shows(t: Tables, week: int, s: OC.Snapshot) {
    && Lists(s.entries, EntryViews(t, week)) && Lists(s.orders, OrderViews(t, week))
    && Lists(s.dispatches, DispatchViews(t))
    && Lists(s.movements, InboundViews(t, week) + OutboundViews(t, week))
    && Lists(s.checkpoints, CheckpointViews(t, week)) && Lists(s.counts, CountViews(t, week))
    && Lists(s.outbox, OutboxViews(t, week))
  }

  lemma RowIsExpected(t: Tables, week: int, s: OC.Snapshot, k: OutboxKey)
    requires Good(t) && Shows(t, week, s)
    requires k in t.outbox && InWeek(t.outbox[k].occurredAt, week)
    ensures OC.RowKey(k.source, k.pk, t.outbox[k].eventType) in OC.ExpectedKeys(s)
  {
    RowEventType(t, k);
    match k.source
    case StockEntryTable =>
      assert EntryOk(t, k.pk);
      assert EntryViewOf(t, k.pk) in EntryViews(t, week);
      assert OC.EntryKey(EntryViewOf(t, k.pk)) in OC.EntryKeys(s);
    case StockExitTable =>
      assert ExitOk(t, k.pk);
      hide Good;
      OutboundPasses(t, week, s, k.pk);
      MovementListed(t, week, s, Outbound(k.pk));
      assert OC.ThresholdKey(Outbound(k.pk)) in OC.CrossingKeys(s);
    case CommercialOrderTable =>
      assert OrderOk(t, k.pk);
      assert OrderViewOf(t, k.pk) in OrderViews(t, week);
      assert OC.OrderKey(OrderViewOf(t, k.pk)) in OC.OrderKeys(s);
    case PhysicalCountTable =>
      assert CountOk(t, k.pk);
      assert CountViewOf(t, k.pk) in CountViews(t, week);
      assert OC.CountKey(CountViewOf(t, k.pk)) in OC.CountKeys(s);
  }

  lemma ActualIsExpected(t: Tables, week: int, s: OC.Snapshot)
    requires Good(t) && Shows(t, week, s)
    ensures OC.ActualKeys(s) <= OC.ExpectedKeys(s)
  {
    hide Good, OC.ExpectedKeys;
    forall r | r in s.outbox ensures OC.KeyOf(r) in OC.ExpectedKeys(s) {
      assert r in OutboxViews(t, week);
      var k :| k in t.outbox && InWeek(t.outbox[k].occurredAt, week) && r == OutboxViewOf(t, k);
      RowIsExpected(t, week, s, k);
    }
  }

  lemma RowShown(t: Tables, week: int, s: OC.Snapshot, k: OutboxKey)
    requires Good(t) && Lists(s.outbox, OutboxViews(t, week))
    requires k in t.outbox && InWeek(t.outbox[k].occurredAt, week)
    ensures OC.RowKey(k.source, k.pk, SourceEvent(k.source)) in OC.ActualKeys(s)
  {
    RowEventType(t, k);
    hide Good;
    assert OutboxViewOf(t, k) in OutboxViews(t, week);
    assert OutboxViewOf(t, k) in s.outbox;
  }

  lemma EntryKeysShown(t: Tables, week: int, s: OC.Snapshot)
    requires Good(t) && Shows(t, week, s) && AllHaveClients(t, week)
    ensures OC.EntryKeys(s) <= OC.ActualKeys(s)
  {
    hide OC.ActualKeys;
    forall e | e in s.entries ensures OC.EntryKey(e) in OC.ActualKeys(s) {
      assert e in EntryViews(t, week);
      assert EntryOk(t, e.id);
      RowShown(t, week, s, OutboxKey(StockEntryTable, e.id));
    }
  }

  lemma OrderKeysShown(t: Tables, week: int, s: OC.Snapshot)
    requires Good(t) && Shows(t, week, s)
    ensures OC.OrderKeys(s) <= OC.ActualKeys(s)
  {
    hide OC.ActualKeys, Good;
    forall o | o in s.orders ensures OC.OrderKey(o) in OC.ActualKeys(s) {
      assert o in OrderViews(t, week);
      OrderHasRow(t, o.id);
      RowShown(t, week, s, OutboxKey(CommercialOrderTable, o.id));
    }
  }

  lemma OrderHasRow(t: Tables, pk: nat)
    requires Good(t) && pk in t.orders
    ensures OutboxKey(CommercialOrderTable, pk) in t.outbox
    ensures t.outbox[OutboxKey(CommercialOrderTable, pk)].occurredAt == t.orders[pk].createdAt
  {
    hide Bounded, Known, Unique, EntryOk, ExitOk, CountOk;
    assert OrderOk(t, pk);
  }

  lemma CountKeysShown(t: Tables, week: int, s: OC.Snapshot)
    requires Good(t) && Shows(t, week, s)
    ensures OC.CountKeys(s) <= OC.ActualKeys(s)
  {
    hide OC.ActualKeys;
    forall n | n in s.counts && n.expected != n.observed ensures OC.CountKey(n) in OC.ActualKeys(s) {
      assert n in CountViews(t, week);
      assert CountOk(t, n.id);
      RowShown(t, week, s, OutboxKey(PhysicalCountTable, n.id));
    }
  }

  lemma CrossingKeysShown(t: Tables, week: int, s: OC.Snapshot)
    requires Good(t) && Shows(t, week, s)
    ensures OC.CrossingKeys(s) <= OC.ActualKeys(s)
  {
    hide OC.ActualKeys, OC.ExpectsThreshold;
    forall m | m in OC.MovementMap(s.movements).Values && OC.ExpectsThreshold(s, m)
      ensures OC.ThresholdKey(m.key) in OC.ActualKeys(s)
    {
      MappedMovement(t, week, s, m);
      if m.key.Inbound? {
        InboundPasses(t, week, s, m.key.pk);
      } else {
        OutboundPasses(t, week, s, m.key.pk);
        assert ExitOk(t, m.key.pk);
        RowShown(t, week, s, OutboxKey(StockExitTable, m.key.pk));
      }
    }
  }

  lemma FromOutboxExact(t: Tables, telemetry: map<string, TelemetryRow>, week: int, s: OC.Snapshot)
    requires Lists(s.outbox, OutboxViews(t, week)) && Lists(s.telemetry, TelemetryOf(telemetry, week))
    requires forall r, k :: r in TelemetryOf(telemetry, week) && k in t.outbox && t.outbox[k].eventId == r.id ==>
      t.outbox[k].occurredAt == r.time
    ensures OC.AllFromOutbox(s) <==> NothingNewer(t, telemetry, week)
  {
    if NothingNewer(t, telemetry, week) {
      forall r | r in s.telemetry ensures exists o :: o in s.outbox && o.eventId == r.id {
        assert r in TelemetryOf(telemetry, week);
        var k :| k in t.outbox && t.outbox[k].eventId == r.id;
        assert OutboxViewOf(t, k) in OutboxViews(t, week);
        assert OutboxViewOf(t, k) in s.outbox;
      }
    }
    if OC.AllFromOutbox(s) {
      forall r | r in TelemetryOf(telemetry, week) ensures exists k :: k in t.outbox && t.outbox[k].eventId == r.id {
        assert r in s.telemetry && OfficialRow(r);
        var o :| o in s.outbox && o.eventId == r.id;
        assert o in OutboxViews(t, week);
      }
    }
  }

  /** An official row carries the time of the outbox row it came from. */
  lemma TimesAgree(w1: World, w2: World, week: int, r: TelemetryRow, k: OutboxKey)
    requires SoundWorld(w1) && SoundWorld(w2) && Later(w1, w2)
    requires r in TelemetryOf(w2.telemetry, week) && k in w1.tables.outbox && w1.tables.outbox[k].eventId == r.id
    ensures w1.tables.outbox[k].occurredAt == r.time
  {
    assert OutboxKept(w1.tables, w2.tables) && Unique(w2.tables);
    hide Good, Balanced, Extends;
    assert FromOutbox(w2, r.id);
    var j :| j in w2.tables.outbox && w2.tables.outbox[j].eventId == r.id && w2.telemetry[r.id] == Target(w2.tables.outbox[j]);
    assert j == k;
  }

  // ----- the theorem -----

  lemma SettledIsClean(w1: World, w2: World, week: int, s: OC.Snapshot)
    requires SoundWorld(w1) && SoundWorld(w2) && Later(w1, w2)
    requires SnapshotOf(w1.tables, w2.telemetry, week, s)
    requires AllPublished(w1.tables, week) && AllHaveClients(w1.tables, week)
    requires NothingNewer(w1.tables, w2.telemetry, week)
    ensures OC.Clean(s)
  {
    hide Good, Balanced, OC.EntryDiagnostics, OC.OrderDiagnostics, OC.MovementDiagnostics, OC.CountDiagnostics,
      OC.RowDiagnostics, OC.ExpectsThreshold, Extends;
    var t := w1.tables;
    forall e | e in s.entries ensures OC.EntryDiagnostics(s, e) == {} {
      assert e in EntryViews(t, week);
      EntryPasses(t, week, s, e.id);
    }
    forall o | o in s.orders ensures OC.OrderDiagnostics(s, o) == {} {
      assert o in OrderViews(t, week);
      OrderPasses(t, week, s, o.id);
    }
    forall m | m in OC.MovementMap(s.movements).Values ensures OC.MovementDiagnostics(s, m) == {} {
      MappedMovement(t, week, s, m);
      if m.key.Inbound? { InboundPasses(t, week, s, m.key.pk); } else { OutboundPasses(t, week, s, m.key.pk); }
    }
    forall n | n in s.counts ensures OC.CountDiagnostics(s, n) == {} {
      assert n in CountViews(t, week);
      CountPasses(t, week, s, n.id);
    }
    forall r | r in s.outbox ensures OC.RowDiagnostics(s, r) == {} {
      assert r in OutboxViews(t, week);
      var k :| k in t.outbox && InWeek(t.outbox[k].occurredAt, week) && r == OutboxViewOf(t, k);
      RowPasses(w1, w2.telemetry, week, s, k);
    }
    GlobalsPass(w1, w2, week, s);
  }

  lemma GlobalsPass(w1: World, w2: World, week: int, s: OC.Snapshot)
    requires SoundWorld(w1) && SoundWorld(w2) && Later(w1, w2)
    requires SnapshotOf(w1.tables, w2.telemetry, week, s)
    requires AllHaveClients(w1.tables, week) && NothingNewer(w1.tables, w2.telemetry, week)
    ensures OC.GlobalDiagnostics(s) == {}
  {
    hide Good, Balanced, OC.DistinctDispatchIds, OC.StrayCheckpoint, OC.AllFromOutbox, OC.ActualKeys, OC.EntryKeys,
      OC.OrderKeys, OC.CrossingKeys, OC.CountKeys, Extends, AllHaveClients, NothingNewer, TelemetryOf;
    var t := w1.tables;
    DispatchIdsDistinct(t, s);
    NoStrayCheckpoint(t, week, s);
    ActualIsExpected(t, week, s);
    EntryKeysShown(t, week, s);
    OrderKeysShown(t, week, s);
    CrossingKeysShown(t, week, s);
    CountKeysShown(t, week, s);
    forall r, k | r in TelemetryOf(w2.telemetry, week) && k in t.outbox && t.outbox[k].eventId == r.id
      ensures t.outbox[k].occurredAt == r.time
    {
      TimesAgree(w1, w2, week, r, k);
    }
    FromOutboxExact(t, w2.telemetry, week, s);
  }

  lemma CleanIsSettled(w1: World, w2: World, week: int, s: OC.Snapshot)
    requires SoundWorld(w1) && SoundWorld(w2) && Later(w1, w2)
    requires SnapshotOf(w1.tables, w2.telemetry, week, s) && OC.Clean(s)
    ensures AllPublished(w1.tables, week) && AllHaveClients(w1.tables, week)
    ensures NothingNewer(w1.tables, w2.telemetry, week)
  {
    hide Good, Balanced, OC.EntryDiagnostics, OC.OrderDiagnostics, OC.MovementDiagnostics, OC.CountDiagnostics,
      OC.RowDiagnostics, Extends;
    var t := w1.tables;
    forall k | k in t.outbox && InWeek(t.outbox[k].occurredAt, week) ensures t.outbox[k].publishedAt.Some? {
      assert OutboxViewOf(t, k) in OutboxViews(t, week);
      assert OutboxViewOf(t, k) in s.outbox;
      RowPasses(w1, w2.telemetry, week, s, k);
    }
    forall pk | pk in t.entries && InWeek(t.entries[pk].createdAt, week)
      ensures t.entries[pk].skuId in t.skus && t.skus[t.entries[pk].skuId].clientId.Some?
    {
      EntrySku(t, pk);
      assert EntryViewOf(t, pk) in EntryViews(t, week);
      assert EntryViewOf(t, pk) in s.entries;
      EntryPasses(t, week, s, pk);
    }
    forall r, k | r in TelemetryOf(w2.telemetry, week) && k in t.outbox && t.outbox[k].eventId == r.id
      ensures t.outbox[k].occurredAt == r.time
    {
      TimesAgree(w1, w2, week, r, k);
    }
    FromOutboxExact(t, w2.telemetry, week, s);
  }

  lemma EntrySku(t: Tables, pk: nat)
    requires Good(t) && pk in t.entries
    ensures t.entries[pk].skuId in t.skus
  {
    assert EntryOk(t, pk);
  }

  /** After any run, the audit of any week, read first from the operational and then from the
      reporting database, has no diagnostics exactly when every event of the week was acknowledged,
      no entry of the week lacks a client, and no newer event reached the reporting database. */
  lemma AuditIsExact(w: World, before: seq<Step>, between: seq<Step>, week: int, s: OC.Snapshot)
    requires FreshWorld(w)
    requires var w1 := RunWorld(w, before);
      SnapshotOf(w1.tables, RunWorld(w1, between).telemetry, week, s)
    ensures var w1 := RunWorld(w, before);
      OC.Diagnose(s) == {} <==>
        (AllPublished(w1.tables, week) && AllHaveClients(w1.tables, week)
         && NothingNewer(w1.tables, RunWorld(w1, between).telemetry, week))
  {
    hide SoundWorld, Later, SnapshotOf, OC.Clean, OC.Diagnose, AllPublished, AllHaveClients, NothingNewer, RunWorld;
    FreshWorldSound(w);
    RunWorldSound(w, before);
    var w1 := RunWorld(w, before);
    RunWorldSound(w1, between);
    var w2 := RunWorld(w1, between);
    OC.CleanIsNoDiagnostics(s);
    if OC.Clean(s) { CleanIsSettled(w1, w2, week, s); }
    if AllPublished(w1.tables, week) && AllHaveClients(w1.tables, week) && NothingNewer(w1.tables, w2.telemetry, week) {
      SettledIsClean(w1, w2, week, s);
    }
  }

  /** Commands on SKUs with clients and a full relay always pass the audit, for every week. */
  lemma RelayedWeekPasses(w: World, steps: seq<Step>, week: int, s: OC.Snapshot)
    requires FreshWorld(w)
    requires forall sku :: sku in w.tables.skus ==> w.tables.skus[sku].clientId.Some?
    requires var w1 := RunWorld(w, steps);
      SnapshotOf(w1.tables, w1.telemetry, week, s) && PendingKeys(Stores(w1.tables.outbox, w1.telemetry)) == {}
    ensures OC.Diagnose(s) == {}
  {
    var w1 := RunWorld(w, steps);
    hide SoundWorld, Later, SnapshotOf, RunWorld, OC.Diagnose;
    FreshWorldSound(w);
    RunWorldSound(w, steps);
    ClientsKept(w, steps);
    assert AllPublished(w1.tables, week) by { NonePending(w1, week); }
    NothingNewerNow(w1, week);
    ClientsEverywhere(w1, week);
    LaterSame(w1);
    SettledIsClean(w1, w1, week, s);
    OC.CleanIsNoDiagnostics(s);
  }

  lemma NonePending(w: World, week: int)
    requires PendingKeys(Stores(w.tables.outbox, w.telemetry)) == {}
    ensures AllPublished(w.tables, week)
  {
    forall k | k in w.tables.outbox ensures w.tables.outbox[k].publishedAt.Some? {
      assert k !in PendingKeys(Stores(w.tables.outbox, w.telemetry));
    }
  }

  lemma NothingNewerNow(w: World, week: int)
    requires SoundWorld(w)
    ensures NothingNewer(w.tables, w.telemetry, week)
  {
    hide Good, Balanced;
    forall r | r in TelemetryOf(w.telemetry, week) ensures exists k :: k in w.tables.outbox && w.tables.outbox[k].eventId == r.id {
      assert FromOutbox(w, r.id);
    }
  }

  ghost predicate AllClients(t: Tables) { forall sku :: sku in t.skus ==> t.skus[sku].clientId.Some? }

  lemma ClientsEverywhere(w: World, week: int)
    requires SoundWorld(w) && AllClients(w.tables)
    ensures AllHaveClients(w.tables, week)
  {
    forall pk | pk in w.tables.entries ensures w.tables.entries[pk].skuId in w.tables.skus { EntrySku(w.tables, pk); }
  }

  lemma StepClients(w: World, step: Step)
    requires AllClients(w.tables)
    ensures AllClients(Apply(w, step).tables)
  {
    if step.Serve? { CommandClients(w.tables, step.command, step.env); }
  }

  lemma EnterStockSkus(t: Tables, skuId: int, quantity: nat, reference: string, warehouse: string, env: Env)
    ensures EnterStockSpec(t, skuId, quantity, reference, warehouse, env).tables.skus == t.skus
  {
    hide Stock, IsUuidV4, InboundTags, TelemetryWarehouse, EventIds;
  }

  lemma ExitStockSkus(t: Tables, skuId: int, quantity: nat, exitType: ExitType, tracking: Option<string>,
                      warehouse: string, env: Env)
    ensures ExitStockSpec(t, skuId, quantity, exitType, tracking, warehouse, env).tables.skus == t.skus
  {
    hide Stock, AddExit;
    var x := StockExit(skuId, quantity, exitType, tracking, warehouse, env.now, env.user, None, None);
    if skuId in t.skus && AddExit(t, x, env.eventId).Some? { AddExitFrame(t, x, env.eventId); }
  }

  lemma ConfirmCountSkus(t: Tables, countId: string, skuId: int, observed: nat, warehouse: string, env: Env)
    ensures ConfirmCountSpec(t, countId, skuId, observed, warehouse, env).tables.skus == t.skus
  {
    hide Stock, IsUuidV4, DiscrepancyTags, TelemetryWarehouse, EventIds, FindCount;
  }

  lemma CommandClients(t: Tables, c: Command, env: Env)
    requires AllClients(t)
    ensures AllClients(Execute(t, c, env).tables)
  {
    hide EnterStockSpec, ExitStockSpec, ConfirmCountSpec, CreateOrderSpec, AppendSpec;
    match c
    case AddSku(id, sku) =>
    case SetThreshold(skuId, threshold) =>
    case EnterStock(skuId, quantity, reference, warehouse) =>
      EnterStockSkus(t, skuId, quantity, reference, warehouse, env);
    case ExitStock(skuId, quantity, exitType, tracking, warehouse) =>
      ExitStockSkus(t, skuId, quantity, exitType, tracking, warehouse, env);
    case ConfirmCount(countId, skuId, observed, warehouse) =>
      ConfirmCountSkus(t, countId, skuId, observed, warehouse, env);
    case CreateOrder(orderId, clientId, warehouse, items) => OrderSkus(t, c, env);
    case AppendDispatches(orderId, items) => OrderSkus(t, c, env);
  }

  lemma {:induction false} DispatchSkus(t: Tables, items: seq<Item>, pk: nat, warehouse: string, env: Env)
    requires AddDispatches(t, items, pk, warehouse, env).Some?
    ensures AddDispatches(t, items, pk, warehouse, env).value.skus == t.skus
    decreases items
  {
    if items != [] {
      var x, id := DispatchRow(items[0], pk, warehouse, env), env.thresholdId(items[0].dispatchId);
      DispatchSkus(AddExit(t, x, id).value, items[1..], pk, warehouse, env);
    }
  }

  lemma OrderSkus(t: Tables, c: Command, env: Env)
    requires c.CreateOrder? || c.AppendDispatches?
    ensures Execute(t, c, env).tables.skus == t.skus
  {
    hide AddDispatches, ValidateOrder, SortById, Recorded, DispatchUsed, IsUuidV4;
    if c.CreateOrder? {
      var started := OpenOrder(t, CommercialOrder(c.orderId, c.clientId, c.warehouse, env.now));
      if AddDispatches(started, SortById(c.items), t.nextOrder, c.warehouse, env).Some? {
        DispatchSkus(started, SortById(c.items), t.nextOrder, c.warehouse, env);
      }
    } else if FindOrder(t, c.orderId).Some? {
      var pk := FindOrder(t, c.orderId).value;
      if AddDispatches(t, SortById(NewItems(t, c.items)), pk, t.orders[pk].warehouse, env).Some? {
        DispatchSkus(t, SortById(NewItems(t, c.items)), pk, t.orders[pk].warehouse, env);
      }
    }
  }

  lemma {:induction false} ClientsKept(w: World, steps: seq<Step>)
    requires AllClients(w.tables)
    ensures AllClients(RunWorld(w, steps).tables)
  {
    hide AllClients, Apply;
    if steps != [] {
      ClientsKept(w, steps[..|steps| - 1]);
      StepClients(RunWorld(w, steps[..|steps| - 1]), steps[|steps| - 1]);
    }
  }
}
