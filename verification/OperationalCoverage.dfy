/** The audit that decides whether the operational tables and telemetry agree about one week. */
module OperationalCoverage {
  import opened Basics
  import opened Vocabulary
  import opened InventoryTables

  // ----- the rows an audit reads -----

  datatype EntryView = EntryView(
    id: nat, skuId: int, quantity: int, warehouse: string, createdAt: int, clientId: Option<string>, category: string)

  datatype OrderView = OrderView(id: nat, orderId: string, clientId: string, warehouse: string)

  datatype DispatchView = DispatchView(id: nat, dispatchId: Option<string>, orderPk: nat)

  datatype MovementView = MovementView(
    key: Movement, skuId: int, quantity: int, warehouse: string, clientId: Option<string>, category: string,
    createdAt: int)

  datatype CheckpointView = CheckpointView(key: Movement, data: Checkpoint)

  datatype CountView = CountView(
    id: nat, countId: string, skuId: int, clientId: string, warehouse: string, expected: int, observed: int,
    category: string)

  datatype OutboxView = OutboxView(
    eventId: string, occurredAt: int, source: SourceTable, pk: nat, eventType: EventType, tags: Tags,
    publishedAt: Option<int>)

  datatype Snapshot = Snapshot(
    entries: seq<EntryView>, orders: seq<OrderView>, dispatches: seq<DispatchView>, movements: seq<MovementView>,
    checkpoints: seq<CheckpointView>, counts: seq<CountView>, outbox: seq<OutboxView>, telemetry: seq<TelemetryRow>)

  datatype Diagnostic =
    | DispatchIdDuplicate | OutboxCountMismatch(eventType: EventType) | InboundContentMismatch
    | OrderWithoutDispatch | OutboundContentMismatch | CheckpointCountMismatch | CheckpointContentMismatch
    | CheckpointTimestampMismatch | CrossedEventMismatch | ThresholdContentMismatch | NotCrossedHasEvent
    | DiscrepancyCountMismatch | MatchingCountHasEvent | DiscrepancyContentMismatch | UnexpectedCheckpoint
    | UnexpectedOutbox | ExpectedOutboxMissing | OfficialWithoutOutbox | RowPending | TargetCountMismatch
    | TargetContentMismatch

  /** The key of an outbox row: its source row and the event type it reports. */
  datatype RowKey = RowKey(source: SourceTable, pk: nat, eventType: EventType)

  function KeyOf(r: OutboxView): RowKey { RowKey(r.source, r.pk, r.eventType) }

  // ----- `_rows_by` -----

  function OutboxRows(rows: seq<OutboxView>, key: RowKey): (found: seq<OutboxView>)
    ensures forall r :: r in found <==> r in rows && KeyOf(r) == key
  {
    if rows == [] then []
    else (if KeyOf(rows[0]) == key then [rows[0]] else []) + OutboxRows(rows[1..], key)
  }

  function CheckpointRows(rows: seq<CheckpointView>, key: Movement): (found: seq<CheckpointView>)
    ensures forall r :: r in found <==> r in rows && r.key == key
  {
    if rows == [] then []
    else (if rows[0].key == key then [rows[0]] else []) + CheckpointRows(rows[1..], key)
  }

  function TelemetryRows(rows: seq<TelemetryRow>, id: string): (found: seq<TelemetryRow>)
    ensures forall r :: r in found <==> r in rows && r.id == id && OfficialRow(r)
  {
    if rows == [] then []
    else (if rows[0].id == id && OfficialRow(rows[0]) then [rows[0]] else []) + TelemetryRows(rows[1..], id)
  }

  // ----- diagnostics row by row -----

  function When(failed: bool, d: Diagnostic): set<Diagnostic> { if failed then {d} else {} }

  function EntryKey(e: EntryView): RowKey { RowKey(StockEntryTable, e.id, InboundOrderCreated) }

  function EntryTags(e: EntryView): Tags {
    InboundTags(CanonicalWarehouse(e.warehouse), e.clientId, e.skuId, e.category, e.quantity, e.id)
  }

  function EntryDiagnostics(s: Snapshot, e: EntryView): set<Diagnostic> {
    var rows := OutboxRows(s.outbox, EntryKey(e));
    if |rows| != 1 then {OutboxCountMismatch(InboundOrderCreated)}
    else When(rows[0].tags != EntryTags(e), InboundContentMismatch)
  }

  function OrderKey(o: OrderView): RowKey { RowKey(CommercialOrderTable, o.id, OutboundOrderCreated) }

  function OrderRowTags(o: OrderView): Tags { OrderTags(o.orderId, CanonicalWarehouse(o.warehouse), o.clientId) }

  predicate HasDispatch(s: Snapshot, pk: nat) { exists d :: d in s.dispatches && d.orderPk == pk }

  function OrderDiagnostics(s: Snapshot, o: OrderView): set<Diagnostic> {
    var rows := OutboxRows(s.outbox, OrderKey(o));
    When(!HasDispatch(s, o.id), OrderWithoutDispatch) +
    (if |rows| != 1 then {OutboxCountMismatch(OutboundOrderCreated)}
     else When(rows[0].tags != OrderRowTags(o), OutboundContentMismatch))
  }

  function TableOf(m: Movement): SourceTable { if m.Inbound? then StockEntryTable else StockExitTable }

  function ThresholdKey(m: Movement): RowKey { RowKey(TableOf(m), m.pk, StockThresholdTriggered) }

  predicate Crossed(m: Movement, c: Checkpoint) { m.Outbound? && Crosses(c.threshold, c.before, c.after) }

  function CrossingTags(m: MovementView, after: int, threshold: int): Tags {
    ThresholdTags(CanonicalWarehouse(m.warehouse), m.clientId, m.skuId, m.category, after, threshold, m.key.pk)
  }

  predicate CheckpointAgrees(m: MovementView, c: Checkpoint) {
    && c.skuId == m.skuId && c.clientId == m.clientId && c.warehouse == m.warehouse
    && c.after == (if m.key.Inbound? then c.before + m.quantity else c.before - m.quantity)
    && c.crossed == Crossed(m.key, c)
  }

  function ThresholdDiagnostics(s: Snapshot, m: MovementView, c: Checkpoint): set<Diagnostic> {
    var rows := OutboxRows(s.outbox, ThresholdKey(m.key));
    if Crossed(m.key, c) then
      if |rows| != 1 || c.eventId != Some(rows[0].eventId) then {CrossedEventMismatch}
      else When(rows[0].tags != CrossingTags(m, c.after, c.threshold.value), ThresholdContentMismatch)
    else When(rows != [] || c.eventId.Some?, NotCrossedHasEvent)
  }

  function MovementDiagnostics(s: Snapshot, m: MovementView): set<Diagnostic> {
    var rows := CheckpointRows(s.checkpoints, m.key);
    if |rows| != 1 then {CheckpointCountMismatch} else
    var c := rows[0].data;
    When(!CheckpointAgrees(m, c), CheckpointContentMismatch)
    + When(c.evaluatedAt != m.createdAt, CheckpointTimestampMismatch)
    + ThresholdDiagnostics(s, m, c)
  }

  /** The crossing that makes the audit expect a threshold event. */
  predicate ExpectsThreshold(s: Snapshot, m: MovementView) {
    var rows := CheckpointRows(s.checkpoints, m.key);
    |rows| == 1 && Crossed(m.key, rows[0].data)
  }

  function CountKey(n: CountView): RowKey { RowKey(PhysicalCountTable, n.id, InventoryDiscrepancyDetected) }

  function CountRowTags(n: CountView): Tags {
    DiscrepancyTags(CanonicalWarehouse(n.warehouse), n.clientId, n.skuId, n.category, n.expected, n.observed, n.countId)
  }

  function CountDiagnostics(s: Snapshot, n: CountView): set<Diagnostic> {
    var rows := OutboxRows(s.outbox, CountKey(n));
    if n.expected == n.observed then When(rows != [], MatchingCountHasEvent)
    else if |rows| != 1 then {DiscrepancyCountMismatch}
    else When(rows[0].tags != CountRowTags(n), DiscrepancyContentMismatch)
  }

  function MappedRow(r: OutboxView): TelemetryRow { MapOutboxEvent(r.eventId, r.occurredAt, r.eventType, r.tags) }

  function RowDiagnostics(s: Snapshot, r: OutboxView): set<Diagnostic> {
    var targets := TelemetryRows(s.telemetry, r.eventId);
    When(r.publishedAt.None?, RowPending) +
    (if |targets| != 1 then {TargetCountMismatch} else When(targets[0] != MappedRow(r), TargetContentMismatch))
  }

  // ----- diagnostics of the whole snapshot -----

  /** `{(row["source_table"], row["source_pk"]): row for row in movements}`: the last row of a key wins. */
  function MovementMap(rows: seq<MovementView>): (found: map<Movement, MovementView>)
    ensures forall k :: k in found ==> found[k] in rows && found[k].key == k
    ensures forall m :: m in rows ==> m.key in found
  {
    if rows == [] then map[]
    else
      assert rows == rows[..|rows| - 1] + [rows[|rows| - 1]];
      MovementMap(rows[..|rows| - 1])[rows[|rows| - 1].key := rows[|rows| - 1]]
  }

  function EntryKeys(s: Snapshot): set<RowKey> { set e | e in s.entries :: EntryKey(e) }

  function OrderKeys(s: Snapshot): set<RowKey> { set o | o in s.orders :: OrderKey(o) }

  function CrossingKeys(s: Snapshot): set<RowKey> { set m | m in MovementMap(s.movements).Values && ExpectsThreshold(s, m) :: ThresholdKey(m.key) }

  function CountKeys(s: Snapshot): set<RowKey> { set n | n in s.counts && n.expected != n.observed :: CountKey(n) }

  function ExpectedKeys(s: Snapshot): set<RowKey> { EntryKeys(s) + OrderKeys(s) + CrossingKeys(s) + CountKeys(s) }

  function ActualKeys(s: Snapshot): set<RowKey> { set r | r in s.outbox :: KeyOf(r) }

  predicate DistinctDispatchIds(s: Snapshot) {
    forall i, j :: 0 <= i < j < |s.dispatches| ==> s.dispatches[i].dispatchId != s.dispatches[j].dispatchId
  }

  predicate AllFromOutbox(s: Snapshot) {
    forall r :: r in s.telemetry && OfficialRow(r) ==> exists o :: o in s.outbox && o.eventId == r.id
  }

  predicate StrayCheckpoint(s: Snapshot) { exists c :: c in s.checkpoints && c.key !in MovementMap(s.movements) }

  function GlobalDiagnostics(s: Snapshot): set<Diagnostic> {
    When(!DistinctDispatchIds(s), DispatchIdDuplicate)
    + When(StrayCheckpoint(s), UnexpectedCheckpoint)
    + When(!(ActualKeys(s) <= ExpectedKeys(s)), UnexpectedOutbox)
    + When(!(ExpectedKeys(s) <= ActualKeys(s)), ExpectedOutboxMissing)
    + When(!AllFromOutbox(s), OfficialWithoutOutbox)
  }

  function EntriesFound(s: Snapshot): set<Diagnostic> { set e, d | e in s.entries && d in EntryDiagnostics(s, e) :: d }

  function OrdersFound(s: Snapshot): set<Diagnostic> { set o, d | o in s.orders && d in OrderDiagnostics(s, o) :: d }

  function MovementsFound(s: Snapshot): set<Diagnostic> { set m, d | m in MovementMap(s.movements).Values && d in MovementDiagnostics(s, m) :: d }

  function CountsFound(s: Snapshot): set<Diagnostic> { set n, d | n in s.counts && d in CountDiagnostics(s, n) :: d }

  function RowsFound(s: Snapshot): set<Diagnostic> { set r, d | r in s.outbox && d in RowDiagnostics(s, r) :: d }

  function Diagnose(s: Snapshot): set<Diagnostic> {
    GlobalDiagnostics(s) + EntriesFound(s) + OrdersFound(s) + MovementsFound(s) + CountsFound(s) + RowsFound(s)
  }

  /** What an audit without diagnostics says, row by row. */
  ghost predicate Clean(s: Snapshot) {
    && GlobalDiagnostics(s) == {}
    && (forall e :: e in s.entries ==> EntryDiagnostics(s, e) == {})
    && (forall o :: o in s.orders ==> OrderDiagnostics(s, o) == {})
    && (forall m :: m in MovementMap(s.movements).Values ==> MovementDiagnostics(s, m) == {})
    && (forall n :: n in s.counts ==> CountDiagnostics(s, n) == {})
    && (forall r :: r in s.outbox ==> RowDiagnostics(s, r) == {})
  }

  lemma CleanIsNoDiagnostics(s: Snapshot)
    ensures Diagnose(s) == {} <==> Clean(s)
  {
    hide EntryDiagnostics, OrderDiagnostics, MovementDiagnostics, CountDiagnostics, RowDiagnostics, GlobalDiagnostics,
      MovementMap;
    if Diagnose(s) == {} {
      assert forall d :: d !in Diagnose(s);
      assert GlobalDiagnostics(s) == {};
      forall e | e in s.entries ensures EntryDiagnostics(s, e) == {} {
        assert forall d :: d in EntryDiagnostics(s, e) ==> d in Diagnose(s);
      }
      forall o | o in s.orders ensures OrderDiagnostics(s, o) == {} {
        assert forall d :: d in OrderDiagnostics(s, o) ==> d in Diagnose(s);
      }
      forall m | m in MovementMap(s.movements).Values ensures MovementDiagnostics(s, m) == {} {
        assert forall d :: d in MovementDiagnostics(s, m) ==> d in Diagnose(s);
      }
      forall n | n in s.counts ensures CountDiagnostics(s, n) == {} {
        assert forall d :: d in CountDiagnostics(s, n) ==> d in Diagnose(s);
      }
      forall r | r in s.outbox ensures RowDiagnostics(s, r) == {} {
        assert forall d :: d in RowDiagnostics(s, r) ==> d in Diagnose(s);
      }
    }
  }

  // ----- the audit as a program -----

  /** `(str(id), timestamp, service, event_type, tags)` */
  datatype CanonicalEvent = CanonicalEvent(id: string, time: int, service: string, eventType: EventType, tags: TagColumn)

  function CanonicalOf(r: TelemetryRow): CanonicalEvent {
    CanonicalEvent(r.id, r.time, r.service, r.eventType, r.tags)
  }

  function CanonicalEvents(rows: seq<TelemetryRow>): multiset<CanonicalEvent> {
    Bag(rows, CanonicalOf)
  }

  function OfficialRows(rows: seq<TelemetryRow>): (found: seq<TelemetryRow>)
    ensures forall r :: r in found <==> r in rows && OfficialRow(r)
  {
    if rows == [] then [] else (if OfficialRow(rows[0]) then [rows[0]] else []) + OfficialRows(rows[1..])
  }

  /** `(str(dispatch_id), str(order_id))`, once for each dispatch row and each order row it belongs to. */
  type Pairs = seq<(Option<string>, string)>

  datatype Audit = Audit(diagnostics: set<Diagnostic>, dispatchPairs: Pairs, audited: multiset<CanonicalEvent>)

  function PairsOf(dispatches: seq<DispatchView>, o: OrderView): Pairs {
    if dispatches == [] then []
    else
      (if dispatches[0].orderPk == o.id then [(dispatches[0].dispatchId, o.orderId)] else []) + PairsOf(dispatches[1..], o)
  }

  function DispatchPairs(orders: seq<OrderView>, dispatches: seq<DispatchView>): Pairs {
    if orders == [] then []
    else DispatchPairs(orders[..|orders| - 1], dispatches) + PairsOf(dispatches, orders[|orders| - 1])
  }

  function AuditOf(s: Snapshot): Audit {
    Audit(Diagnose(s), DispatchPairs(s.orders, s.dispatches), if Diagnose(s) == {} then CanonicalEvents(OfficialRows(s.telemetry)) else multiset{})
  }

  method AuditEntries(s: Snapshot) returns (diagnostics: set<Diagnostic>, expected: set<RowKey>)
    ensures diagnostics == EntriesFound(s)
    ensures expected == EntryKeys(s)
  {
    hide EntryDiagnostics, EntryKey;
    diagnostics, expected := {}, {};
    for i := 0 to |s.entries|
      invariant diagnostics == set e, d | e in s.entries[..i] && d in EntryDiagnostics(s, e) :: d
      invariant expected == set e | e in s.entries[..i] :: EntryKey(e)
    {
      var e := s.entries[i];
      assert s.entries[..i + 1] == s.entries[..i] + [e];
      expected := expected + {EntryKey(e)};
      diagnostics := diagnostics + EntryDiagnostics(s, e);
    }
    assert s.entries[..|s.entries|] == s.entries;
  }

  method AuditOrders(s: Snapshot)
    returns (diagnostics: set<Diagnostic>, expected: set<RowKey>, pairs: Pairs)
    ensures diagnostics == OrdersFound(s)
    ensures expected == OrderKeys(s)
    ensures pairs == DispatchPairs(s.orders, s.dispatches)
  {
    hide OrderDiagnostics, OrderKey, PairsOf;
    diagnostics, expected, pairs := {}, {}, [];
    for i := 0 to |s.orders|
      invariant diagnostics == set o, d | o in s.orders[..i] && d in OrderDiagnostics(s, o) :: d
      invariant expected == set o | o in s.orders[..i] :: OrderKey(o)
      invariant pairs == DispatchPairs(s.orders[..i], s.dispatches)
    {
      var o := s.orders[i];
      assert s.orders[..i + 1] == s.orders[..i] + [o];
      assert s.orders[..i + 1][..i] == s.orders[..i];
      expected := expected + {OrderKey(o)};
      pairs := pairs + PairsOf(s.dispatches, o);
      diagnostics := diagnostics + OrderDiagnostics(s, o);
    }
    assert s.orders[..|s.orders|] == s.orders;
  }

  method AuditMovements(s: Snapshot) returns (diagnostics: set<Diagnostic>, expected: set<RowKey>)
    ensures diagnostics == MovementsFound(s)
    ensures expected == CrossingKeys(s)
  {
    hide MovementDiagnostics, ExpectsThreshold, ThresholdKey, MovementMap;
    diagnostics, expected := {}, {};
    var all := MovementMap(s.movements).Values;
    var todo := all;
    while todo != {}
      invariant todo <= all
      invariant diagnostics == set m, d | m in all - todo && d in MovementDiagnostics(s, m) :: d
      invariant expected == set m | m in all - todo && ExpectsThreshold(s, m) :: ThresholdKey(m.key)
      decreases |todo|
    {
      var m :| m in todo;
      assert all - (todo - {m}) == all - todo + {m};
      if ExpectsThreshold(s, m) { expected := expected + {ThresholdKey(m.key)}; }
      diagnostics := diagnostics + MovementDiagnostics(s, m);
      todo := todo - {m};
    }
    assert all - todo == all;
  }

  method AuditCounts(s: Snapshot) returns (diagnostics: set<Diagnostic>, expected: set<RowKey>)
    ensures diagnostics == CountsFound(s)
    ensures expected == CountKeys(s)
  {
    hide CountDiagnostics, CountKey;
    diagnostics, expected := {}, {};
    for i := 0 to |s.counts|
      invariant diagnostics == set n, d | n in s.counts[..i] && d in CountDiagnostics(s, n) :: d
      invariant expected == set n | n in s.counts[..i] && n.expected != n.observed :: CountKey(n)
    {
      var n := s.counts[i];
      assert s.counts[..i + 1] == s.counts[..i] + [n];
      if n.expected != n.observed { expected := expected + {CountKey(n)}; }
      diagnostics := diagnostics + CountDiagnostics(s, n);
    }
    assert s.counts[..|s.counts|] == s.counts;
  }

  method AuditRows(s: Snapshot) returns (diagnostics: set<Diagnostic>)
    ensures diagnostics == RowsFound(s)
  {
    hide RowDiagnostics;
    diagnostics := {};
    for i := 0 to |s.outbox|
      invariant diagnostics == set r, d | r in s.outbox[..i] && d in RowDiagnostics(s, r) :: d
    {
      var r := s.outbox[i];
      assert s.outbox[..i + 1] == s.outbox[..i] + [r];
      diagnostics := diagnostics + RowDiagnostics(s, r);
    }
    assert s.outbox[..|s.outbox|] == s.outbox;
  }

  /** `audit_operational_snapshot` */
  method AuditOperationalSnapshot(s: Snapshot) returns (audit: Audit)
    ensures audit == AuditOf(s)
    ensures audit.diagnostics == {} <==> Clean(s)
  {
    hide EntriesFound, OrdersFound, MovementsFound, CountsFound, RowsFound, EntryKeys, OrderKeys, CrossingKeys,
      CountKeys, ActualKeys, DistinctDispatchIds, StrayCheckpoint, AllFromOutbox, Clean, CanonicalEvents,
      OfficialRows, DispatchPairs, When;
    var ofEntries, entryKeys := AuditEntries(s);
    var ofOrders, orderKeys, pairs := AuditOrders(s);
    var ofMovements, crossingKeys := AuditMovements(s);
    var ofCounts, countKeys := AuditCounts(s);
    var ofRows := AuditRows(s);
    var expected, actual := entryKeys + orderKeys + crossingKeys + countKeys, ActualKeys(s);
    var diagnostics := When(!DistinctDispatchIds(s), DispatchIdDuplicate);
    diagnostics := diagnostics + When(StrayCheckpoint(s), UnexpectedCheckpoint);
    diagnostics := diagnostics + When(!(actual <= expected), UnexpectedOutbox);
    diagnostics := diagnostics + When(!(expected <= actual), ExpectedOutboxMissing);
    diagnostics := diagnostics + When(!AllFromOutbox(s), OfficialWithoutOutbox);
    diagnostics := diagnostics + ofEntries + ofOrders + ofMovements + ofCounts + ofRows;
    CleanIsNoDiagnostics(s);
    audit := Audit(diagnostics, pairs,
      if diagnostics == {} then CanonicalEvents(OfficialRows(s.telemetry)) else multiset{});
  }
}
