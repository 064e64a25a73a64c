/** What each diagnostic of the operational audit says about the snapshot, column by column. */
module CoverageMeaning {
  import opened Basics
  import opened Identifiers
  import opened Vocabulary
  import opened InventoryTables
  import opened OperationalCoverage

  // ----- rows of a snapshot -----

  predicate RowAt(s: Snapshot, i: nat, source: SourceTable, pk: nat, t: EventType) {
    i < |s.outbox| && s.outbox[i].source == source && s.outbox[i].pk == pk && s.outbox[i].eventType == t
  }

  /** Row `i` is the one outbox row of this source row and event type. */
  ghost predicate OneRow(s: Snapshot, i: nat, source: SourceTable, pk: nat, t: EventType) {
    RowAt(s, i, source, pk, t) && forall j: nat :: RowAt(s, j, source, pk, t) ==> j == i
  }

  ghost predicate HasOneRow(s: Snapshot, source: SourceTable, pk: nat, t: EventType) {
    exists i: nat :: OneRow(s, i, source, pk, t)
  }

  ghost predicate HasRow(s: Snapshot, source: SourceTable, pk: nat, t: EventType) { exists i: nat :: RowAt(s, i, source, pk, t) }

  /** Row `i` is the one checkpoint of this movement. */
  ghost predicate OneCheckpoint(s: Snapshot, i: nat, m: Movement) {
    i < |s.checkpoints| && s.checkpoints[i].key == m && forall j :: 0 <= j < |s.checkpoints| && s.checkpoints[j].key == m ==> j == i
  }

  /** Row `i` is the one official telemetry row with this id. */
  ghost predicate OneTarget(s: Snapshot, i: nat, id: string) {
    && i < |s.telemetry| && IsTarget(s.telemetry[i], id)
    && forall j :: 0 <= j < |s.telemetry| && IsTarget(s.telemetry[j], id) ==> j == i
  }

  predicate IsTarget(r: TelemetryRow, id: string) { r.id == id && r.service == "api" && !r.eventType.OtherEvent? }

  /** Row `n` is the last movement of its key, which is the one that is audited. */
  predicate LastMovement(s: Snapshot, n: nat) {
    n < |s.movements| && forall k :: n < k < |s.movements| ==> s.movements[k].key != s.movements[n].key
  }

  /** The tag of a warehouse: the name of the site, whichever of its texts the row has. */
  function SiteTag(w: string): Json {
    if w == "LA" || w == "Los Angeles" || w == "los_angeles" then JStr("los_angeles")
    else if w == "ZGZ" || w == "Zaragoza" || w == "zaragoza" then JStr("zaragoza")
    else JNull
  }

  function TextTag(text: Option<string>): Json { if text.Some? then JStr(text.value) else JNull }

  lemma SiteTagExact(w: string)
    ensures SiteTag(w) == JsonOf(CanonicalWarehouse(w))
  {
  }

  // ----- looking rows up -----

  lemma {:induction false} OutboxSelected(rows: seq<OutboxView>, key: RowKey)
    ensures OutboxRows(rows, key) == Select(rows, (r: OutboxView) => KeyOf(r) == key)
  {
    if rows != [] { OutboxSelected(rows[1..], key); }
  }

  lemma {:induction false} CheckpointsSelected(rows: seq<CheckpointView>, key: Movement)
    ensures CheckpointRows(rows, key) == Select(rows, (r: CheckpointView) => r.key == key)
  {
    if rows != [] { CheckpointsSelected(rows[1..], key); }
  }

  lemma {:induction false} TargetsSelected(rows: seq<TelemetryRow>, id: string)
    ensures TelemetryRows(rows, id) == Select(rows, (r: TelemetryRow) => IsTarget(r, id))
  {
    if rows != [] { TargetsSelected(rows[1..], id); }
  }

  /** The lookup of an outbox row finds one row exactly when there is one, and then that row. */
  lemma OutboxFound(s: Snapshot, source: SourceTable, pk: nat, t: EventType)
    ensures var found := OutboxRows(s.outbox, RowKey(source, pk, t));
      && (found == [] <==> !HasRow(s, source, pk, t)) && (|found| == 1 <==> HasOneRow(s, source, pk, t))
      && (forall i: nat :: OneRow(s, i, source, pk, t) ==> found == [s.outbox[i]])
  {
    var key := RowKey(source, pk, t);
    var p := (r: OutboxView) => KeyOf(r) == key;
    assert forall i: nat :: RowAt(s, i, source, pk, t) <==> i < |s.outbox| && p(s.outbox[i]);
    OutboxSelected(s.outbox, key);
    SelectNone(s.outbox, p);
    if |Select(s.outbox, p)| == 1 {
      var i := OnlySelected(s.outbox, p);
      assert OneRow(s, i, source, pk, t);
    }
    forall i: nat | OneRow(s, i, source, pk, t) ensures Select(s.outbox, p) == [s.outbox[i]] { SelectOnly(s.outbox, p, i); }
  }

  lemma CheckpointFound(s: Snapshot, m: Movement)
    ensures var found := CheckpointRows(s.checkpoints, m);
      && (|found| == 1 <==> exists i: nat :: OneCheckpoint(s, i, m))
      && (forall i: nat :: OneCheckpoint(s, i, m) ==> found == [s.checkpoints[i]])
  {
    var p := (r: CheckpointView) => r.key == m;
    CheckpointsSelected(s.checkpoints, m);
    if |Select(s.checkpoints, p)| == 1 {
      var i := OnlySelected(s.checkpoints, p);
      assert OneCheckpoint(s, i, m);
    }
    forall i: nat | OneCheckpoint(s, i, m) ensures Select(s.checkpoints, p) == [s.checkpoints[i]] { SelectOnly(s.checkpoints, p, i); }
  }

  lemma TargetFound(s: Snapshot, id: string)
    ensures var found := TelemetryRows(s.telemetry, id);
      && (|found| == 1 <==> exists i: nat :: OneTarget(s, i, id))
      && (forall i: nat :: OneTarget(s, i, id) ==> found == [s.telemetry[i]])
  {
    var p := (r: TelemetryRow) => IsTarget(r, id);
    TargetsSelected(s.telemetry, id);
    if |Select(s.telemetry, p)| == 1 {
      var i := OnlySelected(s.telemetry, p);
      assert OneTarget(s, i, id);
    }
    forall i: nat | OneTarget(s, i, id) ensures Select(s.telemetry, p) == [s.telemetry[i]] { SelectOnly(s.telemetry, p, i); }
  }

  lemma MovementMapNext(rows: seq<MovementView>)
    ensures rows == [] ==> MovementMap(rows) == map[]
    ensures rows != [] ==> MovementMap(rows) == MovementMap(rows[..|rows| - 1])[rows[|rows| - 1].key := rows[|rows| - 1]]
  {
  }

  lemma {:induction false} MovementsMapped(rows: seq<MovementView>, n: nat)
    requires n < |rows| && forall k :: n < k < |rows| ==> rows[k].key != rows[n].key
    ensures rows[n].key in MovementMap(rows) && MovementMap(rows)[rows[n].key] == rows[n]
  {
    var last := |rows| - 1;
    MovementMapNext(rows);
    hide MovementMap;
    if n < last {
      assert rows[last].key != rows[n].key;
      MovementsMapped(rows[..last], n);
    }
  }

  lemma {:induction false} MappedLast(rows: seq<MovementView>, key: Movement) returns (n: nat)
    requires key in MovementMap(rows)
    ensures n < |rows| && rows[n] == MovementMap(rows)[key] && forall k :: n < k < |rows| ==> rows[k].key != key
  {
    MovementMapNext(rows);
    hide MovementMap;
    var last := |rows| - 1;
    if rows[last].key == key {
      n := last;
    } else {
      n := MappedLast(rows[..last], key);
      assert rows[n] == rows[..last][n];
      forall k | n < k < |rows| ensures rows[k].key != key {
        if k < last { assert rows[..last][k] == rows[k]; }
      }
    }
  }

  /** The audited movements are the last ones of their keys. */
  lemma MovementsExact(s: Snapshot, m: MovementView)
    ensures m in MovementMap(s.movements).Values <==> exists n: nat :: LastMovement(s, n) && s.movements[n] == m
  {
    hide MovementMap;
    if m in MovementMap(s.movements).Values {
      var n := MappedLast(s.movements, m.key);
      assert LastMovement(s, n);
    }
    if n: nat :| LastMovement(s, n) && s.movements[n] == m { MovementsMapped(s.movements, n); }
  }

  // ----- expected events -----

  /** The movement is an exit whose checkpoint crosses the threshold. */
  predicate CrossesAt(m: MovementView, c: Checkpoint) {
    m.key.Outbound? && c.threshold.Some? && c.before > c.threshold.value >= c.after
  }

  predicate EntryTagged(e: EntryView, tags: Tags) {
    tags == map[Warehouse := SiteTag(e.warehouse), ClientId := TextTag(e.clientId), ProductId := JStr(IntText(e.skuId)),
      ProductCategory := JStr(e.category), Quantity := JInt(e.quantity), MovementId := JStr(IntText(e.id))]
  }

  predicate OrderTagged(o: OrderView, tags: Tags) {
    tags == map[OrderId := JStr(o.orderId), Warehouse := SiteTag(o.warehouse), ClientId := JStr(o.clientId)]
  }

  predicate CrossingTagged(m: MovementView, c: Checkpoint, tags: Tags) {
    c.threshold.Some? &&
    tags == map[Warehouse := SiteTag(m.warehouse), ClientId := TextTag(m.clientId), ProductId := JStr(IntText(m.skuId)),
      ProductCategory := JStr(m.category), Quantity := JInt(c.after), ThresholdQuantity := JInt(c.threshold.value),
      MovementId := JStr(IntText(m.key.pk))]
  }

  predicate CountTagged(n: CountView, tags: Tags) {
    var delta := n.observed - n.expected;
    tags == map[Warehouse := SiteTag(n.warehouse), ClientId := JStr(n.clientId), ProductId := JStr(IntText(n.skuId)),
      ProductCategory := JStr(n.category), Quantity := JInt(if delta < 0 then -delta else delta),
      SystemQuantity := JInt(n.expected), CountedQuantity := JInt(n.observed), DiscrepancyDelta := JInt(delta),
      DiscrepancyType := JStr(if delta > 0 then "surplus" else "shortage"), CountId := JStr(n.countId)]
  }

  /** Some row of the snapshot asks for an event of this key. */
  ghost predicate Expected(s: Snapshot, source: SourceTable, pk: nat, t: EventType) {
    || (source.StockEntryTable? && t.InboundOrderCreated? && exists e :: e in s.entries && e.id == pk)
    || (source.CommercialOrderTable? && t.OutboundOrderCreated? && exists o :: o in s.orders && o.id == pk)
    || (source.PhysicalCountTable? && t.InventoryDiscrepancyDetected?
        && exists n :: n in s.counts && n.id == pk && n.expected != n.observed)
    || (source.StockExitTable? && t.StockThresholdTriggered?
        && (exists n: nat, i: nat :: LastMovement(s, n) && s.movements[n].key == Outbound(pk)
              && OneCheckpoint(s, i, Outbound(pk)) && CrossesAt(s.movements[n], s.checkpoints[i].data)))
  }

  // ----- what each diagnostic says -----

  ghost predicate EntryWrong(s: Snapshot, e: EntryView, d: Diagnostic) {
    match d
    case OutboxCountMismatch(t) => t.InboundOrderCreated? && !HasOneRow(s, StockEntryTable, e.id, InboundOrderCreated)
    case InboundContentMismatch =>
      exists i: nat :: OneRow(s, i, StockEntryTable, e.id, InboundOrderCreated) && !EntryTagged(e, s.outbox[i].tags)
    case _ => false
  }

  ghost predicate OrderWrong(s: Snapshot, o: OrderView, d: Diagnostic) {
    match d
    case OutboxCountMismatch(t) => t.OutboundOrderCreated? && !HasOneRow(s, CommercialOrderTable, o.id, OutboundOrderCreated)
    case OutboundContentMismatch =>
      exists i: nat :: OneRow(s, i, CommercialOrderTable, o.id, OutboundOrderCreated) && !OrderTagged(o, s.outbox[i].tags)
    case OrderWithoutDispatch => forall x :: x in s.dispatches ==> x.orderPk != o.id
    case _ => false
  }

  /** A movement with its one checkpoint. */
  ghost predicate MovementWrong(s: Snapshot, m: MovementView, c: Checkpoint, d: Diagnostic) {
    var source := if m.key.Inbound? then StockEntryTable else StockExitTable;
    match d
    case CheckpointContentMismatch =>
      || c.skuId != m.skuId || c.clientId != m.clientId || c.warehouse != m.warehouse
      || c.after - c.before != (if m.key.Inbound? then m.quantity else -m.quantity)
      || c.crossed != CrossesAt(m, c)
    case CheckpointTimestampMismatch => c.evaluatedAt != m.createdAt
    case CrossedEventMismatch =>
      CrossesAt(m, c)
      && !(exists i: nat :: OneRow(s, i, source, m.key.pk, StockThresholdTriggered) && c.eventId == Some(s.outbox[i].eventId))
    case ThresholdContentMismatch =>
      CrossesAt(m, c)
      && (exists i: nat :: OneRow(s, i, source, m.key.pk, StockThresholdTriggered)
            && c.eventId == Some(s.outbox[i].eventId) && !CrossingTagged(m, c, s.outbox[i].tags))
    case NotCrossedHasEvent =>
      !CrossesAt(m, c) && (c.eventId != None || HasRow(s, source, m.key.pk, StockThresholdTriggered))
    case _ => false
  }

  ghost predicate CountWrong(s: Snapshot, n: CountView, d: Diagnostic) {
    match d
    case MatchingCountHasEvent =>
      n.expected == n.observed && HasRow(s, PhysicalCountTable, n.id, InventoryDiscrepancyDetected)
    case DiscrepancyCountMismatch =>
      n.expected != n.observed && !HasOneRow(s, PhysicalCountTable, n.id, InventoryDiscrepancyDetected)
    case DiscrepancyContentMismatch =>
      n.expected != n.observed
      && exists i: nat :: OneRow(s, i, PhysicalCountTable, n.id, InventoryDiscrepancyDetected) && !CountTagged(n, s.outbox[i].tags)
    case _ => false
  }

  ghost predicate DeliveryWrong(s: Snapshot, r: OutboxView, d: Diagnostic) {
    match d
    case RowPending => r.publishedAt == None
    case TargetCountMismatch => !exists i: nat :: OneTarget(s, i, r.eventId)
    case TargetContentMismatch =>
      (exists i: nat :: OneTarget(s, i, r.eventId)
         && s.telemetry[i] != TelemetryRow(r.eventId, r.occurredAt, "api", r.eventType, Some("info"), None, None,
              TagObject(FilterTags(r.eventType, r.tags))))
    case _ => false
  }

  ghost predicate GlobalWrong(s: Snapshot, d: Diagnostic) {
    match d
    case DispatchIdDuplicate =>
      exists i, j :: 0 <= i < j < |s.dispatches| && s.dispatches[i].dispatchId == s.dispatches[j].dispatchId
    case UnexpectedCheckpoint => exists c :: c in s.checkpoints && forall m :: m in s.movements ==> m.key != c.key
    case UnexpectedOutbox => exists r :: r in s.outbox && !Expected(s, r.source, r.pk, r.eventType)
    case ExpectedOutboxMissing =>
      exists source, pk, t :: Expected(s, source, pk, t) && !HasRow(s, source, pk, t)
    case OfficialWithoutOutbox =>
      exists r :: r in s.telemetry && IsTarget(r, r.id) && forall o :: o in s.outbox ==> o.eventId != r.id
    case CheckpointCountMismatch => exists n: nat :: LastMovement(s, n) && !exists i: nat :: OneCheckpoint(s, i, s.movements[n].key)
    case _ => false
  }

  /** The diagnostic holds of some row, or of the snapshot as a whole. */
  ghost predicate Holds(s: Snapshot, d: Diagnostic) {
    || GlobalWrong(s, d)
    || (exists e :: e in s.entries && EntryWrong(s, e, d))
    || (exists o :: o in s.orders && OrderWrong(s, o, d))
    || (exists n: nat, i: nat :: LastMovement(s, n) && OneCheckpoint(s, i, s.movements[n].key)
          && MovementWrong(s, s.movements[n], s.checkpoints[i].data, d))
    || (exists n :: n in s.counts && CountWrong(s, n, d))
    || (exists r :: r in s.outbox && DeliveryWrong(s, r, d))
  }

  lemma EntryExact(s: Snapshot, e: EntryView, d: Diagnostic)
    ensures d in EntryDiagnostics(s, e) <==> EntryWrong(s, e, d)
  {
    hide OutboxRows, OneRow, HasRow, CanonicalWarehouse, SiteTag, IntText;
    OutboxFound(s, StockEntryTable, e.id, InboundOrderCreated);
    SiteTagExact(e.warehouse);
    if i: nat :| OneRow(s, i, StockEntryTable, e.id, InboundOrderCreated) {}
  }

  lemma OrderExact(s: Snapshot, o: OrderView, d: Diagnostic)
    ensures d in OrderDiagnostics(s, o) <==> OrderWrong(s, o, d)
  {
    hide OutboxRows, OneRow, HasRow, CanonicalWarehouse, SiteTag, IntText;
    OutboxFound(s, CommercialOrderTable, o.id, OutboundOrderCreated);
    SiteTagExact(o.warehouse);
    if i: nat :| OneRow(s, i, CommercialOrderTable, o.id, OutboundOrderCreated) {}
  }

  lemma CountExact(s: Snapshot, n: CountView, d: Diagnostic)
    ensures d in CountDiagnostics(s, n) <==> CountWrong(s, n, d)
  {
    hide OutboxRows, OneRow, HasRow, CanonicalWarehouse, SiteTag, IntText;
    OutboxFound(s, PhysicalCountTable, n.id, InventoryDiscrepancyDetected);
    SiteTagExact(n.warehouse);
    if i: nat :| OneRow(s, i, PhysicalCountTable, n.id, InventoryDiscrepancyDetected) {}
  }

  lemma DeliveryExact(s: Snapshot, r: OutboxView, d: Diagnostic)
    ensures d in RowDiagnostics(s, r) <==> DeliveryWrong(s, r, d)
  {
    hide TelemetryRows, OneTarget, FilterTags;
    TargetFound(s, r.eventId);
    if i: nat :| OneTarget(s, i, r.eventId) {}
  }

  lemma CheckedMovement(s: Snapshot, m: MovementView, i: nat, d: Diagnostic)
    requires OneCheckpoint(s, i, m.key)
    ensures d in MovementDiagnostics(s, m) <==> MovementWrong(s, m, s.checkpoints[i].data, d)
  {
    hide OutboxRows, OneRow, HasRow, CanonicalWarehouse, SiteTag, IntText, CheckpointRows;
    CheckpointFound(s, m.key);
    var source := if m.key.Inbound? then StockEntryTable else StockExitTable;
    OutboxFound(s, source, m.key.pk, StockThresholdTriggered);
    SiteTagExact(m.warehouse);
    if j: nat :| OneRow(s, j, source, m.key.pk, StockThresholdTriggered) {}
  }

  lemma MovementExact(s: Snapshot, m: MovementView, d: Diagnostic)
    ensures d in MovementDiagnostics(s, m) <==>
      || (d.CheckpointCountMismatch? && !(exists i: nat :: OneCheckpoint(s, i, m.key)))
      || (exists i: nat :: OneCheckpoint(s, i, m.key) && MovementWrong(s, m, s.checkpoints[i].data, d))
  {
    hide MovementWrong, CheckpointRows, ThresholdDiagnostics, CheckpointAgrees;
    CheckpointFound(s, m.key);
    if i: nat :| OneCheckpoint(s, i, m.key) {
      CheckedMovement(s, m, i, d);
      assert forall j: nat :: OneCheckpoint(s, j, m.key) ==> j == i;
    } else {
      assert MovementDiagnostics(s, m) == {CheckpointCountMismatch};
    }
  }

  // ----- expected and actual events -----

  lemma ThresholdExpected(s: Snapshot, m: MovementView)
    ensures ExpectsThreshold(s, m) <==>
      exists i: nat :: OneCheckpoint(s, i, m.key) && CrossesAt(m, s.checkpoints[i].data)
  {
    hide CheckpointRows, OneCheckpoint;
    CheckpointFound(s, m.key);
    if i: nat :| OneCheckpoint(s, i, m.key) {}
  }

  lemma ExpectedExact(s: Snapshot, source: SourceTable, pk: nat, t: EventType)
    ensures RowKey(source, pk, t) in ExpectedKeys(s) <==> Expected(s, source, pk, t)
  {
    hide ExpectsThreshold, MovementMap, CrossesAt;
    var key := RowKey(source, pk, t);
    if key in CrossingKeys(s) {
      var m :| m in MovementMap(s.movements).Values && ExpectsThreshold(s, m) && ThresholdKey(m.key) == key;
      CrossingExpected(s, m);
    }
    if source.StockExitTable? && t.StockThresholdTriggered? && Expected(s, source, pk, t) {
      var n: nat, i: nat :| LastMovement(s, n) && s.movements[n].key == Outbound(pk)
        && OneCheckpoint(s, i, Outbound(pk)) && CrossesAt(s.movements[n], s.checkpoints[i].data);
      MovementsExact(s, s.movements[n]);
      ThresholdExpected(s, s.movements[n]);
      assert ThresholdKey(s.movements[n].key) == key;
    }
  }

  lemma CrossingExpected(s: Snapshot, m: MovementView)
    requires m in MovementMap(s.movements).Values && ExpectsThreshold(s, m)
    ensures m.key.Outbound? && Expected(s, StockExitTable, m.key.pk, StockThresholdTriggered)
  {
    hide ExpectsThreshold, MovementMap;
    MovementsExact(s, m);
    ThresholdExpected(s, m);
    var n: nat :| LastMovement(s, n) && s.movements[n] == m;
    var i: nat :| OneCheckpoint(s, i, m.key) && CrossesAt(m, s.checkpoints[i].data);
  }

  lemma ActualExact(s: Snapshot, source: SourceTable, pk: nat, t: EventType)
    ensures RowKey(source, pk, t) in ActualKeys(s) <==> HasRow(s, source, pk, t)
  {
    if i: nat :| RowAt(s, i, source, pk, t) { assert s.outbox[i] in s.outbox && KeyOf(s.outbox[i]) == RowKey(source, pk, t); }
    if RowKey(source, pk, t) in ActualKeys(s) {
      var r :| r in s.outbox && KeyOf(r) == RowKey(source, pk, t);
      var i :| 0 <= i < |s.outbox| && s.outbox[i] == r;
      assert RowAt(s, i, source, pk, t);
    }
  }

  lemma KeysExact(s: Snapshot)
    ensures ActualKeys(s) <= ExpectedKeys(s) <==> !GlobalWrong(s, UnexpectedOutbox)
    ensures ExpectedKeys(s) <= ActualKeys(s) <==> !GlobalWrong(s, ExpectedOutboxMissing)
  {
    hide ExpectedKeys, Expected, HasRow;
    forall source, pk: nat, t
      ensures RowKey(source, pk, t) in ExpectedKeys(s) <==> Expected(s, source, pk, t)
      ensures RowKey(source, pk, t) in ActualKeys(s) <==> HasRow(s, source, pk, t)
    {
      ExpectedExact(s, source, pk, t);
      ActualExact(s, source, pk, t);
    }
    forall r | r in s.outbox ensures KeyOf(r) in ActualKeys(s) {}
    if ActualKeys(s) <= ExpectedKeys(s) {
      forall r | r in s.outbox ensures Expected(s, r.source, r.pk, r.eventType) { assert KeyOf(r) in ExpectedKeys(s); }
    } else {
      var k :| k in ActualKeys(s) && k !in ExpectedKeys(s);
      var r :| r in s.outbox && KeyOf(r) == k;
      assert !Expected(s, r.source, r.pk, r.eventType);
    }
    hide ActualKeys;
    if !(ExpectedKeys(s) <= ActualKeys(s)) {
      var k :| k in ExpectedKeys(s) && k !in ActualKeys(s);
      assert k == RowKey(k.source, k.pk, k.eventType);
      assert Expected(s, k.source, k.pk, k.eventType) && !HasRow(s, k.source, k.pk, k.eventType);
    }
  }

  lemma StrayExact(s: Snapshot)
    ensures StrayCheckpoint(s) <==> GlobalWrong(s, UnexpectedCheckpoint)
  {
    hide MovementMap;
    forall c | c in s.checkpoints ensures c.key in MovementMap(s.movements) <==> exists m :: m in s.movements && m.key == c.key {
      if c.key in MovementMap(s.movements) {
        assert MovementMap(s.movements)[c.key] in s.movements;
      }
    }
  }

  lemma GlobalMembers(s: Snapshot, d: Diagnostic)
    ensures d in GlobalDiagnostics(s) <==>
      match d
      case DispatchIdDuplicate => !DistinctDispatchIds(s)
      case UnexpectedCheckpoint => StrayCheckpoint(s)
      case UnexpectedOutbox => !(ActualKeys(s) <= ExpectedKeys(s))
      case ExpectedOutboxMissing => !(ExpectedKeys(s) <= ActualKeys(s))
      case OfficialWithoutOutbox => !AllFromOutbox(s)
      case _ => false
  {
    hide ExpectedKeys, ActualKeys, StrayCheckpoint, AllFromOutbox, DistinctDispatchIds;
  }

  lemma UnsourcedExact(s: Snapshot)
    ensures AllFromOutbox(s) <==> !GlobalWrong(s, OfficialWithoutOutbox)
    ensures DistinctDispatchIds(s) <==> !GlobalWrong(s, DispatchIdDuplicate)
  {
  }

  lemma GlobalsExact(s: Snapshot, d: Diagnostic)
    ensures d in GlobalDiagnostics(s) <==> GlobalWrong(s, d) && !d.CheckpointCountMismatch?
  {
    KeysExact(s);
    StrayExact(s);
    UnsourcedExact(s);
    GlobalMembers(s, d);
    hide GlobalDiagnostics, ExpectedKeys, ActualKeys, StrayCheckpoint, AllFromOutbox, DistinctDispatchIds, Expected, HasRow,
      OneCheckpoint, IsTarget;
    match d
    case DispatchIdDuplicate =>
    case UnexpectedCheckpoint =>
    case UnexpectedOutbox =>
    case ExpectedOutboxMissing =>
    case OfficialWithoutOutbox =>
    case _ =>
  }

  // ----- the theorem -----

  lemma FoundExact(s: Snapshot, d: Diagnostic)
    ensures d in EntriesFound(s) <==> exists e :: e in s.entries && EntryWrong(s, e, d)
    ensures d in OrdersFound(s) <==> exists o :: o in s.orders && OrderWrong(s, o, d)
    ensures d in CountsFound(s) <==> exists n :: n in s.counts && CountWrong(s, n, d)
    ensures d in RowsFound(s) <==> exists r :: r in s.outbox && DeliveryWrong(s, r, d)
  {
    hide EntryDiagnostics, EntryWrong, OrderDiagnostics, OrderWrong, CountDiagnostics, CountWrong, RowDiagnostics, DeliveryWrong;
    forall e ensures d in EntryDiagnostics(s, e) <==> EntryWrong(s, e, d) { EntryExact(s, e, d); }
    forall o ensures d in OrderDiagnostics(s, o) <==> OrderWrong(s, o, d) { OrderExact(s, o, d); }
    forall n ensures d in CountDiagnostics(s, n) <==> CountWrong(s, n, d) { CountExact(s, n, d); }
    forall r ensures d in RowDiagnostics(s, r) <==> DeliveryWrong(s, r, d) { DeliveryExact(s, r, d); }
  }

  ghost predicate MovementHolds(s: Snapshot, d: Diagnostic) {
    || (d.CheckpointCountMismatch? && exists n: nat :: LastMovement(s, n) && !exists i: nat :: OneCheckpoint(s, i, s.movements[n].key))
    || (exists n: nat, i: nat :: LastMovement(s, n) && OneCheckpoint(s, i, s.movements[n].key)
          && MovementWrong(s, s.movements[n], s.checkpoints[i].data, d))
  }

  lemma MovementsFoundExact(s: Snapshot, d: Diagnostic)
    ensures d in MovementsFound(s) <==> MovementHolds(s, d)
  {
    hide MovementDiagnostics, MovementWrong, MovementMap;
    if d in MovementsFound(s) {
      var m :| m in MovementMap(s.movements).Values && d in MovementDiagnostics(s, m);
      MovementsExact(s, m);
      MovementExact(s, m, d);
      var n: nat :| LastMovement(s, n) && s.movements[n] == m;
    }
    if MovementHolds(s, d) {
      if d.CheckpointCountMismatch? && exists n: nat :: LastMovement(s, n) && !exists i: nat :: OneCheckpoint(s, i, s.movements[n].key) {
        var n: nat :| LastMovement(s, n) && !exists i: nat :: OneCheckpoint(s, i, s.movements[n].key);
        MovementsExact(s, s.movements[n]);
        MovementExact(s, s.movements[n], d);
      } else {
        var n: nat, i: nat :| LastMovement(s, n) && OneCheckpoint(s, i, s.movements[n].key)
          && MovementWrong(s, s.movements[n], s.checkpoints[i].data, d);
        MovementsExact(s, s.movements[n]);
        MovementExact(s, s.movements[n], d);
      }
    }
  }

  /** For every snapshot, reachable or not: the audit reports a diagnostic if and only if what it says holds of the rows. */
  lemma DiagnosticsExact(s: Snapshot, d: Diagnostic)
    ensures d in Diagnose(s) <==> Holds(s, d)
  {
    hide GlobalDiagnostics, EntriesFound, OrdersFound, MovementsFound, CountsFound, RowsFound, EntryWrong, OrderWrong,
      MovementWrong, CountWrong, DeliveryWrong, OneCheckpoint, LastMovement;
    GlobalsExact(s, d);
    FoundExact(s, d);
    MovementsFoundExact(s, d);
    if d.CheckpointCountMismatch? { CheckpointDiagnostic(s); }
  }

  lemma CheckpointDiagnostic(s: Snapshot)
    ensures GlobalWrong(s, CheckpointCountMismatch) ==> MovementHolds(s, CheckpointCountMismatch)
    ensures MovementHolds(s, CheckpointCountMismatch) ==> GlobalWrong(s, CheckpointCountMismatch)
  {
    hide OneCheckpoint, LastMovement;
  }
}
