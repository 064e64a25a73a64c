/** When the audit passes and the gate is clear, the KPIs are the counts of the operational tables. */
module EndToEnd {
  import opened Basics
  import opened Identifiers
  import opened Vocabulary
  import opened InventoryTables
  import opened OutboxRelay
  import opened CoverageCompleteness
  import opened WeeklyPerformance
  import opened Extraction
  import opened QualityGate
  import opened AuditedWeek
  import OC = OperationalCoverage

  // ----- the events of the week -----

  function RawAt(t: Tables, k: OutboxKey): RawRow
    requires k in t.outbox
  {
    RawOf(Target(t.outbox[k]))
  }

  predicate HasEvent(t: Tables, k: OutboxKey) { k in t.outbox && ValidateRow(RawAt(t, k)).Some? }

  function EventAt(t: Tables, k: OutboxKey): Event
    requires HasEvent(t, k)
  {
    ValidateRow(RawAt(t, k)).value
  }

  /** The extracted rows are those of the week, and each of them is valid. */
  ghost predicate AllValid(t: Tables, telemetry: map<string, TelemetryRow>, week: int, s: OC.Snapshot) {
    && Audited(t, telemetry, week, s) && IsMonday(week)
    && (forall k :: k in WeekKeys(t, week) ==> HasEvent(t, k))
  }

  function EventsOf(t: Tables, week: int): set<Event> {
    set k | k in WeekKeys(t, week) && HasEvent(t, k) :: EventAt(t, k)
  }

  lemma CanonicalIdempotent(w: string)
    requires CanonicalWarehouse(w).Some?
    ensures CanonicalWarehouse(CanonicalWarehouse(w).value) == CanonicalWarehouse(w)
  {
  }

  lemma EventBasics(t: Tables, week: int, k: OutboxKey)
    requires HasEvent(t, k) && InWeek(t.outbox[k].occurredAt, week) && IsMonday(week)
    ensures var e := EventAt(t, k);
      e.eventType == t.outbox[k].eventType && e.week == week && e.tags == FilterTags(e.eventType, t.outbox[k].tags)
  {
    hide FilterTags, ParseUuid, ValidIdentity, ValidQuantity, ValidProduct, CanonicalWarehouse, WeekStart;
    WeekBoundsExact(t.outbox[k].occurredAt, week);
  }

  lemma TagsFiltered(r: OutboxRow)
    requires r.tags.Keys <= Allowlist(r.eventType)
    ensures Target(r).tags == TagObject(r.tags)
  {
    FilterTagsExact(r.eventType, r.tags);
  }

  lemma SourceOfType(t: Tables, telemetry: map<string, TelemetryRow>, week: int, s: OC.Snapshot, k: OutboxKey)
    requires AllValid(t, telemetry, week, s) && k in WeekKeys(t, week)
    ensures t.outbox[k].eventType == SourceEvent(k.source)
  {
  }

  predicate EntryEventIs(t: Tables, week: int, pk: nat, e: Event)
    requires pk in t.entries && t.entries[pk].skuId in t.skus
  {
    && e.eventType == InboundOrderCreated && e.week == week && e.identity == IntText(pk)
    && At(t.entries[pk].warehouse, e.warehouse) && t.skus[t.entries[pk].skuId].clientId == Some(e.clientId)
    && Weight(e) == t.entries[pk].quantity
  }

  lemma EntryTagsKept(r: OutboxRow, v: OC.EntryView)
    requires r.eventType == InboundOrderCreated && r.tags == OC.EntryTags(v)
    ensures Target(r).tags == TagObject(r.tags)
  {
    TagsFiltered(r);
  }

  lemma EntryEvent(t: Tables, telemetry: map<string, TelemetryRow>, week: int, s: OC.Snapshot, pk: nat)
    requires AllValid(t, telemetry, week, s) && OutboxKey(StockEntryTable, pk) in WeekKeys(t, week)
    ensures pk in t.entries && t.entries[pk].skuId in t.skus && InWeek(t.entries[pk].createdAt, week)
    ensures EntryEventIs(t, week, pk, EventAt(t, OutboxKey(StockEntryTable, pk)))
  {
    hide OC.Clean, SnapshotOf, OC.EntryTags, Target, Audited, ValidateRow;
    var k := OutboxKey(StockEntryTable, pk);
    SourceOfType(t, telemetry, week, s, k);
    EntryRowHasEntry(t, telemetry, week, s, pk);
    EntryReported(t, telemetry, week, s, pk);
    EntryTagsKept(t.outbox[k], EntryViewOf(t, pk));
    EntryEventFields(t, week, pk);
  }

  lemma EntryEventFields(t: Tables, week: int, pk: nat)
    requires var k := OutboxKey(StockEntryTable, pk);
      && HasEvent(t, k) && InWeek(t.outbox[k].occurredAt, week) && IsMonday(week)
      && pk in t.entries && t.entries[pk].skuId in t.skus && t.outbox[k].eventType == InboundOrderCreated
      && t.outbox[k].tags == OC.EntryTags(EntryViewOf(t, pk)) && Target(t.outbox[k]).tags == TagObject(t.outbox[k].tags)
    ensures EntryEventIs(t, week, pk, EventAt(t, OutboxKey(StockEntryTable, pk)))
  {
    hide ParseUuid, CanonicalWarehouse, WeekStart, FilterTags, Blank;
    EventBasics(t, week, OutboxKey(StockEntryTable, pk));
    if CanonicalWarehouse(t.entries[pk].warehouse).Some? {
      CanonicalIdempotent(t.entries[pk].warehouse);
      CanonicalIsAt(t.entries[pk].warehouse, CanonicalWarehouse(t.entries[pk].warehouse).value);
    }
  }

  predicate OrderEventIs(t: Tables, week: int, pk: nat, e: Event)
    requires pk in t.orders
  {
    && e.eventType == OutboundOrderCreated && e.week == week && e.identity == t.orders[pk].orderId
    && At(t.orders[pk].warehouse, e.warehouse) && t.orders[pk].clientId == e.clientId
    && ParseUuid(e.identity).Some? && IsUuidV4(ParseUuid(e.identity).value)
  }

  lemma OrderTagsKept(r: OutboxRow, v: OC.OrderView)
    requires r.eventType == OutboundOrderCreated && r.tags == OC.OrderRowTags(v)
    ensures Target(r).tags == TagObject(r.tags)
  {
    TagsFiltered(r);
  }

  lemma OrderEvent(t: Tables, telemetry: map<string, TelemetryRow>, week: int, s: OC.Snapshot, pk: nat)
    requires AllValid(t, telemetry, week, s) && OutboxKey(CommercialOrderTable, pk) in WeekKeys(t, week)
    ensures pk in t.orders && InWeek(t.orders[pk].createdAt, week) && DispatchesOf(t.exits, pk) != {}
    ensures OrderEventIs(t, week, pk, EventAt(t, OutboxKey(CommercialOrderTable, pk)))
  {
    hide OC.Clean, SnapshotOf, OC.OrderRowTags, Target, Audited, ValidateRow;
    var k := OutboxKey(CommercialOrderTable, pk);
    SourceOfType(t, telemetry, week, s, k);
    OrderRowHasOrder(t, telemetry, week, s, pk);
    OrderReported(t, telemetry, week, s, pk);
    OrderTagsKept(t.outbox[k], OrderViewOf(t, pk));
    OrderEventFields(t, week, pk);
  }

  lemma OrderEventFields(t: Tables, week: int, pk: nat)
    requires var k := OutboxKey(CommercialOrderTable, pk);
      && HasEvent(t, k) && InWeek(t.outbox[k].occurredAt, week) && IsMonday(week)
      && pk in t.orders && t.outbox[k].eventType == OutboundOrderCreated
      && t.outbox[k].tags == OC.OrderRowTags(OrderViewOf(t, pk)) && Target(t.outbox[k]).tags == TagObject(t.outbox[k].tags)
    ensures OrderEventIs(t, week, pk, EventAt(t, OutboxKey(CommercialOrderTable, pk)))
  {
    hide ParseUuid, CanonicalWarehouse, WeekStart, FilterTags, Blank, IsUuidV4;
    EventBasics(t, week, OutboxKey(CommercialOrderTable, pk));
    if CanonicalWarehouse(t.orders[pk].warehouse).Some? {
      CanonicalIdempotent(t.orders[pk].warehouse);
      CanonicalIsAt(t.orders[pk].warehouse, CanonicalWarehouse(t.orders[pk].warehouse).value);
    }
  }

  predicate CrossingEventIs(t: Tables, week: int, pk: nat, e: Event)
    requires pk in t.exits && t.exits[pk].skuId in t.skus
  {
    && e.eventType == StockThresholdTriggered && e.week == week && e.identity == IntText(pk)
    && At(t.exits[pk].warehouse, e.warehouse) && t.skus[t.exits[pk].skuId].clientId == Some(e.clientId)
  }

  lemma CrossingTagsKept(r: OutboxRow, m: OC.MovementView, after: int, threshold: int)
    requires r.eventType == StockThresholdTriggered && r.tags == OC.CrossingTags(m, after, threshold)
    ensures Target(r).tags == TagObject(r.tags)
  {
    TagsFiltered(r);
  }

  lemma CrossingEvent(t: Tables, telemetry: map<string, TelemetryRow>, week: int, s: OC.Snapshot, pk: nat)
    requires AllValid(t, telemetry, week, s) && OutboxKey(StockExitTable, pk) in WeekKeys(t, week)
    ensures pk in t.exits && t.exits[pk].skuId in t.skus && InWeek(t.exits[pk].createdAt, week) && CrossingExit(t, pk)
    ensures CrossingEventIs(t, week, pk, EventAt(t, OutboxKey(StockExitTable, pk)))
  {
    hide OC.Clean, SnapshotOf, OC.CrossingTags, Target;
    var k := OutboxKey(StockExitTable, pk);
    CrossingRowHasExit(t, telemetry, week, s, pk);
    CrossingReported(t, telemetry, week, s, pk);
    var c := t.checkpoints[Outbound(pk)];
    CrossingTagsKept(t.outbox[k], MovementViewOf(t, Outbound(pk)), c.after, c.threshold.value);
    CrossingEventFields(t, week, pk, c.after, c.threshold.value);
  }

  lemma CrossingEventFields(t: Tables, week: int, pk: nat, after: int, threshold: int)
    requires var k := OutboxKey(StockExitTable, pk);
      && HasEvent(t, k) && InWeek(t.outbox[k].occurredAt, week) && IsMonday(week)
      && pk in t.exits && t.exits[pk].skuId in t.skus && t.outbox[k].eventType == StockThresholdTriggered
      && t.outbox[k].tags == OC.CrossingTags(MovementViewOf(t, Outbound(pk)), after, threshold)
      && Target(t.outbox[k]).tags == TagObject(t.outbox[k].tags)
    ensures CrossingEventIs(t, week, pk, EventAt(t, OutboxKey(StockExitTable, pk)))
  {
    hide ParseUuid, CanonicalWarehouse, WeekStart, FilterTags, Blank;
    EventBasics(t, week, OutboxKey(StockExitTable, pk));
    if CanonicalWarehouse(t.exits[pk].warehouse).Some? {
      CanonicalIdempotent(t.exits[pk].warehouse);
      CanonicalIsAt(t.exits[pk].warehouse, CanonicalWarehouse(t.exits[pk].warehouse).value);
    }
  }

  predicate CountEventIs(t: Tables, week: int, pk: nat, e: Event)
    requires pk in t.counts
  {
    && e.eventType == InventoryDiscrepancyDetected && e.week == week && e.identity == t.counts[pk].countId
    && At(t.counts[pk].warehouse, e.warehouse) && t.counts[pk].clientId == e.clientId
  }

  lemma CountTagsKept(r: OutboxRow, v: OC.CountView)
    requires r.eventType == InventoryDiscrepancyDetected && r.tags == OC.CountRowTags(v)
    ensures Target(r).tags == TagObject(r.tags)
  {
    TagsFiltered(r);
  }

  lemma CountEvent(t: Tables, telemetry: map<string, TelemetryRow>, week: int, s: OC.Snapshot, pk: nat)
    requires AllValid(t, telemetry, week, s) && OutboxKey(PhysicalCountTable, pk) in WeekKeys(t, week)
    ensures pk in t.counts && InWeek(t.counts[pk].confirmedAt, week) && t.counts[pk].expected != t.counts[pk].observed
    ensures CountEventIs(t, week, pk, EventAt(t, OutboxKey(PhysicalCountTable, pk)))
  {
    hide OC.Clean, SnapshotOf, OC.CountRowTags, Target, Audited, ValidateRow;
    var k := OutboxKey(PhysicalCountTable, pk);
    SourceOfType(t, telemetry, week, s, k);
    DiscrepancyRowHasCount(t, telemetry, week, s, pk);
    DiscrepancyReported(t, telemetry, week, s, pk);
    CountTagsKept(t.outbox[k], CountViewOf(t, pk));
    CountEventFields(t, week, pk);
  }

  lemma CountEventFields(t: Tables, week: int, pk: nat)
    requires var k := OutboxKey(PhysicalCountTable, pk);
      && HasEvent(t, k) && InWeek(t.outbox[k].occurredAt, week) && IsMonday(week)
      && pk in t.counts && t.counts[pk].skuId in t.skus && t.outbox[k].eventType == InventoryDiscrepancyDetected
      && t.outbox[k].tags == OC.CountRowTags(CountViewOf(t, pk)) && Target(t.outbox[k]).tags == TagObject(t.outbox[k].tags)
    ensures CountEventIs(t, week, pk, EventAt(t, OutboxKey(PhysicalCountTable, pk)))
  {
    hide ParseUuid, CanonicalWarehouse, WeekStart, FilterTags, Blank, IsUuidV4;
    EventBasics(t, week, OutboxKey(PhysicalCountTable, pk));
    if CanonicalWarehouse(t.counts[pk].warehouse).Some? {
      CanonicalIdempotent(t.counts[pk].warehouse);
      CanonicalIsAt(t.counts[pk].warehouse, CanonicalWarehouse(t.counts[pk].warehouse).value);
    }
  }

  // ----- one event per fact -----

  /** No two outbox rows of the week share a business identity. */
  lemma IdentityUnique(t: Tables, telemetry: map<string, TelemetryRow>, week: int, s: OC.Snapshot, j: OutboxKey, k: OutboxKey)
    requires AllValid(t, telemetry, week, s) && j in WeekKeys(t, week) && k in WeekKeys(t, week)
    requires KeyOf(EventAt(t, j)) == KeyOf(EventAt(t, k))
    ensures j == k
  {
    hide OC.Clean, SnapshotOf, ValidateRow, Target;
    EventBasics(t, week, j);
    EventBasics(t, week, k);
    assert j.source == k.source;
    match j.source
    case StockEntryTable =>
      EntryEvent(t, telemetry, week, s, j.pk);
      EntryEvent(t, telemetry, week, s, k.pk);
      IntTextInjective(j.pk, k.pk);
    case StockExitTable =>
      CrossingEvent(t, telemetry, week, s, j.pk);
      CrossingEvent(t, telemetry, week, s, k.pk);
      IntTextInjective(j.pk, k.pk);
    case CommercialOrderTable =>
      OrderEvent(t, telemetry, week, s, j.pk);
      OrderEvent(t, telemetry, week, s, k.pk);
    case PhysicalCountTable =>
      CountEvent(t, telemetry, week, s, j.pk);
      CountEvent(t, telemetry, week, s, k.pk);
  }

  // ----- what a clear gate says -----

  ghost predicate Inputs(t: Tables, audited: map<string, TelemetryRow>, telemetry: map<string, TelemetryRow>, week: int,
                         s: OC.Snapshot, x: Extraction) {
    && TableConstraints(t) && Keyed(audited) && IsMonday(week) && SnapshotOf(t, audited, week, s)
    && IsExtraction(x, telemetry, t.orders, t.exits, week)
  }

  lemma ExtractionReadable(t: Tables, audited: map<string, TelemetryRow>, telemetry: map<string, TelemetryRow>, week: int,
                           s: OC.Snapshot, x: Extraction)
    requires Inputs(t, audited, telemetry, week, s, x)
    ensures Readable(x.events)
  {
  }

  ghost function Outcome(s: OC.Snapshot, x: Extraction): Result
    requires Readable(x.events)
  {
    ApplyOperationalCoverage(Transformed(x.events, x.evidence, x.orders), OC.AuditOf(s), x.events)
  }

  lemma ClearGateConfirms(s: OC.Snapshot, x: Extraction)
    requires Readable(x.events) && GateClear(Outcome(s, x))
    ensures OC.Clean(s)
    ensures CanonicalEvents(x.events) == OC.CanonicalEvents(OC.OfficialRows(s.telemetry))
    ensures Outcome(s, x) == Transformed(x.events, x.evidence, x.orders).(coverageConfirmed := true)
  {
    hide OC.Diagnose, OC.Clean, CanonicalEvents, OC.CanonicalEvents, PreparedFrom, Overflowing, Counted, Uncounted;
    OC.CleanIsNoDiagnostics(s);
  }

  lemma NoRowRefused(rows: set<RawRow>, evidence: map<MoveKey, Evidence>, repeated: set<string>, orders: OrderEvidence)
    requires forall i :: i in Composed(PreparedFrom(rows, evidence, repeated), orders).issues ==> !Blocking(i.code)
    ensures BrokenIds(rows) == {} && InvalidIds(rows) == {} && forall r :: r in rows ==> ParseUuid(r.id).Some?
  {
    hide ParseUuid, ValidateRow, Consistent, Consolidated, Repetitions, InConflict, Counted, Uncounted, Overflowing,
      ConflictIssues, OverflowIssues, KeysOf, BrokenIds, InvalidIds, AggregateOf, OrderIssue;
    var issues := Composed(PreparedFrom(rows, evidence, repeated), orders).issues;
    assert forall i :: i in RowIssues(rows) ==> i in issues;
    assert forall id :: id in BrokenIds(rows) ==> Issue(RowIdConflict, {id}, None) in RowIssues(rows);
    assert forall id :: id in InvalidIds(rows) ==> Issue(ValidationFailed, {id}, None) in RowIssues(rows);
    assert (exists r :: r in rows && ParseUuid(r.id).None?) ==> Issue(InvalidRowId, {}, None) in RowIssues(rows);
  }

  lemma NoConflictLeft(rows: set<RawRow>, evidence: map<MoveKey, Evidence>, repeated: set<string>, orders: OrderEvidence)
    requires Composed(PreparedFrom(rows, evidence, repeated), orders).conflicts == {}
    ensures InConflict(ValidEvents(rows), evidence) == {}
  {
    hide ParseUuid, ValidateRow, ValidEvents, Consolidated, Repetitions, InConflict, Counted, Uncounted, Overflowing,
      ConflictIssues, OverflowIssues, RowIssues, BrokenIds, InvalidIds, AggregateOf, OrderIssue, Judge;
    var clash := InConflict(ValidEvents(rows), evidence);
    assert KeysOf(clash) == {};
    assert forall e :: e in clash ==> KeyOf(e) in KeysOf(clash);
  }

  lemma NoOverflowLeft(p: Prepared, orders: OrderEvidence)
    requires forall i :: i in Composed(p, orders).issues ==> !Blocking(i.code)
    ensures Overflowing(Counted(p.events, orders)) == {}
  {
    hide Counted, Uncounted, Overflowing, AggregateOf, OrderIssue, Judge, Grains, OverflowIssues;
    var moved := Overflowing(Counted(p.events, orders));
    OverflowBlocks(moved);
    assert OverflowIssues(moved) <= Composed(p, orders).issues;
  }

  lemma RowsAreEvents(t: Tables, week: int, rows: set<RawRow>)
    requires rows == RawRows(t, week) && BrokenIds(rows) == {} && InvalidIds(rows) == {}
    requires forall r :: r in rows ==> ParseUuid(r.id).Some?
    ensures forall k :: k in WeekKeys(t, week) ==> HasEvent(t, k)
    ensures ValidEvents(rows) == EventsOf(t, week)
  {
    hide ParseUuid, ValidateRow, Target, Consistent;
    forall r | r in rows ensures ValidateRow(r).Some? && Consistent(rows, ParseUuid(r.id).value) {
      var id := ParseUuid(r.id).value;
      assert id in Ids(rows);
      assert Consistent(rows, id) by { assert id !in BrokenIds(rows); }
      assert id !in InvalidIds(rows);
    }
    forall k | k in WeekKeys(t, week) ensures HasEvent(t, k) && EventAt(t, k) in ValidEvents(rows) {
      assert RawAt(t, k) in rows;
    }
    forall e | e in ValidEvents(rows) ensures e in EventsOf(t, week) {
      var r :| r in rows && ParseUuid(r.id).Some? && ValidateRow(r) == Some(e);
      var k :| k in WeekKeys(t, week) && r == RawOf(Target(t.outbox[k]));
      assert r == RawAt(t, k);
    }
  }

  // ----- nothing is dropped between the rows and the counters -----

  lemma NothingRepeated(t: Tables, telemetry: map<string, TelemetryRow>, week: int, s: OC.Snapshot,
                        evidence: map<MoveKey, Evidence>)
    requires AllValid(t, telemetry, week, s) && InConflict(EventsOf(t, week), evidence) == {}
    ensures Consolidated(EventsOf(t, week), evidence) == EventsOf(t, week)
  {
    hide OC.Clean, SnapshotOf, ValidateRow, Target, Conflicting, Less;
    var events := EventsOf(t, week);
    forall e | e in events ensures e in Consolidated(events, evidence) {
      assert e !in InConflict(events, evidence);
      var k :| k in WeekKeys(t, week) && EventAt(t, k) == e;
      forall o | o in events && KeyOf(o) == KeyOf(e) ensures o == e {
        var j :| j in WeekKeys(t, week) && EventAt(t, j) == o;
        IdentityUnique(t, telemetry, week, s, j, k);
      }
    }
  }

  lemma EvidenceFor(o: OrderEvidence, t: Tables, requested: set<string>, pk: nat)
    requires IsOrderEvidence(o, t.orders, t.exits, requested)
    requires pk in t.orders && t.orders[pk].orderId in requested && OrderIdAccepted(t.orders[pk].orderId)
    requires DispatchesOf(t.exits, pk) != {}
    ensures t.orders[pk].orderId in o.records
    ensures o.records[t.orders[pk].orderId] == RecordOf(t.orders, t.exits, pk) && |DispatchesOf(t.exits, pk)| > 0
  {
    hide OrderIdAccepted;
    var ids := set i | i in requested && OrderIdAccepted(i);
    assert pk in RecordedOrders(t.orders, t.exits, ids);
  }

  lemma OrderVerified(t: Tables, audited: map<string, TelemetryRow>, telemetry: map<string, TelemetryRow>, week: int,
                      s: OC.Snapshot, x: Extraction, pk: nat)
    requires Inputs(t, audited, telemetry, week, s, x) && AllValid(t, audited, week, s)
    requires OutboxKey(CommercialOrderTable, pk) in WeekKeys(t, week)
    requires EventAt(t, OutboxKey(CommercialOrderTable, pk)) in ValidEvents(SetOf(x.events))
    ensures Judge(EventAt(t, OutboxKey(CommercialOrderTable, pk)), x.orders) == Verified
  {
    hide OC.Clean, SnapshotOf, ValidateRow, Target, ParseUuid, ValidEvents, IsUuidV4, CanonicalWarehouse, MoveKeyOf,
      EvidenceOf, IsOrderEvidence, IsUuid;
    var e := EventAt(t, OutboxKey(CommercialOrderTable, pk));
    OrderEvent(t, audited, week, s, pk);
    CanonicalParses(t.orders[pk].orderId);
    var id := EventSource(x, telemetry, t.orders, t.exits, week, e);
    ValidRowKey(RawOf(telemetry[id]));
    assert KeyOf(e) in KeysIn(WeekRows(telemetry, week));
    assert e.identity in OutboundIds(telemetry, week);
    EvidenceFor(x.orders, t, OutboundIds(telemetry, week), pk);
    CanonicalIsAt(t.orders[pk].warehouse, e.warehouse);
  }

  lemma NothingRefused(t: Tables, audited: map<string, TelemetryRow>, telemetry: map<string, TelemetryRow>, week: int,
                       s: OC.Snapshot, x: Extraction)
    requires Inputs(t, audited, telemetry, week, s, x) && AllValid(t, audited, week, s)
    requires ValidEvents(SetOf(x.events)) == EventsOf(t, week)
    ensures Counted(EventsOf(t, week), x.orders) == EventsOf(t, week)
  {
    hide OC.Clean, SnapshotOf, ValidateRow, Target, ParseUuid, ValidEvents, IsExtraction, Judge;
    forall e | e in EventsOf(t, week) ensures Counts(e, x.orders) {
      var k :| k in WeekKeys(t, week) && EventAt(t, k) == e;
      EventBasics(t, week, k);
      if e.eventType.OutboundOrderCreated? {
        assert k.source == CommercialOrderTable;
        OrderVerified(t, audited, telemetry, week, s, x, k.pk);
      }
    }
  }

  /** Every fact of the week is counted: the aggregates are those of the week's events. */
  lemma AllCounted(t: Tables, audited: map<string, TelemetryRow>, telemetry: map<string, TelemetryRow>, week: int,
                   s: OC.Snapshot, x: Extraction)
    requires Inputs(t, audited, telemetry, week, s, x) && Readable(x.events) && GateClear(Outcome(s, x))
    ensures AllValid(t, audited, week, s)
    ensures Outcome(s, x).aggregates == set g | g in Grains(EventsOf(t, week)) :: AggregateOf(EventsOf(t, week), g)
    ensures Overflowing(EventsOf(t, week)) == {} && InConflict(EventsOf(t, week), x.evidence) == {}
    ensures SetOf(x.events) == RawRows(t, week) && ValidEvents(SetOf(x.events)) == EventsOf(t, week)
  {
    hide OC.Clean, SnapshotOf, IsExtraction, ValidEvents, Consolidated, InConflict, Overflowing, Counted, Uncounted,
      RawRows, EventsOf, WeekKeys, BrokenIds, InvalidIds, AggregateOf, Grains, HasEvent, ValidateRow, SetOf,
      RepeatedRows, ConflictIssues, RowIssues, OverflowIssues, OrderIssue, Repetitions, KeysOf, CanonicalEvents,
      OC.CanonicalEvents, OC.OfficialRows, TableConstraints, Judge, ParseUuid, ApplyOperationalCoverage;
    ClearGateConfirms(s, x);
    var rows := SetOf(x.events);
    var p := PreparedFrom(rows, x.evidence, RepeatedRows(x.events));
    ExtractedRows(t, audited, week, s, x.events);
    NoRowRefused(rows, x.evidence, RepeatedRows(x.events), x.orders);
    RowsAreEvents(t, week, rows);
    NoConflictLeft(rows, x.evidence, RepeatedRows(x.events), x.orders);
    NothingRepeated(t, audited, week, s, x.evidence);
    NothingRefused(t, audited, telemetry, week, s, x);
    NoOverflowLeft(p, x.orders);
  }

  // ----- counters as counts of operational rows -----

  /** The rows of one source table stand one to one for the events of one counter. */
  ghost predicate StandFor(t: Tables, week: int, source: SourceTable, pks: set<nat>, share: set<Event>) {
    && (forall pk :: pk in pks ==> OutboxKey(source, pk) in WeekKeys(t, week) && HasEvent(t, OutboxKey(source, pk)))
    && (forall pk :: pk in pks ==> EventAt(t, OutboxKey(source, pk)) in share)
    && (forall e :: e in share ==> exists pk :: pk in pks && EventAt(t, OutboxKey(source, pk)) == e)
  }

  lemma SumOfRows(t: Tables, telemetry: map<string, TelemetryRow>, week: int, s: OC.Snapshot, source: SourceTable,
                  pks: set<nat>, share: set<Event>, f: nat -> int)
    requires AllValid(t, telemetry, week, s) && StandFor(t, week, source, pks, share)
    requires forall pk :: pk in pks ==> HasEvent(t, OutboxKey(source, pk)) && f(pk) == Weight(EventAt(t, OutboxKey(source, pk)))
    ensures Sum(share, Weight) == Sum(pks, f)
  {
    hide AllValid, HasEvent, ValidateRow, RawAt, Weight, WeekKeys;
    var m: map<nat, Event> := map pk | pk in pks :: EventAt(t, OutboxKey(source, pk));
    forall a, b | a in m && b in m && m[a] == m[b] ensures a == b {
      IdentityUnique(t, telemetry, week, s, OutboxKey(source, a), OutboxKey(source, b));
    }
    assert m.Keys == pks && m.Values == share;
    SumMatch<nat, Event>(m, share, f, Weight);
  }

  function One(): nat -> int { (pk: nat) => 1 }

  lemma OnesMatch(t: Tables, week: int, source: SourceTable, pks: set<nat>, share: set<Event>)
    requires StandFor(t, week, source, pks, share)
    requires forall e :: e in share ==> !e.eventType.InboundOrderCreated?
    ensures forall pk :: pk in pks ==> HasEvent(t, OutboxKey(source, pk)) && Weight(EventAt(t, OutboxKey(source, pk))) == 1
  {
    hide HasEvent, EventAt, WeekKeys;
  }

  lemma CountOfRows(t: Tables, telemetry: map<string, TelemetryRow>, week: int, s: OC.Snapshot, source: SourceTable,
                    pks: set<nat>, share: set<Event>)
    requires AllValid(t, telemetry, week, s) && StandFor(t, week, source, pks, share)
    requires forall e :: e in share ==> !e.eventType.InboundOrderCreated?
    ensures Sum(share, Weight) == |pks|
  {
    hide AllValid, StandFor, Weight;
    OnesMatch(t, week, source, pks, share);
    SumOfRows(t, telemetry, week, s, source, pks, share, One());
    SumOnes<nat>(pks, One());
  }

  lemma InboundStands(t: Tables, telemetry: map<string, TelemetryRow>, week: int, s: OC.Snapshot, w: string, c: string)
    requires AllValid(t, telemetry, week, s)
    ensures StandFor(t, week, StockEntryTable, InboundPks(t, week, w, c),
      Share(EventsOf(t, week), InboundUnits, AggregateKey(w, c, week)))
    ensures forall pk :: pk in InboundPks(t, week, w, c) ==>
      HasEvent(t, OutboxKey(StockEntryTable, pk))
      && t.entries[pk].quantity == Weight(EventAt(t, OutboxKey(StockEntryTable, pk)))
  {
    hide OC.Clean, SnapshotOf, ValidateRow, Target, At, Weight, TableConstraints;
    var share := Share(EventsOf(t, week), InboundUnits, AggregateKey(w, c, week));
    forall pk | pk in InboundPks(t, week, w, c)
      ensures OutboxKey(StockEntryTable, pk) in WeekKeys(t, week) && EventAt(t, OutboxKey(StockEntryTable, pk)) in share
      ensures t.entries[pk].quantity == Weight(EventAt(t, OutboxKey(StockEntryTable, pk)))
    {
      EntryReported(t, telemetry, week, s, pk);
      EntryEvent(t, telemetry, week, s, pk);
      OneSite(t.entries[pk].warehouse, w, EventAt(t, OutboxKey(StockEntryTable, pk)).warehouse);
    }
    forall e | e in share ensures exists pk :: pk in InboundPks(t, week, w, c) && EventAt(t, OutboxKey(StockEntryTable, pk)) == e {
      var k :| k in WeekKeys(t, week) && HasEvent(t, k) && EventAt(t, k) == e;
      EventBasics(t, week, k);
      SourceOfType(t, telemetry, week, s, k);
      EntryEvent(t, telemetry, week, s, k.pk);
      assert k.pk in InboundPks(t, week, w, c);
    }
  }

  lemma OrdersStand(t: Tables, telemetry: map<string, TelemetryRow>, week: int, s: OC.Snapshot, w: string, c: string)
    requires AllValid(t, telemetry, week, s)
    ensures StandFor(t, week, CommercialOrderTable, OrderPks(t, week, w, c),
      Share(EventsOf(t, week), OutboundOrders, AggregateKey(w, c, week)))
  {
    hide OC.Clean, SnapshotOf, ValidateRow, Target, At, TableConstraints, ParseUuid, IsUuidV4;
    var share := Share(EventsOf(t, week), OutboundOrders, AggregateKey(w, c, week));
    forall pk | pk in OrderPks(t, week, w, c)
      ensures OutboxKey(CommercialOrderTable, pk) in WeekKeys(t, week)
      ensures EventAt(t, OutboxKey(CommercialOrderTable, pk)) in share
    {
      OrderReported(t, telemetry, week, s, pk);
      OrderEvent(t, telemetry, week, s, pk);
      OneSite(t.orders[pk].warehouse, w, EventAt(t, OutboxKey(CommercialOrderTable, pk)).warehouse);
    }
    forall e | e in share ensures exists pk :: pk in OrderPks(t, week, w, c) && EventAt(t, OutboxKey(CommercialOrderTable, pk)) == e {
      var k :| k in WeekKeys(t, week) && HasEvent(t, k) && EventAt(t, k) == e;
      EventBasics(t, week, k);
      SourceOfType(t, telemetry, week, s, k);
      OrderEvent(t, telemetry, week, s, k.pk);
      assert k.pk in OrderPks(t, week, w, c);
    }
  }

  lemma CrossingsStand(t: Tables, telemetry: map<string, TelemetryRow>, week: int, s: OC.Snapshot, w: string, c: string)
    requires AllValid(t, telemetry, week, s)
    ensures StandFor(t, week, StockExitTable, CrossingPks(t, week, w, c),
      Share(EventsOf(t, week), StockoutEvents, AggregateKey(w, c, week)))
  {
    hide OC.Clean, SnapshotOf, ValidateRow, Target, At, TableConstraints, CrossingExit;
    var share := Share(EventsOf(t, week), StockoutEvents, AggregateKey(w, c, week));
    forall pk | pk in CrossingPks(t, week, w, c)
      ensures OutboxKey(StockExitTable, pk) in WeekKeys(t, week) && EventAt(t, OutboxKey(StockExitTable, pk)) in share
    {
      CrossingReported(t, telemetry, week, s, pk);
      CrossingEvent(t, telemetry, week, s, pk);
      OneSite(t.exits[pk].warehouse, w, EventAt(t, OutboxKey(StockExitTable, pk)).warehouse);
    }
    forall e | e in share ensures exists pk :: pk in CrossingPks(t, week, w, c) && EventAt(t, OutboxKey(StockExitTable, pk)) == e {
      var k :| k in WeekKeys(t, week) && HasEvent(t, k) && EventAt(t, k) == e;
      EventBasics(t, week, k);
      SourceOfType(t, telemetry, week, s, k);
      CrossingEvent(t, telemetry, week, s, k.pk);
      assert k.pk in CrossingPks(t, week, w, c);
    }
  }

  lemma DiscrepanciesStand(t: Tables, telemetry: map<string, TelemetryRow>, week: int, s: OC.Snapshot, w: string, c: string)
    requires AllValid(t, telemetry, week, s)
    ensures StandFor(t, week, PhysicalCountTable, DiscrepantPks(t, week, w, c),
      Share(EventsOf(t, week), DiscrepancyEvents, AggregateKey(w, c, week)))
  {
    hide OC.Clean, SnapshotOf, ValidateRow, Target, At, TableConstraints;
    var share := Share(EventsOf(t, week), DiscrepancyEvents, AggregateKey(w, c, week));
    forall pk | pk in DiscrepantPks(t, week, w, c)
      ensures OutboxKey(PhysicalCountTable, pk) in WeekKeys(t, week)
      ensures EventAt(t, OutboxKey(PhysicalCountTable, pk)) in share
    {
      DiscrepancyReported(t, telemetry, week, s, pk);
      CountEvent(t, telemetry, week, s, pk);
      OneSite(t.counts[pk].warehouse, w, EventAt(t, OutboxKey(PhysicalCountTable, pk)).warehouse);
    }
    forall e | e in share ensures exists pk :: pk in DiscrepantPks(t, week, w, c) && EventAt(t, OutboxKey(PhysicalCountTable, pk)) == e {
      var k :| k in WeekKeys(t, week) && HasEvent(t, k) && EventAt(t, k) == e;
      EventBasics(t, week, k);
      SourceOfType(t, telemetry, week, s, k);
      CountEvent(t, telemetry, week, s, k.pk);
      assert k.pk in DiscrepantPks(t, week, w, c);
    }
  }

  lemma InboundDirect(t: Tables, telemetry: map<string, TelemetryRow>, week: int, s: OC.Snapshot, w: string, c: string)
    requires AllValid(t, telemetry, week, s)
    ensures Counter(EventsOf(t, week), InboundUnits, AggregateKey(w, c, week)) == Sum(InboundPks(t, week, w, c), UnitsOf(t))
    ensures InboundPks(t, week, w, c) == {} <==> Share(EventsOf(t, week), InboundUnits, AggregateKey(w, c, week)) == {}
  {
    hide AllValid, StandFor, EventsOf;
    var share := Share(EventsOf(t, week), InboundUnits, AggregateKey(w, c, week));
    InboundStands(t, telemetry, week, s, w, c);
    SumOfRows(t, telemetry, week, s, StockEntryTable, InboundPks(t, week, w, c), share, UnitsOf(t));
    StandEmpty(t, week, StockEntryTable, InboundPks(t, week, w, c), share);
  }

  lemma OrdersDirect(t: Tables, telemetry: map<string, TelemetryRow>, week: int, s: OC.Snapshot, w: string, c: string)
    requires AllValid(t, telemetry, week, s)
    ensures Counter(EventsOf(t, week), OutboundOrders, AggregateKey(w, c, week)) == |OrderPks(t, week, w, c)|
    ensures OrderPks(t, week, w, c) == {} <==> Share(EventsOf(t, week), OutboundOrders, AggregateKey(w, c, week)) == {}
  {
    hide AllValid, StandFor, EventsOf;
    var share := Share(EventsOf(t, week), OutboundOrders, AggregateKey(w, c, week));
    OrdersStand(t, telemetry, week, s, w, c);
    CountOfRows(t, telemetry, week, s, CommercialOrderTable, OrderPks(t, week, w, c), share);
    StandEmpty(t, week, CommercialOrderTable, OrderPks(t, week, w, c), share);
  }

  lemma CrossingsDirect(t: Tables, telemetry: map<string, TelemetryRow>, week: int, s: OC.Snapshot, w: string, c: string)
    requires AllValid(t, telemetry, week, s)
    ensures Counter(EventsOf(t, week), StockoutEvents, AggregateKey(w, c, week)) == |CrossingPks(t, week, w, c)|
    ensures CrossingPks(t, week, w, c) == {} <==> Share(EventsOf(t, week), StockoutEvents, AggregateKey(w, c, week)) == {}
  {
    hide AllValid, StandFor, EventsOf;
    var share := Share(EventsOf(t, week), StockoutEvents, AggregateKey(w, c, week));
    CrossingsStand(t, telemetry, week, s, w, c);
    CountOfRows(t, telemetry, week, s, StockExitTable, CrossingPks(t, week, w, c), share);
    StandEmpty(t, week, StockExitTable, CrossingPks(t, week, w, c), share);
  }

  lemma DiscrepanciesDirect(t: Tables, telemetry: map<string, TelemetryRow>, week: int, s: OC.Snapshot, w: string, c: string)
    requires AllValid(t, telemetry, week, s)
    ensures Counter(EventsOf(t, week), DiscrepancyEvents, AggregateKey(w, c, week)) == |DiscrepantPks(t, week, w, c)|
    ensures DiscrepantPks(t, week, w, c) == {} <==> Share(EventsOf(t, week), DiscrepancyEvents, AggregateKey(w, c, week)) == {}
  {
    hide AllValid, StandFor, EventsOf;
    var share := Share(EventsOf(t, week), DiscrepancyEvents, AggregateKey(w, c, week));
    DiscrepanciesStand(t, telemetry, week, s, w, c);
    CountOfRows(t, telemetry, week, s, PhysicalCountTable, DiscrepantPks(t, week, w, c), share);
    StandEmpty(t, week, PhysicalCountTable, DiscrepantPks(t, week, w, c), share);
  }

  lemma CountersAreDirect(t: Tables, telemetry: map<string, TelemetryRow>, week: int, s: OC.Snapshot, w: string, c: string)
    requires AllValid(t, telemetry, week, s)
    ensures AggregateOf(EventsOf(t, week), AggregateKey(w, c, week)) == DirectAggregate(t, week, w, c)
    ensures AggregateKey(w, c, week) in Grains(EventsOf(t, week)) <==> Active(t, week, w, c)
  {
    hide EventsOf, Share, InboundPks, OrderPks, CrossingPks, DiscrepantPks, Grains, AllValid, Counter, UnitsOf;
    InboundDirect(t, telemetry, week, s, w, c);
    OrdersDirect(t, telemetry, week, s, w, c);
    CrossingsDirect(t, telemetry, week, s, w, c);
    DiscrepanciesDirect(t, telemetry, week, s, w, c);
    GrainsAreShares(t, telemetry, week, s, AggregateKey(w, c, week));
  }

  lemma StandEmpty(t: Tables, week: int, source: SourceTable, pks: set<nat>, share: set<Event>)
    requires StandFor(t, week, source, pks, share)
    ensures pks == {} <==> share == {}
  {
    hide HasEvent, WeekKeys, EventAt;
    if pks != {} { var pk :| pk in pks; assert EventAt(t, OutboxKey(source, pk)) in share; }
    if share != {} { var e :| e in share; }
  }

  lemma GrainsAreShares(t: Tables, telemetry: map<string, TelemetryRow>, week: int, s: OC.Snapshot, key: AggregateKey)
    requires AllValid(t, telemetry, week, s)
    ensures key in Grains(EventsOf(t, week)) <==>
      (Share(EventsOf(t, week), InboundUnits, key) != {} || Share(EventsOf(t, week), OutboundOrders, key) != {}
       || Share(EventsOf(t, week), StockoutEvents, key) != {} || Share(EventsOf(t, week), DiscrepancyEvents, key) != {})
  {
    hide AllValid, HasEvent, EventAt;
    var events := EventsOf(t, week);
    if key in Grains(events) {
      var e :| e in events && GrainOf(e) == key;
      EventOfficial(t, telemetry, week, s, e);
      match e.eventType
      case InboundOrderCreated => assert e in Share(events, InboundUnits, key);
      case OutboundOrderCreated => assert e in Share(events, OutboundOrders, key);
      case StockThresholdTriggered => assert e in Share(events, StockoutEvents, key);
      case InventoryDiscrepancyDetected => assert e in Share(events, DiscrepancyEvents, key);
    }
  }

  lemma EventOfficial(t: Tables, telemetry: map<string, TelemetryRow>, week: int, s: OC.Snapshot, e: Event)
    requires AllValid(t, telemetry, week, s) && e in EventsOf(t, week)
    ensures Official(e.eventType) && e.week == week
  {
    hide ValidateRow, Target, Audited, FilterTags;
    var k :| k in WeekKeys(t, week) && HasEvent(t, k) && EventAt(t, k) == e;
    EventBasics(t, week, k);
    SourceOfType(t, telemetry, week, s, k);
  }

  /** The end-to-end theorem. The audit read the operational tables and the telemetry of `audited`;
      the extraction read the telemetry of `telemetry` and its order evidence from the same tables.
      If the gate is clear, there is one aggregate for each warehouse and client that did anything
      in the week, and it is the one counted directly in the operational tables. */
  lemma KpisEqualOperations(t: Tables, audited: map<string, TelemetryRow>, telemetry: map<string, TelemetryRow>, week: int,
                            s: OC.Snapshot, x: Extraction)
    requires Inputs(t, audited, telemetry, week, s, x)
    requires Readable(x.events) && GateClear(Outcome(s, x))
    ensures forall a :: a in Outcome(s, x).aggregates ==>
      && a.key.week == week && Active(t, week, a.key.warehouse, a.key.clientId)
      && a == DirectAggregate(t, week, a.key.warehouse, a.key.clientId)
    ensures forall w, c :: Active(t, week, w, c) ==> DirectAggregate(t, week, w, c) in Outcome(s, x).aggregates
  {
    hide Inputs, Outcome, GateClear, AggregateOf, DirectAggregate, Active, EventsOf, AllValid, Grains;
    AllCounted(t, audited, telemetry, week, s, x);
    forall a | a in Outcome(s, x).aggregates
      ensures a.key.week == week && Active(t, week, a.key.warehouse, a.key.clientId)
      ensures a == DirectAggregate(t, week, a.key.warehouse, a.key.clientId)
    {
      var g :| g in Grains(EventsOf(t, week)) && a == AggregateOf(EventsOf(t, week), g);
      AggregateKeyOf(EventsOf(t, week), g);
      GrainWeek(t, audited, week, s, g);
      CountersAreDirect(t, audited, week, s, g.warehouse, g.clientId);
    }
    forall w, c | Active(t, week, w, c) ensures DirectAggregate(t, week, w, c) in Outcome(s, x).aggregates {
      CountersAreDirect(t, audited, week, s, w, c);
    }
  }

  lemma AggregateKeyOf(events: set<Event>, g: AggregateKey)
    ensures AggregateOf(events, g).key == g
  {
  }

  lemma GrainWeek(t: Tables, telemetry: map<string, TelemetryRow>, week: int, s: OC.Snapshot, g: AggregateKey)
    requires AllValid(t, telemetry, week, s) && g in Grains(EventsOf(t, week))
    ensures g.week == week
  {
    hide AllValid, EventsOf;
    var e :| e in EventsOf(t, week) && GrainOf(e) == g;
    EventOfficial(t, telemetry, week, s, e);
  }
}
