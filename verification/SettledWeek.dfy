/** The running system reaches the theorem: a settled week passes its audit, and its gate is clear
    exactly when every counter fits. */
module SettledWeek {
  import opened Basics
  import opened Identifiers
  import opened Vocabulary
  import opened InventoryTables
  import opened InventoryInvariants
  import opened InventoryLedger
  import opened InventoryRuns
  import opened OutboxRelay
  import opened ProducerRuns
  import opened CoverageCompleteness
  import opened WeeklyPerformance
  import opened Extraction
  import opened QualityGate
  import opened AuditedWeek
  import opened EndToEnd
  import OC = OperationalCoverage

  // ----- running tables meet the table constraints -----

  lemma SoundRows(t: Tables)
    requires Good(t)
    ensures forall pk :: pk in t.entries ==> t.entries[pk].skuId in t.skus
    ensures forall pk :: pk in t.exits ==> t.exits[pk].skuId in t.skus
    ensures forall pk :: pk in t.exits && t.exits[pk].orderPk.Some? ==> t.exits[pk].exitType == Dispatch
    ensures forall pk :: pk in t.counts ==> t.counts[pk].skuId in t.skus && IsUuid(t.counts[pk].countId)
    ensures forall pk :: pk in t.orders ==> IsUuid(t.orders[pk].orderId)
  {
    hide Holds, IsUuid, InboundTags, ThresholdTags, DiscrepancyTags, OrderTags, Crosses, TelemetryWarehouse, Known,
      Bounded, Unique;
    forall pk | pk in t.entries ensures t.entries[pk].skuId in t.skus { assert EntryOk(t, pk); }
    forall pk | pk in t.exits ensures t.exits[pk].skuId in t.skus { assert ExitOk(t, pk); }
    forall pk | pk in t.exits && t.exits[pk].orderPk.Some? ensures t.exits[pk].exitType == Dispatch { assert ExitOk(t, pk); }
    forall pk | pk in t.counts ensures t.counts[pk].skuId in t.skus && IsUuid(t.counts[pk].countId) { assert CountOk(t, pk); }
    forall pk | pk in t.orders ensures IsUuid(t.orders[pk].orderId) { assert OrderOk(t, pk); }
  }

  lemma RowId(t: Tables, k: OutboxKey)
    requires Good(t) && k in t.outbox
    ensures IsUuid(t.outbox[k].eventId)
  {
    hide IsUuid, InboundTags, ThresholdTags, DiscrepancyTags, OrderTags, Crosses, TelemetryWarehouse, Bounded, Unique;
    match k.source
    case StockEntryTable => assert EntryOk(t, k.pk);
    case StockExitTable => assert ExitOk(t, k.pk);
    case CommercialOrderTable => assert OrderOk(t, k.pk);
    case PhysicalCountTable => assert CountOk(t, k.pk);
  }

  /** The constraints that the end-to-end theorem assumes of the tables hold after every run of commands. */
  lemma SoundIsConstrained(t: Tables)
    requires Good(t)
    ensures TableConstraints(t)
  {
    SoundRows(t);
    forall k | k in t.outbox ensures IsUuid(t.outbox[k].eventId) && t.outbox[k].eventType == SourceEvent(k.source) {
      RowId(t, k);
      RowEventType(t, k);
    }
    UniqueKeys(t);
    hide Good, IsUuid, SourceEvent;
  }

  lemma UniqueKeys(t: Tables)
    requires Good(t)
    ensures forall j, k :: j in t.outbox && k in t.outbox && t.outbox[j].eventId == t.outbox[k].eventId ==> j == k
    ensures forall a, b :: a in t.orders && b in t.orders && t.orders[a].orderId == t.orders[b].orderId ==> a == b
    ensures forall a, b :: a in t.counts && b in t.counts && t.counts[a].countId == t.counts[b].countId ==> a == b
  {
    hide EntryOk, ExitOk, OrderOk, CountOk, Bounded, Known;
  }

  // ----- a settled week -----

  /** The event names a client by a visible text. */
  predicate Named(r: OutboxRow) {
    var client := Tag(r.tags, ClientId);
    client.JStr? && !Blank(client.text)
  }

  predicate AllNamed(t: Tables, week: int) { forall k :: k in WeekKeys(t, week) ==> Named(t.outbox[k]) }

  /** A row of one of the four event types that another service wrote. */
  predicate Foreign(r: TelemetryRow) { Official(r.eventType) && r.service != API }

  predicate SharesIdentity(t: Tables, week: int, r: TelemetryRow) {
    exists k :: k in WeekKeys(t, week) && MoveKeyOf(r.eventType, r.tags) == Some(MoveKey(SourceEvent(k.source), IdentityText(t, k)))
  }

  /** No foreign row lies in the week, and none elsewhere carries an identity of the week. */
  predicate NoForeign(t: Tables, telemetry: map<string, TelemetryRow>, week: int) {
    forall id :: id in telemetry && Foreign(telemetry[id]) ==>
      !InWeek(telemetry[id].time, week) && !SharesIdentity(t, week, telemetry[id])
  }

  /** What was audited in `w` is still what is extracted in the later `w2`: the week was relayed, all its rows name a
      client, no newer event of it has arrived, and no other writer interferes. */
  ghost predicate Settled(w: World, w2: World, week: int) {
    && SoundWorld(w) && SoundWorld(w2) && Later(w, w2)
    && AllPublished(w.tables, week) && AllHaveClients(w.tables, week) && AllNamed(w.tables, week)
    && NothingNewer(w.tables, w2.telemetry, week) && NoForeign(w.tables, w2.telemetry, week)
  }

  lemma SettledAudit(w: World, week: int, s: OC.Snapshot)
    requires SoundWorld(w) && SnapshotOf(w.tables, w.telemetry, week, s)
    ensures TableConstraints(w.tables) && Keyed(w.telemetry)
    ensures OC.Clean(s) <==> AllPublished(w.tables, week) && AllHaveClients(w.tables, week)
  {
    hide Good, Balanced, SnapshotOf, OC.Clean, TableConstraints, Delivered, FromOutbox, AllPublished, AllHaveClients,
      NothingNewer;
    SoundIsConstrained(w.tables);
    NothingNewerNow(w, week);
    LaterSame(w);
    if AllPublished(w.tables, week) && AllHaveClients(w.tables, week) { SettledIsClean(w, w, week, s); }
    if OC.Clean(s) { CleanIsSettled(w, w, week, s); }
  }

  // ----- each event carries the identity of its source row -----

  function IdentityText(t: Tables, k: OutboxKey): string {
    match k.source
    case CommercialOrderTable => if k.pk in t.orders then t.orders[k.pk].orderId else ""
    case PhysicalCountTable => if k.pk in t.counts then t.counts[k.pk].countId else ""
    case _ => IntText(k.pk)
  }

  lemma UuidNotBlank(u: string)
    requires IsUuid(u)
    ensures !Blank(u)
  {
    assert u[0] in u && LowerHex(u[0]);
  }

  lemma RowIdentity(t: Tables, k: OutboxKey)
    requires Good(t) && k in t.outbox
    ensures MoveKeyOf(t.outbox[k].eventType, Target(t.outbox[k]).tags) == Some(MoveKey(SourceEvent(k.source), IdentityText(t, k)))
  {
    hide GoodExcept, FilterTags, Blank, Target;
    RowTarget(t, k);
    TargetTags(t.outbox[k]);
    match k.source
    case StockEntryTable => EntryIdentity(t, k.pk);
    case StockExitTable => ExitIdentity(t, k.pk);
    case CommercialOrderTable => OrderIdentity(t, k.pk);
    case PhysicalCountTable => CountIdentity(t, k.pk);
  }

  predicate TagText(tags: Tags, name: TagName, text: string) { Tag(tags, name) == JStr(text) && !Blank(text) }

  lemma EntryIdentity(t: Tables, pk: nat)
    requires Good(t) && OutboxKey(StockEntryTable, pk) in t.outbox
    ensures TagText(t.outbox[OutboxKey(StockEntryTable, pk)].tags, MovementId, IntText(pk))
  {
    hide Bounded, Unique, Blank, Decimal, Crosses, TelemetryWarehouse;
    assert EntryOk(t, pk);
    DecimalNotBlank(pk);
  }

  lemma ExitIdentity(t: Tables, pk: nat)
    requires Good(t) && OutboxKey(StockExitTable, pk) in t.outbox
    ensures TagText(t.outbox[OutboxKey(StockExitTable, pk)].tags, MovementId, IntText(pk))
  {
    hide Bounded, Unique, Blank, Decimal, Crosses, TelemetryWarehouse;
    assert ExitOk(t, pk);
    DecimalNotBlank(pk);
  }

  lemma OrderIdentity(t: Tables, pk: nat)
    requires Good(t) && OutboxKey(CommercialOrderTable, pk) in t.outbox
    ensures pk in t.orders && TagText(t.outbox[OutboxKey(CommercialOrderTable, pk)].tags, OrderId, t.orders[pk].orderId)
  {
    hide Bounded, Unique, Blank, IsUuid, TelemetryWarehouse;
    assert OrderOk(t, pk);
    UuidNotBlank(t.orders[pk].orderId);
  }

  lemma CountIdentity(t: Tables, pk: nat)
    requires Good(t) && OutboxKey(PhysicalCountTable, pk) in t.outbox
    ensures pk in t.counts && TagText(t.outbox[OutboxKey(PhysicalCountTable, pk)].tags, CountId, t.counts[pk].countId)
  {
    hide Bounded, Unique, Blank, IsUuid, TelemetryWarehouse;
    assert CountOk(t, pk);
    UuidNotBlank(t.counts[pk].countId);
  }

  /** Different rows never carry the same identity. */
  lemma IdentitiesDiffer(t: Tables, j: OutboxKey, k: OutboxKey)
    requires Good(t) && j in t.outbox && k in t.outbox
    requires MoveKey(SourceEvent(j.source), IdentityText(t, j)) == MoveKey(SourceEvent(k.source), IdentityText(t, k))
    ensures j == k
  {
    hide IntText, EntryOk, ExitOk, OrderOk, CountOk, Bounded;
    if j.source.StockEntryTable? || j.source.StockExitTable? { IntTextInjective(j.pk, k.pk); }
  }

  lemma SameIdentity(w: World, w2: World, k: OutboxKey)
    requires SoundWorld(w) && Later(w, w2) && k in w.tables.outbox
    ensures k in w2.tables.outbox && SameEvent(w.tables.outbox[k], w2.tables.outbox[k])
    ensures IdentityText(w2.tables, k) == IdentityText(w.tables, k)
  {
    hide Balanced, Bounded, Unique, Delivered, Sourced, IntText, EntryOk, ExitOk, CountOk, OrderOk;
  }

  /** An identity of a settled week occurs in one telemetry row of the whole table. */
  lemma OneOccurrence(w: World, w2: World, week: int, k: OutboxKey, id: string)
    requires Settled(w, w2, week) && k in WeekKeys(w.tables, week) && id in w2.telemetry
    requires MoveKeyOf(w2.telemetry[id].eventType, w2.telemetry[id].tags)
      == Some(MoveKey(SourceEvent(k.source), IdentityText(w.tables, k)))
    ensures w2.telemetry[id] == Target(w.tables.outbox[k])
  {
    hide Good, Balanced, IdentityText, MoveKeyOf, FilterTags, Delivered, AllPublished, AllHaveClients, AllNamed, Extends;
    MoveKeyOfficial(w2.telemetry[id]);
    assert SharesIdentity(w.tables, week, w2.telemetry[id]);
    assert OfficialRow(w2.telemetry[id]);
    assert FromOutbox(w2, id);
    var j :| j in w2.tables.outbox && w2.tables.outbox[j].eventId == id && w2.telemetry[id] == Target(w2.tables.outbox[j]);
    RowIdentity(w2.tables, j);
    TargetType(w2.tables.outbox[j]);
    SameIdentity(w, w2, k);
    IdentitiesDiffer(w2.tables, j, k);
  }

  lemma MoveKeyOfficial(r: TelemetryRow)
    ensures MoveKeyOf(r.eventType, r.tags).Some? ==> Official(r.eventType)
  {
  }

  lemma TargetType(r: OutboxRow)
    ensures Target(r).eventType == r.eventType && Target(r).time == r.occurredAt && Target(r).id == r.eventId
    ensures Target(r).service == API
  {
  }

  // ----- each event is valid -----

  lemma Validates(r: OutboxRow, warehouse: string, client: string)
    requires IsUuid(r.eventId) && Official(r.eventType) && Target(r).tags == TagObject(r.tags)
    requires CanonicalWarehouse(warehouse).Some? && !Blank(client)
    requires Tag(r.tags, Warehouse) == JStr(warehouse) && Tag(r.tags, ClientId) == JStr(client)
    requires ValidIdentity(r.eventType, Tag(r.tags, IdentityTag(r.eventType)))
    requires ValidQuantity(r.eventType, Tag(r.tags, Quantity)) && ValidProduct(Tag(r.tags, ProductId))
    ensures ValidateRow(RawOf(Target(r))).Some?
  {
    hide ParseUuid, IsUuid, Blank, CanonicalWarehouse, ValidIdentity, ValidQuantity, ValidProduct, FilterTags,
      WeekStart;
    CanonicalParses(r.eventId);
  }

  lemma NamedWarehouse(w: string)
    requires TelemetryWarehouse(w).Some?
    ensures CanonicalWarehouse(TelemetryWarehouse(w).value).Some?
  {
  }

  lemma ProductText(sku: int)
    ensures !Blank(IntText(sku))
  {
    if sku < 0 {
      assert IntText(sku)[0] == '-' && '-' in IntText(sku);
    } else {
      DecimalNotBlank(sku);
    }
  }

  lemma EntryRowValid(t: Tables, pk: nat)
    requires Good(t) && OutboxKey(StockEntryTable, pk) in t.outbox && Named(t.outbox[OutboxKey(StockEntryTable, pk)])
    requires pk in t.entries
    ensures HasEvent(t, OutboxKey(StockEntryTable, pk))
  {
    hide Bounded, Unique, Known, IsUuid, Blank, Decimal, IntText, TelemetryWarehouse, CanonicalWarehouse, Target,
      ValidateRow, RawOf;
    var k := OutboxKey(StockEntryTable, pk);
    assert EntryOk(t, pk);
    RowId(t, k);
    RowTarget(t, k);
    TargetTags(t.outbox[k]);
    NamedWarehouse(t.entries[pk].warehouse);
    ProductText(pk);
    ProductText(t.entries[pk].skuId);
    Validates(t.outbox[k], TelemetryWarehouse(t.entries[pk].warehouse).value, t.skus[t.entries[pk].skuId].clientId.value);
  }

  lemma TargetTags(r: OutboxRow)
    ensures Target(r).tags == TagObject(FilterTags(r.eventType, r.tags))
  {
  }

  lemma CrossingAfter(t: Tables, pk: nat)
    requires Sound(t) && pk in t.exits && Outbound(pk) in t.checkpoints
    ensures t.checkpoints[Outbound(pk)].after >= 0
  {
    hide Good, Level;
    var i :| 0 <= i < |t.journal| && t.journal[i] == Outbound(pk);
    assert Exact(t, i);
  }

  lemma ExitRowValid(t: Tables, pk: nat)
    requires Sound(t) && OutboxKey(StockExitTable, pk) in t.outbox && Named(t.outbox[OutboxKey(StockExitTable, pk)])
    requires pk in t.exits
    ensures HasEvent(t, OutboxKey(StockExitTable, pk))
  {
    hide Balanced, Bounded, Unique, Known, IsUuid, Blank, Decimal, IntText, TelemetryWarehouse, CanonicalWarehouse,
      Target, ValidateRow, RawOf;
    var k := OutboxKey(StockExitTable, pk);
    assert ExitOk(t, pk);
    CrossingAfter(t, pk);
    RowId(t, k);
    RowTarget(t, k);
    TargetTags(t.outbox[k]);
    NamedWarehouse(t.exits[pk].warehouse);
    ProductText(pk);
    ProductText(t.exits[pk].skuId);
    Validates(t.outbox[k], TelemetryWarehouse(t.exits[pk].warehouse).value, t.skus[t.exits[pk].skuId].clientId.value);
  }

  lemma OrderRow(t: Tables, pk: nat)
    requires Good(t) && OutboxKey(CommercialOrderTable, pk) in t.outbox && Named(t.outbox[OutboxKey(CommercialOrderTable, pk)])
    requires pk in t.orders
    ensures var o, r := t.orders[pk], t.outbox[OutboxKey(CommercialOrderTable, pk)];
      && TelemetryWarehouse(o.warehouse).Some? && IsUuidV4(o.orderId) && !Blank(o.clientId)
      && r.eventType == OutboundOrderCreated
      && r.tags == OrderTags(o.orderId, TelemetryWarehouse(o.warehouse), o.clientId)
  {
    hide Bounded, Unique, Known, IsUuidV4, Blank, TelemetryWarehouse;
    assert OrderOk(t, pk);
  }

  lemma OrderRowValid(t: Tables, pk: nat)
    requires Good(t) && OutboxKey(CommercialOrderTable, pk) in t.outbox && Named(t.outbox[OutboxKey(CommercialOrderTable, pk)])
    requires pk in t.orders
    ensures HasEvent(t, OutboxKey(CommercialOrderTable, pk))
  {
    hide Bounded, Unique, Known, IsUuid, Blank, TelemetryWarehouse, CanonicalWarehouse, Target, ValidateRow, RawOf,
      ParseUuid, Named, GoodExcept, OrderOk;
    var k := OutboxKey(CommercialOrderTable, pk);
    OrderRow(t, pk);
    RowId(t, k);
    RowTarget(t, k);
    TargetTags(t.outbox[k]);
    NamedWarehouse(t.orders[pk].warehouse);
    CanonicalParses(t.orders[pk].orderId);
    Validates(t.outbox[k], TelemetryWarehouse(t.orders[pk].warehouse).value, t.orders[pk].clientId);
  }

  lemma CountRow(t: Tables, pk: nat)
    requires Good(t) && OutboxKey(PhysicalCountTable, pk) in t.outbox && Named(t.outbox[OutboxKey(PhysicalCountTable, pk)])
    requires pk in t.counts
    ensures var n, r := t.counts[pk], t.outbox[OutboxKey(PhysicalCountTable, pk)];
      && n.skuId in t.skus && TelemetryWarehouse(n.warehouse).Some? && IsUuidV4(n.countId) && n.expected != n.observed
      && !Blank(n.clientId) && r.eventType == InventoryDiscrepancyDetected
      && r.tags == DiscrepancyTags(TelemetryWarehouse(n.warehouse), n.clientId, n.skuId, t.skus[n.skuId].category, n.expected,
        n.observed, n.countId)
  {
    hide Bounded, Unique, Known, IsUuidV4, Blank, TelemetryWarehouse;
    assert CountOk(t, pk);
  }

  lemma CountRowValid(t: Tables, pk: nat)
    requires Good(t) && OutboxKey(PhysicalCountTable, pk) in t.outbox && Named(t.outbox[OutboxKey(PhysicalCountTable, pk)])
    requires pk in t.counts
    ensures HasEvent(t, OutboxKey(PhysicalCountTable, pk))
  {
    hide Bounded, Unique, Known, IsUuid, Blank, IntText, TelemetryWarehouse, CanonicalWarehouse, Target, ValidateRow,
      RawOf, ParseUuid, Named, GoodExcept, CountOk;
    var k := OutboxKey(PhysicalCountTable, pk);
    CountRow(t, pk);
    RowId(t, k);
    RowTarget(t, k);
    TargetTags(t.outbox[k]);
    NamedWarehouse(t.counts[pk].warehouse);
    CanonicalParses(t.counts[pk].countId);
    ProductText(t.counts[pk].skuId);
    Validates(t.outbox[k], TelemetryWarehouse(t.counts[pk].warehouse).value, t.counts[pk].clientId);
  }

  lemma EveryRowValid(t: Tables, k: OutboxKey)
    requires Sound(t) && k in t.outbox && Named(t.outbox[k])
    ensures HasEvent(t, k)
  {
    hide EntryOk, ExitOk, OrderOk, CountOk, Bounded, Unique, Balanced, Named, HasEvent;
    match k.source
    case StockEntryTable => EntryRowValid(t, k.pk);
    case StockExitTable => ExitRowValid(t, k.pk);
    case CommercialOrderTable => OrderRowValid(t, k.pk);
    case PhysicalCountTable => CountRowValid(t, k.pk);
  }

  // ----- the extracted rows are the audited rows -----

  lemma ExtractedOnce(rows: seq<RawRow>, e: OC.CanonicalEvent)
    requires Readable(rows) && Distinct(rows)
    ensures CanonicalEvents(rows)[e] <= 1
  {
    assert forall i :: 0 <= i < |rows| ==> rows[i] in rows;
    BagOnce(rows, CanonicalOf, e);
  }

  lemma AuditedOnce(rows: seq<TelemetryRow>, e: OC.CanonicalEvent)
    requires Distinct(rows) && forall a, b :: a in rows && b in rows && a.id == b.id ==> a == b
    ensures OC.CanonicalEvents(rows)[e] <= 1
  {
    assert forall i :: 0 <= i < |rows| ==> rows[i] in rows;
    BagOnce(rows, OC.CanonicalOf, e);
  }

  lemma {:induction false} OfficialDistinct(rows: seq<TelemetryRow>)
    requires Distinct(rows)
    ensures Distinct(OC.OfficialRows(rows))
  {
    if rows != [] {
      DistinctRest(rows);
      OfficialDistinct(rows[1..]);
      var rest := OC.OfficialRows(rows[1..]);
      assert rows[0] !in rest;
    }
  }

  /** The later reading shows the audited rows of the week and no others. */
  lemma WeekRowsAudited(w: World, w2: World, week: int)
    requires Settled(w, w2, week)
    ensures WeekRows(w2.telemetry, week) == TelemetryOf(w.telemetry, week)
  {
    hide Good, Balanced, FilterTags, AllHaveClients, AllNamed, Extends, SharesIdentity;
    forall r | r in TelemetryOf(w.telemetry, week) ensures r in WeekRows(w2.telemetry, week) {
      var id :| id in w.telemetry && r == w.telemetry[id];
      assert id in w2.telemetry && w2.telemetry[id] == r;
    }
    forall r | r in WeekRows(w2.telemetry, week) ensures r in TelemetryOf(w.telemetry, week) {
      var id :| id in w2.telemetry && r == w2.telemetry[id] && Official(r.eventType) && InWeek(r.time, week);
      assert !Foreign(r);
      assert r in TelemetryOf(w2.telemetry, week);
      var k :| k in w.tables.outbox && w.tables.outbox[k].eventId == r.id;
      TimesAgree(w, w2, week, r, k);
      assert w.telemetry[r.id] == Target(w.tables.outbox[k]) && w2.telemetry[r.id] == w.telemetry[r.id];
    }
  }

  lemma AuditedIdsUnique(telemetry: map<string, TelemetryRow>, week: int, rows: seq<TelemetryRow>)
    requires Keyed(telemetry) && Lists(rows, TelemetryOf(telemetry, week))
    ensures forall a, b :: a in rows && b in rows && a.id == b.id ==> a == b
  {
    forall a, b | a in rows && b in rows && a.id == b.id ensures a == b {
      assert a in TelemetryOf(telemetry, week) && b in TelemetryOf(telemetry, week);
      var i :| i in telemetry && a == telemetry[i];
      var j :| j in telemetry && b == telemetry[j];
      assert i == j;
    }
  }

  /** Extraction and audit of a settled week read the same events. */
  lemma ExtractedIsAudited(w: World, w2: World, week: int, s: OC.Snapshot, x: Extraction)
    requires Settled(w, w2, week) && Keyed(w.telemetry)
    requires Lists(s.telemetry, TelemetryOf(w.telemetry, week))
    requires IsExtraction(x, w2.telemetry, w.tables.orders, w.tables.exits, week)
    requires Readable(x.events)
    ensures CanonicalEvents(x.events) == OC.CanonicalEvents(OC.OfficialRows(s.telemetry))
  {
    hide Settled, IsOrderEvidence, OC.OfficialRows, OC.CanonicalEvents, CanonicalEvents, Keyed, EvidenceOf,
      OfficialRow, WeekRows;
    var official := OC.OfficialRows(s.telemetry);
    WeekRowsAudited(w, w2, week);
    AuditedIdsUnique(w.telemetry, week, s.telemetry);
    OfficialDistinct(s.telemetry);
    forall e ensures CanonicalEvents(x.events)[e] == OC.CanonicalEvents(official)[e] {
      ExtractedOnce(x.events, e);
      AuditedOnce(official, e);
      SameMembers(w.telemetry, week, s.telemetry, x.events, e);
    }
  }

  lemma SettledFacts(w: World, w2: World, week: int)
    requires Settled(w, w2, week)
    ensures SoundWorld(w) && Sound(w.tables) && AllNamed(w.tables, week)
    ensures AllPublished(w.tables, week) && AllHaveClients(w.tables, week)
  {
    hide Sound, AllNamed, NoForeign, Delivered, Sourced, AllPublished, AllHaveClients, NothingNewer, Extends;
  }

  lemma SameMembers(telemetry: map<string, TelemetryRow>, week: int, audited: seq<TelemetryRow>, extracted: seq<RawRow>,
                    e: OC.CanonicalEvent)
    requires Lists(audited, TelemetryOf(telemetry, week)) && Readable(extracted)
    requires Lists(extracted, set r | r in TelemetryOf(telemetry, week) :: RawOf(r))
    ensures e in CanonicalEvents(extracted) <==> e in OC.CanonicalEvents(OC.OfficialRows(audited))
  {
    hide OC.OfficialRows, OC.CanonicalEvents, CanonicalEvents, TelemetryOf, Readable;
    assert forall r :: r in extracted ==> r.time.Instant? by { ReadableTimes(extracted); }
    ExtractedMembers(extracted, e);
    AuditedMembers(audited, e);
    if e in CanonicalEvents(extracted) {
      var r :| r in extracted && CanonicalOf(r) == e;
      var q :| q in TelemetryOf(telemetry, week) && r == RawOf(q);
      assert q in audited && OC.CanonicalOf(q) == e;
      assert OfficialRow(q) by { OfficialTarget(telemetry, week, q); }
    }
    if e in OC.CanonicalEvents(OC.OfficialRows(audited)) {
      var q :| q in audited && OfficialRow(q) && OC.CanonicalOf(q) == e;
      assert q in TelemetryOf(telemetry, week);
      assert RawOf(q) in extracted && CanonicalOf(RawOf(q)) == e;
    }
  }

  lemma ReadableTimes(rows: seq<RawRow>)
    requires Readable(rows)
    ensures forall r :: r in rows ==> r.time.Instant?
  {
  }

  // ----- nothing is refused -----

  lemma NoBrokenRow(t: Tables, week: int)
    requires TableConstraints(t) && (forall k :: k in WeekKeys(t, week) ==> HasEvent(t, k))
    ensures BrokenIds(RawRows(t, week)) == {} && InvalidIds(RawRows(t, week)) == {}
    ensures forall r :: r in RawRows(t, week) ==> ParseUuid(r.id).Some?
  {
    hide ParseUuid, ValidateRow, FilterTags, IsUuid;
    var rows := RawRows(t, week);
    forall r | r in rows ensures ParseUuid(r.id) == Some(r.id) && ValidateRow(r).Some? {
      var k :| k in WeekKeys(t, week) && r == RawOf(Target(t.outbox[k]));
      assert HasEvent(t, k);
      CanonicalParses(t.outbox[k].eventId);
    }
    forall id | id in Ids(rows) ensures Consistent(rows, id) {
      forall a, b | a in RowsWith(rows, id) && b in RowsWith(rows, id) ensures SameRow(a, b) {
        var j :| j in WeekKeys(t, week) && a == RawOf(Target(t.outbox[j]));
        var k :| k in WeekKeys(t, week) && b == RawOf(Target(t.outbox[k]));
        assert t.outbox[j].eventId == t.outbox[k].eventId;
      }
    }
  }

  /** No identity of a settled week conflicts, neither within the week nor with another one. */
  lemma NoConflict(w: World, w2: World, week: int, s: OC.Snapshot, x: Extraction)
    requires Settled(w, w2, week) && AllValid(w.tables, w.telemetry, week, s)
    requires IsExtraction(x, w2.telemetry, w.tables.orders, w.tables.exits, week)
    requires ValidEvents(SetOf(x.events)) == EventsOf(w.tables, week)
    ensures InConflict(EventsOf(w.tables, week), x.evidence) == {}
  {
    hide Settled, AllValid, IsExtraction, ValidEvents, EventsOf, CrossWeek, Agree;
    var events := EventsOf(w.tables, week);
    forall e | e in events ensures !Conflicting(events, x.evidence, KeyOf(e)) {
      IdentityAgrees(w, week, s, KeyOf(e));
      assert KeyOf(e) in KeysOf(ValidEvents(SetOf(x.events)));
      IdentityInOneWeek(w, w2, week, s, x, e);
    }
  }

  lemma IdentityAgrees(w: World, week: int, s: OC.Snapshot, k: MoveKey)
    requires AllValid(w.tables, w.telemetry, week, s)
    ensures Agree(EventsOf(w.tables, week), k)
  {
    hide AllValid, HasEvent, EventAt;
    var events := EventsOf(w.tables, week);
    forall a, b | a in events && b in events && KeyOf(a) == k && KeyOf(b) == k ensures a == b {
      var i :| i in WeekKeys(w.tables, week) && HasEvent(w.tables, i) && EventAt(w.tables, i) == a;
      var j :| j in WeekKeys(w.tables, week) && HasEvent(w.tables, j) && EventAt(w.tables, j) == b;
      IdentityUnique(w.tables, w.telemetry, week, s, i, j);
    }
  }

  lemma EventKeyOf(t: Tables, k: OutboxKey)
    requires Good(t) && HasEvent(t, k)
    ensures KeyOf(EventAt(t, k)) == MoveKey(SourceEvent(k.source), IdentityText(t, k))
  {
    hide Good, ValidateRow, MoveKeyOf, IdentityText, FilterTags;
    RowIdentity(t, k);
    ValidRowKey(RawAt(t, k));
  }

  lemma IdentityInOneWeek(w: World, w2: World, week: int, s: OC.Snapshot, x: Extraction, e: Event)
    requires Settled(w, w2, week) && AllValid(w.tables, w.telemetry, week, s) && e in EventsOf(w.tables, week)
    requires IsExtraction(x, w2.telemetry, w.tables.orders, w.tables.exits, week)
    requires ValidEvents(SetOf(x.events)) == EventsOf(w.tables, week)
    ensures !CrossWeek(x.evidence, KeyOf(e), Weeks(Group(EventsOf(w.tables, week), KeyOf(e))))
  {
    hide Settled, Audited, IsExtraction, ValidEvents, CrossWeek, HasEvent, EventAt, MoveKeyOf, WeekStart,
      IdentityText, Group, Weeks, Target;
    var t := w.tables;
    SettledFacts(w, w2, week);
    var k :| k in WeekKeys(t, week) && HasEvent(t, k) && EventAt(t, k) == e;
    EventKeyOf(t, k);
    assert KeyOf(e) in KeysOf(ValidEvents(SetOf(x.events)));
    forall id | id in w2.telemetry && MoveKeyOf(w2.telemetry[id].eventType, w2.telemetry[id].tags) == Some(KeyOf(e))
      ensures WeekStart(w2.telemetry[id].time) == week
    {
      OneOccurrence(w, w2, week, k, id);
      TargetType(t.outbox[k]);
      WeekBoundsExact(t.outbox[k].occurredAt, week);
    }
    CrossWeekExact(x, w2.telemetry, t.orders, t.exits, week, KeyOf(e));
  }

  // ----- the gate -----

  /** All four counters fit a four-byte signed column. */
  predicate Fits(a: Aggregate) {
    && 0 <= a.inbound <= 2_147_483_647 && 0 <= a.outbound <= 2_147_483_647
    && 0 <= a.stockouts <= 2_147_483_647 && 0 <= a.discrepancies <= 2_147_483_647
  }

  lemma OverflowHasEvent(events: set<Event>, m: Metric, g: AggregateKey)
    ensures Overflows(Counter(events, m, g)) ==> Overflowing(events) != {}
  {
    assert Sum({}, Weight) == 0;
    if Overflows(Counter(events, m, g)) {
      var e :| e in Share(events, m, g);
      assert e in Overflowing(events);
    }
  }

  lemma OverflowsAt(events: set<Event>, g: AggregateKey)
    ensures Fits(AggregateOf(events, g)) <==> forall m: Metric :: !Overflows(Counter(events, m, g))
  {
    hide Counter;
    forall m: Metric ensures Fits(AggregateOf(events, g)) ==> !Overflows(Counter(events, m, g)) {
      match m
      case InboundUnits =>
      case OutboundOrders =>
      case StockoutEvents =>
      case DiscrepancyEvents =>
    }
  }

  lemma NoOverflowIff(t: Tables, telemetry: map<string, TelemetryRow>, week: int, s: OC.Snapshot)
    requires AllValid(t, telemetry, week, s)
    ensures Overflowing(EventsOf(t, week)) == {} <==> forall w, c :: Fits(DirectAggregate(t, week, w, c))
  {
    hide AllValid, EventsOf, DirectAggregate, AggregateOf, Fits, Overflows, Counter;
    var events := EventsOf(t, week);
    if Overflowing(events) == {} {
      forall w, c ensures Fits(DirectAggregate(t, week, w, c)) {
        var g := AggregateKey(w, c, week);
        CountersAreDirect(t, telemetry, week, s, w, c);
        OverflowsAt(events, g);
        forall m: Metric ensures !Overflows(Counter(events, m, g)) {
          OverflowHasEvent(events, m, g);
        }
      }
    }
    if forall w, c :: Fits(DirectAggregate(t, week, w, c)) {
      forall e, m: Metric | e in events && e.eventType == TypeOf(m) ensures !Overflows(Counter(events, m, GrainOf(e))) {
        EventOfficial(t, telemetry, week, s, e);
        CountersAreDirect(t, telemetry, week, s, e.warehouse, e.clientId);
        OverflowsAt(events, GrainOf(e));
      }
    }
  }

  lemma OnlyOverflowBlocks(rows: seq<RawRow>, evidence: map<MoveKey, Evidence>, orders: OrderEvidence)
    requires var all := SetOf(rows);
      && BrokenIds(all) == {} && InvalidIds(all) == {} && (forall r :: r in all ==> ParseUuid(r.id).Some?)
      && InConflict(ValidEvents(all), evidence) == {} && Consolidated(ValidEvents(all), evidence) == ValidEvents(all)
      && Counted(ValidEvents(all), orders) == ValidEvents(all)
      && Transformed(rows, evidence, orders).pending == {}
    ensures GateClear(Transformed(rows, evidence, orders).(coverageConfirmed := true)) <==>
      Overflowing(ValidEvents(SetOf(rows))) == {}
  {
    hide ParseUuid, ValidEvents, Consolidated, InConflict, Counted, Overflowing, BrokenIds, InvalidIds, AggregateOf,
      Grains, OrderIssue, Judge, Repetitions, RepeatedRows, OverflowIssues, Counter, EventIdsOf, GateClear;
    var events := ValidEvents(SetOf(rows));
    var p := PreparedFrom(SetOf(rows), evidence, RepeatedRows(rows));
    GateIffNoContradiction(p, orders);
    AllUncontradicted(events, orders);
    NoConflictIssues(events, evidence);
    assert RowIssues(SetOf(rows)) == {};
  }

  lemma AllUncontradicted(events: set<Event>, orders: OrderEvidence)
    requires Counted(events, orders) == events
    ensures NoContradiction(events, orders)
  {
    hide Judge;
    forall e | e in events ensures Counts(e, orders) { assert e in Counted(events, orders); }
  }

  lemma NoConflictIssues(events: set<Event>, evidence: map<MoveKey, Evidence>)
    requires InConflict(events, evidence) == {}
    ensures ConflictIssues(events, evidence) == {} && KeysOf(InConflict(events, evidence)) == {}
  {
    hide InConflict;
  }

  ghost predicate AllFit(t: Tables, week: int) { forall l, c :: Fits(DirectAggregate(t, week, l, c)) }

  /** In a settled week nothing but an overflow closes the gate. */
  lemma GateIffFits(w: World, w2: World, week: int, s: OC.Snapshot, x: Extraction)
    requires Settled(w, w2, week) && Audited(w.tables, w.telemetry, week, s) && IsMonday(week) && Readable(x.events)
    requires IsExtraction(x, w2.telemetry, w.tables.orders, w.tables.exits, week)
    ensures GateClear(Outcome(s, x)) <==> AllFit(w.tables, week)
  {
    hide Settled, Sound, SnapshotOf, IsExtraction, OC.Clean, TableConstraints, Keyed, GateClear, Fits,
      DirectAggregate, AllNamed, NoForeign, HasEvent, WeekKeys, RawRows, EventsOf, BrokenIds, InvalidIds, InConflict,
      Consolidated, Counted, ValidEvents, Overflowing, ParseUuid, SetOf, Transformed, Readable, CanonicalEvents,
      OC.CanonicalEvents, OC.OfficialRows, Outcome, SoundWorld, AllPublished, AllHaveClients;
    var t := w.tables;
    assert AllValid(t, w.telemetry, week, s) by { SettledValid(w, w2, week, s); }
    assert Lists(s.telemetry, TelemetryOf(w.telemetry, week)) by { SnapshotTelemetry(t, w.telemetry, week, s); }
    ExtractedIsAudited(w, w2, week, s, x);
    ExtractedRows(t, w.telemetry, week, s, x.events);
    NoBrokenRow(t, week);
    RowsAreEvents(t, week, SetOf(x.events));
    NoConflict(w, w2, week, s, x);
    NothingRepeated(t, w.telemetry, week, s, x.evidence);
    NothingRefused(t, w.telemetry, w2.telemetry, week, s, x);
    NothingPending(x, w2.telemetry, t.orders, t.exits, week);
    OnlyOverflowBlocks(x.events, x.evidence, x.orders);
    NoOverflowIff(t, w.telemetry, week, s);
    ConfirmedOutcome(s, x);
  }

  lemma SnapshotTelemetry(t: Tables, telemetry: map<string, TelemetryRow>, week: int, s: OC.Snapshot)
    requires SnapshotOf(t, telemetry, week, s)
    ensures Lists(s.telemetry, TelemetryOf(telemetry, week))
  {
    hide Lists, TelemetryOf;
  }

  lemma SettledValid(w: World, w2: World, week: int, s: OC.Snapshot)
    requires Settled(w, w2, week) && Audited(w.tables, w.telemetry, week, s) && IsMonday(week)
    ensures AllValid(w.tables, w.telemetry, week, s)
  {
    hide Settled, Sound, Named, NoForeign, Audited, HasEvent, AllPublished, AllHaveClients, SoundWorld;
    SettledFacts(w, w2, week);
    forall k | k in WeekKeys(w.tables, week) ensures HasEvent(w.tables, k) { EveryRowValid(w.tables, k); }
  }

  lemma ConfirmedOutcome(s: OC.Snapshot, x: Extraction)
    requires Readable(x.events) && OC.Clean(s)
    requires CanonicalEvents(x.events) == OC.CanonicalEvents(OC.OfficialRows(s.telemetry))
    ensures Outcome(s, x) == Transformed(x.events, x.evidence, x.orders).(coverageConfirmed := true)
  {
    hide Readable, CanonicalEvents, OC.CanonicalEvents, OC.OfficialRows, OC.Clean, OC.Diagnose, Transformed;
    OC.CleanIsNoDiagnostics(s);
  }

  // ----- a clear gate proves the week settled -----

  lemma ValidIsNamed(t: Tables, k: OutboxKey)
    requires Good(t) && HasEvent(t, k)
    ensures Named(t.outbox[k])
  {
    hide Good, ParseUuid, Blank, CanonicalWarehouse, ValidIdentity, ValidQuantity, ValidProduct, WeekStart,
      FilterTags;
    RowTarget(t, k);
    TargetTags(t.outbox[k]);
  }

  lemma TargetsAreRelayed(t: Tables, week: int)
    ensures forall r :: r in RawRows(t, week) ==> r.service == API
  {
    hide FilterTags;
  }

  /** A foreign row of the week would be extracted, and no audit explains it. */
  lemma NoForeignInWeek(t: Tables, telemetry: map<string, TelemetryRow>, week: int, x: Extraction, id: string)
    requires IsExtraction(x, telemetry, t.orders, t.exits, week)
    requires SetOf(x.events) == RawRows(t, week) && id in telemetry && Foreign(telemetry[id])
    ensures !InWeek(telemetry[id].time, week)
  {
    hide IsOrderEvidence, EvidenceOf, RawRows;
    TargetsAreRelayed(t, week);
    var row := telemetry[id];
    assert InWeek(row.time, week) ==> row in WeekRows(telemetry, week);
    forall q | q in WeekRows(telemetry, week) ensures q.service == API {
      assert RawOf(q) in x.events;
      assert RawOf(q) in SetOf(x.events);
    }
  }

  /** A foreign row of another week with an identity of this week would reject that identity. */
  lemma NoForeignIdentity(t: Tables, audited: map<string, TelemetryRow>, telemetry: map<string, TelemetryRow>, week: int,
                          s: OC.Snapshot, x: Extraction, id: string)
    requires Good(t) && AllValid(t, audited, week, s)
    requires IsExtraction(x, telemetry, t.orders, t.exits, week)
    requires ValidEvents(SetOf(x.events)) == EventsOf(t, week) && InConflict(EventsOf(t, week), x.evidence) == {}
    requires id in telemetry && !InWeek(telemetry[id].time, week)
    ensures !SharesIdentity(t, week, telemetry[id])
  {
    hide Good, Audited, IsExtraction, ValidEvents, CrossWeek, HasEvent, EventAt, MoveKeyOf, WeekStart, IdentityText,
      Group, Weeks, Agree;
    WeekBoundsExact(telemetry[id].time, week);
    forall k | k in WeekKeys(t, week)
      ensures MoveKeyOf(telemetry[id].eventType, telemetry[id].tags) != Some(MoveKey(SourceEvent(k.source), IdentityText(t, k)))
    {
      var e := EventAt(t, k);
      EventKeyOf(t, k);
      assert e in EventsOf(t, week) && KeyOf(e) in KeysOf(ValidEvents(SetOf(x.events)));
      NotConflicting(EventsOf(t, week), x.evidence, e);
      CrossWeekExact(x, telemetry, t.orders, t.exits, week, KeyOf(e));
    }
  }

  lemma NotConflicting(events: set<Event>, evidence: map<MoveKey, Evidence>, e: Event)
    requires e in events && InConflict(events, evidence) == {}
    ensures !CrossWeek(evidence, KeyOf(e), Weeks(Group(events, KeyOf(e))))
  {
    hide CrossWeek, Agree, Group, Weeks;
    assert Conflicting(events, evidence, KeyOf(e)) ==> e in InConflict(events, evidence);
  }

  lemma ClearIsSettled(w: World, w2: World, week: int, s: OC.Snapshot, x: Extraction)
    requires SoundWorld(w) && SoundWorld(w2) && Later(w, w2) && IsMonday(week)
    requires SnapshotOf(w.tables, w.telemetry, week, s)
    requires IsExtraction(x, w2.telemetry, w.tables.orders, w.tables.exits, week)
    requires Inputs(w.tables, w.telemetry, w2.telemetry, week, s, x) && Readable(x.events) && GateClear(Outcome(s, x))
    ensures Settled(w, w2, week) && AllFit(w.tables, week)
  {
    hide Good, Balanced, Delivered, Sourced, SnapshotOf, IsExtraction, TableConstraints, Keyed, GateClear, Outcome,
      OC.Clean, HasEvent, ValidEvents, InConflict, EventsOf, AllPublished, AllHaveClients, Fits, DirectAggregate,
      Readable, RawRows, SharesIdentity, Named, NothingNewer, Extends;
    var t := w.tables;
    AllCounted(t, w.telemetry, w2.telemetry, week, s, x);
    SettledAudit(w, week, s);
    forall k | k in WeekKeys(t, week) ensures Named(t.outbox[k]) { ValidIsNamed(t, k); }
    forall id | id in w2.telemetry && Foreign(w2.telemetry[id])
      ensures !InWeek(w2.telemetry[id].time, week) && !SharesIdentity(t, week, w2.telemetry[id])
    {
      NoForeignInWeek(t, w2.telemetry, week, x, id);
      NoForeignIdentity(t, w.telemetry, w2.telemetry, week, s, x, id);
    }
    ExtractedIsKnown(t, w2.telemetry, week, x);
    NoOverflowIff(t, w.telemetry, week, s);
  }

  /** A newer event of the week would be extracted, and the audited outbox does not know it. */
  lemma ExtractedIsKnown(t: Tables, telemetry: map<string, TelemetryRow>, week: int, x: Extraction)
    requires IsExtraction(x, telemetry, t.orders, t.exits, week) && SetOf(x.events) == RawRows(t, week)
    ensures NothingNewer(t, telemetry, week)
  {
    hide IsOrderEvidence, EvidenceOf, FilterTags;
    forall r | r in TelemetryOf(telemetry, week) ensures exists k :: k in t.outbox && t.outbox[k].eventId == r.id {
      assert r in WeekRows(telemetry, week);
      assert RawOf(r) in x.events;
      assert RawOf(r) in SetOf(x.events);
      var k :| k in WeekKeys(t, week) && RawOf(r) == RawOf(Target(t.outbox[k]));
    }
  }

  // ----- the theorem -----

  /** Audit in one state, extraction of the telemetry of a later one: the gate is clear if and only if the week is
      settled and every direct counter fits; and then the KPIs are the direct counts. */
  lemma GateIsExact(w: World, w2: World, week: int, s: OC.Snapshot, x: Extraction)
    requires SoundWorld(w) && SoundWorld(w2) && Later(w, w2) && IsMonday(week)
    requires SnapshotOf(w.tables, w.telemetry, week, s)
    requires IsExtraction(x, w2.telemetry, w.tables.orders, w.tables.exits, week)
    ensures Readable(x.events)
    ensures GateClear(Outcome(s, x)) <==> Settled(w, w2, week) && AllFit(w.tables, week)
    ensures GateClear(Outcome(s, x)) ==> Reported(w.tables, week, Outcome(s, x).aggregates)
  {
    hide SoundWorld, Settled, SnapshotOf, IsExtraction, OC.Clean, TableConstraints, Keyed, Outcome, GateClear, AllFit,
      Readable, AllPublished, AllHaveClients, DirectAggregate, Active, Later;
    SettledAudit(w, week, s);
    ExtractionReadable(w.tables, w.telemetry, w2.telemetry, week, s, x);
    if Settled(w, w2, week) {
      SettledFacts(w, w2, week);
      GateIffFits(w, w2, week, s, x);
    }
    if GateClear(Outcome(s, x)) {
      ClearIsSettled(w, w2, week, s, x);
      KpisEqualOperations(w.tables, w.telemetry, w2.telemetry, week, s, x);
    }
  }

  /** The aggregates are the direct ones, one for each warehouse and client that did anything. */
  ghost predicate Reported(t: Tables, week: int, aggregates: set<Aggregate>) {
    && (forall a :: a in aggregates ==>
          a.key.week == week && Active(t, week, a.key.warehouse, a.key.clientId)
          && a == DirectAggregate(t, week, a.key.warehouse, a.key.clientId))
    && (forall l, c :: Active(t, week, l, c) ==> DirectAggregate(t, week, l, c) in aggregates)
  }

  /** The same over every run of commands, relay attempts and other writers, before and between both readings. */
  lemma RunningGateIsExact(w0: World, before: seq<Step>, between: seq<Step>, week: int, s: OC.Snapshot, x: Extraction)
    requires FreshWorld(w0) && IsMonday(week)
    requires var w := RunWorld(w0, before);
      && SnapshotOf(w.tables, w.telemetry, week, s)
      && IsExtraction(x, RunWorld(w, between).telemetry, w.tables.orders, w.tables.exits, week)
    ensures var w := RunWorld(w0, before); var w2 := RunWorld(w, between);
      && Readable(x.events) && (GateClear(Outcome(s, x)) <==> Settled(w, w2, week) && AllFit(w.tables, week))
      && (GateClear(Outcome(s, x)) ==> Reported(w.tables, week, Outcome(s, x).aggregates))
  {
    hide SnapshotOf, IsExtraction, RunWorld, GateClear, Outcome, Settled, AllFit, Reported, FreshWorld, SoundWorld, Later;
    FreshWorldSound(w0);
    RunWorldSound(w0, before);
    RunWorldSound(RunWorld(w0, before), between);
    GateIsExact(RunWorld(w0, before), RunWorld(RunWorld(w0, before), between), week, s, x);
  }
}
