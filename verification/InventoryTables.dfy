/** The operational inventory tables, keyed by their primary or unique keys. */
module InventoryTables {
  import opened Basics
  import opened Identifiers
  import opened Vocabulary

  datatype ExitType = Dispatch | Loss

  datatype Sku = Sku(
    code: string, name: string, clientId: Option<string>, category: string, warehouse: string,
    threshold: Option<nat>)

  datatype StockEntry = StockEntry(
    skuId: int, quantity: int, reference: string, warehouse: string, createdAt: int, user: string)

  datatype StockExit = StockExit(
    skuId: int, quantity: int, exitType: ExitType, tracking: Option<string>, warehouse: string,
    createdAt: int, user: string, orderPk: Option<nat>, dispatchId: Option<string>)

  datatype CommercialOrder = CommercialOrder(
    orderId: string, clientId: string, warehouse: string, createdAt: int)

  datatype PhysicalCount = PhysicalCount(
    countId: string, skuId: int, clientId: string, warehouse: string, expected: int, observed: int,
    confirmedAt: int, user: string)

  /** `(source_table, source_pk)` of a threshold checkpoint. */
  datatype Movement = Inbound(pk: nat) | Outbound(pk: nat)

  datatype Checkpoint = Checkpoint(
    skuId: int, clientId: Option<string>, warehouse: string, before: int, after: int,
    threshold: Option<nat>, crossed: bool, eventId: Option<string>, evaluatedAt: int)

  /** `(source_table, source_pk)`; the event type is fixed by the source table. */
  datatype OutboxKey = OutboxKey(source: SourceTable, pk: nat)

  datatype OutboxRow = OutboxRow(
    eventId: string, occurredAt: int, eventType: EventType, tags: Tags,
    publishedAt: Option<int>, attempts: nat, lastError: Option<string>)

  /** `journal` is the checkpoint table in insertion order, which is the order of the stock writes. */
  datatype Tables = Tables(
    skus: map<int, Sku>,
    entries: map<nat, StockEntry>,
    exits: map<nat, StockExit>,
    orders: map<nat, CommercialOrder>,
    counts: map<nat, PhysicalCount>,
    checkpoints: map<Movement, Checkpoint>,
    journal: seq<Movement>,
    outbox: map<OutboxKey, OutboxRow>,
    nextEntry: nat, nextExit: nat, nextOrder: nat, nextCount: nat)

  /** No movement yet; the SKU rows may be legacy ones. Serial keys start at 1. */
  predicate Fresh(t: Tables) {
    t == Tables(t.skus, map[], map[], map[], map[], map[], [], map[], 1, 1, 1, 1)
  }

  // ----- computed stock -----

  function Received(entries: map<nat, StockEntry>, sku: int, warehouse: string): set<(nat, int)> {
    set pk | pk in entries && entries[pk].skuId == sku && entries[pk].warehouse == warehouse
      :: (pk, entries[pk].quantity)
  }

  function Shipped(exits: map<nat, StockExit>, sku: int, warehouse: string): set<(nat, int)> {
    set pk | pk in exits && exits[pk].skuId == sku && exits[pk].warehouse == warehouse
      :: (pk, exits[pk].quantity)
  }

  function Units(row: (nat, int)): int { row.1 }

  /** SUM(StockEntry.quantity) - SUM(StockExit.quantity) for one SKU and warehouse. */
  ghost function Stock(t: Tables, sku: int, warehouse: string): int {
    Sum(Received(t.entries, sku, warehouse), Units) - Sum(Shipped(t.exits, sku, warehouse), Units)
  }

  lemma ReceivedAfter(entries: map<nat, StockEntry>, pk: nat, e: StockEntry, sku: int, warehouse: string)
    requires pk !in entries
    ensures Received(entries[pk := e], sku, warehouse) == Received(entries, sku, warehouse) +
      (if e.skuId == sku && e.warehouse == warehouse then {(pk, e.quantity)} else {})
    ensures (pk, e.quantity) !in Received(entries, sku, warehouse)
  {
    var grown := entries[pk := e];
    forall row | row in Received(entries, sku, warehouse) ensures row in Received(grown, sku, warehouse) {
      assert row.0 in grown && grown[row.0] == entries[row.0];
    }
    forall row | row in Received(grown, sku, warehouse) && row.0 != pk
      ensures row in Received(entries, sku, warehouse)
    {
      assert row.0 in entries;
    }
    assert pk in grown;
  }

  lemma ShippedAfter(exits: map<nat, StockExit>, pk: nat, x: StockExit, sku: int, warehouse: string)
    requires pk !in exits
    ensures Shipped(exits[pk := x], sku, warehouse) == Shipped(exits, sku, warehouse) +
      (if x.skuId == sku && x.warehouse == warehouse then {(pk, x.quantity)} else {})
    ensures (pk, x.quantity) !in Shipped(exits, sku, warehouse)
  {
    var grown := exits[pk := x];
    forall row | row in Shipped(exits, sku, warehouse) ensures row in Shipped(grown, sku, warehouse) {
      assert row.0 in grown && grown[row.0] == exits[row.0];
    }
    forall row | row in Shipped(grown, sku, warehouse) && row.0 != pk
      ensures row in Shipped(exits, sku, warehouse)
    {
      assert row.0 in exits;
    }
    assert pk in grown;
  }

  lemma StockAfterEntry(t: Tables, t': Tables, pk: nat, e: StockEntry, sku: int, warehouse: string)
    requires pk !in t.entries && t'.entries == t.entries[pk := e] && t'.exits == t.exits
    ensures Stock(t', sku, warehouse) ==
      Stock(t, sku, warehouse) + (if e.skuId == sku && e.warehouse == warehouse then e.quantity else 0)
  {
    ReceivedAfter(t.entries, pk, e, sku, warehouse);
    SumPut(Received(t.entries, sku, warehouse), (pk, e.quantity), Units);
    assert forall s: set<(nat, int)> :: s + {} == s;
  }

  lemma StockAfterExit(t: Tables, t': Tables, pk: nat, x: StockExit, sku: int, warehouse: string)
    requires pk !in t.exits && t'.exits == t.exits[pk := x] && t'.entries == t.entries
    ensures Stock(t', sku, warehouse) ==
      Stock(t, sku, warehouse) - (if x.skuId == sku && x.warehouse == warehouse then x.quantity else 0)
  {
    ShippedAfter(t.exits, pk, x, sku, warehouse);
    SumPut(Shipped(t.exits, sku, warehouse), (pk, x.quantity), Units);
    assert forall s: set<(nat, int)> :: s + {} == s;
  }

  // ----- event tags -----

  function InboundTags(warehouse: Option<string>, client: Option<string>, sku: int, category: string,
                       quantity: int, pk: nat): Tags {
    map[Warehouse := JsonOf(warehouse), ClientId := JsonOf(client), ProductId := JStr(IntText(sku)),
        ProductCategory := JStr(category), Quantity := JInt(quantity), MovementId := JStr(IntText(pk))]
  }

  function OrderTags(orderId: string, warehouse: Option<string>, client: string): Tags {
    map[OrderId := JStr(orderId), Warehouse := JsonOf(warehouse), ClientId := JStr(client)]
  }

  function ThresholdTags(warehouse: Option<string>, client: Option<string>, sku: int, category: string,
                         after: int, threshold: int, pk: nat): Tags {
    map[Warehouse := JsonOf(warehouse), ClientId := JsonOf(client), ProductId := JStr(IntText(sku)),
        ProductCategory := JStr(category), Quantity := JInt(after),
        ThresholdQuantity := JInt(threshold), MovementId := JStr(IntText(pk))]
  }

  function Abs(n: int): nat { if n < 0 then -n else n }

  function DiscrepancyTags(warehouse: Option<string>, client: string, sku: int, category: string,
                           expected: int, observed: int, countId: string): Tags {
    var delta := observed - expected;
    map[Warehouse := JsonOf(warehouse), ClientId := JStr(client), ProductId := JStr(IntText(sku)),
        ProductCategory := JStr(category), Quantity := JInt(Abs(delta)),
        SystemQuantity := JInt(expected), CountedQuantity := JInt(observed),
        DiscrepancyDelta := JInt(delta),
        DiscrepancyType := JStr(if delta > 0 then "surplus" else "shortage"),
        CountId := JStr(countId)]
  }

  /** `before > threshold and after <= threshold` with a configured threshold. */
  predicate Crosses(threshold: Option<nat>, before: int, after: int) {
    threshold.Some? && before > threshold.value && after <= threshold.value
  }
}
