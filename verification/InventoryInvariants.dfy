/** What every run of inventory commands keeps true of the tables. */
module InventoryInvariants {
  import opened Basics
  import opened Identifiers
  import opened Vocabulary
  import opened InventoryTables
  import opened InventoryCommands

  // ----- rows only accumulate -----

  function Next(t: Tables, source: SourceTable): nat {
    match source
    case StockEntryTable => t.nextEntry
    case StockExitTable => t.nextExit
    case CommercialOrderTable => t.nextOrder
    case PhysicalCountTable => t.nextCount
  }

  function NextMovement(t: Tables, m: Movement): nat { if m.Inbound? then t.nextEntry else t.nextExit }

  predicate SameEvent(a: OutboxRow, b: OutboxRow) {
    a.eventId == b.eventId && a.occurredAt == b.occurredAt && a.eventType == b.eventType && a.tags == b.tags
  }

  ghost predicate Grows<K(!new), V(!new)>(m: map<K, V>, m': map<K, V>) {
    forall k :: k in m ==> k in m' && m'[k] == m[k]
  }

  ghost predicate NewFrom<V>(m: map<nat, V>, m': map<nat, V>, next: nat) {
    forall k :: k in m' && k !in m ==> k >= next
  }

  predicate SameProduct(a: Sku, b: Sku) {
    a.clientId == b.clientId && a.category == b.category && a.warehouse == b.warehouse
  }

  ghost predicate SkusKept(t: Tables, t': Tables) {
    forall s :: s in t.skus ==> s in t'.skus && SameProduct(t.skus[s], t'.skus[s])
  }

  ghost predicate OutboxKept(t: Tables, t': Tables) {
    forall k :: k in t.outbox ==> k in t'.outbox && SameEvent(t.outbox[k], t'.outbox[k])
  }

  ghost predicate RowsKept(t: Tables, t': Tables) {
    && Grows(t.entries, t'.entries) && Grows(t.exits, t'.exits)
    && Grows(t.orders, t'.orders) && Grows(t.counts, t'.counts)
    && Grows(t.checkpoints, t'.checkpoints) && OutboxKept(t, t')
    && t.journal <= t'.journal
  }

  ghost predicate NewKeysFresh(t: Tables, t': Tables) {
    && t.nextEntry <= t'.nextEntry && t.nextExit <= t'.nextExit
    && t.nextOrder <= t'.nextOrder && t.nextCount <= t'.nextCount
    && NewFrom(t.entries, t'.entries, t.nextEntry) && NewFrom(t.exits, t'.exits, t.nextExit)
    && NewFrom(t.orders, t'.orders, t.nextOrder) && NewFrom(t.counts, t'.counts, t.nextCount)
    && (forall m :: m in t'.checkpoints && m !in t.checkpoints ==> m.pk >= NextMovement(t, m))
    && (forall k :: k in t'.outbox && k !in t.outbox ==> k.pk >= Next(t, k.source))
  }

  /** `t'` was reached from `t`: no row was changed or removed, and new rows carry new keys. */
  ghost predicate Extends(t: Tables, t': Tables) {
    SkusKept(t, t') && RowsKept(t, t') && NewKeysFresh(t, t')
  }

  lemma RowsKeptTransitive(a: Tables, b: Tables, c: Tables)
    requires RowsKept(a, b) && RowsKept(b, c)
    ensures RowsKept(a, c)
  {
  }

  lemma NewKeysFreshTransitive(a: Tables, b: Tables, c: Tables)
    requires NewKeysFresh(a, b) && NewKeysFresh(b, c)
    ensures NewKeysFresh(a, c)
  {
    forall m | m in c.checkpoints && m !in a.checkpoints ensures m.pk >= NextMovement(a, m) {
      assert NextMovement(a, m) <= NextMovement(b, m);
    }
    forall k | k in c.outbox && k !in a.outbox ensures k.pk >= Next(a, k.source) {
      assert Next(a, k.source) <= Next(b, k.source);
    }
  }

  lemma ExtendsTransitive(a: Tables, b: Tables, c: Tables)
    requires Extends(a, b) && Extends(b, c)
    ensures Extends(a, c)
  {
    RowsKeptTransitive(a, b, c);
    NewKeysFreshTransitive(a, b, c);
  }

  // ----- row by row consistency -----

  ghost predicate Bounded(t: Tables) {
    && t.nextEntry > 0 && t.nextExit > 0 && t.nextOrder > 0 && t.nextCount > 0
    && (forall k :: k in t.entries ==> 0 < k < t.nextEntry)
    && (forall k :: k in t.exits ==> 0 < k < t.nextExit)
    && (forall k :: k in t.orders ==> 0 < k < t.nextOrder)
    && (forall k :: k in t.counts ==> 0 < k < t.nextCount)
    && (forall m :: m in t.checkpoints ==> 0 < m.pk < NextMovement(t, m))
    && (forall k :: k in t.outbox ==> 0 < k.pk < Next(t, k.source))
  }

  predicate Known(t: Tables) {
    && (forall m :: m in t.checkpoints ==> if m.Inbound? then m.pk in t.entries else m.pk in t.exits)
    && (forall k :: k in t.outbox ==>
          match k.source
          case StockEntryTable => k.pk in t.entries
          case StockExitTable => k.pk in t.exits
          case CommercialOrderTable => k.pk in t.orders
          case PhysicalCountTable => k.pk in t.counts)
  }

  ghost predicate Unique(t: Tables) {
    && (forall k, l :: k in t.outbox && l in t.outbox && t.outbox[k].eventId == t.outbox[l].eventId ==> k == l)
    && (forall k, l :: k in t.orders && l in t.orders && t.orders[k].orderId == t.orders[l].orderId ==> k == l)
    && (forall k, l :: k in t.counts && l in t.counts && t.counts[k].countId == t.counts[l].countId ==> k == l)
    && (forall k, l :: (k in t.exits && l in t.exits && t.exits[k].dispatchId.Some?
                        && t.exits[k].dispatchId == t.exits[l].dispatchId) ==> k == l)
  }

  predicate Holds(t: Tables, key: OutboxKey, now: int, tags: Tags) {
    && key in t.outbox && t.outbox[key].occurredAt == now && t.outbox[key].tags == tags
    && t.outbox[key].eventType == SourceEvent(key.source) && IsUuidV4(t.outbox[key].eventId)
  }

  /** An entry has its checkpoint, and its inbound event exactly when the SKU has a client. */
  predicate EntryOk(t: Tables, pk: nat)
    requires pk in t.entries
  {
    var e := t.entries[pk];
    && e.quantity > 0 && e.skuId in t.skus && e.warehouse == t.skus[e.skuId].warehouse
    && TelemetryWarehouse(e.warehouse).Some?
    && Inbound(pk) in t.checkpoints
    && (var c := t.checkpoints[Inbound(pk)]; var sku := t.skus[e.skuId];
        && c == Checkpoint(e.skuId, sku.clientId, e.warehouse, c.before, c.before + e.quantity, c.threshold,
             false, None, e.createdAt)
        && (if sku.clientId.None? then OutboxKey(StockEntryTable, pk) !in t.outbox
            else Holds(t, OutboxKey(StockEntryTable, pk), e.createdAt,
              InboundTags(TelemetryWarehouse(e.warehouse), sku.clientId, e.skuId, sku.category, e.quantity, pk))))
  }

  /** An exit has its checkpoint, and a threshold event exactly when the checkpoint says crossed. */
  predicate ExitOk(t: Tables, pk: nat)
    requires pk in t.exits
  {
    var x := t.exits[pk];
    && x.quantity > 0 && x.skuId in t.skus && x.warehouse == t.skus[x.skuId].warehouse
    && (x.dispatchId.Some? <==> x.orderPk.Some?) && (x.dispatchId.Some? ==> IsUuidV4(x.dispatchId.value))
    && (x.orderPk.Some? ==>
          (x.exitType == Dispatch && x.orderPk.value in t.orders
           && t.orders[x.orderPk.value].warehouse == x.warehouse
           && t.skus[x.skuId].clientId == Some(t.orders[x.orderPk.value].clientId)))
    && Outbound(pk) in t.checkpoints
    && (var c := t.checkpoints[Outbound(pk)]; var sku := t.skus[x.skuId];
        && c == Checkpoint(x.skuId, sku.clientId, x.warehouse, c.before, c.before - x.quantity, c.threshold,
             Crosses(c.threshold, c.before, c.after), c.eventId, x.createdAt)
        && (if c.crossed
            then TelemetryWarehouse(x.warehouse).Some? && HasClient(sku)
              && Holds(t, OutboxKey(StockExitTable, pk), x.createdAt,
                ThresholdTags(TelemetryWarehouse(x.warehouse), sku.clientId, x.skuId, sku.category, c.after,
                  c.threshold.value, pk))
              && c.eventId == Some(t.outbox[OutboxKey(StockExitTable, pk)].eventId)
            else OutboxKey(StockExitTable, pk) !in t.outbox && c.eventId == None))
  }

  /** An order has its event and at least one dispatch. */
  ghost predicate OrderOk(t: Tables, pk: nat)
    requires pk in t.orders
  {
    var o := t.orders[pk];
    && IsUuidV4(o.orderId) && o.clientId != "" && TelemetryWarehouse(o.warehouse).Some?
    && Holds(t, OutboxKey(CommercialOrderTable, pk), o.createdAt,
         OrderTags(o.orderId, TelemetryWarehouse(o.warehouse), o.clientId))
    && exists x :: x in t.exits && t.exits[x].orderPk == Some(pk)
  }

  /** A count has a discrepancy event exactly when it found one. */
  predicate CountOk(t: Tables, pk: nat)
    requires pk in t.counts
  {
    var n := t.counts[pk];
    && IsUuidV4(n.countId) && n.expected >= 0 && n.observed >= 0
    && n.skuId in t.skus && n.warehouse == t.skus[n.skuId].warehouse
    && t.skus[n.skuId].clientId == Some(n.clientId) && n.clientId != ""
    && TelemetryWarehouse(n.warehouse).Some?
    && (if n.expected == n.observed then OutboxKey(PhysicalCountTable, pk) !in t.outbox
        else Holds(t, OutboxKey(PhysicalCountTable, pk), n.confirmedAt,
          DiscrepancyTags(TelemetryWarehouse(n.warehouse), n.clientId, n.skuId, t.skus[n.skuId].category,
            n.expected, n.observed, n.countId)))
  }

  /** Consistency of all rows, but for the order a running transaction has not finished. */
  ghost predicate GoodExcept(t: Tables, pending: Option<nat>) {
    && Bounded(t) && Known(t) && Unique(t)
    && (forall pk :: pk in t.entries ==> EntryOk(t, pk))
    && (forall pk :: pk in t.exits ==> ExitOk(t, pk))
    && (forall pk :: pk in t.counts ==> CountOk(t, pk))
    && (forall pk :: pk in t.orders && pending != Some(pk) ==> OrderOk(t, pk))
  }

  ghost predicate Good(t: Tables) { GoodExcept(t, None) }

  // ----- frames -----

  lemma EntryOkKept(t: Tables, t': Tables, pk: nat)
    requires Bounded(t) && Extends(t, t') && pk in t.entries && EntryOk(t, pk)
    ensures EntryOk(t', pk)
  {
    assert t'.entries[pk] == t.entries[pk];
    assert Inbound(pk) in t'.checkpoints;
    assert Next(t, StockEntryTable) == t.nextEntry;
  }

  lemma ExitOkKept(t: Tables, t': Tables, pk: nat)
    requires Bounded(t) && Extends(t, t') && pk in t.exits && ExitOk(t, pk)
    ensures ExitOk(t', pk)
  {
    assert t'.exits[pk] == t.exits[pk];
    assert Outbound(pk) in t'.checkpoints;
    assert Next(t, StockExitTable) == t.nextExit;
  }

  lemma CountOkKept(t: Tables, t': Tables, pk: nat)
    requires Bounded(t) && Extends(t, t') && pk in t.counts && CountOk(t, pk)
    ensures CountOk(t', pk)
  {
    assert t'.counts[pk] == t.counts[pk];
    assert Next(t, PhysicalCountTable) == t.nextCount;
  }

  lemma OrderOkKept(t: Tables, t': Tables, pk: nat)
    requires Bounded(t) && Extends(t, t') && pk in t.orders && OrderOk(t, pk)
    ensures OrderOk(t', pk)
  {
    assert t'.orders[pk] == t.orders[pk];
    var x :| x in t.exits && t.exits[x].orderPk == Some(pk);
    assert x in t'.exits && t'.exits[x] == t.exits[x];
  }

  /** Old rows stay consistent; only the rows a step adds need a proof. */
  lemma GoodKept(t: Tables, t': Tables, pending: Option<nat>)
    requires GoodExcept(t, pending) && Extends(t, t')
    requires Bounded(t') && Known(t') && Unique(t')
    requires forall pk :: pk in t'.entries && pk !in t.entries ==> EntryOk(t', pk)
    requires forall pk :: pk in t'.exits && pk !in t.exits ==> ExitOk(t', pk)
    requires forall pk :: pk in t'.counts && pk !in t.counts ==> CountOk(t', pk)
    requires forall pk :: pk in t'.orders && pk !in t.orders && pending != Some(pk) ==> OrderOk(t', pk)
    ensures GoodExcept(t', pending)
  {
    forall pk | pk in t.entries ensures EntryOk(t', pk) { EntryOkKept(t, t', pk); }
    forall pk | pk in t.exits ensures ExitOk(t', pk) { ExitOkKept(t, t', pk); }
    forall pk | pk in t.counts ensures CountOk(t', pk) { CountOkKept(t, t', pk); }
    forall pk | pk in t.orders && pending != Some(pk) ensures OrderOk(t', pk) { OrderOkKept(t, t', pk); }
  }
}
