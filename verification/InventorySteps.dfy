/** Every command keeps the tables consistent; failed commands change nothing. */
module InventorySteps {
  import opened Basics
  import opened Identifiers
  import opened Vocabulary
  import opened InventoryTables
  import opened InventoryCommands
  import opened InventoryInvariants

  predicate ExitFits(t: Tables, x: StockExit) {
    && x.quantity > 0 && x.skuId in t.skus && x.warehouse == t.skus[x.skuId].warehouse
    && (x.dispatchId.Some? <==> x.orderPk.Some?) && (x.dispatchId.Some? ==> IsUuidV4(x.dispatchId.value))
    && (x.orderPk.Some? ==>
          (x.exitType == Dispatch && x.orderPk.value in t.orders
           && t.orders[x.orderPk.value].warehouse == x.warehouse
           && t.skus[x.skuId].clientId == Some(t.orders[x.orderPk.value].clientId)))
  }

  /** The event a step may enqueue: `None` where it enqueues nothing. */
  function WithEvent(outbox: map<OutboxKey, OutboxRow>, key: OutboxKey, row: Option<OutboxRow>):
      map<OutboxKey, OutboxRow> {
    if row.Some? then outbox[key := row.value] else outbox
  }

  function WithExit(t: Tables, x: StockExit, c: Checkpoint, row: Option<OutboxRow>): Tables {
    t.(exits := t.exits[t.nextExit := x], nextExit := t.nextExit + 1,
       checkpoints := t.checkpoints[Outbound(t.nextExit) := c], journal := t.journal + [Outbound(t.nextExit)],
       outbox := WithEvent(t.outbox, OutboxKey(StockExitTable, t.nextExit), row))
  }

  predicate NewEvent(t: Tables, row: Option<OutboxRow>, source: SourceTable, now: int) {
    row.Some? ==>
      (row.value.eventId !in EventIds(t.outbox) && IsUuidV4(row.value.eventId)
       && row.value.occurredAt == now && row.value.eventType == SourceEvent(source))
  }

  lemma WithExitRowsKept(t: Tables, x: StockExit, c: Checkpoint, row: Option<OutboxRow>)
    requires Bounded(t)
    ensures RowsKept(t, WithExit(t, x, c, row))
  {
  }

  lemma WithExitNewKeys(t: Tables, x: StockExit, c: Checkpoint, row: Option<OutboxRow>)
    ensures NewKeysFresh(t, WithExit(t, x, c, row))
  {
  }

  lemma WithExitBounded(t: Tables, x: StockExit, c: Checkpoint, row: Option<OutboxRow>)
    requires Bounded(t)
    ensures Bounded(WithExit(t, x, c, row))
  {
  }

  lemma WithExitExtends(t: Tables, x: StockExit, c: Checkpoint, row: Option<OutboxRow>)
    requires Bounded(t)
    ensures Extends(t, WithExit(t, x, c, row)) && Bounded(WithExit(t, x, c, row))
  {
    hide Bounded, RowsKept, NewKeysFresh;
    WithExitRowsKept(t, x, c, row);
    WithExitNewKeys(t, x, c, row);
    WithExitBounded(t, x, c, row);
  }

  lemma WithExitUnique(t: Tables, x: StockExit, c: Checkpoint, row: Option<OutboxRow>)
    requires Bounded(t) && Known(t) && Unique(t) && NewEvent(t, row, StockExitTable, x.createdAt)
    requires x.dispatchId.Some? ==> !DispatchUsed(t, x.dispatchId.value)
    ensures Unique(WithExit(t, x, c, row)) && Known(WithExit(t, x, c, row))
  {
  }

  lemma WithExitKeeps(t: Tables, x: StockExit, c: Checkpoint, row: Option<OutboxRow>, pending: Option<nat>)
    requires GoodExcept(t, pending) && NewEvent(t, row, StockExitTable, x.createdAt)
    requires x.dispatchId.Some? ==> !DispatchUsed(t, x.dispatchId.value)
    requires ExitOk(WithExit(t, x, c, row), t.nextExit)
    ensures GoodExcept(WithExit(t, x, c, row), pending) && Extends(t, WithExit(t, x, c, row))
  {
    WithExitExtends(t, x, c, row);
    WithExitUnique(t, x, c, row);
    GoodKept(t, WithExit(t, x, c, row), pending);
  }

  // ----- outbound movements -----

  function ExitEvent(t: Tables, x: StockExit, before: int, eventId: string): Option<OutboxRow>
    requires x.skuId in t.skus
  {
    var sku := t.skus[x.skuId];
    if !Crosses(sku.threshold, before, before - x.quantity) then None
    else Some(OutboxRow(eventId, x.createdAt, StockThresholdTriggered,
      ThresholdTags(TelemetryWarehouse(sku.warehouse), sku.clientId, x.skuId, sku.category,
        before - x.quantity, sku.threshold.value, t.nextExit), None, 0, None))
  }

  function ExitCheckpoint(t: Tables, x: StockExit, before: int, eventId: string): Checkpoint
    requires x.skuId in t.skus
  {
    var sku := t.skus[x.skuId];
    var crossed := Crosses(sku.threshold, before, before - x.quantity);
    Checkpoint(x.skuId, sku.clientId, sku.warehouse, before, before - x.quantity, sku.threshold, crossed,
      if crossed then Some(eventId) else None, x.createdAt)
  }

  lemma AddExitShape(t: Tables, x: StockExit, eventId: string)
    requires x.skuId in t.skus && AddExit(t, x, eventId).Some?
    ensures var before := Stock(t, x.skuId, x.warehouse);
      && AddExit(t, x, eventId).value ==
           WithExit(t, x, ExitCheckpoint(t, x, before, eventId), ExitEvent(t, x, before, eventId))
      && before >= 0 && before - x.quantity >= 0
      && NewEvent(t, ExitEvent(t, x, before, eventId), StockExitTable, x.createdAt)
      && (ExitEvent(t, x, before, eventId).Some? ==>
            TelemetryWarehouse(t.skus[x.skuId].warehouse).Some? && HasClient(t.skus[x.skuId]))
  {
  }

  lemma NewExitOk(t: Tables, x: StockExit, before: int, eventId: string)
    requires Bounded(t) && ExitFits(t, x) && NewEvent(t, ExitEvent(t, x, before, eventId), StockExitTable, x.createdAt)
    requires ExitEvent(t, x, before, eventId).Some? ==>
      TelemetryWarehouse(t.skus[x.skuId].warehouse).Some? && HasClient(t.skus[x.skuId])
    ensures ExitOk(WithExit(t, x, ExitCheckpoint(t, x, before, eventId), ExitEvent(t, x, before, eventId)), t.nextExit)
  {
  }

  lemma AddExitKeeps(t: Tables, x: StockExit, eventId: string, pending: Option<nat>)
    requires GoodExcept(t, pending) && ExitFits(t, x) && AddExit(t, x, eventId).Some?
    requires x.dispatchId.Some? ==> !DispatchUsed(t, x.dispatchId.value)
    ensures GoodExcept(AddExit(t, x, eventId).value, pending) && Extends(t, AddExit(t, x, eventId).value)
  {
    var before := Stock(t, x.skuId, x.warehouse);
    AddExitShape(t, x, eventId);
    NewExitOk(t, x, before, eventId);
    WithExitKeeps(t, x, ExitCheckpoint(t, x, before, eventId), ExitEvent(t, x, before, eventId), pending);
  }

  // ----- inbound movements -----

  function WithEntry(t: Tables, e: StockEntry, c: Checkpoint, row: Option<OutboxRow>): Tables {
    t.(entries := t.entries[t.nextEntry := e], nextEntry := t.nextEntry + 1,
       checkpoints := t.checkpoints[Inbound(t.nextEntry) := c], journal := t.journal + [Inbound(t.nextEntry)],
       outbox := WithEvent(t.outbox, OutboxKey(StockEntryTable, t.nextEntry), row))
  }

  lemma WithEntryRowsKept(t: Tables, e: StockEntry, c: Checkpoint, row: Option<OutboxRow>)
    requires Bounded(t)
    ensures RowsKept(t, WithEntry(t, e, c, row))
  {
  }

  lemma WithEntryNewKeys(t: Tables, e: StockEntry, c: Checkpoint, row: Option<OutboxRow>)
    ensures NewKeysFresh(t, WithEntry(t, e, c, row))
  {
  }

  lemma WithEntryBounded(t: Tables, e: StockEntry, c: Checkpoint, row: Option<OutboxRow>)
    requires Bounded(t)
    ensures Bounded(WithEntry(t, e, c, row))
  {
  }

  lemma WithEntryExtends(t: Tables, e: StockEntry, c: Checkpoint, row: Option<OutboxRow>)
    requires Bounded(t)
    ensures Extends(t, WithEntry(t, e, c, row)) && Bounded(WithEntry(t, e, c, row))
  {
    hide Bounded, RowsKept, NewKeysFresh;
    WithEntryRowsKept(t, e, c, row);
    WithEntryNewKeys(t, e, c, row);
    WithEntryBounded(t, e, c, row);
  }

  lemma WithEntryUnique(t: Tables, e: StockEntry, c: Checkpoint, row: Option<OutboxRow>)
    requires Bounded(t) && Known(t) && Unique(t) && NewEvent(t, row, StockEntryTable, e.createdAt)
    ensures Unique(WithEntry(t, e, c, row)) && Known(WithEntry(t, e, c, row))
  {
  }

  lemma WithEntryKeeps(t: Tables, e: StockEntry, c: Checkpoint, row: Option<OutboxRow>)
    requires Good(t) && NewEvent(t, row, StockEntryTable, e.createdAt)
    requires EntryOk(WithEntry(t, e, c, row), t.nextEntry)
    ensures Good(WithEntry(t, e, c, row)) && Extends(t, WithEntry(t, e, c, row))
  {
    WithEntryExtends(t, e, c, row);
    WithEntryUnique(t, e, c, row);
    GoodKept(t, WithEntry(t, e, c, row), None);
  }

  function EntryEvent(t: Tables, e: StockEntry, eventId: string): Option<OutboxRow>
    requires e.skuId in t.skus
  {
    var sku := t.skus[e.skuId];
    if sku.clientId.None? || TelemetryWarehouse(e.warehouse).None? then None
    else Some(OutboxRow(eventId, e.createdAt, InboundOrderCreated,
      InboundTags(TelemetryWarehouse(e.warehouse), sku.clientId, e.skuId, sku.category, e.quantity, t.nextEntry),
      None, 0, None))
  }

  function EntryCheckpoint(t: Tables, e: StockEntry, before: int): Checkpoint
    requires e.skuId in t.skus
  {
    var sku := t.skus[e.skuId];
    Checkpoint(e.skuId, sku.clientId, sku.warehouse, before, before + e.quantity, sku.threshold, false, None,
      e.createdAt)
  }

  lemma EnterStockShape(t: Tables, skuId: int, quantity: nat, reference: string, warehouse: string, env: Env)
    requires EnterStockSpec(t, skuId, quantity, reference, warehouse, env).reply.Created?
    ensures skuId in t.skus && warehouse == t.skus[skuId].warehouse
    ensures var e := StockEntry(skuId, quantity, reference, warehouse, env.now, env.user);
      var before := Stock(t, skuId, warehouse);
      && EnterStockSpec(t, skuId, quantity, reference, warehouse, env).tables ==
           WithEntry(t, e, EntryCheckpoint(t, e, before), EntryEvent(t, e, env.eventId))
      && before >= 0 && NewEvent(t, EntryEvent(t, e, env.eventId), StockEntryTable, env.now)
  {
    hide Stock, InboundTags, TelemetryWarehouse, IsUuidV4, EventIds;
  }

  lemma NewEntryOk(t: Tables, e: StockEntry, before: int, eventId: string)
    requires Bounded(t) && e.skuId in t.skus && e.quantity > 0 && e.warehouse == t.skus[e.skuId].warehouse
    requires TelemetryWarehouse(e.warehouse).Some?
    requires NewEvent(t, EntryEvent(t, e, eventId), StockEntryTable, e.createdAt)
    ensures EntryOk(WithEntry(t, e, EntryCheckpoint(t, e, before), EntryEvent(t, e, eventId)), t.nextEntry)
  {
  }

  lemma EnterStockKeeps(t: Tables, skuId: int, quantity: nat, reference: string, warehouse: string, env: Env)
    requires Good(t) && quantity > 0 && TelemetryWarehouse(warehouse).Some?
    requires EnterStockSpec(t, skuId, quantity, reference, warehouse, env).reply.Created?
    ensures Good(EnterStockSpec(t, skuId, quantity, reference, warehouse, env).tables)
    ensures Extends(t, EnterStockSpec(t, skuId, quantity, reference, warehouse, env).tables)
  {
    EnterStockShape(t, skuId, quantity, reference, warehouse, env);
    var e := StockEntry(skuId, quantity, reference, warehouse, env.now, env.user);
    NewEntryOk(t, e, Stock(t, skuId, warehouse), env.eventId);
    WithEntryKeeps(t, e, EntryCheckpoint(t, e, Stock(t, skuId, warehouse)), EntryEvent(t, e, env.eventId));
  }

  // ----- physical counts -----

  function WithCount(t: Tables, n: PhysicalCount, row: Option<OutboxRow>): Tables {
    t.(counts := t.counts[t.nextCount := n], nextCount := t.nextCount + 1,
       outbox := WithEvent(t.outbox, OutboxKey(PhysicalCountTable, t.nextCount), row))
  }

  lemma WithCountExtends(t: Tables, n: PhysicalCount, row: Option<OutboxRow>)
    requires Bounded(t)
    ensures Extends(t, WithCount(t, n, row)) && Bounded(WithCount(t, n, row))
  {
    WithCountBounded(t, n, row);
    hide NewKeysFresh;
    WithCountNewKeys(t, n, row);
  }

  lemma WithCountNewKeys(t: Tables, n: PhysicalCount, row: Option<OutboxRow>)
    ensures NewKeysFresh(t, WithCount(t, n, row))
  {
  }

  lemma WithCountBounded(t: Tables, n: PhysicalCount, row: Option<OutboxRow>)
    requires Bounded(t)
    ensures Bounded(WithCount(t, n, row))
  {
  }

  lemma WithCountUnique(t: Tables, n: PhysicalCount, row: Option<OutboxRow>)
    requires Bounded(t) && Known(t) && Unique(t) && NewEvent(t, row, PhysicalCountTable, n.confirmedAt)
    requires FindCount(t, n.countId).None?
    ensures Unique(WithCount(t, n, row)) && Known(WithCount(t, n, row))
  {
  }

  lemma WithCountKeeps(t: Tables, n: PhysicalCount, row: Option<OutboxRow>)
    requires Good(t) && NewEvent(t, row, PhysicalCountTable, n.confirmedAt) && FindCount(t, n.countId).None?
    requires CountOk(WithCount(t, n, row), t.nextCount)
    ensures Good(WithCount(t, n, row)) && Extends(t, WithCount(t, n, row))
  {
    WithCountExtends(t, n, row);
    WithCountUnique(t, n, row);
    GoodKept(t, WithCount(t, n, row), None);
  }

  function CountEvent(t: Tables, n: PhysicalCount, eventId: string): Option<OutboxRow>
    requires n.skuId in t.skus
  {
    if n.expected == n.observed then None
    else Some(OutboxRow(eventId, n.confirmedAt, InventoryDiscrepancyDetected,
      DiscrepancyTags(TelemetryWarehouse(n.warehouse), n.clientId, n.skuId, t.skus[n.skuId].category,
        n.expected, n.observed, n.countId), None, 0, None))
  }

  lemma ConfirmCountShape(t: Tables, countId: string, skuId: int, observed: nat, warehouse: string, env: Env)
    requires ConfirmCountSpec(t, countId, skuId, observed, warehouse, env).reply.Created?
    ensures skuId in t.skus && warehouse == t.skus[skuId].warehouse && HasClient(t.skus[skuId])
    ensures FindCount(t, countId).None?
    ensures var n := PhysicalCount(countId, skuId, t.skus[skuId].clientId.value, warehouse,
        Stock(t, skuId, warehouse), observed, env.now, env.user);
      && ConfirmCountSpec(t, countId, skuId, observed, warehouse, env).tables ==
           WithCount(t, n, CountEvent(t, n, env.eventId))
      && n.expected >= 0 && NewEvent(t, CountEvent(t, n, env.eventId), PhysicalCountTable, env.now)
  {
  }

  lemma ConfirmCountKeeps(t: Tables, countId: string, skuId: int, observed: nat, warehouse: string, env: Env)
    requires Good(t) && IsUuidV4(countId) && TelemetryWarehouse(warehouse).Some?
    requires ConfirmCountSpec(t, countId, skuId, observed, warehouse, env).reply.Created?
    ensures Good(ConfirmCountSpec(t, countId, skuId, observed, warehouse, env).tables)
    ensures Extends(t, ConfirmCountSpec(t, countId, skuId, observed, warehouse, env).tables)
  {
    ConfirmCountShape(t, countId, skuId, observed, warehouse, env);
    var n := PhysicalCount(countId, skuId, t.skus[skuId].clientId.value, warehouse,
      Stock(t, skuId, warehouse), observed, env.now, env.user);
    var row := CountEvent(t, n, env.eventId);
    NewCountOk(t, n, env.eventId);
    WithCountKeeps(t, n, row);
  }

  lemma NewCountOk(t: Tables, n: PhysicalCount, eventId: string)
    requires Bounded(t) && IsUuidV4(n.countId) && n.expected >= 0 && n.observed >= 0 && n.skuId in t.skus
    requires n.warehouse == t.skus[n.skuId].warehouse && TelemetryWarehouse(n.warehouse).Some?
    requires t.skus[n.skuId].clientId == Some(n.clientId) && n.clientId != ""
    requires NewEvent(t, CountEvent(t, n, eventId), PhysicalCountTable, n.confirmedAt)
    ensures CountOk(WithCount(t, n, CountEvent(t, n, eventId)), t.nextCount)
  {
  }
}
