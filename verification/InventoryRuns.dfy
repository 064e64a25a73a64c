/** Safety over every run of inventory commands. */
module InventoryRuns {
  import opened Basics
  import opened Identifiers
  import opened Vocabulary
  import opened InventoryTables
  import opened InventoryCommands
  import opened InventoryInvariants
  import opened InventorySteps
  import opened InventoryLedger
  import opened InventoryOrders

  /** Consistent rows and balanced books. */
  ghost predicate Sound(t: Tables) { Good(t) && Balanced(t) }

  ghost predicate Kept(t: Tables, t': Tables) { Sound(t') && Extends(t, t') }

  predicate Wrote(reply: Reply) { reply.Created? || reply.Done? }

  lemma KeptSame(t: Tables)
    requires Sound(t)
    ensures Kept(t, t)
  {
    hide Good, Balanced, Extends;
    ExtendsItself(t);
  }

  lemma SkuChangeExtends(t: Tables, id: int, sku: Sku)
    requires id in t.skus ==> SameProduct(t.skus[id], sku)
    ensures Extends(t, t.(skus := t.skus[id := sku]))
  {
  }

  lemma SkuChangeSound(t: Tables, id: int, sku: Sku)
    requires Bounded(t) && Known(t) && Unique(t)
    ensures var t' := t.(skus := t.skus[id := sku]); Bounded(t') && Known(t') && Unique(t')
  {
    hide Unique, Bounded;
    SkuChangeUnique(t, id, sku);
    SkuChangeBounded(t, id, sku);
  }

  lemma SkuChangeBounded(t: Tables, id: int, sku: Sku)
    requires Bounded(t)
    ensures Bounded(t.(skus := t.skus[id := sku]))
  {
  }

  lemma SkuChangeUnique(t: Tables, id: int, sku: Sku)
    requires Unique(t)
    ensures Unique(t.(skus := t.skus[id := sku]))
  {
  }

  lemma SkuChangeKeeps(t: Tables, id: int, sku: Sku)
    requires Sound(t) && (id in t.skus ==> SameProduct(t.skus[id], sku))
    ensures Kept(t, t.(skus := t.skus[id := sku]))
  {
    var t' := t.(skus := t.skus[id := sku]);
    SkuChangeExtends(t, id, sku);
    SkuChangeSound(t, id, sku);
    GoodKept(t, t', None);
    BalancedFrame(t, t');
  }

  lemma EnterStockBalanced(t: Tables, skuId: int, quantity: nat, reference: string, warehouse: string, env: Env)
    requires Sound(t) && quantity > 0
    requires EnterStockSpec(t, skuId, quantity, reference, warehouse, env).reply.Created?
    ensures Balanced(EnterStockSpec(t, skuId, quantity, reference, warehouse, env).tables)
  {
    EnterStockShape(t, skuId, quantity, reference, warehouse, env);
    var e := StockEntry(skuId, quantity, reference, warehouse, env.now, env.user);
    WithEntryBalanced(t, e, EntryCheckpoint(t, e, Stock(t, skuId, warehouse)), EntryEvent(t, e, env.eventId));
  }

  lemma ExitStockKeeps(t: Tables, skuId: int, quantity: nat, exitType: ExitType, tracking: Option<string>,
                       warehouse: string, env: Env)
    requires Sound(t) && quantity > 0
    requires ExitStockSpec(t, skuId, quantity, exitType, tracking, warehouse, env).reply.Created?
    ensures var t' := ExitStockSpec(t, skuId, quantity, exitType, tracking, warehouse, env).tables;
      Sound(t') && Extends(t, t')
  {
    var x := StockExit(skuId, quantity, exitType, tracking, warehouse, env.now, env.user, None, None);
    AddExitKeeps(t, x, env.eventId, None);
    AddExitBalanced(t, x, env.eventId);
  }

  lemma ConfirmCountBalanced(t: Tables, countId: string, skuId: int, observed: nat, warehouse: string, env: Env)
    requires Sound(t)
    requires ConfirmCountSpec(t, countId, skuId, observed, warehouse, env).reply.Created?
    requires Extends(t, ConfirmCountSpec(t, countId, skuId, observed, warehouse, env).tables)
    ensures Balanced(ConfirmCountSpec(t, countId, skuId, observed, warehouse, env).tables)
  {
    ConfirmCountShape(t, countId, skuId, observed, warehouse, env);
    BalancedFrame(t, ConfirmCountSpec(t, countId, skuId, observed, warehouse, env).tables);
  }

  /** A command that reports a failure, or finds its work already done, changes no table. */
  lemma FailureChangesNothing(t: Tables, c: Command, env: Env)
    requires !Wrote(Execute(t, c, env).reply)
    ensures Execute(t, c, env).tables == t
  {
  }

  lemma EnterStockKept(t: Tables, skuId: int, quantity: nat, reference: string, warehouse: string, env: Env)
    requires Sound(t) && quantity > 0 && TelemetryWarehouse(warehouse).Some?
    ensures Kept(t, EnterStockSpec(t, skuId, quantity, reference, warehouse, env).tables)
  {
    if EnterStockSpec(t, skuId, quantity, reference, warehouse, env).reply.Created? {
      EnterStockKeeps(t, skuId, quantity, reference, warehouse, env);
      EnterStockBalanced(t, skuId, quantity, reference, warehouse, env);
    } else {
      KeptSame(t);
    }
  }

  lemma ConfirmCountKept(t: Tables, countId: string, skuId: int, observed: nat, warehouse: string, env: Env)
    requires Sound(t) && IsUuidV4(countId) && TelemetryWarehouse(warehouse).Some?
    ensures Kept(t, ConfirmCountSpec(t, countId, skuId, observed, warehouse, env).tables)
  {
    if ConfirmCountSpec(t, countId, skuId, observed, warehouse, env).reply.Created? {
      ConfirmCountKeeps(t, countId, skuId, observed, warehouse, env);
      ConfirmCountBalanced(t, countId, skuId, observed, warehouse, env);
    } else {
      KeptSame(t);
    }
  }

  lemma CreateOrderKept(t: Tables, orderId: string, clientId: string, warehouse: string, items: seq<Item>, env: Env)
    requires Sound(t) && ValidPayload(CreateOrder(orderId, clientId, warehouse, items))
    ensures Kept(t, CreateOrderSpec(t, orderId, clientId, warehouse, items, env).tables)
  {
    if CreateOrderSpec(t, orderId, clientId, warehouse, items, env).reply.Created? {
      CreateOrderKeeps(t, orderId, clientId, warehouse, items, env);
    } else {
      CreateOrderFailure(t, orderId, clientId, warehouse, items, env);
      KeptSame(t);
    }
  }

  lemma CreateOrderFailure(t: Tables, orderId: string, clientId: string, warehouse: string, items: seq<Item>, env: Env)
    requires !CreateOrderSpec(t, orderId, clientId, warehouse, items, env).reply.Created?
    ensures CreateOrderSpec(t, orderId, clientId, warehouse, items, env).tables == t
  {
  }

  /** Each command keeps every row consistent, the books balanced, and all earlier rows. */
  lemma ExecuteKeeps(t: Tables, c: Command, env: Env)
    requires Sound(t)
    ensures Kept(t, Execute(t, c, env).tables)
  {
    hide Good, Balanced, Extends, OrderPlaced, EnterStockSpec, ConfirmCountSpec, CreateOrderSpec;
    KeptSame(t);
    if ValidPayload(c) {
      match c
      case AddSku(id, sku) => if id !in t.skus { SkuChangeKeeps(t, id, sku); }
      case SetThreshold(skuId, threshold) =>
        if skuId in t.skus { SkuChangeKeeps(t, skuId, t.skus[skuId].(threshold := threshold)); }
      case EnterStock(skuId, quantity, reference, warehouse) =>
        EnterStockKept(t, skuId, quantity, reference, warehouse, env);
      case ExitStock(skuId, quantity, exitType, tracking, warehouse) =>
        if ExitStockSpec(t, skuId, quantity, exitType, tracking, warehouse, env).reply.Created? {
          ExitStockKeeps(t, skuId, quantity, exitType, tracking, warehouse, env);
        }
      case ConfirmCount(countId, skuId, observed, warehouse) =>
        ConfirmCountKept(t, countId, skuId, observed, warehouse, env);
      case CreateOrder(orderId, clientId, warehouse, items) =>
        CreateOrderKept(t, orderId, clientId, warehouse, items, env);
      case AppendDispatches(orderId, items) =>
        if AppendSpec(t, orderId, items, env).reply.Done? { AppendKeeps(t, orderId, items, env); }
    }
  }

  lemma FreshSound(t: Tables)
    requires Fresh(t)
    ensures Sound(t)
  {
    forall s: int, w: string ensures Stock(t, s, w) == 0 {
      assert Received(t.entries, s, w) == {} && Shipped(t.exits, s, w) == {};
    }
  }

  /** Every state reachable by commands is sound, whatever the legacy SKU rows were. */
  lemma {:induction false} RunSound(t: Tables, calls: seq<Call>)
    requires Sound(t)
    ensures Sound(RunAll(t, calls)) && Extends(t, RunAll(t, calls))
  {
    if calls != [] {
      var before, last := calls[..|calls| - 1], calls[|calls| - 1];
      RunSound(t, before);
      ExecuteKeeps(RunAll(t, before), last.command, last.env);
      ExtendsTransitive(t, RunAll(t, before), RunAll(t, calls));
    }
  }

  /** Stock safety: computed stock is never negative, and each checkpoint is exact. */
  lemma StockSafety(t: Tables, calls: seq<Call>)
    requires Fresh(t)
    ensures var t' := RunAll(t, calls);
      && (forall s: int, w: string :: Stock(t', s, w) >= 0)
      && JournalSound(t')
      && (forall i :: 0 <= i < |t'.journal| ==>
            var c := t'.checkpoints[t'.journal[i]];
            && c.before == Level(t', i, c.skuId, c.warehouse) >= 0
            && c.after == Level(t', i + 1, c.skuId, c.warehouse) >= 0)
      && (forall s: int, w: string :: Stock(t', s, w) == Level(t', |t'.journal|, s, w))
  {
    FreshSound(t);
    RunSound(t, calls);
    var t' := RunAll(t, calls);
    forall i | 0 <= i < |t'.journal|
      ensures var c := t'.checkpoints[t'.journal[i]];
        && c.before == Level(t', i, c.skuId, c.warehouse) >= 0 && c.after == Level(t', i + 1, c.skuId, c.warehouse) >= 0
    {
      assert Exact(t', i);
    }
  }

  /** An order that passes validation is placed whole: with new UUIDs the loop cannot fail. */
  lemma ValidOrderIsPlaced(t: Tables, orderId: string, clientId: string, warehouse: string, items: seq<Item>,
                           env: Env)
    requires Sound(t) && ValidPayload(CreateOrder(orderId, clientId, warehouse, items))
    requires FindOrder(t, orderId).None? && ValidateOrder(t, items, clientId, warehouse).None?
    requires forall i :: i in items ==> !DispatchUsed(t, i.dispatchId)
    requires FreshDraws(t, SortById(items), env)
    requires IsUuidV4(env.eventId) && env.eventId !in EventIds(t.outbox)
    requires forall i :: i in items ==> env.thresholdId(i.dispatchId) != env.eventId
    ensures Execute(t, CreateOrder(orderId, clientId, warehouse, items), env).reply == Created(t.nextOrder)
  {
    hide Good, GoodExcept, Balanced, Covered, FreshDraws, ValidateOrder, FindOrder, DispatchUsed, AddDispatches,
      SortById, Execute, EventIds;
    var pk, order := t.nextOrder, CommercialOrder(orderId, clientId, warehouse, env.now);
    OrderCovered(t, order, items, env);
    AddDispatchesSucceeds(OpenOrder(t, order), SortById(items), pk, env, Some(pk));
    OrderIdUnused(t, order, items, env);
    SoundBounded(t);
    PlacedReply(t, order, items, env);
  }

  lemma SoundBounded(t: Tables)
    requires Sound(t)
    ensures Bounded(t)
  {
  }

  lemma FreshDrawsSame(t: Tables, t': Tables, items: seq<Item>, env: Env)
    requires FreshDraws(t, items, env) && t'.outbox == t.outbox
    ensures FreshDraws(t', items, env)
  {
  }

  lemma OrderCovered(t: Tables, order: CommercialOrder, items: seq<Item>, env: Env)
    requires Sound(t) && ValidItems(items) && TelemetryWarehouse(order.warehouse).Some? && order.clientId != ""
    requires FindOrder(t, order.orderId).None? && ValidateOrder(t, items, order.clientId, order.warehouse).None?
    requires forall i :: i in items ==> !DispatchUsed(t, i.dispatchId)
    requires FreshDraws(t, SortById(items), env)
    ensures var started := OpenOrder(t, order);
      && t.nextOrder in started.orders && started.orders[t.nextOrder] == order
      && Covered(started, SortById(items), t.nextOrder, env, Some(t.nextOrder))
  {
    hide Good, GoodExcept, Balanced, ValidateOrder, Extends, ValidItems, FindOrder, Admissible, FreshDraws, SortById,
      Required;
    OpenOrderKeeps(t, order);
    ValidatedStarted(t, OpenOrder(t, order), items, order.clientId, order.warehouse);
    FreshDrawsSame(t, OpenOrder(t, order), SortById(items), env);
    assert forall i :: i in items ==> !DispatchUsed(OpenOrder(t, order), i.dispatchId);
    ValidatedAdmissible(OpenOrder(t, order), items, t.nextOrder);
  }

  lemma OrderIdUnused(t: Tables, order: CommercialOrder, items: seq<Item>, env: Env)
    requires Sound(t) && ValidItems(items)
    requires Covered(OpenOrder(t, order), SortById(items), t.nextOrder, env, Some(t.nextOrder))
    requires OpenOrder(t, order).orders[t.nextOrder] == order
    requires AddDispatches(OpenOrder(t, order), SortById(items), t.nextOrder, order.warehouse, env).Some?
    requires env.eventId !in EventIds(t.outbox)
    requires forall i :: i in items ==> env.thresholdId(i.dispatchId) != env.eventId
    ensures var filled := AddDispatches(OpenOrder(t, order), SortById(items), t.nextOrder, order.warehouse, env).value;
      env.eventId !in EventIds(filled.outbox) && OutboxKey(CommercialOrderTable, t.nextOrder) !in filled.outbox
  {
    hide GoodExcept, Balanced, Extends, AddDispatches, Good, EventIds, SortById, ValidItems, FreshDraws, Stock;
    SortByIdKeeps(items) by { ItemsDistinct(items); }
    DrawsOnly(OpenOrder(t, order), SortById(items), t.nextOrder, order.warehouse, env);
    NextOrderHasNoEvent(t);
    AddDispatchesKeeps(OpenOrder(t, order), SortById(items), t.nextOrder, env, Some(t.nextOrder));
  }

  lemma ItemsDistinct(items: seq<Item>)
    requires ValidItems(items)
    ensures DistinctIds(items)
  {
  }

  lemma NextOrderHasNoEvent(t: Tables)
    requires Good(t)
    ensures OutboxKey(CommercialOrderTable, t.nextOrder) !in t.outbox
  {
  }

  lemma PlacedReply(t: Tables, order: CommercialOrder, items: seq<Item>, env: Env)
    requires ValidPayload(CreateOrder(order.orderId, order.clientId, order.warehouse, items))
    requires order.createdAt == env.now && Bounded(t)
    requires FindOrder(t, order.orderId).None? && ValidateOrder(t, items, order.clientId, order.warehouse).None?
    requires forall i :: i in items ==> !DispatchUsed(t, i.dispatchId)
    requires AddDispatches(OpenOrder(t, order), SortById(items), t.nextOrder, order.warehouse, env).Some?
    requires var filled := AddDispatches(OpenOrder(t, order), SortById(items), t.nextOrder, order.warehouse, env).value;
      env.eventId !in EventIds(filled.outbox) && OutboxKey(CommercialOrderTable, t.nextOrder) !in filled.outbox
    requires IsUuidV4(env.eventId)
    ensures Execute(t, CreateOrder(order.orderId, order.clientId, order.warehouse, items), env).reply
      == Created(t.nextOrder)
  {
    hide SortById, AddDispatches, ValidateOrder, FindOrder, ValidItems, DispatchUsed;
  }

  /** The dispatch loop enqueues no event id but the ones drawn for its items. */
  lemma {:induction false} DrawsOnly(t: Tables, items: seq<Item>, orderPk: nat, warehouse: string, env: Env)
    requires AddDispatches(t, items, orderPk, warehouse, env).Some?
    ensures forall id :: id in EventIds(AddDispatches(t, items, orderPk, warehouse, env).value.outbox) ==>
      id in EventIds(t.outbox) || exists i :: i in items && id == env.thresholdId(i.dispatchId)
    decreases items
  {
    if items != [] {
      var id := env.thresholdId(items[0].dispatchId);
      AddExitFrame(t, DispatchRow(items[0], orderPk, warehouse, env), id);
      var t1 := AddExit(t, DispatchRow(items[0], orderPk, warehouse, env), id).value;
      DrawsOnly(t1, items[1..], orderPk, warehouse, env);
    }
  }

  // ----- one event per order -----

  /** The source table fixes the event type of every row. */
  lemma RowEventType(t: Tables, k: OutboxKey)
    requires Good(t) && k in t.outbox
    ensures t.outbox[k].eventType == SourceEvent(k.source)
  {
    match k.source
    case StockEntryTable => assert EntryOk(t, k.pk);
    case StockExitTable => assert ExitOk(t, k.pk);
    case CommercialOrderTable => assert OrderOk(t, k.pk);
    case PhysicalCountTable => assert CountOk(t, k.pk);
  }

  predicate IsEventOf(t: Tables, k: OutboxKey, orderId: string) {
    && k in t.outbox && t.outbox[k].eventType == OutboundOrderCreated
    && OrderId in t.outbox[k].tags && t.outbox[k].tags[OrderId] == JStr(orderId)
  }

  /** Each order has exactly one `outbound_order_created` row, ever. */
  lemma OneEventPerOrder(t: Tables, pk: nat)
    requires Good(t) && pk in t.orders
    ensures forall k :: IsEventOf(t, k, t.orders[pk].orderId) <==> k == OutboxKey(CommercialOrderTable, pk)
  {
    hide Good;
    OrderEventTags(t, pk);
    forall k | IsEventOf(t, k, t.orders[pk].orderId) ensures k == OutboxKey(CommercialOrderTable, pk) {
      RowEventType(t, k);
      OrderOfRow(t, k.pk, pk);
    }
  }

  lemma OrderEventTags(t: Tables, pk: nat)
    requires Good(t) && pk in t.orders
    ensures IsEventOf(t, OutboxKey(CommercialOrderTable, pk), t.orders[pk].orderId)
  {
    assert OrderOk(t, pk);
  }

  lemma OrderOfRow(t: Tables, row: nat, pk: nat)
    requires Good(t) && pk in t.orders && IsEventOf(t, OutboxKey(CommercialOrderTable, row), t.orders[pk].orderId)
    ensures row == pk
  {
    hide Good, Unique;
    GoodOrders(t, row, pk);
  }

  lemma GoodOrders(t: Tables, row: nat, pk: nat)
    requires Good(t) && pk in t.orders && OutboxKey(CommercialOrderTable, row) in t.outbox
    ensures row in t.orders && OrderOk(t, row)
    ensures t.orders[row].orderId == t.orders[pk].orderId ==> row == pk
  {
  }
}
