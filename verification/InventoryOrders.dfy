/** Order commands: the dispatch loop, its stock guard, and the order event. */
module InventoryOrders {
  import opened Basics
  import opened Identifiers
  import opened Vocabulary
  import opened InventoryTables
  import opened InventoryCommands
  import opened InventoryInvariants
  import opened InventorySteps
  import opened InventoryLedger

  // ----- sorting by dispatch id -----

  lemma {:induction false} InsertedRequired(item: Item, sorted: seq<Item>, s: int)
    ensures Required(InsertById(item, sorted), s) == Required([item], s) + Required(sorted, s)
  {
    if sorted == [] || Less(item.dispatchId, sorted[0].dispatchId) {
      assert ([item] + sorted)[1..] == sorted;
    } else {
      InsertedRequired(item, sorted[1..], s);
      assert ([sorted[0]] + InsertById(item, sorted[1..]))[1..] == InsertById(item, sorted[1..]);
    }
  }

  lemma {:induction false} InsertMembers(item: Item, sorted: seq<Item>)
    ensures forall i :: i in InsertById(item, sorted) <==> i == item || i in sorted
  {
    if sorted != [] && !Less(item.dispatchId, sorted[0].dispatchId) { InsertMembers(item, sorted[1..]); }
  }

  lemma {:induction false} SortByIdMembers(items: seq<Item>)
    ensures forall i :: i in SortById(items) <==> i in items
  {
    if items != [] {
      SortByIdMembers(items[..|items| - 1]);
      InsertMembers(items[|items| - 1], SortById(items[..|items| - 1]));
      assert items == items[..|items| - 1] + [items[|items| - 1]];
    }
  }

  lemma {:induction false} InsertDistinct(item: Item, sorted: seq<Item>)
    requires DistinctIds(sorted) && forall i :: i in sorted ==> i.dispatchId != item.dispatchId
    ensures DistinctIds(InsertById(item, sorted))
  {
    if sorted != [] && !Less(item.dispatchId, sorted[0].dispatchId) {
      var rest := InsertById(item, sorted[1..]);
      InsertDistinct(item, sorted[1..]);
      InsertMembers(item, sorted[1..]);
      assert InsertById(item, sorted) == [sorted[0]] + rest;
      forall i | i in rest ensures i.dispatchId != sorted[0].dispatchId {
        if i in sorted[1..] { var k :| 0 <= k < |sorted| - 1 && sorted[1..][k] == i; assert sorted[k + 1] == i; }
      }
    }
  }

  lemma {:induction false} RequiredSnoc(items: seq<Item>, item: Item, s: int)
    ensures Required(items + [item], s) == Required(items, s) + Required([item], s)
  {
    if items == [] {
      assert items + [item] == [item];
    } else {
      assert (items + [item])[1..] == items[1..] + [item];
      RequiredSnoc(items[1..], item, s);
    }
  }

  /** Sorting keeps the items, their distinct ids and what they require of each SKU. */
  lemma {:induction false} SortByIdKeeps(items: seq<Item>)
    requires DistinctIds(items)
    ensures DistinctIds(SortById(items))
    ensures forall i :: i in SortById(items) <==> i in items
    ensures forall s :: Required(SortById(items), s) == Required(items, s)
  {
    if items != [] {
      var front, last := items[..|items| - 1], items[|items| - 1];
      SortByIdKeeps(front);
      assert items == front + [last];
      SortByIdMembers(items);
      InsertDistinct(last, SortById(front));
      forall s ensures Required(items, s) == Required(front, s) + Required([last], s) {
        RequiredSnoc(front, last, s);
      }
      forall s ensures Required(SortById(items), s) == Required(items, s) { InsertedRequired(last, SortById(front), s); }
    }
  }

  predicate ById(items: seq<Item>) {
    forall i, j :: 0 <= i < j < |items| ==> Less(items[i].dispatchId, items[j].dispatchId)
  }

  lemma {:induction false} InsertByIdOrders(item: Item, sorted: seq<Item>)
    requires ById(sorted) && DistinctIds(sorted) && forall i :: i in sorted ==> i.dispatchId != item.dispatchId
    ensures ById(InsertById(item, sorted))
  {
    hide Less;
    if sorted != [] && Less(item.dispatchId, sorted[0].dispatchId) {
      forall j | 0 <= j < |sorted| ensures Less(item.dispatchId, sorted[j].dispatchId) {
        if j > 0 { LessTransitive(item.dispatchId, sorted[0].dispatchId, sorted[j].dispatchId); }
      }
    } else if sorted != [] {
      var rest := InsertById(item, sorted[1..]);
      InsertByIdOrders(item, sorted[1..]);
      InsertMembers(item, sorted[1..]);
      assert sorted[0] in sorted;
      LessTotal(item.dispatchId, sorted[0].dispatchId);
      forall j | 0 <= j < |rest| ensures Less(sorted[0].dispatchId, rest[j].dispatchId) {
        assert rest[j] in rest;
        if rest[j] != item {
          var k :| 0 <= k < |sorted| - 1 && sorted[1..][k] == rest[j];
          assert sorted[k + 1] == rest[j];
        }
      }
    }
  }

  /** The loop takes the items in ascending order of their dispatch ids. */
  lemma {:induction false} SortByIdOrders(items: seq<Item>)
    requires DistinctIds(items)
    ensures ById(SortById(items))
  {
    if items != [] {
      var front, last := items[..|items| - 1], items[|items| - 1];
      SortByIdOrders(front);
      SortByIdKeeps(front);
      InsertByIdOrders(last, SortById(front));
    }
  }

  // ----- the dispatch loop -----

  predicate Belongs(t: Tables, i: Item, order: CommercialOrder) {
    && i.quantity > 0 && IsUuidV4(i.dispatchId) && i.skuId in t.skus
    && t.skus[i.skuId].warehouse == order.warehouse && t.skus[i.skuId].clientId == Some(order.clientId)
  }

  /** The items may be dispatched for this order: known SKUs of its client and warehouse, unused ids. */
  ghost predicate Admissible(t: Tables, items: seq<Item>, orderPk: nat) {
    && orderPk in t.orders && DistinctIds(items)
    && (forall i :: i in items ==> !DispatchUsed(t, i.dispatchId) && Belongs(t, i, t.orders[orderPk]))
  }

  lemma AddExitFrame(t: Tables, x: StockExit, eventId: string)
    requires x.skuId in t.skus && AddExit(t, x, eventId).Some?
    ensures var t' := AddExit(t, x, eventId).value;
      && t'.skus == t.skus && t'.entries == t.entries && t'.orders == t.orders && t'.counts == t.counts
      && t'.exits == t.exits[t.nextExit := x] && t'.nextExit == t.nextExit + 1
      && t'.nextOrder == t.nextOrder && t'.nextEntry == t.nextEntry && t'.nextCount == t.nextCount
      && EventIds(t'.outbox) <= EventIds(t.outbox) + {eventId}
      && (forall k :: k in t'.outbox && k !in t.outbox ==> k.source == StockExitTable)
  {
    AddExitShape(t, x, eventId);
  }

  lemma AdmissibleRest(t: Tables, items: seq<Item>, orderPk: nat, env: Env)
    requires items != [] && Admissible(t, items, orderPk)
    requires var x := DispatchRow(items[0], orderPk, t.orders[orderPk].warehouse, env);
      AddExit(t, x, env.thresholdId(items[0].dispatchId)).Some?
    ensures var x := DispatchRow(items[0], orderPk, t.orders[orderPk].warehouse, env);
      Admissible(AddExit(t, x, env.thresholdId(items[0].dispatchId)).value, items[1..], orderPk)
  {
    var x := DispatchRow(items[0], orderPk, t.orders[orderPk].warehouse, env);
    var t' := AddExit(t, x, env.thresholdId(items[0].dispatchId)).value;
    AddExitFrame(t, x, env.thresholdId(items[0].dispatchId));
    forall i | i in items[1..] ensures i in items && !DispatchUsed(t', i.dispatchId) {
      var k :| 0 <= k < |items| - 1 && items[1..][k] == i;
      assert items[k + 1] == i && items[0].dispatchId != items[k + 1].dispatchId;
      forall y | y in t'.exits ensures t'.exits[y].dispatchId != Some(i.dispatchId) {
        assert y == t.nextExit || y in t.exits;
      }
    }
  }

  lemma AddExitBalanced(t: Tables, x: StockExit, eventId: string)
    requires Balanced(t) && Bounded(t) && x.skuId in t.skus && x.warehouse == t.skus[x.skuId].warehouse
    requires AddExit(t, x, eventId).Some?
    ensures Balanced(AddExit(t, x, eventId).value)
  {
    AddExitShape(t, x, eventId);
    var before := Stock(t, x.skuId, x.warehouse);
    WithExitBalanced(t, x, ExitCheckpoint(t, x, before, eventId), ExitEvent(t, x, before, eventId));
  }

  lemma ExtendsItself(t: Tables)
    ensures Extends(t, t)
  {
  }

  lemma GoodBounded(t: Tables, pending: Option<nat>)
    requires GoodExcept(t, pending)
    ensures Bounded(t)
  {
  }

  lemma ExitStays(t: Tables, t': Tables, x: nat)
    requires Extends(t, t') && x in t.exits
    ensures x in t'.exits && t'.exits[x] == t.exits[x]
  {
  }

  /** The dispatch loop keeps every row and the books, and records each item. */
  lemma {:induction false} AddDispatchesKeeps(t: Tables, items: seq<Item>, orderPk: nat, env: Env,
                                              pending: Option<nat>)
    requires GoodExcept(t, pending) && Balanced(t) && Admissible(t, items, orderPk)
    requires AddDispatches(t, items, orderPk, t.orders[orderPk].warehouse, env).Some?
    ensures var t' := AddDispatches(t, items, orderPk, t.orders[orderPk].warehouse, env).value;
      && GoodExcept(t', pending) && Balanced(t') && Extends(t, t')
      && t'.orders == t.orders && t'.skus == t.skus && t'.nextOrder == t.nextOrder
      && (forall k :: k in t'.outbox && k !in t.outbox ==> k.source == StockExitTable)
      && (forall i :: i in items ==> Recorded(t', i, orderPk))
    decreases items
  {
    hide GoodExcept, Balanced, AddExit, Extends, DispatchUsed;
    if items == [] {
      ExtendsItself(t);
    } else {
      var warehouse := t.orders[orderPk].warehouse;
      var x, id := DispatchRow(items[0], orderPk, warehouse, env), env.thresholdId(items[0].dispatchId);
      var t1 := AddExit(t, x, id).value;
      AddExitFrame(t, x, id);
      AddExitKeeps(t, x, id, pending);
      GoodBounded(t, pending);
      AddExitBalanced(t, x, id);
      AdmissibleRest(t, items, orderPk, env);
      AddDispatchesKeeps(t1, items[1..], orderPk, env, pending);
      var t' := AddDispatches(t1, items[1..], orderPk, warehouse, env).value;
      ExtendsTransitive(t, t1, t');
      ExitStays(t1, t', t.nextExit);
      assert t1.exits[t.nextExit] == x && t'.exits[t.nextExit] == x;
      assert Matches(t'.exits[t.nextExit], items[0], orderPk);
    }
  }

  // ----- an admitted order is never refused half-way -----

  /** The UUIDs drawn for the items' threshold events are new. */
  ghost predicate FreshDraws(t: Tables, items: seq<Item>, env: Env) {
    && (forall i :: i in items ==> IsUuidV4(env.thresholdId(i.dispatchId)))
    && (forall i :: i in items ==> env.thresholdId(i.dispatchId) !in EventIds(t.outbox))
    && (forall i, j :: 0 <= i < j < |items| ==>
          env.thresholdId(items[i].dispatchId) != env.thresholdId(items[j].dispatchId))
  }

  lemma AddExitSucceeds(t: Tables, x: StockExit, eventId: string)
    requires Bounded(t) && x.skuId in t.skus && x.warehouse == t.skus[x.skuId].warehouse && x.quantity >= 0
    requires TelemetryWarehouse(x.warehouse).Some? && HasClient(t.skus[x.skuId])
    requires IsUuidV4(eventId) && eventId !in EventIds(t.outbox)
    requires x.quantity <= Stock(t, x.skuId, x.warehouse)
    ensures AddExit(t, x, eventId).Some?
  {
  }

  lemma {:induction false} RequiredHead(items: seq<Item>, i: Item)
    requires i in items
    ensures Required(items, i.skuId) >= i.quantity
  {
    if items[0] != i { RequiredHead(items[1..], i); }
  }

  lemma FreshDrawsRest(t: Tables, t1: Tables, items: seq<Item>, env: Env)
    requires items != [] && FreshDraws(t, items, env)
    requires EventIds(t1.outbox) <= EventIds(t.outbox) + {env.thresholdId(items[0].dispatchId)}
    ensures FreshDraws(t1, items[1..], env)
  {
    assert forall k :: 0 <= k < |items| - 1 ==> items[1..][k] == items[k + 1];
  }

  /** All that the loop needs before each item. */
  ghost predicate Covered(t: Tables, items: seq<Item>, orderPk: nat, env: Env, pending: Option<nat>) {
    && GoodExcept(t, pending) && Balanced(t) && Admissible(t, items, orderPk) && FreshDraws(t, items, env)
    && TelemetryWarehouse(t.orders[orderPk].warehouse).Some? && t.orders[orderPk].clientId != ""
    && (forall i :: i in items ==> Required(items, i.skuId) <= Stock(t, i.skuId, t.orders[orderPk].warehouse))
  }

  lemma FirstDispatchFits(t: Tables, items: seq<Item>, orderPk: nat, env: Env, pending: Option<nat>)
    requires items != [] && Covered(t, items, orderPk, env, pending)
    ensures AddExit(t, DispatchRow(items[0], orderPk, t.orders[orderPk].warehouse, env),
      env.thresholdId(items[0].dispatchId)).Some?
  {
    assert items[0] in items && Belongs(t, items[0], t.orders[orderPk]);
    RequiredHead(items, items[0]);
    AddExitSucceeds(t, DispatchRow(items[0], orderPk, t.orders[orderPk].warehouse, env),
      env.thresholdId(items[0].dispatchId));
  }

  lemma RestCovered(t: Tables, items: seq<Item>, orderPk: nat, env: Env, pending: Option<nat>)
    requires items != [] && Covered(t, items, orderPk, env, pending)
    requires AddExit(t, DispatchRow(items[0], orderPk, t.orders[orderPk].warehouse, env),
      env.thresholdId(items[0].dispatchId)).Some?
    ensures var t1 := AddExit(t, DispatchRow(items[0], orderPk, t.orders[orderPk].warehouse, env),
        env.thresholdId(items[0].dispatchId)).value;
      Covered(t1, items[1..], orderPk, env, pending) && t1.orders == t.orders
  {
    var x, id := DispatchRow(items[0], orderPk, t.orders[orderPk].warehouse, env),
      env.thresholdId(items[0].dispatchId);
    var t1 := AddExit(t, x, id).value;
    assert items[0] in items && Belongs(t, items[0], t.orders[orderPk]);
    AddExitFrame(t, x, id);
    AddExitKeeps(t, x, id, pending);
    AddExitBalanced(t, x, id);
    AdmissibleRest(t, items, orderPk, env);
    FreshDrawsRest(t, t1, items, env);
    forall i | i in items[1..] ensures Required(items[1..], i.skuId) <= Stock(t1, i.skuId, x.warehouse) {
      assert i in items;
      StockAfterExit(t, t1, t.nextExit, x, i.skuId, x.warehouse);
    }
  }

  /** Validation over the command's totals is enough for every partial movement of the loop:
      several dispatches of one SKU never drive its stock negative. */
  lemma {:induction false} AddDispatchesSucceeds(t: Tables, items: seq<Item>, orderPk: nat, env: Env,
                                                 pending: Option<nat>)
    requires Covered(t, items, orderPk, env, pending)
    ensures AddDispatches(t, items, orderPk, t.orders[orderPk].warehouse, env).Some?
    decreases items
  {
    hide GoodExcept, Balanced, FreshDraws, Stock, AddExit, TelemetryWarehouse, Required;
    if items != [] {
      FirstDispatchFits(t, items, orderPk, env, pending);
      RestCovered(t, items, orderPk, env, pending);
      assert items[0] in items && Belongs(t, items[0], t.orders[orderPk]);
      AddDispatchesSucceeds(AddExit(t, DispatchRow(items[0], orderPk, t.orders[orderPk].warehouse, env),
        env.thresholdId(items[0].dispatchId)).value, items[1..], orderPk, env, pending);
    }
  }

  // ----- whole commands -----

  lemma OpenOrderSound(t: Tables, order: CommercialOrder)
    requires Bounded(t) && Known(t) && Unique(t) && FindOrder(t, order.orderId).None?
    ensures var t' := OpenOrder(t, order); Bounded(t') && Known(t') && Unique(t') && Extends(t, t')
  {
    OpenOrderBounded(t, order);
    OpenOrderUnique(t, order);
    OpenOrderExtends(t, order);
    hide Bounded, Known, Unique, Extends, FindOrder, OpenOrder;
  }

  lemma OpenOrderBounded(t: Tables, order: CommercialOrder)
    requires Bounded(t) && Known(t)
    ensures var t' := OpenOrder(t, order); Bounded(t') && Known(t')
  {
  }

  lemma OpenOrderUnique(t: Tables, order: CommercialOrder)
    requires Unique(t) && FindOrder(t, order.orderId).None?
    ensures Unique(OpenOrder(t, order))
  {
  }

  lemma OpenOrderExtends(t: Tables, order: CommercialOrder)
    requires Bounded(t)
    ensures Extends(t, OpenOrder(t, order))
  {
  }

  lemma OpenOrderKeeps(t: Tables, order: CommercialOrder)
    requires Good(t) && Balanced(t) && FindOrder(t, order.orderId).None?
    ensures var t' := OpenOrder(t, order);
      GoodExcept(t', Some(t.nextOrder)) && Balanced(t') && Extends(t, t')
  {
    var t' := OpenOrder(t, order);
    OpenOrderSound(t, order);
    GoodKept(t, t', Some(t.nextOrder));
    BalancedFrame(t, t');
  }

  function CloseOrder(t: Tables, pk: nat, row: OutboxRow): Tables {
    t.(outbox := t.outbox[OutboxKey(CommercialOrderTable, pk) := row])
  }

  lemma CloseOrderUnique(t: Tables, pk: nat, row: OutboxRow)
    requires Bounded(t) && Known(t) && Unique(t) && pk in t.orders && row.eventId !in EventIds(t.outbox)
    ensures var t' := CloseOrder(t, pk, row); Bounded(t') && Known(t') && Unique(t')
  {
    CloseOrderBounded(t, pk, row);
    CloseOrderUniqueIds(t, pk, row);
    hide Bounded, Known, Unique, EventIds;
  }

  lemma CloseOrderBounded(t: Tables, pk: nat, row: OutboxRow)
    requires Bounded(t) && Known(t) && pk in t.orders
    ensures var t' := CloseOrder(t, pk, row); Bounded(t') && Known(t')
  {
  }

  lemma CloseOrderUniqueIds(t: Tables, pk: nat, row: OutboxRow)
    requires Unique(t) && row.eventId !in EventIds(t.outbox)
    ensures Unique(CloseOrder(t, pk, row))
  {
  }

  lemma EntryOkClosed(t: Tables, pk: nat, row: OutboxRow, k: nat)
    requires k in t.entries && EntryOk(t, k)
    ensures EntryOk(CloseOrder(t, pk, row), k)
  {
  }

  lemma ExitOkClosed(t: Tables, pk: nat, row: OutboxRow, k: nat)
    requires k in t.exits && ExitOk(t, k)
    ensures ExitOk(CloseOrder(t, pk, row), k)
  {
  }

  lemma CountOkClosed(t: Tables, pk: nat, row: OutboxRow, k: nat)
    requires k in t.counts && CountOk(t, k)
    ensures CountOk(CloseOrder(t, pk, row), k)
  {
  }

  lemma OrderOkClosed(t: Tables, pk: nat, row: OutboxRow, k: nat)
    requires k in t.orders && k != pk && OrderOk(t, k)
    ensures OrderOk(CloseOrder(t, pk, row), k)
  {
  }

  /** The order event completes the order it belongs to and touches no other row. */
  lemma CloseOrderKeeps(t: Tables, pk: nat, row: OutboxRow)
    requires GoodExcept(t, Some(pk)) && pk in t.orders
    requires OutboxKey(CommercialOrderTable, pk) !in t.outbox && row.eventId !in EventIds(t.outbox)
    requires OrderOk(CloseOrder(t, pk, row), pk)
    ensures Good(CloseOrder(t, pk, row))
  {
    var t' := CloseOrder(t, pk, row);
    CloseOrderUnique(t, pk, row);
    forall k | k in t.entries ensures EntryOk(t', k) { EntryOkClosed(t, pk, row, k); }
    forall k | k in t.exits ensures ExitOk(t', k) { ExitOkClosed(t, pk, row, k); }
    forall k | k in t.counts ensures CountOk(t', k) { CountOkClosed(t, pk, row, k); }
    forall k | k in t.orders && k != pk ensures OrderOk(t', k) { OrderOkClosed(t, pk, row, k); }
  }

  lemma ValidatedAdmissible(t: Tables, items: seq<Item>, orderPk: nat)
    requires orderPk in t.orders && ValidItems(items)
    requires ValidateOrder(t, items, t.orders[orderPk].clientId, t.orders[orderPk].warehouse).None?
    requires forall i :: i in items ==> !DispatchUsed(t, i.dispatchId)
    ensures Admissible(t, SortById(items), orderPk)
    ensures forall i :: i in SortById(items) ==>
      Required(SortById(items), i.skuId) <= Stock(t, i.skuId, t.orders[orderPk].warehouse)
  {
    SortByIdKeeps(items);
  }

  function OrderEvent(order: CommercialOrder, eventId: string): OutboxRow {
    OutboxRow(eventId, order.createdAt, OutboundOrderCreated,
      OrderTags(order.orderId, TelemetryWarehouse(order.warehouse), order.clientId), None, 0, None)
  }

  /** The states an accepted order passes through: opened, filled with its dispatches, closed. */
  lemma CreateOrderShape(t: Tables, orderId: string, clientId: string, warehouse: string, items: seq<Item>,
                         env: Env)
    requires CreateOrderSpec(t, orderId, clientId, warehouse, items, env).reply.Created?
    ensures FindOrder(t, orderId).None? && ValidateOrder(t, items, clientId, warehouse).None?
    ensures forall i :: i in items ==> !DispatchUsed(t, i.dispatchId)
    ensures var order := CommercialOrder(orderId, clientId, warehouse, env.now);
      var filled := AddDispatches(OpenOrder(t, order), SortById(items), t.nextOrder, warehouse, env);
      && filled.Some? && env.eventId !in EventIds(filled.value.outbox) && IsUuidV4(env.eventId)
      && OutboxKey(CommercialOrderTable, t.nextOrder) !in filled.value.outbox
      && CreateOrderSpec(t, orderId, clientId, warehouse, items, env).tables ==
           CloseOrder(filled.value, t.nextOrder, OrderEvent(order, env.eventId))
  {
  }

  ghost predicate OrderPlaced(t: Tables, t': Tables, order: CommercialOrder, items: seq<Item>) {
    && Extends(t, t') && t'.orders == t.orders[t.nextOrder := order] && t'.skus == t.skus
    && (forall i :: i in items ==> Recorded(t', i, t.nextOrder))
  }

  lemma FillOrderKeeps(t: Tables, order: CommercialOrder, items: seq<Item>, env: Env)
    requires Good(t) && Balanced(t) && ValidItems(items) && FindOrder(t, order.orderId).None?
    requires ValidateOrder(t, items, order.clientId, order.warehouse).None?
    requires forall i :: i in items ==> !DispatchUsed(t, i.dispatchId)
    requires AddDispatches(OpenOrder(t, order), SortById(items), t.nextOrder, order.warehouse, env).Some?
    ensures var t' := AddDispatches(OpenOrder(t, order), SortById(items), t.nextOrder, order.warehouse, env).value;
      GoodExcept(t', Some(t.nextOrder)) && Balanced(t') && OrderPlaced(t, t', order, items)
  {
    var started := OpenOrder(t, order);
    OpenOrderKeeps(t, order);
    ValidatedStarted(t, started, items, order.clientId, order.warehouse);
    ValidatedAdmissible(started, items, t.nextOrder);
    AddDispatchesKeeps(started, SortById(items), t.nextOrder, env, Some(t.nextOrder));
    SortByIdKeeps(items);
    ExtendsTransitive(t, started,
      AddDispatches(started, SortById(items), t.nextOrder, order.warehouse, env).value);
  }

  lemma PlacedOrderOk(t: Tables, filled: Tables, order: CommercialOrder, items: seq<Item>, eventId: string)
    requires OrderPlaced(t, filled, order, items) && items != []
    requires IsUuidV4(order.orderId) && order.clientId != "" && TelemetryWarehouse(order.warehouse).Some?
    requires IsUuidV4(eventId)
    ensures var t' := CloseOrder(filled, t.nextOrder, OrderEvent(order, eventId));
      t.nextOrder in t'.orders && OrderOk(t', t.nextOrder)
  {
    assert Recorded(filled, items[0], t.nextOrder);
  }

  lemma CreateOrderKeeps(t: Tables, orderId: string, clientId: string, warehouse: string, items: seq<Item>,
                         env: Env)
    requires Good(t) && Balanced(t)
    requires IsUuidV4(orderId) && clientId != "" && TelemetryWarehouse(warehouse).Some? && ValidItems(items)
    requires CreateOrderSpec(t, orderId, clientId, warehouse, items, env).reply.Created?
    ensures OrderKept(t, CreateOrderSpec(t, orderId, clientId, warehouse, items, env).tables,
      CommercialOrder(orderId, clientId, warehouse, env.now), items)
  {
    var order := CommercialOrder(orderId, clientId, warehouse, env.now);
    CreateOrderShape(t, orderId, clientId, warehouse, items, env);
    var filled := AddDispatches(OpenOrder(t, order), SortById(items), t.nextOrder, warehouse, env);
    FillOrderKeeps(t, order, items, env);
    FilledOrderCloses(t, filled.value, order, items, env.eventId);
  }

  ghost predicate OrderKept(t: Tables, t': Tables, order: CommercialOrder, items: seq<Item>) {
    Good(t') && Balanced(t') && OrderPlaced(t, t', order, items)
  }

  lemma FilledOrderCloses(t: Tables, filled: Tables, order: CommercialOrder, items: seq<Item>, eventId: string)
    requires GoodExcept(filled, Some(t.nextOrder)) && Balanced(filled) && OrderPlaced(t, filled, order, items)
    requires OutboxKey(CommercialOrderTable, t.nextOrder) !in filled.outbox
    requires IsUuidV4(eventId) && eventId !in EventIds(filled.outbox) && items != []
    requires IsUuidV4(order.orderId) && order.clientId != "" && TelemetryWarehouse(order.warehouse).Some?
    ensures OrderKept(t, CloseOrder(filled, t.nextOrder, OrderEvent(order, eventId)), order, items)
  {
    var row := OrderEvent(order, eventId);
    PlacedOrderOk(t, filled, order, items, eventId);
    CloseOrderKeeps(filled, t.nextOrder, row);
    PlacedClosed(t, filled, order, items, row);
    BalancedClosed(filled, t.nextOrder, row);
  }

  lemma PlacedClosed(t: Tables, filled: Tables, order: CommercialOrder, items: seq<Item>, row: OutboxRow)
    requires OrderPlaced(t, filled, order, items) && OutboxKey(CommercialOrderTable, t.nextOrder) !in filled.outbox
    ensures OrderPlaced(t, CloseOrder(filled, t.nextOrder, row), order, items)
  {
    CloseOrderExtends(t, filled, t.nextOrder, row);
    var t' := CloseOrder(filled, t.nextOrder, row);
    forall i | i in items ensures Recorded(t', i, t.nextOrder) { assert Recorded(filled, i, t.nextOrder); }
  }

  lemma ValidatedStarted(t: Tables, started: Tables, items: seq<Item>, clientId: string, warehouse: string)
    requires started.skus == t.skus && started.entries == t.entries && started.exits == t.exits
    requires ValidateOrder(t, items, clientId, warehouse).None?
    ensures ValidateOrder(started, items, clientId, warehouse).None?
  {
    assert forall s: int, w: string :: Stock(started, s, w) == Stock(t, s, w);
  }

  lemma CloseOrderExtends(t: Tables, filled: Tables, pk: nat, row: OutboxRow)
    requires Extends(t, filled) && pk >= t.nextOrder && OutboxKey(CommercialOrderTable, pk) !in filled.outbox
    ensures Extends(t, CloseOrder(filled, pk, row))
  {
  }

  lemma BalancedClosed(t: Tables, pk: nat, row: OutboxRow)
    requires Balanced(t)
    ensures Balanced(CloseOrder(t, pk, row))
  {
    var t' := CloseOrder(t, pk, row);
    forall i, s: int, w: string | 0 <= i <= |t.journal| ensures Level(t', i, s, w) == Level(t, i, s, w) {
      LevelSame(t, t', i, s, w);
    }
    assert forall s: int, w: string :: Stock(t', s, w) == Stock(t, s, w);
    forall i | 0 <= i < |t.journal| ensures Exact(t', i) { assert Exact(t, i); }
  }

  lemma {:induction false} LevelSame(t: Tables, t': Tables, i: nat, s: int, w: string)
    requires i <= |t.journal| && t'.journal == t.journal && t'.entries == t.entries && t'.exits == t.exits
    ensures Level(t', i, s, w) == Level(t, i, s, w)
  {
    if i > 0 { LevelSame(t, t', i - 1, s, w); }
  }

  lemma {:induction false} NewItemsKeeps(t: Tables, items: seq<Item>)
    requires DistinctIds(items)
    ensures DistinctIds(NewItems(t, items))
    ensures forall i :: i in NewItems(t, items) <==> i in items && !DispatchUsed(t, i.dispatchId)
  {
    if items != [] {
      NewItemsKeeps(t, items[1..]);
      assert forall i :: i in items <==> i == items[0] || i in items[1..];
      forall i | i in NewItems(t, items[1..]) ensures i.dispatchId != items[0].dispatchId {
        var k :| 0 <= k < |items| - 1 && items[1..][k] == i;
        assert items[k + 1] == i;
      }
    }
  }

  lemma AppendShape(t: Tables, orderId: string, items: seq<Item>, env: Env)
    requires AppendSpec(t, orderId, items, env).reply.Done?
    ensures FindOrder(t, orderId).Some?
    ensures var pk, unseen := FindOrder(t, orderId).value, NewItems(t, items);
      && unseen != [] && (forall i :: i in items && DispatchUsed(t, i.dispatchId) ==> Recorded(t, i, pk))
      && ValidateOrder(t, unseen, t.orders[pk].clientId, t.orders[pk].warehouse).None?
      && AddDispatches(t, SortById(unseen), pk, t.orders[pk].warehouse, env)
           == Some(AppendSpec(t, orderId, items, env).tables)
  {
  }

  lemma AppendKeeps(t: Tables, orderId: string, items: seq<Item>, env: Env)
    requires Good(t) && Balanced(t) && ValidPayload(AppendDispatches(orderId, items))
    requires AppendSpec(t, orderId, items, env).reply.Done?
    ensures var t' := AppendSpec(t, orderId, items, env).tables;
      && Good(t') && Balanced(t') && Extends(t, t') && t'.orders == t.orders
      && (forall i :: i in items ==> Recorded(t', i, FindOrder(t, orderId).value))
  {
    AppendShape(t, orderId, items, env);
    var pk := FindOrder(t, orderId).value;
    var unseen := NewItems(t, items);
    NewItemsKeeps(t, items);
    ValidatedAdmissible(t, unseen, pk);
    AddDispatchesKeeps(t, SortById(unseen), pk, env, None);
    SortByIdKeeps(unseen);
    var t' := AppendSpec(t, orderId, items, env).tables;
    forall i | i in items ensures Recorded(t', i, pk) {
      if i !in unseen { RecordedKept(t, t', i, pk); }
    }
  }

  /** A recorded dispatch stays recorded. */
  lemma RecordedKept(t: Tables, t': Tables, i: Item, pk: nat)
    requires Extends(t, t') && Recorded(t, i, pk)
    ensures Recorded(t', i, pk)
  {
    var x :| x in t.exits && Matches(t.exits[x], i, pk);
    assert x in t'.exits && t'.exits[x] == t.exits[x];
  }
}
