/** When order commands succeed, on the rows and the journal alone, and what a success writes. */
module OrderOutcomes {
  import opened Basics
  import opened Identifiers
  import opened Vocabulary
  import opened InventoryTables
  import opened InventoryCommands
  import opened InventoryInvariants
  import opened InventoryLedger
  import opened InventoryOrders
  import opened InventoryRuns
  import opened InventoryReplays
  import opened InventoryOutcomes

  // ----- the totals of a command -----

  function UnitsOf(i: Item): int { i.quantity }

  /** What the items ask of one SKU, all together. */
  ghost function Asked(items: set<Item>, sku: int): int { Sum((set i | i in items && i.skuId == sku), UnitsOf) }

  lemma {:induction false} RequiredIsAsked(items: seq<Item>, sku: int)
    requires DistinctIds(items)
    ensures Required(items, sku) == Asked(ItemSet(items), sku)
  {
    if items == [] {
      assert (set i | i in ItemSet(items) && i.skuId == sku) == {};
    } else {
      RequiredIsAsked(items[1..], sku);
      FirstItem(items);
      var head, rest := items[0], (set i | i in ItemSet(items[1..]) && i.skuId == sku);
      hide ItemSet, DistinctIds;
      if head.skuId == sku {
        assert (set i | i in ItemSet(items) && i.skuId == sku) == rest + {head};
        SumPut(rest, head, UnitsOf);
      } else {
        assert (set i | i in ItemSet(items) && i.skuId == sku) == rest;
      }
    }
  }

  lemma FirstItem(items: seq<Item>)
    requires items != [] && DistinctIds(items)
    ensures DistinctIds(items[1..]) && items[0] !in ItemSet(items[1..]) && ItemSet(items) == ItemSet(items[1..]) + {items[0]}
  {
    forall k | 0 <= k < |items| - 1 ensures items[1..][k] != items[0] { assert items[k + 1].dispatchId != items[0].dispatchId; }
    assert items == [items[0]] + items[1..];
  }

  // ----- what refuses the items -----

  predicate UsedId(t: Tables, id: string) { exists x :: x in t.exits && t.exits[x].dispatchId == Some(id) }

  predicate Elsewhere(t: Tables, i: Item, clientId: string, warehouse: string) {
    i.skuId in t.skus && (t.skus[i.skuId].clientId != Some(clientId) || t.skus[i.skuId].warehouse != warehouse)
  }

  /** An unknown SKU, a SKU of another client or warehouse, or too little stock for the items together. */
  ghost function Refusal(t: Tables, items: set<Item>, clientId: string, warehouse: string): Option<Reply> {
    if exists i :: i in items && i.skuId !in t.skus then Some(IntegrityFailure)
    else if exists i :: i in items && Elsewhere(t, i, clientId, warehouse) then Some(BadRequest)
    else if exists i :: i in items && Asked(items, i.skuId) > Balance(t, i.skuId, warehouse) then Some(BadRequest)
    else None
  }

  lemma RefusalExact(t: Tables, items: seq<Item>, clientId: string, warehouse: string)
    requires Sound(t) && DistinctIds(items)
    ensures ValidateOrder(t, items, clientId, warehouse) == Refusal(t, ItemSet(items), clientId, warehouse)
  {
    hide Sound, Stock, Balance, Asked, Required;
    forall i | i in items ensures i in ItemSet(items) {}
    forall sku: int ensures Required(items, sku) == Asked(ItemSet(items), sku) { RequiredIsAsked(items, sku); }
    forall sku: int ensures Stock(t, sku, warehouse) == Balance(t, sku, warehouse) { BalanceIsStock(t, sku, warehouse); }
    if !exists i :: i in items && i.skuId !in t.skus {
      assert forall i :: i in ItemSet(items) ==> i.skuId in t.skus;
      if i :| i in items && Elsewhere(t, i, clientId, warehouse) {
        assert i in ItemSet(items) && Elsewhere(t, i, clientId, warehouse);
      }
    } else {
      var i :| i in items && i.skuId !in t.skus;
      assert i in ItemSet(items);
    }
  }

  // ----- what the dispatch loop writes -----

  /** New exits, one for each item in order, and nothing else of the orders, entries, counts and SKUs. */
  ghost predicate Dispatched(t: Tables, t': Tables, items: seq<Item>, orderPk: nat, warehouse: string, env: Env) {
    && t'.skus == t.skus && t'.entries == t.entries && t'.counts == t.counts && t'.orders == t.orders
    && t'.nextExit == t.nextExit + |items|
    && (forall x :: x in t'.exits <==> x in t.exits || t.nextExit <= x < t.nextExit + |items|)
    && (forall x :: x in t.exits ==> t'.exits[x] == t.exits[x])
    && (forall n :: 0 <= n < |items| ==> t'.exits[t.nextExit + n] == StockExit(items[n].skuId, items[n].quantity, Dispatch,
          Some(items[n].tracking), warehouse, env.now, env.user, Some(orderPk), Some(items[n].dispatchId)))
  }

  ghost predicate ExitsBounded(t: Tables) { forall x :: x in t.exits ==> x < t.nextExit }

  lemma DispatchedNext(t: Tables, t1: Tables, t': Tables, items: seq<Item>, orderPk: nat, warehouse: string, env: Env)
    requires items != [] && ExitsBounded(t) && Dispatched(t1, t', items[1..], orderPk, warehouse, env)
    requires t1.skus == t.skus && t1.entries == t.entries && t1.counts == t.counts && t1.orders == t.orders
    requires t1.nextExit == t.nextExit + 1 && t1.exits == t.exits[t.nextExit := DispatchRow(items[0], orderPk, warehouse, env)]
    ensures Dispatched(t, t', items, orderPk, warehouse, env)
  {
    forall n | 0 <= n < |items|
      ensures t'.exits[t.nextExit + n] == StockExit(items[n].skuId, items[n].quantity, Dispatch,
        Some(items[n].tracking), warehouse, env.now, env.user, Some(orderPk), Some(items[n].dispatchId))
    {
      if n > 0 {
        assert items[1..][n - 1] == items[n] && t1.nextExit + (n - 1) == t.nextExit + n;
      } else {
        assert t'.exits[t.nextExit] == t1.exits[t.nextExit];
      }
    }
  }

  lemma {:induction false} DispatchesWrite(t: Tables, items: seq<Item>, orderPk: nat, warehouse: string, env: Env)
    requires ExitsBounded(t) && AddDispatches(t, items, orderPk, warehouse, env).Some?
    ensures Dispatched(t, AddDispatches(t, items, orderPk, warehouse, env).value, items, orderPk, warehouse, env)
    decreases items
  {
    if items != [] {
      hide AddExit, Dispatched;
      var x, id := DispatchRow(items[0], orderPk, warehouse, env), env.thresholdId(items[0].dispatchId);
      var t1 := AddExit(t, x, id).value;
      AddExitFrame(t, x, id);
      DispatchesWrite(t1, items[1..], orderPk, warehouse, env);
      DispatchedNext(t, t1, AddDispatches(t1, items[1..], orderPk, warehouse, env).value, items, orderPk, warehouse, env);
    }
  }

  lemma {:induction false} DispatchesMoveStock(t: Tables, items: seq<Item>, orderPk: nat, warehouse: string, env: Env,
                                               s: int, w: string)
    requires ExitsBounded(t) && AddDispatches(t, items, orderPk, warehouse, env).Some?
    ensures Stock(AddDispatches(t, items, orderPk, warehouse, env).value, s, w) ==
      Stock(t, s, w) - (if w == warehouse then Required(items, s) else 0)
    decreases items
  {
    hide Stock;
    if items != [] {
      hide AddExit;
      var x, id := DispatchRow(items[0], orderPk, warehouse, env), env.thresholdId(items[0].dispatchId);
      var t1 := AddExit(t, x, id).value;
      AddExitFrame(t, x, id);
      DispatchesMoveStock(t1, items[1..], orderPk, warehouse, env, s, w);
      StockAfterExit(t, t1, t.nextExit, x, s, w);
    }
  }

  /** The stock of every SKU asked falls by what was asked in the warehouse, and no other stock. */
  ghost predicate Lowers(t: Tables, t': Tables, items: set<Item>, warehouse: string) {
    forall s: int, w: string :: Balance(t', s, w) == Balance(t, s, w) - (if w == warehouse then Asked(items, s) else 0)
  }

  lemma DispatchesLower(t: Tables, t': Tables, items: seq<Item>, warehouse: string)
    requires Sound(t) && Sound(t') && DistinctIds(items)
    requires forall s: int, w: string :: Stock(t', s, w) == Stock(t, s, w) - (if w == warehouse then Required(items, s) else 0)
    ensures Lowers(t, t', ItemSet(items), warehouse)
  {
    hide Sound, Stock, Balance, Required, Asked;
    forall s: int, w: string
      ensures Balance(t', s, w) == Balance(t, s, w) - (if w == warehouse then Asked(ItemSet(items), s) else 0)
    {
      BalanceIsStock(t, s, w);
      BalanceIsStock(t', s, w);
      RequiredIsAsked(items, s);
    }
  }

  // ----- draws -----

  /** The UUIDs drawn for the items are new and differ. */
  ghost predicate ItemDraws(t: Tables, items: seq<Item>, env: Env) {
    && (forall i :: i in items ==> NewId(t, env.thresholdId(i.dispatchId)))
    && (forall i, j :: i in items && j in items && i.dispatchId != j.dispatchId ==>
          env.thresholdId(i.dispatchId) != env.thresholdId(j.dispatchId))
  }

  /** And so does the one drawn for the order. */
  ghost predicate NewDraws(t: Tables, items: seq<Item>, env: Env) {
    && ItemDraws(t, items, env) && NewId(t, env.eventId)
    && (forall i :: i in items ==> env.thresholdId(i.dispatchId) != env.eventId)
  }

  lemma NewDrawsAreFresh(t: Tables, items: seq<Item>, sorted: seq<Item>, env: Env)
    requires ItemDraws(t, items, env) && DistinctIds(sorted) && forall i :: i in sorted ==> i in items
    ensures FreshDraws(t, sorted, env)
  {
    hide NewId;
    forall i | i in sorted
      ensures IsUuidV4(env.thresholdId(i.dispatchId)) && env.thresholdId(i.dispatchId) !in EventIds(t.outbox)
    {
      NewIdExact(t, env.thresholdId(i.dispatchId));
    }
    forall i, j | 0 <= i < j < |sorted|
      ensures env.thresholdId(sorted[i].dispatchId) != env.thresholdId(sorted[j].dispatchId)
    {
      assert sorted[i] in sorted && sorted[j] in sorted;
    }
  }

  // ----- a new order -----

  predicate ValidOrder(orderId: string, clientId: string, warehouse: string, items: seq<Item>) {
    IsUuidV4(orderId) && clientId != "" && DomainWarehouse(warehouse) && ItemsValid(items)
  }

  /** At least one item, each with a version 4 id of its own, a positive SKU id and quantity, and a tracking text. */
  predicate ItemsValid(items: seq<Item>) {
    && items != []
    && (forall i :: i in items ==> IsUuidV4(i.dispatchId) && i.skuId >= 1 && i.quantity >= 1 && i.tracking != "")
    && (forall i, j :: 0 <= i < j < |items| ==> items[i].dispatchId != items[j].dispatchId)
  }

  ghost function OrderReply(t: Tables, orderId: string, clientId: string, warehouse: string, items: seq<Item>): Reply {
    if !ValidOrder(orderId, clientId, warehouse, items) then Unprocessable
    else if exists i :: i in items && UsedId(t, i.dispatchId) then Conflict
    else if Refusal(t, ItemSet(items), clientId, warehouse).Some? then Refusal(t, ItemSet(items), clientId, warehouse).value
    else Created(t.nextOrder)
  }

  lemma OrderReplyExact(t: Tables, orderId: string, clientId: string, warehouse: string, items: seq<Item>, env: Env)
    requires Sound(t) && NewDraws(t, items, env) && FindOrder(t, orderId).None?
    requires ValidPayload(CreateOrder(orderId, clientId, warehouse, items))
    ensures Execute(t, CreateOrder(orderId, clientId, warehouse, items), env).reply == OrderReply(t, orderId, clientId, warehouse, items)
  {
    hide Sound, NewDraws, AddDispatches, SortById, FindOrder, Refusal, ValidateOrder;
    RefusalExact(t, items, clientId, warehouse);
    assert forall i: Item :: UsedId(t, i.dispatchId) <==> DispatchUsed(t, i.dispatchId);
    if (forall i :: i in items ==> !DispatchUsed(t, i.dispatchId)) && ValidateOrder(t, items, clientId, warehouse).None? {
      SortByIdKeeps(items);
      DrawnId(t, items, env);
      NewDrawsAreFresh(t, items, SortById(items), env);
      NewIdExact(t, env.eventId);
      ValidOrderIsPlaced(t, orderId, clientId, warehouse, items, env);
    }
  }

  lemma DrawnId(t: Tables, items: seq<Item>, env: Env)
    requires NewDraws(t, items, env)
    ensures ItemDraws(t, items, env) && NewId(t, env.eventId)
    ensures forall i :: i in items ==> env.thresholdId(i.dispatchId) != env.eventId
  {
    hide NewId, ItemDraws;
  }

  lemma UnknownOrder(t: Tables, orderId: string)
    requires forall pk :: pk in t.orders ==> t.orders[pk].orderId != orderId
    ensures FindOrder(t, orderId).None?
  {
  }

  lemma PayloadExact(orderId: string, clientId: string, warehouse: string, items: seq<Item>)
    ensures ValidPayload(CreateOrder(orderId, clientId, warehouse, items)) <==> ValidOrder(orderId, clientId, warehouse, items)
    ensures ValidPayload(AppendDispatches(orderId, items)) <==> IsUuidV4(orderId) && ItemsValid(items)
  {
    hide IsUuidV4;
  }

  /** A new order succeeds exactly when it is well formed, none of its dispatch ids is taken, its SKUs exist and belong
      to its client and warehouse, and for each of them the items together stay within the balance. It then has one
      row, one exit for each item in the order of their ids, its event, and every balance falls by what was asked.
      An order under a known id is the subject of `OrderReused`. */
  lemma OrderExact(t: Tables, orderId: string, clientId: string, warehouse: string, items: seq<Item>, env: Env)
    requires Sound(t) && NewDraws(t, items, env) && forall pk :: pk in t.orders ==> t.orders[pk].orderId != orderId
    ensures Execute(t, CreateOrder(orderId, clientId, warehouse, items), env).reply
      == OrderReply(t, orderId, clientId, warehouse, items)
    ensures var t' := Execute(t, CreateOrder(orderId, clientId, warehouse, items), env).tables;
      if !OrderReply(t, orderId, clientId, warehouse, items).Created? then t' == t
      else Placed(t, t', CommercialOrder(orderId, clientId, warehouse, env.now), items, env)
  {
    hide Sound, OrderReply, Placed, ValidPayload, NewDraws, CreateOrderSpec;
    PayloadExact(orderId, clientId, warehouse, items);
    UnknownOrder(t, orderId);
    if ValidPayload(CreateOrder(orderId, clientId, warehouse, items)) {
      OrderReplyExact(t, orderId, clientId, warehouse, items, env);
      if CreateOrderSpec(t, orderId, clientId, warehouse, items, env).reply.Created? {
        OrderPlacedExact(t, orderId, clientId, warehouse, items, env);
      } else {
        CreateOrderFailure(t, orderId, clientId, warehouse, items, env);
      }
    } else {
      InvalidOrder(t, orderId, clientId, warehouse, items);
    }
  }

  lemma InvalidOrder(t: Tables, orderId: string, clientId: string, warehouse: string, items: seq<Item>)
    requires !ValidOrder(orderId, clientId, warehouse, items)
    ensures OrderReply(t, orderId, clientId, warehouse, items) == Unprocessable
  {
    hide ValidOrder;
  }

  /** All that a successful order writes. */
  ghost predicate Placed(t: Tables, t': Tables, order: CommercialOrder, items: seq<Item>, env: Env) {
    && t'.orders == t.orders[t.nextOrder := order] && t'.nextOrder == t.nextOrder + 1
    && OutboxKey(CommercialOrderTable, t.nextOrder) in t'.outbox
    && t'.outbox[OutboxKey(CommercialOrderTable, t.nextOrder)] == OutboxRow(env.eventId, env.now, OutboundOrderCreated,
         map[OrderId := JStr(order.orderId), Warehouse := JStr(SiteName(order.warehouse)), ClientId := JStr(order.clientId)],
         None, 0, None)
    && (forall k :: k in t.outbox ==> k in t'.outbox && t'.outbox[k] == t.outbox[k])
    && (exists sorted :: ById(sorted) && ItemSet(sorted) == ItemSet(items)
          && Dispatched(t.(orders := t'.orders), t', sorted, t.nextOrder, order.warehouse, env))
    && Lowers(t, t', ItemSet(items), order.warehouse)
  }

  lemma {:induction false} DispatchesKeepEvents(t: Tables, items: seq<Item>, orderPk: nat, warehouse: string, env: Env)
    requires AddDispatches(t, items, orderPk, warehouse, env).Some?
    ensures var t' := AddDispatches(t, items, orderPk, warehouse, env).value;
      t'.nextOrder == t.nextOrder && forall k :: k in t.outbox ==> k in t'.outbox && t'.outbox[k] == t.outbox[k]
    decreases items
  {
    hide Stock, EventIds, ThresholdTags, IsUuidV4;
    if items != [] {
      var x, id := DispatchRow(items[0], orderPk, warehouse, env), env.thresholdId(items[0].dispatchId);
      DispatchesKeepEvents(AddExit(t, x, id).value, items[1..], orderPk, warehouse, env);
    }
  }

  lemma OrderPlacedExact(t: Tables, orderId: string, clientId: string, warehouse: string, items: seq<Item>, env: Env)
    requires Sound(t) && ValidPayload(CreateOrder(orderId, clientId, warehouse, items)) && DomainWarehouse(warehouse)
    requires CreateOrderSpec(t, orderId, clientId, warehouse, items, env).reply.Created?
    ensures Placed(t, CreateOrderSpec(t, orderId, clientId, warehouse, items, env).tables,
      CommercialOrder(orderId, clientId, warehouse, env.now), items, env)
  {
    hide Sound, CreateOrderSpec, AddDispatches, SortById, ValidateOrder, Stock, Balance, IsUuidV4, EventIds, FindOrder,
      DispatchUsed, Asked, Required, TelemetryWarehouse;
    var order := CommercialOrder(orderId, clientId, warehouse, env.now);
    var t', started, sorted := CreateOrderSpec(t, orderId, clientId, warehouse, items, env).tables, OpenOrder(t, order), SortById(items);
    CreateOrderShape(t, orderId, clientId, warehouse, items, env);
    var filled := AddDispatches(started, sorted, t.nextOrder, warehouse, env).value;
    SortByIdKeeps(items);
    SortByIdOrders(items);
    assert ItemSet(sorted) == ItemSet(items);
    assert ExitsBounded(started) by { SoundExits(t); }
    DispatchesWrite(started, sorted, t.nextOrder, warehouse, env);
    DispatchesKeepEvents(started, sorted, t.nextOrder, warehouse, env);
    SiteIsMapped(warehouse);
    DispatchedOf(t, started, filled, t', sorted, t.nextOrder, warehouse, env);
    CreateOrderKept(t, orderId, clientId, warehouse, items, env);
    hide Dispatched;
    forall s: int, w: string ensures Stock(t', s, w) == Stock(t, s, w) - (if w == warehouse then Required(items, s) else 0) {
      DispatchesMoveStock(started, sorted, t.nextOrder, warehouse, env, s, w);
      SameRowsSameStock(t, started, s, w);
      SameRowsSameStock(filled, t', s, w);
    }
    DispatchesLower(t, t', items, warehouse);
    assert t'.nextOrder == t.nextOrder + 1;
  }

  lemma DispatchedOf(t: Tables, started: Tables, filled: Tables, t': Tables, items: seq<Item>, orderPk: nat,
                     warehouse: string, env: Env)
    requires Dispatched(started, filled, items, orderPk, warehouse, env)
    requires started == t.(orders := started.orders, nextOrder := started.nextOrder) && t' == filled.(outbox := t'.outbox)
    ensures Dispatched(t.(orders := t'.orders), t', items, orderPk, warehouse, env) && t'.orders == started.orders
  {
  }

  lemma SameRowsSameStock(t: Tables, t': Tables, s: int, w: string)
    requires t'.entries == t.entries && t'.exits == t.exits
    ensures Stock(t', s, w) == Stock(t, s, w)
  {
  }

  lemma SoundExits(t: Tables)
    requires Sound(t)
    ensures ExitsBounded(t)
  {
    hide Balanced, EntryOk, ExitOk, CountOk, OrderOk, Unique, Known;
  }

  // ----- an appended dispatch -----

  /** The dispatch is on the order already, with the same content. */
  predicate OnOrder(t: Tables, i: Item, pk: nat) {
    exists x :: x in t.exits && t.exits[x].dispatchId == Some(i.dispatchId) && t.exits[x].orderPk == Some(pk)
                && t.exits[x].skuId == i.skuId && t.exits[x].quantity == i.quantity && t.exits[x].exitType == Dispatch
                && t.exits[x].tracking == Some(i.tracking)
  }

  /** The items whose ids no movement carries. */
  function Unseen(t: Tables, items: seq<Item>): set<Item> { set i | i in items && !UsedId(t, i.dispatchId) }

  ghost function AppendReply(t: Tables, pk: nat, items: seq<Item>): Reply
    requires pk in t.orders
  {
    var order := t.orders[pk];
    if !IsUuidV4(order.orderId) || !ItemsValid(items) then Unprocessable
    else if exists i :: i in items && UsedId(t, i.dispatchId) && !OnOrder(t, i, pk) then Conflict
    else if Unseen(t, items) == {} then Existing(pk)
    else if Refusal(t, Unseen(t, items), order.clientId, order.warehouse).Some?
    then Refusal(t, Unseen(t, items), order.clientId, order.warehouse).value
    else Done
  }

  lemma {:induction false} UnseenExact(t: Tables, items: seq<Item>)
    requires DistinctIds(items)
    ensures DistinctIds(NewItems(t, items)) && ItemSet(NewItems(t, items)) == Unseen(t, items)
    ensures NewItems(t, items) == [] <==> Unseen(t, items) == {}
  {
    hide NewItems;
    NewItemsKeeps(t, items);
    assert forall i: Item :: UsedId(t, i.dispatchId) <==> DispatchUsed(t, i.dispatchId);
    hide UsedId, DispatchUsed;
    if NewItems(t, items) != [] { assert NewItems(t, items)[0] in ItemSet(NewItems(t, items)); }
  }

  lemma OnOrderExact(t: Tables, i: Item, pk: nat)
    ensures OnOrder(t, i, pk) <==> Recorded(t, i, pk)
    ensures UsedId(t, i.dispatchId) <==> DispatchUsed(t, i.dispatchId)
  {
    if Recorded(t, i, pk) { var x :| x in t.exits && Matches(t.exits[x], i, pk); }
    if OnOrder(t, i, pk) {
      var x :| x in t.exits && t.exits[x].dispatchId == Some(i.dispatchId) && t.exits[x].orderPk == Some(pk)
                && t.exits[x].skuId == i.skuId && t.exits[x].quantity == i.quantity && t.exits[x].exitType == Dispatch
                && t.exits[x].tracking == Some(i.tracking);
      assert Matches(t.exits[x], i, pk);
    }
  }

  lemma OrderRowSite(t: Tables, pk: nat)
    requires Sound(t) && pk in t.orders
    ensures TelemetryWarehouse(t.orders[pk].warehouse).Some? && t.orders[pk].clientId != ""
  {
    hide Balanced, EntryOk, ExitOk, CountOk, Unique, Known, Bounded;
    assert OrderOk(t, pk);
  }

  /** Items that nothing refuses are dispatched whole. */
  lemma AppendFits(t: Tables, pk: nat, unseen: seq<Item>, items: seq<Item>, env: Env)
    requires Sound(t) && pk in t.orders && ValidItems(unseen) && ItemDraws(t, items, env)
    requires forall i :: i in unseen ==> i in items && !DispatchUsed(t, i.dispatchId)
    requires ValidateOrder(t, unseen, t.orders[pk].clientId, t.orders[pk].warehouse).None?
    ensures AddDispatches(t, SortById(unseen), pk, t.orders[pk].warehouse, env).Some?
  {
    hide GoodExcept, Balanced, ValidateOrder, AddDispatches, SortById, ItemDraws, TelemetryWarehouse, Stock, Required,
      FreshDraws, Admissible, DispatchUsed;
    ValidatedAdmissible(t, unseen, pk);
    SortByIdKeeps(unseen);
    NewDrawsAreFresh(t, items, SortById(unseen), env);
    OrderRowSite(t, pk);
    AddDispatchesSucceeds(t, SortById(unseen), pk, env, None);
  }

  lemma AppendReplyExact(t: Tables, pk: nat, items: seq<Item>, env: Env)
    requires Sound(t) && pk in t.orders && ItemDraws(t, items, env)
    requires ValidPayload(AppendDispatches(t.orders[pk].orderId, items))
    ensures AppendSpec(t, t.orders[pk].orderId, items, env).reply == AppendReply(t, pk, items)
    ensures FindOrder(t, t.orders[pk].orderId) == Some(pk)
  {
    hide Sound, ItemDraws, AddDispatches, SortById, Refusal, ValidateOrder, OnOrder, Recorded, DispatchUsed, UsedId,
      NewItems, Unseen, IsUuidV4;
    PayloadExact(t.orders[pk].orderId, "c", "LA", items);
    SoundUnique(t);
    FindOrderUnique(t, pk);
    forall i | i in items ensures (OnOrder(t, i, pk) <==> Recorded(t, i, pk)) && (UsedId(t, i.dispatchId) <==> DispatchUsed(t, i.dispatchId)) {
      OnOrderExact(t, i, pk);
    }
    UnseenExact(t, items);
    NewItemsKeeps(t, items);
    var unseen := NewItems(t, items);
    RefusalExact(t, unseen, t.orders[pk].clientId, t.orders[pk].warehouse);
    if unseen != [] && ValidateOrder(t, unseen, t.orders[pk].clientId, t.orders[pk].warehouse).None? {
      AppendFits(t, pk, unseen, items, env);
    }
  }

  /** All that a successful append writes. */
  ghost predicate Appended(t: Tables, t': Tables, pk: nat, items: seq<Item>, env: Env)
    requires pk in t.orders
  {
    && (forall k :: k in t.outbox ==> k in t'.outbox && t'.outbox[k] == t.outbox[k])
    && (exists sorted :: ById(sorted) && ItemSet(sorted) == Unseen(t, items)
          && Dispatched(t, t', sorted, pk, t.orders[pk].warehouse, env))
    && Lowers(t, t', Unseen(t, items), t.orders[pk].warehouse)
  }

  lemma AppendedExact(t: Tables, pk: nat, items: seq<Item>, env: Env)
    requires Sound(t) && pk in t.orders && ValidPayload(AppendDispatches(t.orders[pk].orderId, items))
    requires FindOrder(t, t.orders[pk].orderId) == Some(pk)
    requires AppendSpec(t, t.orders[pk].orderId, items, env).reply.Done?
    ensures Appended(t, AppendSpec(t, t.orders[pk].orderId, items, env).tables, pk, items, env)
  {
    hide Sound, AppendSpec, AddDispatches, SortById, ValidateOrder, Stock, IsUuidV4, FindOrder, DispatchUsed, Recorded,
      NewItems, Appended, Unseen;
    var orderId, unseen := t.orders[pk].orderId, NewItems(t, items);
    AppendShape(t, orderId, items, env);
    ExecuteKeeps(t, AppendDispatches(orderId, items), env);
    UnseenExact(t, items);
    SortByIdKeeps(unseen);
    SortByIdOrders(unseen);
    DispatchesAppended(t, AppendSpec(t, orderId, items, env).tables, pk, SortById(unseen), items, env);
  }

  lemma DispatchesAppended(t: Tables, t': Tables, pk: nat, sorted: seq<Item>, items: seq<Item>, env: Env)
    requires Sound(t) && Sound(t') && pk in t.orders && DistinctIds(sorted) && ById(sorted)
    requires forall i :: i in sorted <==> i in Unseen(t, items)
    requires AddDispatches(t, sorted, pk, t.orders[pk].warehouse, env) == Some(t')
    ensures Appended(t, t', pk, items, env)
  {
    hide Sound, AddDispatches, Stock, Balance, Asked, Required, Dispatched, Unseen, ById;
    var warehouse := t.orders[pk].warehouse;
    assert ItemSet(sorted) == Unseen(t, items);
    SoundExits(t);
    DispatchesWrite(t, sorted, pk, warehouse, env);
    DispatchesKeepEvents(t, sorted, pk, warehouse, env);
    forall s: int, w: string ensures Stock(t', s, w) == Stock(t, s, w) - (if w == warehouse then Required(sorted, s) else 0) {
      DispatchesMoveStock(t, sorted, pk, warehouse, env, s, w);
    }
    DispatchesLower(t, t', sorted, warehouse);
  }

  /** An append to an order succeeds exactly when it is well formed, each of its ids is new or on the order with the
      same content, and nothing refuses the new ones; it adds one exit for each new item, in the order of their ids,
      lowers each balance by what they ask, and writes no order event. Without a new item it changes nothing. */
  lemma AppendExact(t: Tables, pk: nat, items: seq<Item>, env: Env)
    requires Sound(t) && pk in t.orders && ItemDraws(t, items, env)
    ensures Execute(t, AppendDispatches(t.orders[pk].orderId, items), env).reply == AppendReply(t, pk, items)
    ensures var t' := Execute(t, AppendDispatches(t.orders[pk].orderId, items), env).tables;
      if AppendReply(t, pk, items).Done? then Appended(t, t', pk, items, env) else t' == t
  {
    hide Sound, AppendReply, Appended, ValidPayload, ItemDraws, AppendSpec;
    var command := AppendDispatches(t.orders[pk].orderId, items);
    PayloadExact(t.orders[pk].orderId, "c", "LA", items);
    if ValidPayload(command) {
      AppendReplyExact(t, pk, items, env);
      if AppendReply(t, pk, items).Done? {
        AppendedExact(t, pk, items, env);
      } else {
        AppendFailure(t, t.orders[pk].orderId, items, env);
      }
    } else {
      InvalidAppend(t, pk, items);
    }
  }

  lemma InvalidAppend(t: Tables, pk: nat, items: seq<Item>)
    requires pk in t.orders && !(IsUuidV4(t.orders[pk].orderId) && ItemsValid(items))
    ensures AppendReply(t, pk, items) == Unprocessable
  {
    hide ItemsValid, IsUuidV4;
  }

  lemma AppendFailure(t: Tables, orderId: string, items: seq<Item>, env: Env)
    requires !AppendSpec(t, orderId, items, env).reply.Done?
    ensures AppendSpec(t, orderId, items, env).tables == t
  {
    hide AddDispatches, ValidateOrder, Recorded, DispatchUsed, SortById, NewItems;
  }

  /** An order id that no order has is not found. */
  lemma AppendUnknown(t: Tables, orderId: string, items: seq<Item>, env: Env)
    requires forall pk :: pk in t.orders ==> t.orders[pk].orderId != orderId
    ensures Execute(t, AppendDispatches(orderId, items), env) ==
      Outcome(t, if IsUuidV4(orderId) && ItemsValid(items) then NotFound else Unprocessable)
  {
    hide IsUuidV4, ItemsValid, ValidPayload;
    PayloadExact(orderId, "c", "LA", items);
    UnknownOrder(t, orderId);
  }
}
