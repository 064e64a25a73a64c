/** What each inventory command does to the tables: one serialised transaction per command. */
module InventoryCommands {
  import opened Basics
  import opened Identifiers
  import opened Vocabulary
  import opened InventoryTables

  /** One dispatch partial of an order command. */
  datatype Item = Item(dispatchId: string, skuId: int, quantity: nat, tracking: string)

  /** The clock, the caller and the UUIDs drawn by `uuid4()` while one command runs. */
  datatype Env = Env(user: string, now: int, eventId: string, thresholdId: string -> string)

  datatype Command =
    | AddSku(id: int, sku: Sku)
    | SetThreshold(skuId: int, threshold: Option<nat>)
    | EnterStock(skuId: int, quantity: nat, reference: string, warehouse: string)
    | ExitStock(skuId: int, quantity: nat, exitType: ExitType, tracking: Option<string>, warehouse: string)
    | ConfirmCount(countId: string, skuId: int, observed: nat, warehouse: string)
    | CreateOrder(orderId: string, clientId: string, warehouse: string, items: seq<Item>)
    | AppendDispatches(orderId: string, items: seq<Item>)

  datatype Reply =
    | Created(pk: nat) | Existing(pk: nat) | Done
    | Unprocessable | NotFound | BadRequest | Conflict | IntegrityFailure

  datatype Outcome = Outcome(tables: Tables, reply: Reply)

  // ----- payload schemas -----

  predicate DistinctIds(items: seq<Item>) {
    forall i, j :: 0 <= i < j < |items| ==> items[i].dispatchId != items[j].dispatchId
  }

  predicate ValidItems(items: seq<Item>) {
    && items != [] && DistinctIds(items)
    && forall i :: i in items ==> IsUuidV4(i.dispatchId) && i.skuId > 0 && i.quantity > 0 && i.tracking != ""
  }

  predicate ValidPayload(c: Command) {
    match c
    case AddSku(id, sku) => sku.clientId.Some? && sku.clientId.value != "" && sku.warehouse in {"LA", "ZGZ"}
    case SetThreshold(_, _) => true
    case EnterStock(_, quantity, _, warehouse) => quantity > 0 && warehouse in {"LA", "ZGZ"}
    case ExitStock(_, quantity, exitType, tracking, warehouse) =>
      quantity > 0 && warehouse in {"LA", "ZGZ"}
      && (if exitType.Dispatch? then tracking.Some? && tracking.value != "" else tracking.None?)
    case ConfirmCount(countId, _, _, warehouse) => IsUuidV4(countId) && warehouse in {"LA", "ZGZ"}
    case CreateOrder(orderId, clientId, warehouse, items) =>
      IsUuidV4(orderId) && clientId != "" && warehouse in {"LA", "ZGZ"} && ValidItems(items)
    case AppendDispatches(orderId, items) => IsUuidV4(orderId) && ValidItems(items)
  }

  // ----- shared writes -----

  function EventIds(outbox: map<OutboxKey, OutboxRow>): set<string> {
    set k | k in outbox :: outbox[k].eventId
  }

  /** `enqueue_inventory_event`: `None` where a check or a unique constraint raises. */
  function Enqueue(t: Tables, eventId: string, now: int, key: OutboxKey, tags: Tags): Option<Tables> {
    if !IsUuidV4(eventId) || key.pk == 0 || eventId in EventIds(t.outbox) || key in t.outbox then None
    else Some(t.(outbox := t.outbox[key :=
      OutboxRow(eventId, now, SourceEvent(key.source), tags, None, 0, None)]))
  }

  /** `_record_threshold_evaluation` with the constraints of the checkpoint table. */
  function Evaluate(t: Tables, m: Movement, c: Checkpoint): Option<Tables> {
    if m in t.checkpoints || c.before < 0 || c.after < 0 then None
    else Some(t.(checkpoints := t.checkpoints[m := c], journal := t.journal + [m]))
  }

  predicate HasClient(sku: Sku) { sku.clientId.Some? && sku.clientId.value != "" }

  /** One outbound movement with its threshold event and checkpoint; `None` rolls back. */
  ghost function AddExit(t: Tables, x: StockExit, eventId: string): Option<Tables>
    requires x.skuId in t.skus
  {
    var sku := t.skus[x.skuId];
    var before := Stock(t, x.skuId, x.warehouse);
    var after := before - x.quantity;
    var pk := t.nextExit;
    var crossed := Crosses(sku.threshold, before, after);
    var t1 := t.(exits := t.exits[pk := x], nextExit := pk + 1);
    if crossed && (TelemetryWarehouse(sku.warehouse).None? || !HasClient(sku)) then None else
    var t2 := if !crossed then Some(t1) else
      Enqueue(t1, eventId, x.createdAt, OutboxKey(StockExitTable, pk),
        ThresholdTags(TelemetryWarehouse(sku.warehouse), sku.clientId, x.skuId, sku.category, after,
          sku.threshold.value, pk));
    if t2.None? then None else
    Evaluate(t2.value, Outbound(pk),
      Checkpoint(x.skuId, sku.clientId, sku.warehouse, before, after, sku.threshold, crossed,
        if crossed then Some(eventId) else None, x.createdAt))
  }

  // ----- single movements -----

  ghost function EnterStockSpec(t: Tables, skuId: int, quantity: nat, reference: string, warehouse: string,
                                env: Env): Outcome {
    if skuId !in t.skus then Outcome(t, NotFound) else
    var sku := t.skus[skuId];
    if warehouse != sku.warehouse then Outcome(t, BadRequest) else
    var before := Stock(t, skuId, warehouse);
    var pk := t.nextEntry;
    var entry := StockEntry(skuId, quantity, reference, warehouse, env.now, env.user);
    var t1 := t.(entries := t.entries[pk := entry], nextEntry := pk + 1);
    var t2 := if sku.clientId.None? || TelemetryWarehouse(warehouse).None? then Some(t1) else
      Enqueue(t1, env.eventId, env.now, OutboxKey(StockEntryTable, pk),
        InboundTags(TelemetryWarehouse(warehouse), sku.clientId, skuId, sku.category, quantity, pk));
    if t2.None? then Outcome(t, IntegrityFailure) else
    var t3 := Evaluate(t2.value, Inbound(pk),
      Checkpoint(skuId, sku.clientId, sku.warehouse, before, before + quantity, sku.threshold, false, None,
        env.now));
    if t3.None? then Outcome(t, IntegrityFailure) else Outcome(t3.value, Created(pk))
  }

  ghost function ExitStockSpec(t: Tables, skuId: int, quantity: nat, exitType: ExitType,
                               tracking: Option<string>, warehouse: string, env: Env): Outcome {
    if skuId !in t.skus then Outcome(t, NotFound) else
    if warehouse != t.skus[skuId].warehouse then Outcome(t, BadRequest) else
    if quantity > Stock(t, skuId, warehouse) then Outcome(t, BadRequest) else
    var t' := AddExit(t,
      StockExit(skuId, quantity, exitType, tracking, warehouse, env.now, env.user, None, None), env.eventId);
    if t'.None? then Outcome(t, IntegrityFailure) else Outcome(t'.value, Created(t.nextExit))
  }

  // ----- physical counts -----

  ghost function FindCount(t: Tables, countId: string): Option<nat> {
    if pk :| pk in t.counts && t.counts[pk].countId == countId then Some(pk) else None
  }

  ghost function ConfirmCountSpec(t: Tables, countId: string, skuId: int, observed: nat, warehouse: string,
                                  env: Env): Outcome {
    var found := FindCount(t, countId);
    if found.Some? then
      var c := t.counts[found.value];
      if c.skuId == skuId && c.warehouse == warehouse && c.observed == observed && c.user == env.user
      then Outcome(t, Existing(found.value)) else Outcome(t, Conflict)
    else if skuId !in t.skus then Outcome(t, NotFound) else
    var sku := t.skus[skuId];
    if sku.warehouse != warehouse then Outcome(t, BadRequest) else
    if !HasClient(sku) then Outcome(t, IntegrityFailure) else
    var expected := Stock(t, skuId, warehouse);
    if expected < 0 then Outcome(t, IntegrityFailure) else
    var pk := t.nextCount;
    var t1 := t.(counts := t.counts[pk := PhysicalCount(countId, skuId, sku.clientId.value, warehouse,
      expected, observed, env.now, env.user)], nextCount := pk + 1);
    if observed == expected then Outcome(t1, Created(pk)) else
    if TelemetryWarehouse(warehouse).None? then Outcome(t, IntegrityFailure) else
    var t2 := Enqueue(t1, env.eventId, env.now, OutboxKey(PhysicalCountTable, pk),
      DiscrepancyTags(TelemetryWarehouse(warehouse), sku.clientId.value, skuId, sku.category, expected,
        observed, countId));
    if t2.None? then Outcome(t, IntegrityFailure) else Outcome(t2.value, Created(pk))
  }

  // ----- commercial orders -----

  ghost function FindOrder(t: Tables, orderId: string): Option<nat> {
    if pk :| pk in t.orders && t.orders[pk].orderId == orderId then Some(pk) else None
  }

  function OrderExits(t: Tables, orderPk: nat): set<nat> {
    set x | x in t.exits && t.exits[x].orderPk == Some(orderPk)
  }

  ghost predicate DispatchUsed(t: Tables, dispatchId: string) {
    exists x :: x in t.exits && t.exits[x].dispatchId == Some(dispatchId)
  }

  /** `_dispatch_matches` against the row that carries the item's `dispatch_id`. */
  predicate Matches(x: StockExit, item: Item, orderPk: nat) {
    && x.dispatchId == Some(item.dispatchId) && x.orderPk == Some(orderPk) && x.skuId == item.skuId
    && x.quantity == item.quantity && x.exitType == Dispatch && x.tracking == Some(item.tracking)
  }

  ghost predicate Recorded(t: Tables, item: Item, orderPk: nat) {
    exists x :: x in t.exits && Matches(t.exits[x], item, orderPk)
  }

  function Required(items: seq<Item>, skuId: int): nat {
    if items == [] then 0
    else (if items[0].skuId == skuId then items[0].quantity else 0) + Required(items[1..], skuId)
  }

  /** `_validate_order_skus`: `None` when the items may be dispatched. */
  ghost function ValidateOrder(t: Tables, items: seq<Item>, clientId: string, warehouse: string): Option<Reply> {
    if exists i :: i in items && i.skuId !in t.skus then Some(IntegrityFailure)
    else if exists i :: (i in items && i.skuId in t.skus
                         && (t.skus[i.skuId].clientId != Some(clientId) || t.skus[i.skuId].warehouse != warehouse))
      then Some(BadRequest)
    else if exists i :: i in items && Required(items, i.skuId) > Stock(t, i.skuId, warehouse)
      then Some(BadRequest)
    else None
  }

  function DispatchRow(item: Item, orderPk: nat, warehouse: string, env: Env): StockExit {
    StockExit(item.skuId, item.quantity, Dispatch, Some(item.tracking), warehouse, env.now, env.user,
      Some(orderPk), Some(item.dispatchId))
  }

  /** The dispatch loop; every step recomputes the stock that the running dictionary caches. */
  ghost function AddDispatches(t: Tables, items: seq<Item>, orderPk: nat, warehouse: string,
                               env: Env): Option<Tables>
    decreases items
  {
    if items == [] then Some(t)
    else if items[0].skuId !in t.skus || DispatchUsed(t, items[0].dispatchId) then None
    else
      var t' := AddExit(t, DispatchRow(items[0], orderPk, warehouse, env), env.thresholdId(items[0].dispatchId));
      if t'.None? then None else AddDispatches(t'.value, items[1..], orderPk, warehouse, env)
  }

  function InsertById(item: Item, sorted: seq<Item>): seq<Item> {
    if sorted == [] || Less(item.dispatchId, sorted[0].dispatchId) then [item] + sorted
    else [sorted[0]] + InsertById(item, sorted[1..])
  }

  /** `sorted(dispatches, key=lambda value: str(value.dispatch_id))` */
  function SortById(items: seq<Item>): seq<Item> {
    if items == [] then [] else InsertById(items[|items| - 1], SortById(items[..|items| - 1]))
  }

  ghost predicate SameDispatches(t: Tables, items: seq<Item>, orderPk: nat) {
    && (forall x :: x in OrderExits(t, orderPk) ==>
          exists i :: i in items && t.exits[x].dispatchId == Some(i.dispatchId))
    && (forall i :: i in items ==> Recorded(t, i, orderPk))
  }

  function OpenOrder(t: Tables, order: CommercialOrder): Tables {
    t.(orders := t.orders[t.nextOrder := order], nextOrder := t.nextOrder + 1)
  }

  ghost function CreateOrderSpec(t: Tables, orderId: string, clientId: string, warehouse: string,
                                 items: seq<Item>, env: Env): Outcome {
    var found := FindOrder(t, orderId);
    if found.Some? then
      var order := t.orders[found.value];
      if order.clientId == clientId && order.warehouse == warehouse
         && SameDispatches(t, items, found.value)
      then Outcome(t, Existing(found.value)) else Outcome(t, Conflict)
    else if exists i :: i in items && DispatchUsed(t, i.dispatchId) then Outcome(t, Conflict) else
    var refused := ValidateOrder(t, items, clientId, warehouse);
    if refused.Some? then Outcome(t, refused.value) else
    var pk := t.nextOrder;
    var started := OpenOrder(t, CommercialOrder(orderId, clientId, warehouse, env.now));
    var filled := AddDispatches(started, SortById(items), pk, warehouse, env);
    if filled.None? then Outcome(t, IntegrityFailure) else
    var closed := Enqueue(filled.value, env.eventId, env.now, OutboxKey(CommercialOrderTable, pk),
      OrderTags(orderId, TelemetryWarehouse(warehouse), clientId));
    if closed.None? then Outcome(t, IntegrityFailure) else Outcome(closed.value, Created(pk))
  }

  ghost function NewItems(t: Tables, items: seq<Item>): seq<Item> {
    if items == [] then []
    else (if DispatchUsed(t, items[0].dispatchId) then [] else [items[0]]) + NewItems(t, items[1..])
  }

  ghost function AppendSpec(t: Tables, orderId: string, items: seq<Item>, env: Env): Outcome {
    var found := FindOrder(t, orderId);
    if found.None? then Outcome(t, NotFound) else
    var pk := found.value;
    if exists i :: i in items && DispatchUsed(t, i.dispatchId) && !Recorded(t, i, pk)
    then Outcome(t, Conflict) else
    var unseen := NewItems(t, items);
    if unseen == [] then Outcome(t, Existing(pk)) else
    var order := t.orders[pk];
    var refused := ValidateOrder(t, unseen, order.clientId, order.warehouse);
    if refused.Some? then Outcome(t, refused.value) else
    var filled := AddDispatches(t, SortById(unseen), pk, order.warehouse, env);
    if filled.None? then Outcome(t, IntegrityFailure) else Outcome(filled.value, Done)
  }

  // ----- runs -----

  ghost function Execute(t: Tables, c: Command, env: Env): Outcome {
    if !ValidPayload(c) then Outcome(t, Unprocessable) else
    match c
    case AddSku(id, sku) =>
      if id in t.skus then Outcome(t, IntegrityFailure)
      else Outcome(t.(skus := t.skus[id := sku]), Done)
    case SetThreshold(skuId, threshold) =>
      if skuId !in t.skus then Outcome(t, NotFound)
      else Outcome(t.(skus := t.skus[skuId := t.skus[skuId].(threshold := threshold)]), Done)
    case EnterStock(skuId, quantity, reference, warehouse) =>
      EnterStockSpec(t, skuId, quantity, reference, warehouse, env)
    case ExitStock(skuId, quantity, exitType, tracking, warehouse) =>
      ExitStockSpec(t, skuId, quantity, exitType, tracking, warehouse, env)
    case ConfirmCount(countId, skuId, observed, warehouse) =>
      ConfirmCountSpec(t, countId, skuId, observed, warehouse, env)
    case CreateOrder(orderId, clientId, warehouse, items) =>
      CreateOrderSpec(t, orderId, clientId, warehouse, items, env)
    case AppendDispatches(orderId, items) => AppendSpec(t, orderId, items, env)
  }

  datatype Call = Call(command: Command, env: Env)

  /** The tables after a run of commands in commit order. */
  ghost function RunAll(t: Tables, calls: seq<Call>): Tables {
    if calls == [] then t
    else Execute(RunAll(t, calls[..|calls| - 1]), calls[|calls| - 1].command, calls[|calls| - 1].env).tables
  }
}
