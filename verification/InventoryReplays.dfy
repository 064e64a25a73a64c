/** Retried and reused command ids, and the re-arming of stock thresholds. */
module InventoryReplays {
  import opened Basics
  import opened Vocabulary
  import opened InventoryTables
  import opened InventoryCommands
  import opened InventoryInvariants
  import opened InventorySteps
  import opened InventoryLedger
  import opened InventoryOrders
  import opened InventoryRuns

  // ----- finding a row by its public id -----

  lemma FindCountUnique(t: Tables, pk: nat)
    requires Unique(t) && pk in t.counts
    ensures FindCount(t, t.counts[pk].countId) == Some(pk)
  {
  }

  lemma FindOrderUnique(t: Tables, pk: nat)
    requires Unique(t) && pk in t.orders
    ensures FindOrder(t, t.orders[pk].orderId) == Some(pk)
  {
  }

  lemma SoundUnique(t: Tables)
    requires Sound(t)
    ensures Unique(t) && Bounded(t)
  {
  }

  lemma ExtendsRows(t: Tables, t': Tables)
    requires Extends(t, t')
    ensures Grows(t.counts, t'.counts) && Grows(t.orders, t'.orders) && Grows(t.exits, t'.exits)
  {
  }

  // ----- physical counts -----

  predicate CountContent(n: PhysicalCount, skuId: int, observed: int, warehouse: string, user: string) {
    n.skuId == skuId && n.observed == observed && n.warehouse == warehouse && n.user == user
  }

  lemma CountPosted(t: Tables, countId: string, skuId: int, observed: nat, warehouse: string, env: Env)
    requires var reply := ConfirmCountSpec(t, countId, skuId, observed, warehouse, env).reply;
      reply.Created? || reply.Existing?
    ensures var o := ConfirmCountSpec(t, countId, skuId, observed, warehouse, env);
      && o.reply.pk in o.tables.counts && o.tables.counts[o.reply.pk].countId == countId
      && CountContent(o.tables.counts[o.reply.pk], skuId, observed, warehouse, env.user)
  {
    if ConfirmCountSpec(t, countId, skuId, observed, warehouse, env).reply.Created? {
      ConfirmCountShape(t, countId, skuId, observed, warehouse, env);
    }
  }

  lemma CountReplayed(t: Tables, pk: nat, skuId: int, observed: nat, warehouse: string, env: Env)
    requires Unique(t) && pk in t.counts
    ensures ConfirmCountSpec(t, t.counts[pk].countId, skuId, observed, warehouse, env) ==
      Outcome(t, if CountContent(t.counts[pk], skuId, observed, warehouse, env.user) then Existing(pk) else Conflict)
  {
    FindCountUnique(t, pk);
  }

  /** A count that was confirmed once is found again by every later identical command, which
      changes nothing; the same id with any other content is a conflict, which changes nothing. */
  lemma CountIdempotent(t: Tables, countId: string, skuId: int, observed: nat, warehouse: string, env: Env,
                        calls: seq<Call>, skuId': int, observed': nat, warehouse': string, env': Env)
    requires Sound(t)
    requires ValidPayload(ConfirmCount(countId, skuId, observed, warehouse))
    requires ValidPayload(ConfirmCount(countId, skuId', observed', warehouse'))
    requires var reply := Execute(t, ConfirmCount(countId, skuId, observed, warehouse), env).reply;
      reply.Created? || reply.Existing?
    ensures var first := Execute(t, ConfirmCount(countId, skuId, observed, warehouse), env);
      var later := RunAll(first.tables, calls);
      Execute(later, ConfirmCount(countId, skuId', observed', warehouse'), env') == Outcome(later,
        if skuId' == skuId && observed' == observed && warehouse' == warehouse && env'.user == env.user
        then Existing(first.reply.pk) else Conflict)
  {
    hide Good, Balanced, Extends, RunAll, ConfirmCountSpec;
    var first := Execute(t, ConfirmCount(countId, skuId, observed, warehouse), env);
    ExecuteKeeps(t, ConfirmCount(countId, skuId, observed, warehouse), env);
    CountPosted(t, countId, skuId, observed, warehouse, env);
    RunSound(first.tables, calls);
    var later := RunAll(first.tables, calls);
    SoundUnique(later);
    ExtendsRows(first.tables, later);
    CountReplayed(later, first.reply.pk, skuId', observed', warehouse', env');
  }

  // ----- commercial orders -----

  function ItemSet(items: seq<Item>): set<Item> { set i | i in items }

  function ItemOf(x: StockExit): Item
    requires x.dispatchId.Some? && x.quantity >= 0
  {
    Item(x.dispatchId.value, x.skuId, x.quantity, if x.tracking.Some? then x.tracking.value else "")
  }

  predicate OrderExitsOk(t: Tables, pk: nat) {
    forall x :: x in t.exits && t.exits[x].orderPk == Some(pk) ==>
      t.exits[x].dispatchId.Some? && t.exits[x].exitType == Dispatch && t.exits[x].quantity > 0
  }

  /** The partials an order holds. */
  function DispatchedItems(t: Tables, pk: nat): set<Item>
    requires OrderExitsOk(t, pk)
  {
    set x | x in t.exits && t.exits[x].orderPk == Some(pk) :: ItemOf(t.exits[x])
  }

  lemma SoundOrderExits(t: Tables, pk: nat)
    requires Sound(t)
    ensures OrderExitsOk(t, pk)
  {
    hide Balanced;
    forall x | x in t.exits && t.exits[x].orderPk == Some(pk)
      ensures t.exits[x].dispatchId.Some? && t.exits[x].exitType == Dispatch && t.exits[x].quantity > 0
    {
      assert ExitOk(t, x);
    }
  }

  lemma SameDispatchesExact(t: Tables, items: seq<Item>, pk: nat)
    requires Unique(t) && OrderExitsOk(t, pk) && ValidItems(items)
    ensures SameDispatches(t, items, pk) <==> ItemSet(items) == DispatchedItems(t, pk)
  {
    if SameDispatches(t, items, pk) {
      SameDispatchesGives(t, items, pk);
    } else if ItemSet(items) == DispatchedItems(t, pk) {
      SameItemsGive(t, items, pk);
    }
  }

  lemma SameDispatchesGives(t: Tables, items: seq<Item>, pk: nat)
    requires Unique(t) && OrderExitsOk(t, pk) && SameDispatches(t, items, pk)
    ensures ItemSet(items) == DispatchedItems(t, pk)
  {
    forall i | i in items ensures i in DispatchedItems(t, pk) {
      assert Recorded(t, i, pk);
      var x :| x in t.exits && Matches(t.exits[x], i, pk);
      assert ItemOf(t.exits[x]) == i;
    }
    forall x | x in t.exits && t.exits[x].orderPk == Some(pk) ensures ItemOf(t.exits[x]) in items {
      assert x in OrderExits(t, pk);
      var i :| i in items && t.exits[x].dispatchId == Some(i.dispatchId);
      assert Recorded(t, i, pk);
      var y :| y in t.exits && Matches(t.exits[y], i, pk);
      assert x == y;
    }
  }

  lemma SameItemsGive(t: Tables, items: seq<Item>, pk: nat)
    requires OrderExitsOk(t, pk) && ValidItems(items) && ItemSet(items) == DispatchedItems(t, pk)
    ensures SameDispatches(t, items, pk)
  {
    forall x | x in OrderExits(t, pk) ensures exists i :: i in items && t.exits[x].dispatchId == Some(i.dispatchId) {
      assert ItemOf(t.exits[x]) in DispatchedItems(t, pk);
      assert ItemOf(t.exits[x]) in ItemSet(items);
    }
    forall i | i in items ensures Recorded(t, i, pk) {
      assert i in ItemSet(items) && i in DispatchedItems(t, pk);
      var x :| x in t.exits && t.exits[x].orderPk == Some(pk) && ItemOf(t.exits[x]) == i;
      assert i.tracking != "";
      assert Matches(t.exits[x], i, pk);
    }
  }

  /** A command that names an existing order succeeds exactly when it describes the order as it
      stands, and changes nothing either way. */
  lemma OrderReused(t: Tables, pk: nat, clientId: string, warehouse: string, items: seq<Item>, env: Env)
    requires Sound(t) && pk in t.orders
    requires ValidPayload(CreateOrder(t.orders[pk].orderId, clientId, warehouse, items))
    ensures OrderExitsOk(t, pk)
    ensures Execute(t, CreateOrder(t.orders[pk].orderId, clientId, warehouse, items), env) == Outcome(t,
      if clientId == t.orders[pk].clientId && warehouse == t.orders[pk].warehouse
         && ItemSet(items) == DispatchedItems(t, pk)
      then Existing(pk) else Conflict)
  {
    hide Good, Balanced, SameDispatches, ValidItems, AddDispatches;
    SoundUnique(t);
    FindOrderUnique(t, pk);
    SoundOrderExits(t, pk);
    SameDispatchesExact(t, items, pk);
  }

  // ----- what an order command dispatches -----

  lemma {:induction false} NewExitsAreItems(t: Tables, items: seq<Item>, orderPk: nat, warehouse: string, env: Env)
    requires AddDispatches(t, items, orderPk, warehouse, env).Some?
    ensures var t' := AddDispatches(t, items, orderPk, warehouse, env).value;
      forall x :: x in t'.exits ==>
        (x in t.exits && t'.exits[x] == t.exits[x]) || exists i :: i in items && t'.exits[x] == DispatchRow(i, orderPk, warehouse, env)
    decreases items
  {
    if items != [] {
      var row, id := DispatchRow(items[0], orderPk, warehouse, env), env.thresholdId(items[0].dispatchId);
      AddExitFrame(t, row, id);
      var t1 := AddExit(t, row, id).value;
      NewExitsAreItems(t1, items[1..], orderPk, warehouse, env);
      var t' := AddDispatches(t, items, orderPk, warehouse, env).value;
      forall x | x in t'.exits && !(x in t.exits && t'.exits[x] == t.exits[x])
        ensures exists i :: i in items && t'.exits[x] == DispatchRow(i, orderPk, warehouse, env)
      {
        if x in t1.exits && t'.exits[x] == t1.exits[x] {
          assert x == t.nextExit && t'.exits[x] == DispatchRow(items[0], orderPk, warehouse, env);
        }
      }
    }
  }

  lemma NoExitsYet(t: Tables, x: nat)
    requires Sound(t) && x in t.exits
    ensures t.exits[x].orderPk != Some(t.nextOrder)
  {
    hide Balanced;
    assert ExitOk(t, x);
  }

  /** An order starts with the partials of the command that created it, and no other. */
  lemma OrderStartsWith(t: Tables, orderId: string, clientId: string, warehouse: string, items: seq<Item>, env: Env)
    requires Sound(t) && ValidPayload(CreateOrder(orderId, clientId, warehouse, items))
    requires CreateOrderSpec(t, orderId, clientId, warehouse, items, env).reply.Created?
    ensures var t' := CreateOrderSpec(t, orderId, clientId, warehouse, items, env).tables;
      && Kept(t, t') && t'.orders == t.orders[t.nextOrder := CommercialOrder(orderId, clientId, warehouse, env.now)]
      && OrderExitsOk(t', t.nextOrder) && DispatchedItems(t', t.nextOrder) == ItemSet(items)
  {
    hide Good, Balanced, Extends, CreateOrderSpec, AddDispatches, SortById, Recorded;
    var order := CommercialOrder(orderId, clientId, warehouse, env.now);
    var t' := CreateOrderSpec(t, orderId, clientId, warehouse, items, env).tables;
    CreateOrderKeeps(t, orderId, clientId, warehouse, items, env);
    CreateOrderShape(t, orderId, clientId, warehouse, items, env);
    NewExitsAreItems(OpenOrder(t, order), SortById(items), t.nextOrder, warehouse, env);
    SortByIdKeeps(items);
    SoundOrderExits(t', t.nextOrder);
    forall x | x in t'.exits && t'.exits[x].orderPk == Some(t.nextOrder) ensures ItemOf(t'.exits[x]) in items {
      if x in t.exits && t'.exits[x] == t.exits[x] { NoExitsYet(t, x); }
    }
    forall i | i in items ensures i in DispatchedItems(t', t.nextOrder) { RecordedListed(t', i, t.nextOrder); }
  }

  lemma RecordedListed(t: Tables, i: Item, pk: nat)
    requires OrderExitsOk(t, pk) && Recorded(t, i, pk)
    ensures i in DispatchedItems(t, pk)
  {
    var x :| x in t.exits && Matches(t.exits[x], i, pk);
    assert ItemOf(t.exits[x]) == i;
  }

  /** Repeating an order creation, after any other commands, finds the order again exactly when
      no partial was appended in between; otherwise it is a conflict. Neither changes a table. */
  lemma OrderIdempotent(t: Tables, orderId: string, clientId: string, warehouse: string, items: seq<Item>,
                        env: Env, calls: seq<Call>, env': Env)
    requires Sound(t) && ValidPayload(CreateOrder(orderId, clientId, warehouse, items))
    requires Execute(t, CreateOrder(orderId, clientId, warehouse, items), env).reply.Created?
    ensures var first := Execute(t, CreateOrder(orderId, clientId, warehouse, items), env);
      var later := RunAll(first.tables, calls);
      Execute(later, CreateOrder(orderId, clientId, warehouse, items), env') == Outcome(later,
        if OrderExits(later, first.reply.pk) == OrderExits(first.tables, first.reply.pk)
        then Existing(first.reply.pk) else Conflict)
  {
    hide Good, Balanced, Extends, RunAll, CreateOrderSpec, DispatchedItems, OrderExits, ItemSet;
    var first := Execute(t, CreateOrder(orderId, clientId, warehouse, items), env);
    CreatedKey(t, orderId, clientId, warehouse, items, env);
    var pk := first.reply.pk;
    OrderStartsWith(t, orderId, clientId, warehouse, items, env);
    RunSound(first.tables, calls);
    var later := RunAll(first.tables, calls);
    SoundUnique(first.tables);
    SoundUnique(later);
    ExtendsRows(first.tables, later);
    OrderReused(later, pk, clientId, warehouse, items, env');
    SamePartialsSameExits(first.tables, later, pk);
  }

  lemma CreatedKey(t: Tables, orderId: string, clientId: string, warehouse: string, items: seq<Item>, env: Env)
    requires CreateOrderSpec(t, orderId, clientId, warehouse, items, env).reply.Created?
    ensures CreateOrderSpec(t, orderId, clientId, warehouse, items, env).reply == Created(t.nextOrder)
  {
  }

  lemma SamePartialsSameExits(t: Tables, t': Tables, pk: nat)
    requires Unique(t') && Grows(t.exits, t'.exits) && OrderExitsOk(t, pk) && OrderExitsOk(t', pk)
    ensures DispatchedItems(t, pk) == DispatchedItems(t', pk) <==> OrderExits(t, pk) == OrderExits(t', pk)
  {
    assert forall x :: x in OrderExits(t, pk) ==> x in OrderExits(t', pk);
    if DispatchedItems(t, pk) == DispatchedItems(t', pk) {
      forall x | x in OrderExits(t', pk) ensures x in OrderExits(t, pk) {
        assert ItemOf(t'.exits[x]) in DispatchedItems(t', pk);
        var y :| y in t.exits && t.exits[y].orderPk == Some(pk) && ItemOf(t.exits[y]) == ItemOf(t'.exits[x]);
        assert t'.exits[y].dispatchId == t'.exits[x].dispatchId;
      }
    } else if OrderExits(t, pk) == OrderExits(t', pk) {
      forall x | x in t'.exits && t'.exits[x].orderPk == Some(pk) ensures x in t.exits && t.exits[x] == t'.exits[x] {
        assert x in OrderExits(t, pk);
      }
    }
  }

  // ----- appended partials -----

  lemma {:induction false} NothingNew(t: Tables, items: seq<Item>)
    requires forall i :: i in items ==> DispatchUsed(t, i.dispatchId)
    ensures NewItems(t, items) == []
  {
    if items != [] { NothingNew(t, items[1..]); }
  }

  lemma AppendReplayed(t: Tables, pk: nat, items: seq<Item>, env: Env)
    requires Unique(t) && pk in t.orders && forall i :: i in items ==> Recorded(t, i, pk)
    ensures AppendSpec(t, t.orders[pk].orderId, items, env) == Outcome(t, Existing(pk))
  {
    FindOrderUnique(t, pk);
    forall i | i in items ensures DispatchUsed(t, i.dispatchId) {
      var x :| x in t.exits && Matches(t.exits[x], i, pk);
    }
    NothingNew(t, items);
  }

  lemma FoundOrder(t: Tables, orderId: string)
    requires FindOrder(t, orderId).Some?
    ensures var pk := FindOrder(t, orderId).value; pk in t.orders && t.orders[pk].orderId == orderId
  {
  }

  lemma AppendPosted(t: Tables, orderId: string, items: seq<Item>, env: Env)
    requires Sound(t) && ValidPayload(AppendDispatches(orderId, items))
    requires var reply := AppendSpec(t, orderId, items, env).reply; reply.Done? || reply.Existing?
    ensures FindOrder(t, orderId).Some?
    ensures var pk, t' := FindOrder(t, orderId).value, AppendSpec(t, orderId, items, env).tables;
      && pk in t'.orders && t'.orders[pk].orderId == orderId
      && (forall i :: i in items ==> Recorded(t', i, pk))
  {
    hide Good, Balanced, Recorded, ValidateOrder, AddDispatches, DispatchUsed, FindOrder, NewItems;
    if AppendSpec(t, orderId, items, env).reply.Done? {
      AppendKeeps(t, orderId, items, env);
      FoundOrder(t, orderId);
    } else {
      AppendFound(t, orderId, items, env);
      FoundOrder(t, orderId);
      NewItemsKeeps(t, items);
    }
  }

  lemma AppendFound(t: Tables, orderId: string, items: seq<Item>, env: Env)
    requires AppendSpec(t, orderId, items, env).reply.Existing?
    ensures AppendSpec(t, orderId, items, env).tables == t && NewItems(t, items) == []
    ensures FindOrder(t, orderId).Some?
    ensures forall i :: i in items && DispatchUsed(t, i.dispatchId) ==> Recorded(t, i, FindOrder(t, orderId).value)
  {
  }

  /** Repeating an append, after any other commands, changes nothing and emits no event. */
  lemma AppendIdempotent(t: Tables, orderId: string, items: seq<Item>, env: Env, calls: seq<Call>, env': Env)
    requires Sound(t) && ValidPayload(AppendDispatches(orderId, items))
    requires var reply := Execute(t, AppendDispatches(orderId, items), env).reply; reply.Done? || reply.Existing?
    ensures FindOrder(t, orderId).Some?
    ensures var later := RunAll(Execute(t, AppendDispatches(orderId, items), env).tables, calls);
      Execute(later, AppendDispatches(orderId, items), env') == Outcome(later, Existing(FindOrder(t, orderId).value))
  {
    hide Good, Balanced, Extends, RunAll, AppendSpec, Recorded, FindOrder;
    var first := Execute(t, AppendDispatches(orderId, items), env);
    ExecuteKeeps(t, AppendDispatches(orderId, items), env);
    AppendPosted(t, orderId, items, env);
    var pk := FindOrder(t, orderId).value;
    RunSound(first.tables, calls);
    var later := RunAll(first.tables, calls);
    SoundUnique(later);
    ExtendsRows(first.tables, later);
    forall i | i in items ensures Recorded(later, i, pk) { RecordedKept(first.tables, later, i, pk); }
    AppendReplayed(later, pk, items, env');
  }

  /** A dispatch id that already carries other content is refused whole. */
  lemma AppendConflict(t: Tables, pk: nat, items: seq<Item>, env: Env, i: Item)
    requires Sound(t) && pk in t.orders && ValidPayload(AppendDispatches(t.orders[pk].orderId, items))
    requires i in items && DispatchUsed(t, i.dispatchId)
    requires forall x :: x in t.exits && t.exits[x].dispatchId == Some(i.dispatchId) ==> !Matches(t.exits[x], i, pk)
    ensures Execute(t, AppendDispatches(t.orders[pk].orderId, items), env) == Outcome(t, Conflict)
  {
    hide Good, Balanced, ValidateOrder, AddDispatches, NewItems, FindOrder;
    SoundUnique(t);
    FindOrderUnique(t, pk);
    assert !Recorded(t, i, pk);
  }

  // ----- thresholds -----

  lemma SoundCheckpoint(t: Tables, i: nat)
    requires Sound(t) && i < |t.journal|
    ensures t.journal[i] in t.checkpoints
    ensures var c := t.checkpoints[t.journal[i]];
      && c.before == Level(t, i, c.skuId, c.warehouse) && c.after == Level(t, i + 1, c.skuId, c.warehouse)
      && c.skuId in t.skus && c.warehouse == t.skus[c.skuId].warehouse
      && (c.crossed ==> c.threshold.Some? && c.after <= c.threshold.value < c.before)
  {
    assert Exact(t, i);
    if t.journal[i].Inbound? { assert EntryOk(t, t.journal[i].pk); } else { assert ExitOk(t, t.journal[i].pk); }
  }

  lemma {:induction false} LiftBetween(t: Tables, i: nat, j: nat, sku: int, warehouse: string, limit: int) returns (k: nat)
    requires i < j <= |t.journal|
    requires Level(t, i, sku, warehouse) <= limit < Level(t, j, sku, warehouse)
    ensures i <= k < j && Level(t, k, sku, warehouse) <= limit < Level(t, k + 1, sku, warehouse)
    decreases j
  {
    if Level(t, j - 1, sku, warehouse) <= limit { k := j - 1; } else { k := LiftBetween(t, i, j - 1, sku, warehouse, limit); }
  }

  lemma LiftIsEntry(t: Tables, k: nat, sku: int, warehouse: string)
    requires Sound(t) && k < |t.journal|
    requires Level(t, k, sku, warehouse) < Level(t, k + 1, sku, warehouse)
    ensures var m := t.journal[k];
      && m.Inbound? && m in t.checkpoints
      && t.checkpoints[m].skuId == sku && t.checkpoints[m].warehouse == warehouse
  {
    var m := t.journal[k];
    assert Delta(t, m, sku, warehouse) > 0;
    if m.Outbound? { ExitLowers(t, k, sku, warehouse); } else { EntryCheckpointed(t, k); }
  }

  lemma ExitLowers(t: Tables, k: nat, sku: int, warehouse: string)
    requires Sound(t) && k < |t.journal| && t.journal[k].Outbound?
    ensures Delta(t, t.journal[k], sku, warehouse) <= 0
  {
    assert MovementExists(t, t.journal[k]) && ExitOk(t, t.journal[k].pk);
  }

  lemma EntryCheckpointed(t: Tables, k: nat)
    requires Sound(t) && k < |t.journal| && t.journal[k].Inbound?
    ensures var m := t.journal[k];
      && m in t.checkpoints && m.pk in t.entries
      && t.checkpoints[m].skuId == t.entries[m.pk].skuId && t.checkpoints[m].warehouse == t.entries[m.pk].warehouse
  {
    assert MovementExists(t, t.journal[k]) && EntryOk(t, t.journal[k].pk);
  }

  /** Movement `k` is a stock entry that lifts the SKU of `event` over its threshold. */
  predicate Lifts(t: Tables, k: nat, event: Checkpoint)
    requires k < |t.journal| && event.threshold.Some?
  {
    && t.journal[k].Inbound? && t.journal[k] in t.checkpoints
    && (var e := t.checkpoints[t.journal[k]];
        e.skuId == event.skuId && e.before <= event.threshold.value < e.after)
  }

  /** Between two threshold events of one SKU, where the threshold was not lowered, a stock entry
      lifted the stock back above the threshold. */
  lemma ThresholdRearms(t: Tables, i: nat, j: nat)
    requires Sound(t) && i < j < |t.journal|
    requires t.journal[i] in t.checkpoints && t.journal[j] in t.checkpoints
    requires var c, d := t.checkpoints[t.journal[i]], t.checkpoints[t.journal[j]];
      && c.crossed && d.crossed && c.skuId == d.skuId
      && c.threshold.Some? && d.threshold.Some? && c.threshold.value <= d.threshold.value
    ensures exists k :: i < k < j && Lifts(t, k, t.checkpoints[t.journal[j]])
  {
    hide Good, Balanced, Level;
    var c, d := t.checkpoints[t.journal[i]], t.checkpoints[t.journal[j]];
    SoundCheckpoint(t, i);
    SoundCheckpoint(t, j);
    var k := LiftBetween(t, i + 1, j, d.skuId, d.warehouse, d.threshold.value);
    LiftIsEntry(t, k, d.skuId, d.warehouse);
    SoundCheckpoint(t, k);
    assert t.journal[j] in t.checkpoints && Lifts(t, k, d);
  }

  /** An exit has a threshold event exactly when it took the stock from above the threshold
      evaluated with it to the threshold or below. */
  lemma EventIffCrossed(t: Tables, i: nat)
    requires Sound(t) && i < |t.journal| && t.journal[i].Outbound?
    ensures t.journal[i] in t.checkpoints
    ensures var c := t.checkpoints[t.journal[i]];
      OutboxKey(StockExitTable, t.journal[i].pk) in t.outbox <==>
        && c.threshold.Some?
        && Level(t, i, c.skuId, c.warehouse) > c.threshold.value >= Level(t, i + 1, c.skuId, c.warehouse)
  {
    hide Level;
    SoundCheckpoint(t, i);
    var m := t.journal[i];
    assert MovementExists(t, m) && m == Outbound(m.pk);
    assert ExitOk(t, m.pk);
    var c := t.checkpoints[m];
    assert OutboxKey(StockExitTable, m.pk) in t.outbox <==> c.crossed;
  }
}
