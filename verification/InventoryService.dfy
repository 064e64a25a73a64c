/** The inventory service as it runs: a session over mutable tables, proved against the commands. */
module InventoryService {
  import opened Basics
  import opened Identifiers
  import opened Vocabulary
  import opened InventoryTables
  import opened InventoryCommands
  import opened InventoryInvariants
  import opened InventoryOrders
  import opened InventoryRuns

  type Level = map<(int, string), int>

  function Get(level: Level, key: (int, string)): int { if key in level then level[key] else 0 }

  function At(level: Level, sku: int, warehouse: string): int { Get(level, (sku, warehouse)) }

  // ----- SQL aggregates -----

  ghost predicate SumsEntries(sums: Level, entries: map<nat, StockEntry>) {
    forall s: int, w: string ::
      At(sums, s, w) == Sum(Received(entries, s, w), Units) && ((s, w) in sums <==> Received(entries, s, w) != {})
  }

  lemma SumsEntriesNext(sums: Level, entries: map<nat, StockEntry>, pk: nat, e: StockEntry)
    requires SumsEntries(sums, entries) && pk !in entries
    ensures SumsEntries(sums[(e.skuId, e.warehouse) := At(sums, e.skuId, e.warehouse) + e.quantity], entries[pk := e])
  {
    var next := sums[(e.skuId, e.warehouse) := At(sums, e.skuId, e.warehouse) + e.quantity];
    forall s: int, w: string
      ensures At(next, s, w) == Sum(Received(entries[pk := e], s, w), Units)
      ensures (s, w) in next <==> Received(entries[pk := e], s, w) != {}
    {
      assert At(sums, s, w) == Sum(Received(entries, s, w), Units);
      ReceivedAfter(entries, pk, e, s, w);
      if e.skuId == s && e.warehouse == w {
        SumPut(Received(entries, s, w), (pk, e.quantity), Units);
      } else {
        assert Received(entries, s, w) + {} == Received(entries, s, w);
      }
    }
  }

  lemma NoEntries()
    ensures SumsEntries(map[], map[])
  {
    forall s: int, w: string ensures Received(map[], s, w) == {} {}
  }

  /** `SELECT sku_id, warehouse, SUM(quantity) ... GROUP BY` over the entries. */
  method GroupEntries(entries: map<nat, StockEntry>) returns (sums: Level)
    ensures SumsEntries(sums, entries)
  {
    hide *;
    sums := map[];
    var todo := entries.Keys;
    ghost var done: map<nat, StockEntry> := map[];
    NoEntries();
    while todo != {}
      invariant todo <= entries.Keys && done == entries - todo
      invariant SumsEntries(sums, done)
      decreases |todo|
    {
      var pk :| pk in todo;
      var e := entries[pk];
      SumsEntriesNext(sums, done, pk, e);
      sums := sums[(e.skuId, e.warehouse) := At(sums, e.skuId, e.warehouse) + e.quantity];
      done := done[pk := e];
      todo := todo - {pk};
    }
    assert done == entries;
  }

  ghost predicate SumsExits(sums: Level, exits: map<nat, StockExit>) {
    forall s: int, w: string ::
      At(sums, s, w) == Sum(Shipped(exits, s, w), Units) && ((s, w) in sums <==> Shipped(exits, s, w) != {})
  }

  lemma SumsExitsNext(sums: Level, exits: map<nat, StockExit>, pk: nat, x: StockExit)
    requires SumsExits(sums, exits) && pk !in exits
    ensures SumsExits(sums[(x.skuId, x.warehouse) := At(sums, x.skuId, x.warehouse) + x.quantity], exits[pk := x])
  {
    var next := sums[(x.skuId, x.warehouse) := At(sums, x.skuId, x.warehouse) + x.quantity];
    forall s: int, w: string
      ensures At(next, s, w) == Sum(Shipped(exits[pk := x], s, w), Units)
      ensures (s, w) in next <==> Shipped(exits[pk := x], s, w) != {}
    {
      assert At(sums, s, w) == Sum(Shipped(exits, s, w), Units);
      ShippedAfter(exits, pk, x, s, w);
      if x.skuId == s && x.warehouse == w {
        SumPut(Shipped(exits, s, w), (pk, x.quantity), Units);
      } else {
        assert Shipped(exits, s, w) + {} == Shipped(exits, s, w);
      }
    }
  }

  lemma NoExits()
    ensures SumsExits(map[], map[])
  {
    forall s: int, w: string ensures Shipped(map[], s, w) == {} {}
  }

  /** The same query over the exits. */
  method GroupExits(exits: map<nat, StockExit>) returns (sums: Level)
    ensures SumsExits(sums, exits)
  {
    hide *;
    sums := map[];
    var todo := exits.Keys;
    ghost var done: map<nat, StockExit> := map[];
    NoExits();
    while todo != {}
      invariant todo <= exits.Keys && done == exits - todo
      invariant SumsExits(sums, done)
      decreases |todo|
    {
      var pk :| pk in todo;
      var x := exits[pk];
      SumsExitsNext(sums, done, pk, x);
      sums := sums[(x.skuId, x.warehouse) := At(sums, x.skuId, x.warehouse) + x.quantity];
      done := done[pk := x];
      todo := todo - {pk};
    }
    assert done == exits;
  }

  /** The combination loop over the union of both key sets. */
  method Difference(received: Level, shipped: Level) returns (result: Level)
    ensures result.Keys == received.Keys + shipped.Keys
    ensures forall k :: Get(result, k) == Get(received, k) - Get(shipped, k)
  {
    hide Get, Differences;
    result := map[];
    var todo := received.Keys + shipped.Keys;
    ghost var done: set<(int, string)> := {};
    NoDifferences(received, shipped);
    while todo != {}
      invariant Differences(result, received, shipped, done) && done + todo == received.Keys + shipped.Keys
      decreases |todo|
    {
      ghost var some := Witness(todo);
      var key :| key in todo;
      DifferencesNext(result, received, shipped, done, key);
      result := result[key := Get(received, key) - Get(shipped, key)];
      todo, done := todo - {key}, done + {key};
    }
    AllDifferences(result, received, shipped, done);
  }

  ghost predicate Differences(result: Level, received: Level, shipped: Level, done: set<(int, string)>) {
    result.Keys == done && forall k :: k in result ==> result[k] == Get(received, k) - Get(shipped, k)
  }

  lemma NoDifferences(received: Level, shipped: Level)
    ensures Differences(map[], received, shipped, {})
  {
  }

  lemma DifferencesNext(result: Level, received: Level, shipped: Level, done: set<(int, string)>, key: (int, string))
    requires Differences(result, received, shipped, done)
    ensures Differences(result[key := Get(received, key) - Get(shipped, key)], received, shipped, done + {key})
  {
    hide Get;
  }

  lemma AllDifferences(result: Level, received: Level, shipped: Level, done: set<(int, string)>)
    requires Differences(result, received, shipped, done) && done == received.Keys + shipped.Keys
    ensures result.Keys == received.Keys + shipped.Keys
    ensures forall k :: Get(result, k) == Get(received, k) - Get(shipped, k)
  {
  }

  // ----- validation -----

  lemma {:induction false} RequiredSplit(items: seq<Item>, i: nat, sku: int)
    requires i <= |items|
    ensures Required(items, sku) == Required(items[..i], sku) + Required(items[i..], sku)
  {
    if i == 0 {
      assert items[..0] == [] && items[0..] == items;
    } else {
      RequiredSplit(items[1..], i - 1, sku);
      assert items[..i][1..] == items[1..][..i - 1] && items[1..][i - 1..] == items[i..];
    }
  }

  lemma RequiredNext(items: seq<Item>, i: nat, sku: int)
    requires i < |items|
    ensures Required(items[..i + 1], sku) ==
      Required(items[..i], sku) + (if items[i].skuId == sku then items[i].quantity else 0)
  {
    RequiredSplit(items[..i + 1], i, sku);
    assert items[..i + 1][..i] == items[..i] && items[..i + 1][i..] == [items[i]];
    assert [items[i]][1..] == [];
  }

  /** `required[item.sku_id] += item.quantity` over all items. */
  method SumRequired(items: seq<Item>) returns (required: map<int, nat>)
    ensures forall s :: s in required <==> exists i :: i in items && i.skuId == s
    ensures forall s :: s in required ==> required[s] == Required(items, s)
  {
    required := map[];
    for n := 0 to |items|
      invariant forall s :: s in required <==> exists i :: i in items[..n] && i.skuId == s
      invariant forall s :: (if s in required then required[s] else 0) == Required(items[..n], s)
    {
      var item := items[n];
      forall s ensures Required(items[..n + 1], s) ==
        Required(items[..n], s) + (if item.skuId == s then item.quantity else 0)
      {
        RequiredNext(items, n, s);
      }
      assert items[..n + 1] == items[..n] + [item];
      required := required[item.skuId := (if item.skuId in required then required[item.skuId] else 0) + item.quantity];
    }
    assert items[..|items|] == items;
  }

  // ----- the session -----

  /** The unique, pair and serial-key constraints of the tables. */
  ghost predicate Constraints(t: Tables) {
    && Unique(t)
    && (forall x :: x in t.exits ==> x < t.nextExit)
    && (forall x :: x in t.exits ==> (t.exits[x].orderPk.Some? ==> t.exits[x].dispatchId.Some?))
  }

  lemma SoundConstraints(t: Tables)
    requires Sound(t)
    ensures Constraints(t)
  {
    forall x | x in t.exits ensures t.exits[x].orderPk.Some? ==> t.exits[x].dispatchId.Some? { assert ExitOk(t, x); }
  }

  ghost predicate Cached(t: Tables, stocks: map<int, int>, warehouse: string) {
    forall s :: s in stocks ==> stocks[s] == Stock(t, s, warehouse)
  }

  class Session {
    /** What the session's transaction sees. */
    var db: Tables

    constructor (legacy: map<int, Sku>)
      ensures Fresh(db) && db.skus == legacy
    {
      db := Tables(legacy, map[], map[], map[], map[], map[], [], map[], 1, 1, 1, 1);
    }

    method CurrentStock(skuId: int, warehouse: string) returns (stock: int)
      ensures stock == Stock(db, skuId, warehouse)
    {
      var received := GroupEntries(db.entries);
      var shipped := GroupExits(db.exits);
      stock := At(received, skuId, warehouse) - At(shipped, skuId, warehouse);
    }

    /** The bulk stock map agrees with the per-SKU sum everywhere, and lists exactly the pairs that moved. */
    method CurrentStocks() returns (result: Level)
      ensures forall s: int, w: string :: At(result, s, w) == Stock(db, s, w)
      ensures forall s: int, w: string ::
        (s, w) in result <==> Received(db.entries, s, w) != {} || Shipped(db.exits, s, w) != {}
    {
      var received := GroupEntries(db.entries);
      var shipped := GroupExits(db.exits);
      result := Difference(received, shipped);
      forall s: int, w: string
        ensures At(result, s, w) == Stock(db, s, w)
        ensures (s, w) in result <==> Received(db.entries, s, w) != {} || Shipped(db.exits, s, w) != {}
      {
        assert At(received, s, w) == Sum(Received(db.entries, s, w), Units);
        assert At(shipped, s, w) == Sum(Shipped(db.exits, s, w), Units);
      }
    }

    /** Checks, then one insert that the unique constraints may refuse. */
    method EnqueueInventoryEvent(eventId: string, now: int, key: OutboxKey, tags: Tags) returns (ok: bool)
      modifies this
      ensures var r := Enqueue(old(db), eventId, now, key, tags);
        ok == r.Some? && db == if ok then r.value else old(db)
    {
      ok := false;
      if !IsUuidV4(eventId) || key.pk == 0 { return; }
      if eventId in EventIds(db.outbox) || key in db.outbox { return; }
      db := db.(outbox := db.outbox[key := OutboxRow(eventId, now, SourceEvent(key.source), tags, None, 0, None)]);
      ok := true;
    }

    method RecordThresholdEvaluation(m: Movement, c: Checkpoint) returns (ok: bool)
      modifies this
      ensures var r := Evaluate(old(db), m, c);
        ok == r.Some? && db == if ok then r.value else old(db)
    {
      ok := m !in db.checkpoints && c.before >= 0 && c.after >= 0;
      if ok { db := db.(checkpoints := db.checkpoints[m := c], journal := db.journal + [m]); }
    }

    /** Inserts one exit, its threshold event and its checkpoint; the caller rolls back on failure. */
    method InsertExit(x: StockExit, before: int, eventId: string) returns (ok: bool)
      requires x.skuId in db.skus && before == Stock(db, x.skuId, x.warehouse)
      modifies this
      ensures ok == AddExit(old(db), x, eventId).Some?
      ensures ok ==> db == AddExit(old(db), x, eventId).value
    {
      hide ThresholdTags, TelemetryWarehouse, IsUuidV4, EventIds, Stock, HasClient, Enqueue, Evaluate;
      var sku := db.skus[x.skuId];
      var pk, after := db.nextExit, before - x.quantity;
      db := db.(exits := db.exits[pk := x], nextExit := pk + 1);
      var crossed := Crosses(sku.threshold, before, after);
      if crossed {
        if TelemetryWarehouse(sku.warehouse).None? || !HasClient(sku) { return false; }
        ok := EnqueueInventoryEvent(eventId, x.createdAt, OutboxKey(StockExitTable, pk),
          ThresholdTags(TelemetryWarehouse(sku.warehouse), sku.clientId, x.skuId, sku.category, after,
            sku.threshold.value, pk));
        if !ok { return; }
      }
      ok := RecordThresholdEvaluation(Outbound(pk),
        Checkpoint(x.skuId, sku.clientId, sku.warehouse, before, after, sku.threshold, crossed,
          if crossed then Some(eventId) else None, x.createdAt));
    }

    method CreateStockEntry(skuId: int, quantity: nat, reference: string, warehouse: string, env: Env)
      returns (reply: Reply)
      modifies this
      ensures Outcome(db, reply) == EnterStockSpec(old(db), skuId, quantity, reference, warehouse, env)
    {
      hide InboundTags, TelemetryWarehouse, IsUuidV4, EventIds, Stock, Enqueue, Evaluate;
      if skuId !in db.skus { return NotFound; }
      var sku := db.skus[skuId];
      if warehouse != sku.warehouse { return BadRequest; }
      var before := CurrentStock(skuId, warehouse);
      var saved, pk := db, db.nextEntry;
      var entry := StockEntry(skuId, quantity, reference, warehouse, env.now, env.user);
      db := db.(entries := db.entries[pk := entry], nextEntry := pk + 1);
      var ok := true;
      if sku.clientId.Some? && TelemetryWarehouse(warehouse).Some? {
        ok := EnqueueInventoryEvent(env.eventId, env.now, OutboxKey(StockEntryTable, pk),
          InboundTags(TelemetryWarehouse(warehouse), sku.clientId, skuId, sku.category, quantity, pk));
      }
      if ok {
        ok := RecordThresholdEvaluation(Inbound(pk),
          Checkpoint(skuId, sku.clientId, sku.warehouse, before, before + quantity, sku.threshold, false, None, env.now));
      }
      if !ok { db := saved; return IntegrityFailure; }
      reply := Created(pk);
    }

    method CreateStockExit(skuId: int, quantity: nat, exitType: ExitType, tracking: Option<string>,
                           warehouse: string, env: Env) returns (reply: Reply)
      modifies this
      ensures Outcome(db, reply) == ExitStockSpec(old(db), skuId, quantity, exitType, tracking, warehouse, env)
    {
      if skuId !in db.skus { return NotFound; }
      if warehouse != db.skus[skuId].warehouse { return BadRequest; }
      var available := CurrentStock(skuId, warehouse);
      if quantity > available { return BadRequest; }
      var saved, pk := db, db.nextExit;
      var ok := InsertExit(
        StockExit(skuId, quantity, exitType, tracking, warehouse, env.now, env.user, None, None), available, env.eventId);
      if !ok { db := saved; return IntegrityFailure; }
      reply := Created(pk);
    }

    method ConfirmPhysicalCount(countId: string, skuId: int, observed: nat, warehouse: string, env: Env)
      returns (reply: Reply)
      requires Constraints(db)
      modifies this
      ensures Outcome(db, reply) == ConfirmCountSpec(old(db), countId, skuId, observed, warehouse, env)
    {
      hide DiscrepancyTags, TelemetryWarehouse, IsUuidV4, EventIds, Stock, Enqueue;
      if pk :| pk in db.counts && db.counts[pk].countId == countId {
        var c := db.counts[pk];
        if c.skuId == skuId && c.warehouse == warehouse && c.observed == observed && c.user == env.user {
          return Existing(pk);
        }
        return Conflict;
      }
      if skuId !in db.skus { return NotFound; }
      var sku := db.skus[skuId];
      if sku.warehouse != warehouse { return BadRequest; }
      if !HasClient(sku) { return IntegrityFailure; }
      var expected := CurrentStock(skuId, warehouse);
      if expected < 0 { return IntegrityFailure; }
      var saved, pk := db, db.nextCount;
      var count := PhysicalCount(countId, skuId, sku.clientId.value, warehouse, expected, observed, env.now, env.user);
      db := db.(counts := db.counts[pk := count], nextCount := pk + 1);
      if observed != expected {
        var ok := TelemetryWarehouse(warehouse).Some?;
        if ok {
          ok := EnqueueInventoryEvent(env.eventId, env.now, OutboxKey(PhysicalCountTable, pk),
            DiscrepancyTags(TelemetryWarehouse(warehouse), sku.clientId.value, skuId, sku.category, expected,
              observed, countId));
        }
        if !ok { db := saved; return IntegrityFailure; }
      }
      reply := Created(pk);
    }

    method StocksOf(skuIds: set<int>, warehouse: string) returns (stocks: map<int, int>)
      ensures stocks.Keys == skuIds && Cached(db, stocks, warehouse)
    {
      hide Stock;
      stocks := map[];
      var todo := skuIds;
      while todo != {}
        invariant todo <= skuIds && stocks.Keys == skuIds - todo
        invariant Cached(db, stocks, warehouse)
        decreases |todo|
      {
        ghost var some := Witness(todo);
        var s :| s in todo;
        var stock := CurrentStock(s, warehouse);
        stocks := stocks[s := stock];
        todo := todo - {s};
      }
    }

    /** `_validate_order_skus`: existence, then ownership, then the totals against the stock. */
    method ValidateOrderSkus(items: seq<Item>, clientId: string, warehouse: string) returns (refused: Option<Reply>)
      ensures refused == ValidateOrder(db, items, clientId, warehouse)
    {
      hide Stock, Required;
      var required := SumRequired(items);
      if exists s :: s in required && s !in db.skus {
        return Some(IntegrityFailure);
      }
      assert forall i :: i in items ==> i.skuId in required;
      if s :| s in required && (db.skus[s].clientId != Some(clientId) || db.skus[s].warehouse != warehouse) {
        assert exists i :: i in items && i.skuId == s;
        return Some(BadRequest);
      }
      var available := StocksOf(required.Keys, warehouse);
      if s :| s in required && required[s] > available[s] {
        assert exists i :: i in items && i.skuId == s;
        return Some(BadRequest);
      }
      refused := None;
    }

    /** The dispatch loop with its cached stock: every cached value is the stock a query would
        return at that moment, so the loop does what one recomputed movement after another would. */
    method AddOrderDispatches(items: seq<Item>, orderPk: nat, warehouse: string, env: Env) returns (ok: bool)
      requires forall i :: i in items ==> i.skuId in db.skus
      requires forall x :: x in db.exits ==> x < db.nextExit
      modifies this
      ensures ok == AddDispatches(old(db), SortById(items), orderPk, warehouse, env).Some?
      ensures ok ==> db == AddDispatches(old(db), SortById(items), orderPk, warehouse, env).value
    {
      hide Stock, SortById, AddExit, AddDispatches;
      var running := StocksOf(set i | i in items :: i.skuId, warehouse);
      var sorted := SortById(items);
      SortByIdMembers(items);
      var n := 0;
      assert sorted[0..] == sorted;
      while n < |sorted|
        invariant n <= |sorted| && Ready(db, sorted, running, warehouse)
        invariant AddDispatches(old(db), sorted, orderPk, warehouse, env)
          == AddDispatches(db, sorted[n..], orderPk, warehouse, env)
      {
        hide Ready, Cached;
        var item := sorted[n];
        assert sorted[n..][0] == item && sorted[n..][1..] == sorted[n + 1..];
        var used := exists x :: x in db.exits && db.exits[x].dispatchId == Some(item.dispatchId);
        ReadyFor(db, sorted, running, warehouse, item);
        DispatchStep(db, sorted[n..], orderPk, warehouse, env);
        if used { return false; }
        var x, before := DispatchRow(item, orderPk, warehouse, env), running[item.skuId];
        ReadyNext(db, sorted, running, warehouse, x, env.thresholdId(item.dispatchId));
        ok := InsertExit(x, before, env.thresholdId(item.dispatchId));
        if !ok { return; }
        running := running[item.skuId := before - item.quantity];
        n := n + 1;
      }
      ok := true;
      assert sorted[n..] == [];
      DispatchesDone(db, orderPk, warehouse, env);
    }

    method CreateCommercialOrder(orderId: string, clientId: string, warehouse: string, items: seq<Item>, env: Env)
      returns (reply: Reply)
      requires Constraints(db)
      modifies this
      ensures Outcome(db, reply) == CreateOrderSpec(old(db), orderId, clientId, warehouse, items, env)
    {
      hide OrderTags, EventIds, SortById, AddDispatches, ValidateOrder, Enqueue, Matches;
      if pk :| pk in db.orders && db.orders[pk].orderId == orderId {
        var order := db.orders[pk];
        var persisted := map x | x in db.exits && db.exits[x].orderPk == Some(pk) :: db.exits[x].dispatchId := db.exits[x];
        if order.clientId != clientId || order.warehouse != warehouse { return Conflict; }
        PersistedMatch(db, persisted, items, pk);
        if persisted.Keys == (set i | i in items :: Some(i.dispatchId))
           && forall i :: i in items ==> Some(i.dispatchId) in persisted && Matches(persisted[Some(i.dispatchId)], i, pk)
        {
          return Existing(pk);
        }
        return Conflict;
      }
      var ids := set i | i in items :: Some(i.dispatchId);
      if x :| x in db.exits && db.exits[x].dispatchId in ids {
        assert exists i :: i in items && DispatchUsed(db, i.dispatchId);
        return Conflict;
      }
      var refused := ValidateOrderSkus(items, clientId, warehouse);
      if refused.Some? { return refused.value; }
      ValidatedKnown(db, items, clientId, warehouse);
      var saved, pk := db, db.nextOrder;
      db := OpenOrder(db, CommercialOrder(orderId, clientId, warehouse, env.now));
      var ok := AddOrderDispatches(items, pk, warehouse, env);
      if ok {
        ok := EnqueueInventoryEvent(env.eventId, env.now, OutboxKey(CommercialOrderTable, pk),
          OrderTags(orderId, TelemetryWarehouse(warehouse), clientId));
      }
      if !ok { db := saved; return IntegrityFailure; }
      reply := Created(pk);
    }

    /** The items without a row; a row with other content is a conflict. */
    method UnseenItems(items: seq<Item>, pk: nat) returns (conflict: bool, unseen: seq<Item>)
      requires Constraints(db)
      ensures conflict <==> exists i :: i in items && DispatchUsed(db, i.dispatchId) && !Recorded(db, i, pk)
      ensures !conflict ==> unseen == NewItems(db, items)
    {
      hide Matches, Constraints, NewItems, Recorded;
      unseen := [];
      assert items[0..] == items;
      for n := 0 to |items|
        invariant unseen + NewItems(db, items[n..]) == NewItems(db, items)
        invariant AllRecorded(db, items[..n], pk)
      {
        hide AllRecorded;
        var item := items[n];
        NewItemsAt(db, items, n);
        AllRecordedNext(db, items, n, pk);
        if x :| x in db.exits && db.exits[x].dispatchId == Some(item.dispatchId) {
          MatchIsRecorded(db, x, item, pk);
          if !Matches(db.exits[x], item, pk) { return true, unseen; }
        } else {
          unseen := unseen + [item];
        }
      }
      assert items[..|items|] == items;
      NewItemsDone(db, items);
      conflict := false;
    }

    method AppendCommercialOrderDispatches(orderId: string, items: seq<Item>, env: Env) returns (reply: Reply)
      requires Constraints(db)
      modifies this
      ensures Outcome(db, reply) == AppendSpec(old(db), orderId, items, env)
    {
      hide SortById, AddDispatches, ValidateOrder, Recorded, DispatchUsed, NewItems;
      if !exists pk :: pk in db.orders && db.orders[pk].orderId == orderId { return NotFound; }
      var pk :| pk in db.orders && db.orders[pk].orderId == orderId;
      assert FindOrder(db, orderId) == Some(pk);
      var conflict, unseen := UnseenItems(items, pk);
      if conflict { return Conflict; }
      if unseen == [] { return Existing(pk); }
      var order := db.orders[pk];
      var refused := ValidateOrderSkus(unseen, order.clientId, order.warehouse);
      if refused.Some? { return refused.value; }
      ValidatedKnown(db, unseen, order.clientId, order.warehouse);
      var saved := db;
      var ok := AddOrderDispatches(unseen, pk, order.warehouse, env);
      if !ok { db := saved; return IntegrityFailure; }
      reply := Done;
    }

    method UpdateSkuThreshold(skuId: int, threshold: Option<nat>) returns (reply: Reply)
      modifies this
      ensures Outcome(db, reply) == if skuId in old(db).skus
        then Outcome(old(db).(skus := old(db).skus[skuId := old(db).skus[skuId].(threshold := threshold)]), Done)
        else Outcome(old(db), NotFound)
    {
      if skuId !in db.skus { return NotFound; }
      db := db.(skus := db.skus[skuId := db.skus[skuId].(threshold := threshold)]);
      reply := Done;
    }

    /** Every request is served as its command says, and keeps the rows consistent and the books balanced. */
    method Handle(c: Command, env: Env) returns (reply: Reply)
      requires Sound(db)
      modifies this
      ensures Outcome(db, reply) == Execute(old(db), c, env)
      ensures Kept(old(db), db)
    {
      hide Sound, Kept, Constraints, EnterStockSpec, ExitStockSpec, ConfirmCountSpec, CreateOrderSpec, AppendSpec,
        ValidPayload;
      ExecuteKeeps(db, c, env);
      SoundConstraints(db);
      if !ValidPayload(c) { return Unprocessable; }
      match c
      case AddSku(id, sku) =>
        if id in db.skus { return IntegrityFailure; }
        db := db.(skus := db.skus[id := sku]);
        reply := Done;
      case SetThreshold(skuId, threshold) => reply := UpdateSkuThreshold(skuId, threshold);
      case EnterStock(skuId, quantity, reference, warehouse) =>
        reply := CreateStockEntry(skuId, quantity, reference, warehouse, env);
      case ExitStock(skuId, quantity, exitType, tracking, warehouse) =>
        reply := CreateStockExit(skuId, quantity, exitType, tracking, warehouse, env);
      case ConfirmCount(countId, skuId, observed, warehouse) =>
        reply := ConfirmPhysicalCount(countId, skuId, observed, warehouse, env);
      case CreateOrder(orderId, clientId, warehouse, items) =>
        reply := CreateCommercialOrder(orderId, clientId, warehouse, items, env);
      case AppendDispatches(orderId, items) =>
        reply := AppendCommercialOrderDispatches(orderId, items, env);
    }
  }

  ghost predicate AllRecorded(t: Tables, items: seq<Item>, pk: nat) {
    forall i :: i in items && DispatchUsed(t, i.dispatchId) ==> Recorded(t, i, pk)
  }

  lemma AllRecordedNext(t: Tables, items: seq<Item>, n: nat, pk: nat)
    requires n < |items| && AllRecorded(t, items[..n], pk)
    ensures AllRecorded(t, items[..n + 1], pk) <==> (DispatchUsed(t, items[n].dispatchId) ==> Recorded(t, items[n], pk))
  {
    hide DispatchUsed, Recorded;
    assert items[..n + 1] == items[..n] + [items[n]];
  }

  lemma NewItemsAt(t: Tables, items: seq<Item>, n: nat)
    requires n < |items|
    ensures NewItems(t, items[n..]) ==
      (if DispatchUsed(t, items[n].dispatchId) then [] else [items[n]]) + NewItems(t, items[n + 1..])
  {
    hide DispatchUsed;
    assert items[n..][0] == items[n] && items[n..][1..] == items[n + 1..];
  }

  lemma NewItemsDone(t: Tables, items: seq<Item>)
    ensures NewItems(t, items[|items|..]) == []
  {
  }

  lemma ValidatedKnown(t: Tables, items: seq<Item>, clientId: string, warehouse: string)
    requires ValidateOrder(t, items, clientId, warehouse).None?
    ensures forall i :: i in items ==> i.skuId in t.skus
  {
  }

  lemma MatchIsRecorded(t: Tables, x: nat, item: Item, pk: nat)
    requires Constraints(t) && x in t.exits && t.exits[x].dispatchId == Some(item.dispatchId)
    ensures DispatchUsed(t, item.dispatchId) && (Matches(t.exits[x], item, pk) <==> Recorded(t, item, pk))
  {
  }

  lemma PersistedMatch(t: Tables, persisted: map<Option<string>, StockExit>, items: seq<Item>, pk: nat)
    requires Constraints(t)
    requires persisted.Keys == (set x | x in t.exits && t.exits[x].orderPk == Some(pk) :: t.exits[x].dispatchId)
    requires forall x :: x in t.exits && t.exits[x].orderPk == Some(pk) ==> persisted[t.exits[x].dispatchId] == t.exits[x]
    ensures SameDispatches(t, items, pk) <==>
      (persisted.Keys == (set i | i in items :: Some(i.dispatchId))
       && forall i :: i in items ==> Some(i.dispatchId) in persisted && Matches(persisted[Some(i.dispatchId)], i, pk))
  {
    if SameDispatches(t, items, pk) {
      forall i | i in items ensures Some(i.dispatchId) in persisted && Matches(persisted[Some(i.dispatchId)], i, pk) {
        assert Recorded(t, i, pk);
      }
      forall k | k in persisted ensures k in (set i | i in items :: Some(i.dispatchId)) {
        var x :| x in t.exits && t.exits[x].orderPk == Some(pk) && t.exits[x].dispatchId == k;
        assert x in OrderExits(t, pk);
      }
    }
    if persisted.Keys == (set i | i in items :: Some(i.dispatchId))
       && forall i :: i in items ==> Some(i.dispatchId) in persisted && Matches(persisted[Some(i.dispatchId)], i, pk)
    {
      forall i | i in items ensures Recorded(t, i, pk) {
        assert Some(i.dispatchId) in persisted;
        var x :| x in t.exits && t.exits[x].orderPk == Some(pk) && t.exits[x].dispatchId == Some(i.dispatchId);
      }
      forall x | x in OrderExits(t, pk) ensures exists i :: i in items && t.exits[x].dispatchId == Some(i.dispatchId) {
        assert t.exits[x].dispatchId in persisted;
      }
    }
  }

  lemma DispatchStep(t: Tables, items: seq<Item>, orderPk: nat, warehouse: string, env: Env)
    requires items != [] && items[0].skuId in t.skus
    ensures AddDispatches(t, items, orderPk, warehouse, env) ==
      if DispatchUsed(t, items[0].dispatchId) then None else
      var t' := AddExit(t, DispatchRow(items[0], orderPk, warehouse, env), env.thresholdId(items[0].dispatchId));
      if t'.None? then None else AddDispatches(t'.value, items[1..], orderPk, warehouse, env)
  {
    hide AddExit;
  }

  lemma DispatchesDone(t: Tables, orderPk: nat, warehouse: string, env: Env)
    ensures AddDispatches(t, [], orderPk, warehouse, env) == Some(t)
  {
  }

  /** What the dispatch loop knows before each item. */
  ghost predicate Ready(t: Tables, sorted: seq<Item>, running: map<int, int>, warehouse: string) {
    && (forall i :: i in sorted ==> i.skuId in running && i.skuId in t.skus)
    && (forall x :: x in t.exits ==> x < t.nextExit) && Cached(t, running, warehouse)
  }

  lemma ReadyFor(t: Tables, sorted: seq<Item>, running: map<int, int>, warehouse: string, item: Item)
    requires Ready(t, sorted, running, warehouse) && item in sorted
    ensures item.skuId in running && item.skuId in t.skus && running[item.skuId] == Stock(t, item.skuId, warehouse)
  {
  }

  lemma ReadyNext(t: Tables, sorted: seq<Item>, running: map<int, int>, warehouse: string, x: StockExit, eventId: string)
    requires Ready(t, sorted, running, warehouse) && x.skuId in running && x.skuId in t.skus && x.warehouse == warehouse
    ensures AddExit(t, x, eventId).Some? ==> Ready(AddExit(t, x, eventId).value, sorted,
      running[x.skuId := running[x.skuId] - x.quantity], warehouse)
  {
    hide Stock;
    if AddExit(t, x, eventId).Some? {
      var t', next := AddExit(t, x, eventId).value, running[x.skuId := running[x.skuId] - x.quantity];
      forall s | s in next ensures next[s] == Stock(t', s, warehouse) {
        ExitMovesStock(t, x, eventId, s, warehouse);
      }
      ExitMovesStock(t, x, eventId, x.skuId, warehouse);
      AddExitFrame(t, x, eventId);
    }
  }

  /** One movement changes the stock of its own SKU and warehouse, by its quantity, and no other. */
  lemma ExitMovesStock(t: Tables, x: StockExit, eventId: string, sku: int, warehouse: string)
    requires x.skuId in t.skus && AddExit(t, x, eventId).Some? && t.nextExit !in t.exits
    ensures Stock(AddExit(t, x, eventId).value, sku, warehouse) ==
      Stock(t, sku, warehouse) - (if x.skuId == sku && x.warehouse == warehouse then x.quantity else 0)
    ensures AddExit(t, x, eventId).value.skus == t.skus
  {
    hide Stock, AddExit;
    AddExitFrame(t, x, eventId);
    var t' := AddExit(t, x, eventId).value;
    StockAfterExit(t, t', t.nextExit, x, sku, warehouse);
  }
}
