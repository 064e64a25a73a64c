/** When each inventory command succeeds, on the rows and the journal alone, and everything a success writes. */
module InventoryOutcomes {
  import opened Basics
  import opened Identifiers
  import opened Vocabulary
  import opened InventoryTables
  import opened InventoryCommands
  import opened InventoryInvariants
  import opened InventorySteps
  import opened InventoryLedger
  import opened InventoryRuns

  // ----- balances and guards -----

  /** The units of a SKU in a warehouse after all movements of the journal. */
  function Balance(t: Tables, sku: int, warehouse: string): int { Level(t, |t.journal|, sku, warehouse) }

  lemma BalanceIsStock(t: Tables, sku: int, warehouse: string)
    requires Sound(t)
    ensures Stock(t, sku, warehouse) == Balance(t, sku, warehouse) >= 0
  {
    hide Good, Stock, Level;
  }

  /** The movement changes the balance of this SKU and warehouse by `units`, and no other balance. */
  ghost predicate Moves(t: Tables, t': Tables, sku: int, warehouse: string, units: int) {
    forall s: int, w: string ::
      Balance(t', s, w) == Balance(t, s, w) + (if s == sku && w == warehouse then units else 0)
  }

  /** The drawn UUID may be the id of a new event. */
  predicate NewId(t: Tables, id: string) { IsUuidV4(id) && forall k :: k in t.outbox ==> t.outbox[k].eventId != id }

  lemma NewIdExact(t: Tables, id: string)
    ensures NewId(t, id) <==> IsUuidV4(id) && id !in EventIds(t.outbox)
  {
    hide IsUuidV4;
    if id in EventIds(t.outbox) { var k :| k in t.outbox && t.outbox[k].eventId == id; }
    forall k | k in t.outbox && t.outbox[k].eventId == id ensures id in EventIds(t.outbox) {}
  }

  predicate DomainWarehouse(warehouse: string) { warehouse == "LA" || warehouse == "ZGZ" }

  /** The reporting name of a domain warehouse. */
  function SiteName(warehouse: string): string { if warehouse == "LA" then "los_angeles" else "zaragoza" }

  lemma SiteIsMapped(warehouse: string)
    requires DomainWarehouse(warehouse)
    ensures TelemetryWarehouse(warehouse) == Some(SiteName(warehouse))
  {
  }

  lemma BoundedKeys(t: Tables)
    requires Good(t)
    ensures t.nextEntry > 0 && t.nextExit > 0 && t.nextOrder > 0 && t.nextCount > 0
    ensures OutboxKey(StockEntryTable, t.nextEntry) !in t.outbox && Inbound(t.nextEntry) !in t.checkpoints
    ensures OutboxKey(StockExitTable, t.nextExit) !in t.outbox && Outbound(t.nextExit) !in t.checkpoints
    ensures OutboxKey(PhysicalCountTable, t.nextCount) !in t.outbox
    ensures t.nextEntry !in t.entries && t.nextExit !in t.exits && t.nextCount !in t.counts && t.nextOrder !in t.orders
  {
    hide EntryOk, ExitOk, CountOk, OrderOk, Unique, Known;
  }

  // ----- stock entries -----

  function EntryReply(t: Tables, skuId: int, quantity: nat, warehouse: string, env: Env): Reply {
    if quantity == 0 || !DomainWarehouse(warehouse) then Unprocessable
    else if skuId !in t.skus then NotFound
    else if t.skus[skuId].warehouse != warehouse then BadRequest
    else if t.skus[skuId].clientId.Some? && !NewId(t, env.eventId) then IntegrityFailure
    else Created(t.nextEntry)
  }

  /** The tables with one more entry, its checkpoint, and its event if the SKU has a client. */
  function WithStockEntry(t: Tables, skuId: int, quantity: nat, reference: string, warehouse: string, env: Env): Tables {
    if skuId !in t.skus then t else
    var sku, pk, before := t.skus[skuId], t.nextEntry, Balance(t, skuId, warehouse);
    t.(entries := t.entries[pk := StockEntry(skuId, quantity, reference, warehouse, env.now, env.user)],
       nextEntry := pk + 1,
       checkpoints := t.checkpoints[Inbound(pk) := Checkpoint(skuId, sku.clientId, warehouse, before, before + quantity,
         sku.threshold, false, None, env.now)],
       journal := t.journal + [Inbound(pk)],
       outbox := if sku.clientId.None? then t.outbox
         else t.outbox[OutboxKey(StockEntryTable, pk) := OutboxRow(env.eventId, env.now, InboundOrderCreated,
           map[Warehouse := JStr(SiteName(warehouse)), ClientId := JStr(sku.clientId.value),
               ProductId := JStr(IntText(skuId)), ProductCategory := JStr(sku.category), Quantity := JInt(quantity),
               MovementId := JStr(IntText(pk))],
           None, 0, None)])
  }

  function EntryOutcome(t: Tables, skuId: int, quantity: nat, reference: string, warehouse: string, env: Env): Outcome {
    var reply := EntryReply(t, skuId, quantity, warehouse, env);
    Outcome(if reply.Created? then WithStockEntry(t, skuId, quantity, reference, warehouse, env) else t, reply)
  }

  lemma EntryReplyExact(t: Tables, skuId: int, quantity: nat, reference: string, warehouse: string, env: Env)
    requires Sound(t) && quantity > 0 && DomainWarehouse(warehouse)
    ensures EnterStockSpec(t, skuId, quantity, reference, warehouse, env).reply == EntryReply(t, skuId, quantity, warehouse, env)
    ensures !EntryReply(t, skuId, quantity, warehouse, env).Created? ==>
      EnterStockSpec(t, skuId, quantity, reference, warehouse, env).tables == t
  {
    hide Good, Balanced, Stock, Level, IsUuidV4, EventIds, IntText, InboundTags, TelemetryWarehouse, NewId;
    BalanceIsStock(t, skuId, warehouse);
    BoundedKeys(t);
    NewIdExact(t, env.eventId);
    SiteIsMapped(warehouse);
  }

  lemma EntryTablesExact(t: Tables, skuId: int, quantity: nat, reference: string, warehouse: string, env: Env)
    requires Sound(t) && DomainWarehouse(warehouse)
    requires EnterStockSpec(t, skuId, quantity, reference, warehouse, env).reply.Created?
    ensures skuId in t.skus
    ensures EnterStockSpec(t, skuId, quantity, reference, warehouse, env).tables ==
      WithStockEntry(t, skuId, quantity, reference, warehouse, env)
  {
    hide Sound, EnterStockSpec, IntText, TelemetryWarehouse, Stock, Balance;
    EnterStockShape(t, skuId, quantity, reference, warehouse, env);
    BalanceIsStock(t, skuId, warehouse);
    SiteIsMapped(warehouse);
  }

  lemma EntryMoves(t: Tables, skuId: int, quantity: nat, reference: string, warehouse: string, env: Env)
    requires Sound(t) && skuId in t.skus && Sound(WithStockEntry(t, skuId, quantity, reference, warehouse, env))
    ensures Moves(t, WithStockEntry(t, skuId, quantity, reference, warehouse, env), skuId, warehouse, quantity)
  {
    hide Sound, Stock, Balance;
    var t' := WithStockEntry(t, skuId, quantity, reference, warehouse, env);
    assert t.nextEntry !in t.entries by { SoundKeys(t); }
    forall s: int, w: string
      ensures Balance(t', s, w) == Balance(t, s, w) + (if s == skuId && w == warehouse then quantity else 0)
    {
      BalanceIsStock(t, s, w);
      BalanceIsStock(t', s, w);
      StockAfterEntry(t, t', t.nextEntry, StockEntry(skuId, quantity, reference, warehouse, env.now, env.user), s, w);
    }
  }

  lemma SoundKeys(t: Tables)
    requires Sound(t)
    ensures t.nextEntry !in t.entries && t.nextExit !in t.exits
  {
    hide Balanced;
    BoundedKeys(t);
  }

  /** A stock entry succeeds exactly for a positive quantity of a known SKU in its own warehouse, with a new event id
      where there is an event, and raises that balance alone; every other reply has its own cause and changes nothing. */
  lemma EntryExact(t: Tables, skuId: int, quantity: nat, reference: string, warehouse: string, env: Env)
    requires Sound(t)
    ensures Execute(t, EnterStock(skuId, quantity, reference, warehouse), env) ==
      EntryOutcome(t, skuId, quantity, reference, warehouse, env)
    ensures EntryReply(t, skuId, quantity, warehouse, env).Created? ==>
      Moves(t, WithStockEntry(t, skuId, quantity, reference, warehouse, env), skuId, warehouse, quantity)
  {
    hide Sound, EnterStockSpec, WithStockEntry, Balance, NewId, Moves;
    if quantity > 0 && DomainWarehouse(warehouse) {
      EntryReplyExact(t, skuId, quantity, reference, warehouse, env);
      if EntryReply(t, skuId, quantity, warehouse, env).Created? {
        EntryTablesExact(t, skuId, quantity, reference, warehouse, env);
        ExecuteKeeps(t, EnterStock(skuId, quantity, reference, warehouse), env);
        EntryMoves(t, skuId, quantity, reference, warehouse, env);
      }
    }
  }

  // ----- stock exits -----

  /** The exit takes the SKU from above its threshold to the threshold or below. */
  predicate ReachesThreshold(t: Tables, skuId: int, quantity: int, warehouse: string) {
    skuId in t.skus && var limit := t.skus[skuId].threshold;
    limit.Some? && Balance(t, skuId, warehouse) > limit.value >= Balance(t, skuId, warehouse) - quantity
  }

  function ExitReply(t: Tables, skuId: int, quantity: nat, exitType: ExitType, tracking: Option<string>,
                     warehouse: string, env: Env): Reply {
    if quantity == 0 || !DomainWarehouse(warehouse)
       || (exitType == Dispatch && (tracking == None || tracking == Some(""))) || (exitType == Loss && tracking != None)
    then Unprocessable
    else if skuId !in t.skus then NotFound
    else if t.skus[skuId].warehouse != warehouse || quantity > Balance(t, skuId, warehouse) then BadRequest
    else if ReachesThreshold(t, skuId, quantity, warehouse)
            && (t.skus[skuId].clientId == None || t.skus[skuId].clientId == Some("") || !NewId(t, env.eventId))
    then IntegrityFailure
    else Created(t.nextExit)
  }

  /** The tables with one more exit, its checkpoint, and its event if it reaches the threshold. */
  function WithStockExit(t: Tables, x: StockExit, eventId: string): Tables {
    if x.skuId !in t.skus then t else
    var sku, pk, before := t.skus[x.skuId], t.nextExit, Balance(t, x.skuId, x.warehouse);
    var reached := ReachesThreshold(t, x.skuId, x.quantity, x.warehouse);
    t.(exits := t.exits[pk := x], nextExit := pk + 1,
       checkpoints := t.checkpoints[Outbound(pk) := Checkpoint(x.skuId, sku.clientId, x.warehouse, before,
         before - x.quantity, sku.threshold, reached, if reached then Some(eventId) else None, x.createdAt)],
       journal := t.journal + [Outbound(pk)],
       outbox := if !reached then t.outbox
         else t.outbox[OutboxKey(StockExitTable, pk) := OutboxRow(eventId, x.createdAt, StockThresholdTriggered,
           map[Warehouse := JStr(SiteName(x.warehouse)), ClientId := if sku.clientId.Some? then JStr(sku.clientId.value) else JNull,
               ProductId := JStr(IntText(x.skuId)), ProductCategory := JStr(sku.category),
               Quantity := JInt(before - x.quantity), ThresholdQuantity := JInt(sku.threshold.value),
               MovementId := JStr(IntText(pk))],
           None, 0, None)])
  }

  function ExitOutcome(t: Tables, skuId: int, quantity: nat, exitType: ExitType, tracking: Option<string>,
                       warehouse: string, env: Env): Outcome {
    var reply := ExitReply(t, skuId, quantity, exitType, tracking, warehouse, env);
    var x := StockExit(skuId, quantity, exitType, tracking, warehouse, env.now, env.user, None, None);
    Outcome(if reply.Created? then WithStockExit(t, x, env.eventId) else t, reply)
  }

  /** A covered exit is written unless its threshold event cannot be. */
  lemma AddExitFits(t: Tables, x: StockExit, eventId: string)
    requires Sound(t) && x.skuId in t.skus && x.warehouse == t.skus[x.skuId].warehouse && DomainWarehouse(x.warehouse)
    requires 0 <= x.quantity <= Balance(t, x.skuId, x.warehouse)
    ensures AddExit(t, x, eventId).None? <==>
      ReachesThreshold(t, x.skuId, x.quantity, x.warehouse)
      && (t.skus[x.skuId].clientId == None || t.skus[x.skuId].clientId == Some("") || !NewId(t, eventId))
  {
    hide Good, Balanced, Stock, Level, IsUuidV4, EventIds, IntText, ThresholdTags, TelemetryWarehouse, NewId;
    BalanceIsStock(t, x.skuId, x.warehouse);
    BoundedKeys(t);
    NewIdExact(t, eventId);
    SiteIsMapped(x.warehouse);
  }

  lemma ExitReplyExact(t: Tables, skuId: int, quantity: nat, exitType: ExitType, tracking: Option<string>,
                       warehouse: string, env: Env)
    requires Sound(t) && quantity > 0 && DomainWarehouse(warehouse)
    requires if exitType == Dispatch then tracking != None && tracking != Some("") else tracking == None
    ensures ExitStockSpec(t, skuId, quantity, exitType, tracking, warehouse, env).reply
      == ExitReply(t, skuId, quantity, exitType, tracking, warehouse, env)
    ensures !ExitReply(t, skuId, quantity, exitType, tracking, warehouse, env).Created? ==>
      ExitStockSpec(t, skuId, quantity, exitType, tracking, warehouse, env).tables == t
  {
    hide Sound, Stock, Balance, NewId, AddExit, ReachesThreshold;
    BalanceIsStock(t, skuId, warehouse);
    if skuId in t.skus && warehouse == t.skus[skuId].warehouse && quantity <= Balance(t, skuId, warehouse) {
      AddExitFits(t, StockExit(skuId, quantity, exitType, tracking, warehouse, env.now, env.user, None, None), env.eventId);
    }
  }

  lemma AddExitTables(t: Tables, x: StockExit, eventId: string)
    requires Sound(t) && x.skuId in t.skus && x.warehouse == t.skus[x.skuId].warehouse && DomainWarehouse(x.warehouse)
    requires x.quantity >= 0 && AddExit(t, x, eventId).Some?
    ensures ReachesThreshold(t, x.skuId, x.quantity, x.warehouse) ==> t.skus[x.skuId].clientId.Some?
    ensures AddExit(t, x, eventId).value == WithStockExit(t, x, eventId)
  {
    hide Sound, AddExit, IntText, TelemetryWarehouse, Stock, Balance;
    AddExitShape(t, x, eventId);
    BalanceIsStock(t, x.skuId, x.warehouse);
    SiteIsMapped(x.warehouse);
  }

  lemma ExitMoves(t: Tables, x: StockExit, eventId: string)
    requires Sound(t) && x.skuId in t.skus && x.quantity >= 0
    requires ReachesThreshold(t, x.skuId, x.quantity, x.warehouse) ==> t.skus[x.skuId].clientId.Some?
    requires Sound(WithStockExit(t, x, eventId))
    ensures Moves(t, WithStockExit(t, x, eventId), x.skuId, x.warehouse, -x.quantity)
  {
    hide Sound, Stock, Balance;
    var t' := WithStockExit(t, x, eventId);
    assert t.nextExit !in t.exits by { SoundKeys(t); }
    forall s: int, w: string
      ensures Balance(t', s, w) == Balance(t, s, w) + (if s == x.skuId && w == x.warehouse then -x.quantity else 0)
    {
      BalanceIsStock(t, s, w);
      BalanceIsStock(t', s, w);
      StockAfterExit(t, t', t.nextExit, x, s, w);
    }
  }

  lemma ExitTablesExact(t: Tables, skuId: int, quantity: nat, exitType: ExitType, tracking: Option<string>,
                        warehouse: string, env: Env)
    requires Sound(t) && DomainWarehouse(warehouse)
    requires ExitStockSpec(t, skuId, quantity, exitType, tracking, warehouse, env).reply.Created?
    ensures var x := StockExit(skuId, quantity, exitType, tracking, warehouse, env.now, env.user, None, None);
      && skuId in t.skus && (ReachesThreshold(t, skuId, quantity, warehouse) ==> t.skus[skuId].clientId.Some?)
      && ExitStockSpec(t, skuId, quantity, exitType, tracking, warehouse, env).tables == WithStockExit(t, x, env.eventId)
  {
    hide Sound, AddExit, WithStockExit, ReachesThreshold, Stock;
    AddExitTables(t, StockExit(skuId, quantity, exitType, tracking, warehouse, env.now, env.user, None, None), env.eventId);
  }

  /** A stock exit succeeds exactly for a positive quantity, up to the whole balance of its movements, of a known SKU
      in its own warehouse, with a client and a new event id where it reaches the threshold. */
  lemma ExitExact(t: Tables, skuId: int, quantity: nat, exitType: ExitType, tracking: Option<string>, warehouse: string,
                  env: Env)
    requires Sound(t)
    ensures Execute(t, ExitStock(skuId, quantity, exitType, tracking, warehouse), env) ==
      ExitOutcome(t, skuId, quantity, exitType, tracking, warehouse, env)
  {
    hide Sound, ExitStockSpec, WithStockExit, Balance, NewId, ReachesThreshold;
    if quantity > 0 && DomainWarehouse(warehouse)
       && if exitType == Dispatch then tracking != None && tracking != Some("") else tracking == None
    {
      ExitReplyExact(t, skuId, quantity, exitType, tracking, warehouse, env);
      if ExitReply(t, skuId, quantity, exitType, tracking, warehouse, env).Created? {
        ExitTablesExact(t, skuId, quantity, exitType, tracking, warehouse, env);
      }
    }
  }

  /** A successful exit lowers the balance of its SKU and warehouse by its quantity, and no other. */
  lemma ExitMovesBalance(t: Tables, skuId: int, quantity: nat, exitType: ExitType, tracking: Option<string>,
                         warehouse: string, env: Env)
    requires Sound(t) && Execute(t, ExitStock(skuId, quantity, exitType, tracking, warehouse), env).reply.Created?
    ensures var t' := Execute(t, ExitStock(skuId, quantity, exitType, tracking, warehouse), env).tables;
      forall s: int, w: string ::
        Balance(t', s, w) == Balance(t, s, w) - (if s == skuId && w == warehouse then quantity else 0)
  {
    hide Sound, Execute, WithStockExit, Balance, NewId;
    ExitExact(t, skuId, quantity, exitType, tracking, warehouse, env);
    ExecuteKeeps(t, ExitStock(skuId, quantity, exitType, tracking, warehouse), env);
    ExitMoves(t, StockExit(skuId, quantity, exitType, tracking, warehouse, env.now, env.user, None, None), env.eventId);
  }

  // ----- physical counts -----

  function CountReply(t: Tables, countId: string, skuId: int, observed: nat, warehouse: string, env: Env): Reply {
    if !IsUuidV4(countId) || !DomainWarehouse(warehouse) then Unprocessable
    else if skuId !in t.skus then NotFound
    else if t.skus[skuId].warehouse != warehouse then BadRequest
    else if t.skus[skuId].clientId == None || t.skus[skuId].clientId == Some("") then IntegrityFailure
    else if observed != Balance(t, skuId, warehouse) && !NewId(t, env.eventId) then IntegrityFailure
    else Created(t.nextCount)
  }

  /** The tables with one more count, and its event if it differs from the balance. */
  function WithPhysicalCount(t: Tables, countId: string, skuId: int, observed: nat, warehouse: string, env: Env): Tables {
    if skuId !in t.skus || t.skus[skuId].clientId.None? then t else
    var sku, pk, expected := t.skus[skuId], t.nextCount, Balance(t, skuId, warehouse);
    t.(counts := t.counts[pk := PhysicalCount(countId, skuId, sku.clientId.value, warehouse, expected, observed, env.now,
         env.user)],
       nextCount := pk + 1,
       outbox := if observed == expected then t.outbox
         else t.outbox[OutboxKey(PhysicalCountTable, pk) := OutboxRow(env.eventId, env.now, InventoryDiscrepancyDetected,
           map[Warehouse := JStr(SiteName(warehouse)), ClientId := JStr(sku.clientId.value),
               ProductId := JStr(IntText(skuId)), ProductCategory := JStr(sku.category),
               Quantity := JInt(if observed > expected then observed - expected else expected - observed),
               SystemQuantity := JInt(expected), CountedQuantity := JInt(observed),
               DiscrepancyDelta := JInt(observed - expected),
               DiscrepancyType := JStr(if observed > expected then "surplus" else "shortage"),
               CountId := JStr(countId)],
           None, 0, None)])
  }

  function CountOutcome(t: Tables, countId: string, skuId: int, observed: nat, warehouse: string, env: Env): Outcome {
    var reply := CountReply(t, countId, skuId, observed, warehouse, env);
    Outcome(if reply.Created? then WithPhysicalCount(t, countId, skuId, observed, warehouse, env) else t, reply)
  }

  lemma CountSpecExact(t: Tables, countId: string, skuId: int, observed: nat, warehouse: string, env: Env)
    requires Sound(t) && forall pk :: pk in t.counts ==> t.counts[pk].countId != countId
    requires IsUuidV4(countId) && DomainWarehouse(warehouse)
    ensures ConfirmCountSpec(t, countId, skuId, observed, warehouse, env) ==
      CountOutcome(t, countId, skuId, observed, warehouse, env)
  {
    hide Good, Balanced, Stock, Level, IsUuidV4, EventIds, IntText, TelemetryWarehouse, NewId, FindCount;
    BalanceIsStock(t, skuId, warehouse);
    BoundedKeys(t);
    NewIdExact(t, env.eventId);
    CountUnknown(t, countId);
    SiteIsMapped(warehouse);
  }

  lemma CountUnknown(t: Tables, countId: string)
    requires forall pk :: pk in t.counts ==> t.counts[pk].countId != countId
    ensures FindCount(t, countId).None?
  {
  }

  /** A first physical count succeeds exactly for a known SKU with a client in its own warehouse, with a new event id
      where it finds a difference; it writes one count, and moves no stock. A count under a known id is the subject of
      `CountIdempotent`. */
  lemma CountExact(t: Tables, countId: string, skuId: int, observed: nat, warehouse: string, env: Env)
    requires Sound(t) && forall pk :: pk in t.counts ==> t.counts[pk].countId != countId
    ensures Execute(t, ConfirmCount(countId, skuId, observed, warehouse), env) ==
      CountOutcome(t, countId, skuId, observed, warehouse, env)
  {
    hide Sound, ConfirmCountSpec, WithPhysicalCount, Balance, NewId, IsUuidV4;
    if IsUuidV4(countId) && DomainWarehouse(warehouse) {
      CountSpecExact(t, countId, skuId, observed, warehouse, env);
    }
  }

  // ----- SKUs -----

  /** A new SKU needs a client, a domain warehouse and a new key; a threshold change needs the SKU. */
  lemma SkuCommandsExact(t: Tables, id: int, sku: Sku, threshold: Option<nat>, env: Env)
    ensures Execute(t, AddSku(id, sku), env) ==
      if sku.clientId == None || sku.clientId == Some("") || !DomainWarehouse(sku.warehouse) then Outcome(t, Unprocessable)
      else if id in t.skus then Outcome(t, IntegrityFailure)
      else Outcome(t.(skus := t.skus[id := sku]), Done)
    ensures Execute(t, SetThreshold(id, threshold), env) ==
      if id !in t.skus then Outcome(t, NotFound)
      else Outcome(t.(skus := t.skus[id := t.skus[id].(threshold := threshold)]), Done)
  {
  }
}
