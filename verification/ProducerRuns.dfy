/** Runs of commands, relayed rows and other telemetry writers over both databases. */
module ProducerRuns {
  import opened Basics
  import opened Identifiers
  import opened Vocabulary
  import opened InventoryTables
  import opened InventoryCommands
  import opened InventoryInvariants
  import opened InventoryLedger
  import opened InventoryOrders
  import opened InventoryRuns
  import opened OutboxRelay

  datatype World = World(tables: Tables, telemetry: map<string, TelemetryRow>)

  /** One committed transaction, of either database or of the relay across both. */
  datatype Step =
    | Serve(command: Command, env: Env)
    | TryRow(key: OutboxKey, fate: Fate, now: int)
    | OtherWriter(row: TelemetryRow)

  function AfterAttempt(w: World, k: OutboxKey, fate: Fate, now: int): World
    requires k in w.tables.outbox
  {
    var s := Attempt(Stores(w.tables.outbox, w.telemetry), k, fate, now);
    World(w.tables.(outbox := s.outbox), s.telemetry)
  }

  /** A step that the databases refuse changes nothing. */
  ghost function Apply(w: World, step: Step): World {
    match step
    case Serve(command, env) => w.(tables := Execute(w.tables, command, env).tables)
    case TryRow(k, fate, now) =>
      if k in w.tables.outbox && w.tables.outbox[k].publishedAt.None? then AfterAttempt(w, k, fate, now) else w
    case OtherWriter(row) =>
      if row.id in w.telemetry || OfficialRow(row) then w
      else w.(telemetry := w.telemetry[row.id := row])
  }

  ghost function RunWorld(w: World, steps: seq<Step>): World {
    if steps == [] then w else Apply(RunWorld(w, steps[..|steps| - 1]), steps[|steps| - 1])
  }

  ghost predicate FreshWorld(w: World) {
    && Fresh(w.tables)
    && forall id :: id in w.telemetry ==> w.telemetry[id].id == id && !OfficialRow(w.telemetry[id])
  }

  // ----- the invariant -----

  /** A published row has exactly its mapped row at the destination. */
  ghost predicate Delivered(w: World) {
    forall k :: k in w.tables.outbox && w.tables.outbox[k].publishedAt.Some? ==>
      w.tables.outbox[k].eventId in w.telemetry
      && w.telemetry[w.tables.outbox[k].eventId] == Target(w.tables.outbox[k])
  }

  ghost predicate FromOutbox(w: World, id: string)
    requires id in w.telemetry
  {
    exists k :: k in w.tables.outbox && w.tables.outbox[k].eventId == id && w.telemetry[id] == Target(w.tables.outbox[k])
  }

  /** Every official row at the destination is the mapped row of some outbox row. */
  ghost predicate Sourced(w: World) {
    forall id :: id in w.telemetry ==>
      w.telemetry[id].id == id && (OfficialRow(w.telemetry[id]) ==> FromOutbox(w, id))
  }

  ghost predicate SoundWorld(w: World) { Sound(w.tables) && Delivered(w) && Sourced(w) }

  ghost predicate Later(w: World, w': World) {
    && Extends(w.tables, w'.tables)
    && (forall id :: id in w.telemetry ==> id in w'.telemetry && w'.telemetry[id] == w.telemetry[id])
    && (forall k :: k in w.tables.outbox && w.tables.outbox[k].publishedAt.Some? ==>
          k in w'.tables.outbox && w'.tables.outbox[k] == w.tables.outbox[k])
  }

  // ----- commands only append unpublished rows -----

  ghost predicate Appends(t: Tables, t': Tables) {
    && (forall k :: k in t.outbox ==> k in t'.outbox && t'.outbox[k] == t.outbox[k])
    && (forall k :: k in t'.outbox && k !in t.outbox ==> t'.outbox[k].publishedAt.None?)
  }

  lemma AddExitAppends(t: Tables, x: StockExit, eventId: string)
    requires x.skuId in t.skus && AddExit(t, x, eventId).Some?
    ensures Appends(t, AddExit(t, x, eventId).value)
  {
  }

  lemma {:induction false} AddDispatchesAppends(t: Tables, items: seq<Item>, pk: nat, warehouse: string, env: Env)
    requires AddDispatches(t, items, pk, warehouse, env).Some?
    ensures Appends(t, AddDispatches(t, items, pk, warehouse, env).value)
    decreases items
  {
    if items != [] {
      var x, id := DispatchRow(items[0], pk, warehouse, env), env.thresholdId(items[0].dispatchId);
      AddExitAppends(t, x, id);
      AddDispatchesAppends(AddExit(t, x, id).value, items[1..], pk, warehouse, env);
    }
  }

  lemma CreateOrderAppends(t: Tables, orderId: string, clientId: string, warehouse: string, items: seq<Item>, env: Env)
    ensures Appends(t, CreateOrderSpec(t, orderId, clientId, warehouse, items, env).tables)
  {
    hide AddDispatches, ValidateOrder, SortById;
    if CreateOrderSpec(t, orderId, clientId, warehouse, items, env).reply.Created? {
      CreateOrderShape(t, orderId, clientId, warehouse, items, env);
      var order := CommercialOrder(orderId, clientId, warehouse, env.now);
      AddDispatchesAppends(OpenOrder(t, order), SortById(items), t.nextOrder, warehouse, env);
    } else {
      CreateOrderFailure(t, orderId, clientId, warehouse, items, env);
    }
  }

  lemma AppendAppends(t: Tables, orderId: string, items: seq<Item>, env: Env)
    ensures Appends(t, AppendSpec(t, orderId, items, env).tables)
  {
    hide AddDispatches, ValidateOrder, SortById;
    if AppendSpec(t, orderId, items, env).reply.Done? {
      AppendShape(t, orderId, items, env);
      var pk := FindOrder(t, orderId).value;
      AddDispatchesAppends(t, SortById(NewItems(t, items)), pk, t.orders[pk].warehouse, env);
    }
  }

  lemma EnterStockAppends(t: Tables, skuId: int, quantity: nat, reference: string, warehouse: string, env: Env)
    ensures Appends(t, EnterStockSpec(t, skuId, quantity, reference, warehouse, env).tables)
  {
    hide Stock, IsUuidV4, InboundTags, TelemetryWarehouse, EventIds;
  }

  lemma ExitStockAppends(t: Tables, skuId: int, quantity: nat, exitType: ExitType, tracking: Option<string>,
                         warehouse: string, env: Env)
    ensures Appends(t, ExitStockSpec(t, skuId, quantity, exitType, tracking, warehouse, env).tables)
  {
    hide AddExit, Stock;
    var x := StockExit(skuId, quantity, exitType, tracking, warehouse, env.now, env.user, None, None);
    if skuId in t.skus && AddExit(t, x, env.eventId).Some? { AddExitAppends(t, x, env.eventId); }
  }

  lemma ConfirmCountAppends(t: Tables, countId: string, skuId: int, observed: nat, warehouse: string, env: Env)
    ensures Appends(t, ConfirmCountSpec(t, countId, skuId, observed, warehouse, env).tables)
  {
    hide Stock, DiscrepancyTags, TelemetryWarehouse, FindCount, Enqueue;
    if skuId in t.skus && t.skus[skuId].clientId.Some? {
      var sku, expected := t.skus[skuId], Stock(t, skuId, warehouse);
      var t1 := t.(counts := t.counts[t.nextCount := PhysicalCount(countId, skuId, sku.clientId.value, warehouse,
        expected, observed, env.now, env.user)], nextCount := t.nextCount + 1);
      EnqueueAppends(t1, env.eventId, env.now, OutboxKey(PhysicalCountTable, t.nextCount),
        DiscrepancyTags(TelemetryWarehouse(warehouse), sku.clientId.value, skuId, sku.category, expected, observed, countId));
    }
  }

  lemma EnqueueAppends(t: Tables, eventId: string, now: int, key: OutboxKey, tags: Tags)
    ensures Enqueue(t, eventId, now, key, tags).Some? ==> Appends(t, Enqueue(t, eventId, now, key, tags).value)
  {
  }

  lemma ExecuteAppends(t: Tables, c: Command, env: Env)
    ensures Appends(t, Execute(t, c, env).tables)
  {
    hide EnterStockSpec, ExitStockSpec, ConfirmCountSpec, CreateOrderSpec, AppendSpec, ValidPayload;
    match c
    case AddSku(id, sku) =>
    case SetThreshold(skuId, threshold) =>
    case EnterStock(skuId, quantity, reference, warehouse) =>
      EnterStockAppends(t, skuId, quantity, reference, warehouse, env);
    case ExitStock(skuId, quantity, exitType, tracking, warehouse) =>
      ExitStockAppends(t, skuId, quantity, exitType, tracking, warehouse, env);
    case ConfirmCount(countId, skuId, observed, warehouse) =>
      ConfirmCountAppends(t, countId, skuId, observed, warehouse, env);
    case CreateOrder(orderId, clientId, warehouse, items) =>
      CreateOrderAppends(t, orderId, clientId, warehouse, items, env);
    case AppendDispatches(orderId, items) => AppendAppends(t, orderId, items, env);
  }

  // ----- rows and their targets -----

  predicate AllowedTags(t: Tables, k: OutboxKey)
    requires k in t.outbox
  {
    ClientId in t.outbox[k].tags && t.outbox[k].tags.Keys <= Allowlist(SourceEvent(k.source))
  }

  lemma EntryTags(t: Tables, pk: nat)
    requires pk in t.entries && EntryOk(t, pk) && OutboxKey(StockEntryTable, pk) in t.outbox
    ensures AllowedTags(t, OutboxKey(StockEntryTable, pk))
  {
  }

  lemma ExitTags(t: Tables, pk: nat)
    requires pk in t.exits && ExitOk(t, pk) && OutboxKey(StockExitTable, pk) in t.outbox
    ensures AllowedTags(t, OutboxKey(StockExitTable, pk))
  {
  }

  lemma OrderRowTags(t: Tables, pk: nat)
    requires pk in t.orders && OrderOk(t, pk)
    ensures AllowedTags(t, OutboxKey(CommercialOrderTable, pk))
  {
  }

  lemma CountTags(t: Tables, pk: nat)
    requires pk in t.counts && CountOk(t, pk) && OutboxKey(PhysicalCountTable, pk) in t.outbox
    ensures AllowedTags(t, OutboxKey(PhysicalCountTable, pk))
  {
  }

  lemma RowTags(t: Tables, k: OutboxKey)
    requires Good(t) && k in t.outbox
    ensures AllowedTags(t, k)
  {
    hide EntryOk, ExitOk, OrderOk, CountOk, Bounded, Unique, AllowedTags;
    match k.source
    case StockEntryTable => EntryTags(t, k.pk);
    case StockExitTable => ExitTags(t, k.pk);
    case CommercialOrderTable => OrderRowTags(t, k.pk);
    case PhysicalCountTable => CountTags(t, k.pk);
  }

  /** The allowlist filters nothing out of a row that a command wrote. */
  lemma RowTarget(t: Tables, k: OutboxKey)
    requires Good(t) && k in t.outbox
    ensures t.outbox[k].tags != map[] && t.outbox[k].eventType == SourceEvent(k.source)
    ensures FilterTags(t.outbox[k].eventType, t.outbox[k].tags) == t.outbox[k].tags
    ensures OfficialRow(Target(t.outbox[k]))
  {
    RowTags(t, k);
    RowEventType(t, k);
    hide Good;
    FilterTagsExact(t.outbox[k].eventType, t.outbox[k].tags);
  }

  /** Rows with tags are compared exactly: the canonical form identifies no other row with them. */
  lemma CanonicalExact(row: TelemetryRow, target: TelemetryRow)
    requires !Falsy(target.tags) && Canonical(row) == Canonical(target)
    ensures row == target
  {
  }

  // ----- relay steps -----

  lemma RelayedTables(w: World, k: OutboxKey, fate: Fate, now: int)
    requires k in w.tables.outbox && w.tables.outbox[k].publishedAt.None?
    ensures var w' := AfterAttempt(w, k, fate, now);
      && w'.tables == w.tables.(outbox := w.tables.outbox[k := w'.tables.outbox[k]])
      && SameEvent(w.tables.outbox[k], w'.tables.outbox[k])
  {
    var w' := AfterAttempt(w, k, fate, now);
    assert w'.tables.outbox == w.tables.outbox[k := w'.tables.outbox[k]];
  }

  lemma RowUpdateExtends(t: Tables, k: OutboxKey, row: OutboxRow)
    requires k in t.outbox && SameEvent(t.outbox[k], row)
    ensures Extends(t, t.(outbox := t.outbox[k := row]))
  {
  }

  lemma RowUpdateUnique(t: Tables, k: OutboxKey, row: OutboxRow)
    requires Bounded(t) && Known(t) && Unique(t) && k in t.outbox && SameEvent(t.outbox[k], row)
    ensures var t' := t.(outbox := t.outbox[k := row]); Bounded(t') && Known(t') && Unique(t')
  {
    hide Bounded, Unique;
    RowUpdateBounded(t, k, row);
    RowUpdateUniqueIds(t, k, row);
  }

  lemma RowUpdateBounded(t: Tables, k: OutboxKey, row: OutboxRow)
    requires Bounded(t) && k in t.outbox
    ensures Bounded(t.(outbox := t.outbox[k := row]))
  {
  }

  lemma RowUpdateUniqueIds(t: Tables, k: OutboxKey, row: OutboxRow)
    requires Unique(t) && k in t.outbox && SameEvent(t.outbox[k], row)
    ensures Unique(t.(outbox := t.outbox[k := row]))
  {
  }

  lemma RowUpdateSound(t: Tables, k: OutboxKey, row: OutboxRow)
    requires Sound(t) && k in t.outbox && SameEvent(t.outbox[k], row)
    ensures Kept(t, t.(outbox := t.outbox[k := row]))
  {
    hide Extends, Balanced, Bounded, Known, Unique;
    var t' := t.(outbox := t.outbox[k := row]);
    RowUpdateExtends(t, k, row);
    RowUpdateUnique(t, k, row);
    GoodKept(t, t', None);
    BalancedFrame(t, t');
  }

  lemma RelayDelivered(w: World, k: OutboxKey, fate: Fate, now: int)
    requires SoundWorld(w) && k in w.tables.outbox && w.tables.outbox[k].publishedAt.None?
    ensures Delivered(AfterAttempt(w, k, fate, now))
  {
    hide Good, Balanced;
    var w' := AfterAttempt(w, k, fate, now);
    RowTarget(w.tables, k);
    RelayedTables(w, k, fate, now);
    var row := w.tables.outbox[k];
    if row.eventId in w.telemetry && !Conflicts(w.telemetry, Target(row)) {
      CanonicalExact(w.telemetry[row.eventId], Target(row));
    }
    forall j | j in w'.tables.outbox && w'.tables.outbox[j].publishedAt.Some?
      ensures w'.tables.outbox[j].eventId in w'.telemetry
      ensures w'.telemetry[w'.tables.outbox[j].eventId] == Target(w'.tables.outbox[j])
    {
      if j != k { assert w'.tables.outbox[j] == w.tables.outbox[j]; }
    }
  }

  lemma RelaySourced(w: World, k: OutboxKey, fate: Fate, now: int)
    requires SoundWorld(w) && k in w.tables.outbox && w.tables.outbox[k].publishedAt.None?
    ensures Sourced(AfterAttempt(w, k, fate, now))
  {
    hide Good, Balanced, OfficialRow;
    var w' := AfterAttempt(w, k, fate, now);
    RelayedTables(w, k, fate, now);
    forall id | id in w'.telemetry
      ensures w'.telemetry[id].id == id && (OfficialRow(w'.telemetry[id]) ==> FromOutbox(w', id))
    {
      if id in w.telemetry {
        if FromOutbox(w, id) {
          var j :| j in w.tables.outbox && w.tables.outbox[j].eventId == id && w.telemetry[id] == Target(w.tables.outbox[j]);
          assert j in w'.tables.outbox && Target(w'.tables.outbox[j]) == Target(w.tables.outbox[j]);
        }
      } else {
        assert w'.telemetry[id] == Target(w'.tables.outbox[k]);
      }
    }
  }

  lemma RelayStep(w: World, k: OutboxKey, fate: Fate, now: int)
    requires SoundWorld(w) && k in w.tables.outbox && w.tables.outbox[k].publishedAt.None?
    ensures SoundWorld(AfterAttempt(w, k, fate, now)) && Later(w, AfterAttempt(w, k, fate, now))
  {
    hide Good, Balanced, Extends, Delivered, Sourced;
    RelayDelivered(w, k, fate, now);
    RelaySourced(w, k, fate, now);
    RelayedTables(w, k, fate, now);
    RowUpdateSound(w.tables, k, AfterAttempt(w, k, fate, now).tables.outbox[k]);
  }

  // ----- commands and other writers -----

  lemma ServeStep(w: World, c: Command, env: Env)
    requires SoundWorld(w)
    ensures var w' := w.(tables := Execute(w.tables, c, env).tables); SoundWorld(w') && Later(w, w')
  {
    hide Good, Balanced, Extends, Execute;
    ExecuteKeeps(w.tables, c, env);
    ExecuteAppends(w.tables, c, env);
    var w' := w.(tables := Execute(w.tables, c, env).tables);
    forall id | id in w'.telemetry && OfficialRow(w'.telemetry[id]) ensures FromOutbox(w', id) {
      assert FromOutbox(w, id);
      var k :| k in w.tables.outbox && w.tables.outbox[k].eventId == id && w.telemetry[id] == Target(w.tables.outbox[k]);
      assert k in w'.tables.outbox;
    }
  }

  lemma OtherStep(w: World, row: TelemetryRow)
    requires SoundWorld(w) && row.id !in w.telemetry && !OfficialRow(row)
    ensures var w' := w.(telemetry := w.telemetry[row.id := row]); SoundWorld(w') && Later(w, w')
  {
    hide Good, Balanced, Extends;
    ExtendsItself(w.tables);
    var w' := w.(telemetry := w.telemetry[row.id := row]);
    forall id | id in w'.telemetry && OfficialRow(w'.telemetry[id]) ensures FromOutbox(w', id) {
      assert FromOutbox(w, id);
      var k :| k in w.tables.outbox && w.tables.outbox[k].eventId == id && w.telemetry[id] == Target(w.tables.outbox[k]);
      assert k in w'.tables.outbox;
    }
  }

  lemma LaterSame(w: World)
    ensures Later(w, w)
  {
    hide Extends;
    ExtendsItself(w.tables);
  }

  lemma LaterTransitive(a: World, b: World, c: World)
    requires Later(a, b) && Later(b, c)
    ensures Later(a, c)
  {
    ExtendsTransitive(a.tables, b.tables, c.tables);
    hide Extends;
  }

  lemma StepSound(w: World, step: Step)
    requires SoundWorld(w)
    ensures SoundWorld(Apply(w, step)) && Later(w, Apply(w, step))
  {
    hide SoundWorld, Later, Execute, AfterAttempt;
    LaterSame(w);
    match step
    case Serve(command, env) => ServeStep(w, command, env);
    case TryRow(k, fate, now) =>
      if k in w.tables.outbox && w.tables.outbox[k].publishedAt.None? { RelayStep(w, k, fate, now); }
    case OtherWriter(row) =>
      if row.id !in w.telemetry && !OfficialRow(row) { OtherStep(w, row); }
  }

  lemma FreshWorldSound(w: World)
    requires FreshWorld(w)
    ensures SoundWorld(w)
  {
    FreshSound(w.tables);
  }

  lemma {:induction false} RunWorldSound(w: World, steps: seq<Step>)
    requires SoundWorld(w)
    ensures SoundWorld(RunWorld(w, steps)) && Later(w, RunWorld(w, steps))
  {
    hide SoundWorld, Later, Apply;
    if steps == [] {
      LaterSame(w);
    } else {
      var before := RunWorld(w, steps[..|steps| - 1]);
      RunWorldSound(w, steps[..|steps| - 1]);
      StepSound(before, steps[|steps| - 1]);
      LaterTransitive(w, before, RunWorld(w, steps));
    }
  }

  // ----- effectively once -----

  /** Over any run with crashes anywhere: a published row has exactly its mapped row at the destination, every
      official destination row is the mapped row of an outbox row, no other outbox row has its id, and no
      destination row ever changes. */
  lemma EffectivelyOnce(w: World, before: seq<Step>, after: seq<Step>)
    requires FreshWorld(w)
    ensures var mid := RunWorld(w, before); var end := RunWorld(mid, after);
      && (forall k :: k in end.tables.outbox && end.tables.outbox[k].publishedAt.Some? ==>
            end.tables.outbox[k].eventId in end.telemetry
            && end.telemetry[end.tables.outbox[k].eventId] == Target(end.tables.outbox[k]))
      && (forall id :: id in end.telemetry && OfficialRow(end.telemetry[id]) ==> FromOutbox(end, id))
      && (forall j, k :: (j in end.tables.outbox && k in end.tables.outbox
                          && end.tables.outbox[j].eventId == end.tables.outbox[k].eventId) ==> j == k)
      && (forall id :: id in mid.telemetry ==> id in end.telemetry && end.telemetry[id] == mid.telemetry[id])
  {
    FreshWorldSound(w);
    RunWorldSound(w, before);
    RunWorldSound(RunWorld(w, before), after);
    OutboxIdsUnique(RunWorld(RunWorld(w, before), after).tables);
    hide Good, Balanced, Extends, RunWorld;
  }

  lemma OutboxIdsUnique(t: Tables)
    requires Good(t)
    ensures forall j, k :: j in t.outbox && k in t.outbox && t.outbox[j].eventId == t.outbox[k].eventId ==> j == k
  {
    hide Bounded, Known, EntryOk, ExitOk, CountOk, OrderOk;
  }

  /** A row whose event id is taken by other content at the destination is pending for ever. */
  lemma ConflictNeverPublished(w: World, steps: seq<Step>, k: OutboxKey)
    requires SoundWorld(w) && k in w.tables.outbox && w.tables.outbox[k].publishedAt.None?
    requires Conflicts(w.telemetry, Target(w.tables.outbox[k]))
    ensures k in RunWorld(w, steps).tables.outbox && RunWorld(w, steps).tables.outbox[k].publishedAt.None?
  {
    hide Good, Balanced, RunWorld;
    RunWorldSound(w, steps);
    assert SameEvent(w.tables.outbox[k], RunWorld(w, steps).tables.outbox[k]);
  }
}
