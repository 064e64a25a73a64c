/** The inventory endpoints: two cached projections and the writes that invalidate them. */
module InventoryRoutes {
  import opened Basics
  import opened Vocabulary
  import opened InventoryTables
  import opened InventoryCommands
  import opened InventoryInvariants
  import opened InventorySteps
  import opened InventoryRuns
  import opened InventoryService
  import opened TtlCache

  // ----- the product list -----

  datatype Product = Product(id: int, row: Sku, stock: int)

  ghost function ProductOf(t: Tables, id: int): Product
    requires id in t.skus
  {
    Product(id, t.skus[id], Stock(t, id, t.skus[id].warehouse))
  }

  ghost function Products(t: Tables): set<Product> { set id | id in t.skus :: ProductOf(t, id) }

  /** Every SKU once, with its current stock, in whatever order the SELECT returned. */
  ghost predicate IsProductList(t: Tables, rows: seq<Product>) { Lists(rows, Products(t)) }

  // ----- the movement list -----

  datatype MovementRow = MovementRow(
    movement: Movement, quantity: int, warehouse: string, createdAt: int, user: string, skuName: string, skuCode: string,
    reference: Option<string>, exitType: Option<ExitType>, tracking: Option<string>)

  function EntryRow(pk: nat, e: StockEntry, sku: Sku): MovementRow {
    MovementRow(Inbound(pk), e.quantity, e.warehouse, e.createdAt, e.user, sku.name, sku.code, Some(e.reference), None, None)
  }

  function ExitRow(pk: nat, x: StockExit, sku: Sku): MovementRow {
    MovementRow(Outbound(pk), x.quantity, x.warehouse, x.createdAt, x.user, sku.name, sku.code, None, Some(x.exitType),
      x.tracking)
  }

  predicate SkusPresent(t: Tables) {
    && (forall pk :: pk in t.entries ==> t.entries[pk].skuId in t.skus)
    && (forall pk :: pk in t.exits ==> t.exits[pk].skuId in t.skus)
  }

  function EntryRows(t: Tables): set<MovementRow>
    requires SkusPresent(t)
  {
    set pk | pk in t.entries :: EntryRow(pk, t.entries[pk], t.skus[t.entries[pk].skuId])
  }

  function ExitRows(t: Tables): set<MovementRow>
    requires SkusPresent(t)
  {
    set pk | pk in t.exits :: ExitRow(pk, t.exits[pk], t.skus[t.exits[pk].skuId])
  }

  /** The sort key `(created_at, movement_type, id)`; "inbound" sorts before "outbound". */
  predicate Before(a: MovementRow, b: MovementRow) {
    a.createdAt < b.createdAt
    || (a.createdAt == b.createdAt &&
        (if a.movement.Inbound? == b.movement.Inbound? then a.movement.pk < b.movement.pk else a.movement.Inbound?))
  }

  predicate Ascending(rows: seq<MovementRow>) { forall i, j :: 0 <= i < j < |rows| ==> Before(rows[i], rows[j]) }

  ghost predicate IsMovementList(t: Tables, rows: seq<MovementRow>)
    requires SkusPresent(t)
  {
    Ascending(rows) && (forall r :: r in rows <==> r in EntryRows(t) || r in ExitRows(t))
  }

  lemma FirstIsLeast(rows: seq<MovementRow>, r: MovementRow)
    requires Ascending(rows) && r in rows
    ensures r == rows[0] || Before(rows[0], r)
    ensures r in rows[1..] <==> r != rows[0]
  {
    var k :| 0 <= k < |rows| && rows[k] == r;
    assert k > 0 ==> Before(rows[0], rows[k]) && rows[1..][k - 1] == r;
    assert forall j :: 0 <= j < |rows| - 1 ==> rows[1..][j] == rows[j + 1];
  }

  lemma HeadListed(rows: seq<MovementRow>)
    ensures rows != [] ==> rows[0] in rows
  {
  }

  /** An ascending list is determined by its rows. */
  lemma {:induction false} AscendingUnique(a: seq<MovementRow>, b: seq<MovementRow>)
    requires Ascending(a) && Ascending(b) && (forall r :: r in a <==> r in b)
    ensures a == b
  {
    HeadListed(a);
    HeadListed(b);
    if a != [] && b != [] {
      FirstIsLeast(a, b[0]);
      FirstIsLeast(b, a[0]);
      forall r ensures r in a[1..] <==> r in b[1..] {
        assert r in a[1..] ==> r in a;
        assert r in b[1..] ==> r in b;
        if r in a { FirstIsLeast(a, r); FirstIsLeast(b, r); }
      }
      AscendingUnique(a[1..], b[1..]);
      assert a == [a[0]] + a[1..] && b == [b[0]] + b[1..];
    }
  }

  /** The served order list is one list, not one of several. */
  lemma MovementListUnique(t: Tables, a: seq<MovementRow>, b: seq<MovementRow>)
    requires SkusPresent(t) && IsMovementList(t, a) && IsMovementList(t, b)
    ensures a == b
  {
    AscendingUnique(a, b);
  }

  /** The order list, field by field: every entry and every exit is one row, with the name and code of its SKU; the
      rows ascend by time, at one instant entries come before exits, and rows of one kind ascend by id. */
  lemma MovementListExact(t: Tables, rows: seq<MovementRow>)
    requires SkusPresent(t)
    ensures IsMovementList(t, rows) <==>
      && (forall r :: r in rows <==>
            || (exists pk :: pk in t.entries && var e := t.entries[pk];
                  r == MovementRow(Inbound(pk), e.quantity, e.warehouse, e.createdAt, e.user, t.skus[e.skuId].name,
                    t.skus[e.skuId].code, Some(e.reference), None, None))
            || (exists pk :: pk in t.exits && var x := t.exits[pk];
                  r == MovementRow(Outbound(pk), x.quantity, x.warehouse, x.createdAt, x.user, t.skus[x.skuId].name,
                    t.skus[x.skuId].code, None, Some(x.exitType), x.tracking)))
      && (forall i, j :: 0 <= i < j < |rows| ==>
            || rows[i].createdAt < rows[j].createdAt
            || (rows[i].createdAt == rows[j].createdAt && match (rows[i].movement, rows[j].movement)
                  case (Inbound(a), Inbound(b)) => a < b
                  case (Inbound(_), Outbound(_)) => true
                  case (Outbound(_), Inbound(_)) => false
                  case (Outbound(a), Outbound(b)) => a < b))
  {
  }

  /** The product list, field by field: every SKU once, with its entries less its exits in its own warehouse. */
  lemma ProductListExact(t: Tables, rows: seq<Product>)
    requires IsProductList(t, rows)
    ensures forall i, j :: 0 <= i < j < |rows| ==> rows[i].id != rows[j].id
    ensures forall id :: id in t.skus <==> exists p :: p in rows && p.id == id
    ensures forall p :: p in rows ==> p.id in t.skus && p.row == t.skus[p.id]
    ensures forall p :: p in rows ==> p.stock == UnitsIn(t, p.id, p.row.warehouse) - UnitsOut(t, p.id, p.row.warehouse)
  {
    hide Stock, UnitsIn, UnitsOut;
    forall p | p in rows ensures p.stock == UnitsIn(t, p.id, p.row.warehouse) - UnitsOut(t, p.id, p.row.warehouse) {
      StockExact(t, p.id, p.row.warehouse);
    }
    forall id | id in t.skus ensures exists p :: p in rows && p.id == id { assert ProductOf(t, id) in rows; }
    assert forall p :: p in rows ==> p == ProductOf(t, p.id);
    forall i, j | 0 <= i < j < |rows| ensures rows[i].id != rows[j].id { assert rows[i] in rows && rows[j] in rows; }
  }

  function EntriesOf(t: Tables, sku: int, warehouse: string): set<nat> {
    set pk | pk in t.entries && t.entries[pk].skuId == sku && t.entries[pk].warehouse == warehouse
  }

  function ExitsOf(t: Tables, sku: int, warehouse: string): set<nat> {
    set pk | pk in t.exits && t.exits[pk].skuId == sku && t.exits[pk].warehouse == warehouse
  }

  ghost function UnitsIn(t: Tables, sku: int, warehouse: string): int {
    Sum<nat>(EntriesOf(t, sku, warehouse), EntryUnits(t))
  }

  ghost function UnitsOut(t: Tables, sku: int, warehouse: string): int {
    Sum<nat>(ExitsOf(t, sku, warehouse), ExitUnits(t))
  }

  function EntryUnits(t: Tables): nat -> int { (pk: nat) => if pk in t.entries then t.entries[pk].quantity else 0 }

  function ExitUnits(t: Tables): nat -> int { (pk: nat) => if pk in t.exits then t.exits[pk].quantity else 0 }

  lemma ReceivedUnits(t: Tables, sku: int, warehouse: string)
    ensures Sum(Received(t.entries, sku, warehouse), Units) == UnitsIn(t, sku, warehouse)
  {
    var rows: map<nat, (nat, int)> := map pk: nat | pk in EntriesOf(t, sku, warehouse) :: (pk, t.entries[pk].quantity);
    forall row | row in Received(t.entries, sku, warehouse) ensures row in rows.Values { assert rows[row.0] == row; }
    SumMatch<nat, (nat, int)>(rows, Received(t.entries, sku, warehouse), EntryUnits(t), Units);
    assert rows.Keys == EntriesOf(t, sku, warehouse);
  }

  lemma ShippedUnits(t: Tables, sku: int, warehouse: string)
    ensures Sum(Shipped(t.exits, sku, warehouse), Units) == UnitsOut(t, sku, warehouse)
  {
    var rows: map<nat, (nat, int)> := map pk: nat | pk in ExitsOf(t, sku, warehouse) :: (pk, t.exits[pk].quantity);
    forall row | row in Shipped(t.exits, sku, warehouse) ensures row in rows.Values { assert rows[row.0] == row; }
    SumMatch<nat, (nat, int)>(rows, Shipped(t.exits, sku, warehouse), ExitUnits(t), Units);
    assert rows.Keys == ExitsOf(t, sku, warehouse);
  }

  lemma StockExact(t: Tables, sku: int, warehouse: string)
    ensures Stock(t, sku, warehouse) == UnitsIn(t, sku, warehouse) - UnitsOut(t, sku, warehouse)
  {
    ReceivedUnits(t, sku, warehouse);
    ShippedUnits(t, sku, warehouse);
  }

  // ----- sorting -----

  function Insert(row: MovementRow, rows: seq<MovementRow>): seq<MovementRow> {
    if rows == [] || Before(row, rows[0]) then [row] + rows else [rows[0]] + Insert(row, rows[1..])
  }

  function Sorted(rows: seq<MovementRow>): seq<MovementRow> {
    if rows == [] then [] else Insert(rows[0], Sorted(rows[1..]))
  }

  lemma {:induction false} InsertAscending(row: MovementRow, rows: seq<MovementRow>)
    requires Ascending(rows) && forall r :: r in rows ==> r.movement != row.movement
    ensures Ascending(Insert(row, rows))
    ensures forall r :: r in Insert(row, rows) <==> r == row || r in rows
  {
    if rows == [] {
    } else if Before(row, rows[0]) {
      forall j | 0 <= j < |rows| ensures Before(row, rows[j]) { assert j == 0 || Before(rows[0], rows[j]); }
    } else {
      var rest := Insert(row, rows[1..]);
      InsertAscending(row, rows[1..]);
      assert rows[0] in rows;
      forall j | 0 <= j < |rest| ensures Before(rows[0], rest[j]) {
        assert rest[j] in rest;
        if rest[j] != row {
          var k :| 0 <= k < |rows| - 1 && rows[1..][k] == rest[j];
          assert rows[k + 1] == rest[j];
        }
      }
    }
  }

  predicate DistinctMovements(rows: seq<MovementRow>) {
    forall i, j :: 0 <= i < j < |rows| ==> rows[i].movement != rows[j].movement
  }

  lemma {:induction false} SortedAscending(rows: seq<MovementRow>)
    requires DistinctMovements(rows)
    ensures Ascending(Sorted(rows))
    ensures forall r :: r in Sorted(rows) <==> r in rows
  {
    if rows != [] {
      SortedAscending(rows[1..]);
      forall r | r in Sorted(rows[1..]) ensures r.movement != rows[0].movement {
        var k :| 0 <= k < |rows| - 1 && rows[1..][k] == r;
        assert rows[k + 1] == r;
      }
      InsertAscending(rows[0], Sorted(rows[1..]));
      assert rows == [rows[0]] + rows[1..];
    }
  }

  // ----- reading the projections -----

  /** What the collecting loops have listed: the movements `done`, each once. */
  ghost predicate Listed(rows: seq<MovementRow>, done: set<MovementRow>) {
    DistinctMovements(rows) && (forall r :: r in rows <==> r in done)
  }

  lemma ListedNext(rows: seq<MovementRow>, done: set<MovementRow>, r: MovementRow)
    requires Listed(rows, done) && forall d :: d in done ==> d.movement != r.movement
    ensures Listed(rows + [r], done + {r})
  {
    assert forall i :: 0 <= i < |rows| ==> rows[i] in rows;
  }

  function EntryRowsExcept(t: Tables, todo: set<nat>): set<MovementRow>
    requires SkusPresent(t)
  {
    set pk | pk in t.entries && pk !in todo :: EntryRow(pk, t.entries[pk], t.skus[t.entries[pk].skuId])
  }

  function ExitRowsExcept(t: Tables, todo: set<nat>): set<MovementRow>
    requires SkusPresent(t)
  {
    set pk | pk in t.exits && pk !in todo :: ExitRow(pk, t.exits[pk], t.skus[t.exits[pk].skuId])
  }

  method CollectEntries(t: Tables) returns (rows: seq<MovementRow>)
    requires SkusPresent(t)
    ensures Listed(rows, EntryRows(t))
  {
    hide Listed;
    rows := [];
    var todo := t.entries.Keys;
    assert EntryRowsExcept(t, todo) == {};
    assert Listed([], {}) by { NothingListed(); }
    while todo != {}
      invariant todo <= t.entries.Keys && Listed(rows, EntryRowsExcept(t, todo))
      decreases |todo|
    {
      ghost var some := Witness(todo);
      var pk :| pk in todo;
      var row := EntryRow(pk, t.entries[pk], t.skus[t.entries[pk].skuId]);
      ListedNext(rows, EntryRowsExcept(t, todo), row);
      assert EntryRowsExcept(t, todo) + {row} == EntryRowsExcept(t, todo - {pk});
      rows, todo := rows + [row], todo - {pk};
    }
    assert EntryRowsExcept(t, {}) == EntryRows(t);
  }

  method CollectExits(t: Tables, entries: seq<MovementRow>) returns (rows: seq<MovementRow>)
    requires SkusPresent(t) && Listed(entries, EntryRows(t))
    ensures Listed(rows, EntryRows(t) + ExitRows(t))
  {
    hide Listed;
    rows := entries;
    var todo := t.exits.Keys;
    assert EntryRows(t) + ExitRowsExcept(t, todo) == EntryRows(t);
    while todo != {}
      invariant todo <= t.exits.Keys && Listed(rows, EntryRows(t) + ExitRowsExcept(t, todo))
      decreases |todo|
    {
      ghost var some := Witness(todo);
      var pk :| pk in todo;
      var row := ExitRow(pk, t.exits[pk], t.skus[t.exits[pk].skuId]);
      ListedNext(rows, EntryRows(t) + ExitRowsExcept(t, todo), row);
      assert EntryRows(t) + ExitRowsExcept(t, todo) + {row} == EntryRows(t) + ExitRowsExcept(t, todo - {pk});
      rows, todo := rows + [row], todo - {pk};
    }
    assert ExitRowsExcept(t, {}) == ExitRows(t);
  }

  lemma NothingListed()
    ensures Listed([], {})
  {
  }

  /** `list_orders`: `None` where a movement refers to a missing SKU. */
  method ListOrders(t: Tables) returns (result: Option<seq<MovementRow>>)
    ensures result.Some? <==> SkusPresent(t)
    ensures result.Some? ==> IsMovementList(t, result.value)
  {
    hide EntryRow, ExitRow;
    var needed := (set pk | pk in t.entries :: t.entries[pk].skuId) + (set pk | pk in t.exits :: t.exits[pk].skuId);
    assert forall pk :: pk in t.entries ==> t.entries[pk].skuId in needed;
    assert forall pk :: pk in t.exits ==> t.exits[pk].skuId in needed;
    if !(needed <= t.skus.Keys) { return None; }
    var rows := CollectEntries(t);
    rows := CollectExits(t, rows);
    SortedAscending(rows);
    result := Some(Sorted(rows));
  }

  /** `list_products` on a miss: all SKUs against the bulk stock map. */
  method ReadProducts(session: Session) returns (rows: seq<Product>)
    ensures IsProductList(session.db, rows)
  {
    var t := session.db;
    var stocks := session.CurrentStocks();
    rows := [];
    var todo := t.skus.Keys;
    ghost var listed: set<Product> := {};
    while todo != {}
      invariant todo <= t.skus.Keys && Lists(rows, listed)
      invariant listed == set id | id in t.skus && id !in todo :: ProductOf(t, id)
      decreases |todo|
    {
      ghost var some := Witness(todo);
      var id :| id in todo;
      var row := Product(id, t.skus[id], At(stocks, id, t.skus[id].warehouse));
      assert row == ProductOf(t, id);
      ListsNext(rows, listed, row);
      rows, listed, todo := rows + [row], listed + {row}, todo - {id};
    }
    assert listed == Products(t);
  }

  // ----- what a command can change -----

  lemma SoundSkus(t: Tables)
    requires Sound(t)
    ensures SkusPresent(t)
  {
    forall pk | pk in t.entries ensures t.entries[pk].skuId in t.skus { assert EntryOk(t, pk); }
    forall pk | pk in t.exits ensures t.exits[pk].skuId in t.skus { assert ExitOk(t, pk); }
  }

  /** Counting stock changes neither projection, so it need not invalidate. */
  lemma CountKeepsProjections(t: Tables, countId: string, skuId: int, observed: nat, warehouse: string, env: Env)
    requires SkusPresent(t)
    ensures var t' := ConfirmCountSpec(t, countId, skuId, observed, warehouse, env).tables;
      SkusPresent(t') && Products(t') == Products(t) && EntryRows(t') == EntryRows(t) && ExitRows(t') == ExitRows(t)
  {
    var t' := ConfirmCountSpec(t, countId, skuId, observed, warehouse, env).tables;
    hide ConfirmCountSpec;
    CountFrame(t, countId, skuId, observed, warehouse, env);
    forall id | id in t.skus ensures ProductOf(t', id) == ProductOf(t, id) {}
  }

  lemma CountFrame(t: Tables, countId: string, skuId: int, observed: nat, warehouse: string, env: Env)
    ensures var t' := ConfirmCountSpec(t, countId, skuId, observed, warehouse, env).tables;
      t'.skus == t.skus && t'.entries == t.entries && t'.exits == t.exits
  {
    hide Stock, DiscrepancyTags, TelemetryWarehouse, FindCount, Enqueue;
    if skuId in t.skus && t.skus[skuId].clientId.Some? {
      var sku, expected := t.skus[skuId], Stock(t, skuId, warehouse);
      var t1 := t.(counts := t.counts[t.nextCount := PhysicalCount(countId, skuId, sku.clientId.value, warehouse, expected,
        observed, env.now, env.user)], nextCount := t.nextCount + 1);
      EnqueueFrame(t1, env.eventId, env.now, OutboxKey(PhysicalCountTable, t.nextCount),
        DiscrepancyTags(TelemetryWarehouse(warehouse), sku.clientId.value, skuId, sku.category, expected, observed, countId));
    }
  }

  predicate SameStock(t: Tables, t': Tables) { t'.skus == t.skus && t'.entries == t.entries && t'.exits == t.exits }

  lemma EnqueueFrame(t: Tables, id: string, now: int, k: OutboxKey, tags: Tags)
    ensures Enqueue(t, id, now, k, tags).Some? ==> SameStock(t, Enqueue(t, id, now, k, tags).value)
  {
  }

  /** A new SKU appears in no movement, so the order list stays; the product list gains one row without stock. */
  lemma NewSkuKeepsOrders(t: Tables, id: int, sku: Sku)
    requires SkusPresent(t) && id !in t.skus
    ensures var t' := t.(skus := t.skus[id := sku]);
      && SkusPresent(t') && EntryRows(t') == EntryRows(t) && ExitRows(t') == ExitRows(t)
      && Products(t') == Products(t) + {Product(id, sku, 0)}
  {
    var t' := t.(skus := t.skus[id := sku]);
    forall s | s in t.skus ensures ProductOf(t', s) == ProductOf(t, s) {}
    assert Received(t.entries, id, sku.warehouse) == {} && Shipped(t.exits, id, sku.warehouse) == {};
    assert ProductOf(t', id) == Product(id, sku, 0);
    forall p | p in Products(t) ensures p in Products(t') {
      var s :| s in t.skus && p == ProductOf(t, s);
      assert s in t'.skus && p == ProductOf(t', s);
    }
    assert id in t'.skus;
  }

  /** After a stock entry no earlier product list is right any more: the invalidation is needed. */
  lemma EntryStalesProducts(t: Tables, skuId: int, quantity: nat, reference: string, warehouse: string, env: Env,
                            rows: seq<Product>)
    requires Sound(t) && quantity > 0 && IsProductList(t, rows)
    requires EnterStockSpec(t, skuId, quantity, reference, warehouse, env).reply.Created?
    ensures !IsProductList(EnterStockSpec(t, skuId, quantity, reference, warehouse, env).tables, rows)
  {
    var t' := EnterStockSpec(t, skuId, quantity, reference, warehouse, env).tables;
    EnterStockShape(t, skuId, quantity, reference, warehouse, env);
    SoundBounded(t);
    hide EnterStockSpec, Sound, Bounded, Stock;
    var e := StockEntry(skuId, quantity, reference, warehouse, env.now, env.user);
    assert Stock(t', skuId, warehouse) == Stock(t, skuId, warehouse) + quantity by {
      NextEntryFree(t);
      StockAfterEntry(t, t', t.nextEntry, e, skuId, warehouse);
    }
    assert ProductOf(t, skuId) in Products(t) && ProductOf(t, skuId) in rows;
    assert ProductOf(t, skuId) !in Products(t');
  }

  lemma NextEntryFree(t: Tables)
    requires Bounded(t)
    ensures t.nextEntry !in t.entries
  {
  }

  // ----- the endpoints -----

  ghost predicate AllSound(databases: map<nat, Tables>) {
    forall e :: e in databases ==> Sound(databases[e]) && SkusPresent(databases[e])
  }

  ghost predicate FreshProducts(databases: map<nat, Tables>, entries: map<nat, Entry<seq<Product>>>) {
    forall e :: e in entries ==> e in databases && IsProductList(databases[e], entries[e].value)
  }

  ghost predicate FreshOrders(databases: map<nat, Tables>, entries: map<nat, Entry<seq<MovementRow>>>)
    requires AllSound(databases)
  {
    forall e :: e in entries ==> e in databases && IsMovementList(databases[e], entries[e].value)
  }

  /** What the invalidation after one write leaves in a cache. */
  function Invalidated<V>(entries: map<nat, Entry<V>>, engine: nat, drop: bool): map<nat, Entry<V>> {
    if drop then entries - {engine} else entries
  }

  predicate DropsProducts(c: Command, reply: Reply) { Wrote(reply) && !c.ConfirmCount? }

  predicate DropsOrders(c: Command, reply: Reply) { DropsProducts(c, reply) && !c.AddSku? }

  lemma StillFresh(databases: map<nat, Tables>, engine: nat, c: Command, env: Env,
                   products: map<nat, Entry<seq<Product>>>, orders: map<nat, Entry<seq<MovementRow>>>)
    requires AllSound(databases) && FreshProducts(databases, products) && FreshOrders(databases, orders)
    requires engine in databases
    ensures var r := Execute(databases[engine], c, env); var after := databases[engine := r.tables];
      && AllSound(after) && FreshProducts(after, Invalidated(products, engine, DropsProducts(c, r.reply)))
      && FreshOrders(after, Invalidated(orders, engine, DropsOrders(c, r.reply)))
  {
    hide Sound, SkusPresent, Execute, IsProductList, IsMovementList, Wrote, Kept;
    ExecuteKeeps(databases[engine], c, env);
    KeptSound(databases[engine], Execute(databases[engine], c, env).tables);
    Unaffected(databases[engine], c, env);
  }

  class Api {
    /** The committed tables of each database engine of the process. */
    var databases: map<nat, Tables>
    const products: TTLCache<seq<Product>>
    const orders: TTLCache<seq<MovementRow>>

    /** Coherence: whatever is cached is what a recomputation would return. */
    ghost predicate Valid()
      reads this, products, orders
    {
      && (products as object) != (orders as object)
      && AllSound(databases) && FreshProducts(databases, products.entries) && FreshOrders(databases, orders.entries)
    }

    constructor (databases: map<nat, Tables>, productsTtl: int, ordersTtl: int)
      requires productsTtl > 0 && ordersTtl > 0
      requires forall e :: e in databases ==> Fresh(databases[e])
      ensures Valid() && this.databases == databases && fresh(products) && fresh(orders)
    {
      this.databases := databases;
      products := new TTLCache(productsTtl);
      orders := new TTLCache(ordersTtl);
      new;
      forall e | e in databases ensures Sound(databases[e]) && SkusPresent(databases[e]) {
        FreshSound(databases[e]);
        SoundSkus(databases[e]);
      }
    }

    /** GET /inventory/products */
    method ListProducts(engine: nat, now: int) returns (rows: seq<Product>)
      requires Valid() && engine in databases
      modifies products
      ensures Valid() && IsProductList(databases[engine], rows)
      // the list stays cached until the end of its time, and a new one is cached for the configured time
      ensures products.entries == old(products.entries)[engine := Entry(rows,
        if engine in old(products.entries) && old(products.entries)[engine].expiresAt > now then old(products.entries)[engine].expiresAt
        else now + products.ttl)]
    {
      hide IsProductList, IsMovementList, Sound, SkusPresent;
      var cached := products.Lookup(engine, now);
      if cached.Some? { return cached.value; }
      var session := new Session(map[]);
      session.db := databases[engine];
      rows := ReadProducts(session);
      products.Store(engine, rows, now);
    }

    /** GET /inventory/orders */
    method ListOrdersEndpoint(engine: nat, now: int) returns (rows: Option<seq<MovementRow>>)
      requires Valid() && engine in databases
      modifies orders
      ensures Valid() && rows.Some? && IsMovementList(databases[engine], rows.value)
      // the list stays cached until the end of its time, and a new one is cached for the configured time
      ensures orders.entries == old(orders.entries)[engine := Entry(rows.value,
        if engine in old(orders.entries) && old(orders.entries)[engine].expiresAt > now then old(orders.entries)[engine].expiresAt
        else now + orders.ttl)]
    {
      hide IsProductList, IsMovementList, Sound, SkusPresent;
      var cached := orders.Lookup(engine, now);
      if cached.Some? { return cached; }
      rows := ListOrders(databases[engine]);
      if rows.Some? { orders.Store(engine, rows.value, now); }
    }

    /** A write endpoint: the command, then the invalidation that its code path performs. */
    method Write(engine: nat, c: Command, env: Env) returns (reply: Reply)
      requires Valid() && engine in databases
      modifies this, products, orders
      ensures Valid() && databases.Keys == old(databases).Keys
      ensures Outcome(databases[engine], reply) == Execute(old(databases)[engine], c, env)
      ensures forall e :: e in databases && e != engine ==> databases[e] == old(databases)[e]
      // a failed or repeated command and a count drop nothing; a new SKU drops its product list; the rest drops both
      ensures var dropped := if (reply.Created? || reply.Done?) && !c.ConfirmCount? then {engine} else {};
        products.entries == old(products.entries) - dropped
        && orders.entries == if c.AddSku? then old(orders.entries) else old(orders.entries) - dropped
    {
      hide IsProductList, IsMovementList, Sound, SkusPresent, Execute, Kept, Extends, FreshProducts, FreshOrders;
      StillFresh(databases, engine, c, env, products.entries, orders.entries);
      var session := new Session(map[]);
      session.db := databases[engine];
      reply := session.Handle(c, env);
      databases := databases[engine := session.db];
      assert old(products.entries) - {} == old(products.entries) && old(orders.entries) - {} == old(orders.entries);
      if Wrote(reply) && !c.ConfirmCount? {
        var _ := products.Delete(engine);
        if !c.AddSku? { var _ := orders.Delete(engine); }
      }
    }
  }

  lemma KeptSound(t: Tables, t': Tables)
    requires Kept(t, t')
    ensures Sound(t') && SkusPresent(t')
  {
    hide Sound, Extends;
    SoundSkus(t');
  }

  /** Where a code path invalidates nothing, the projection it leaves cached is still right. */
  lemma Unaffected(t: Tables, c: Command, env: Env)
    requires Sound(t) && SkusPresent(t)
    ensures var r := Execute(t, c, env);
      && SkusPresent(r.tables)
      && (!Wrote(r.reply) || c.ConfirmCount? ==> forall rows :: IsProductList(t, rows) ==> IsProductList(r.tables, rows))
      && (!Wrote(r.reply) || c.ConfirmCount? || c.AddSku? ==> forall rows :: IsMovementList(t, rows) ==> IsMovementList(r.tables, rows))
  {
    hide Sound, Extends, EnterStockSpec, ExitStockSpec, ConfirmCountSpec, CreateOrderSpec, AppendSpec, ValidPayload;
    var r := Execute(t, c, env);
    ExecuteKeeps(t, c, env);
    KeptSound(t, r.tables);
    if !Wrote(r.reply) {
      FailureChangesNothing(t, c, env);
    } else if c.ConfirmCount? {
      CountKeepsProjections(t, c.countId, c.skuId, c.observed, c.warehouse, env);
    } else if c.AddSku? {
      NewSkuKeepsOrders(t, c.id, c.sku);
    }
  }
}
