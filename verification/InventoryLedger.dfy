/** Computed stock as the running balance of the checkpointed movements. */
module InventoryLedger {
  import opened Basics
  import opened InventoryTables
  import opened InventoryInvariants
  import opened InventorySteps

  /** What one movement adds to the stock of a SKU in a warehouse. */
  function Delta(t: Tables, m: Movement, sku: int, warehouse: string): int {
    match m
    case Inbound(pk) =>
      if pk in t.entries && t.entries[pk].skuId == sku && t.entries[pk].warehouse == warehouse
      then t.entries[pk].quantity else 0
    case Outbound(pk) =>
      if pk in t.exits && t.exits[pk].skuId == sku && t.exits[pk].warehouse == warehouse
      then -t.exits[pk].quantity else 0
  }

  /** The stock after the first `i` movements in serialisation order. */
  function Level(t: Tables, i: nat, sku: int, warehouse: string): int
    requires i <= |t.journal|
  {
    if i == 0 then 0 else Level(t, i - 1, sku, warehouse) + Delta(t, t.journal[i - 1], sku, warehouse)
  }

  predicate MovementExists(t: Tables, m: Movement) {
    if m.Inbound? then m.pk in t.entries else m.pk in t.exits
  }

  /** The journal lists every checkpoint once. */
  ghost predicate JournalSound(t: Tables) {
    && (forall i :: 0 <= i < |t.journal| ==> t.journal[i] in t.checkpoints && MovementExists(t, t.journal[i]))
    && (forall m :: m in t.checkpoints ==> m in t.journal)
    && (forall i, j :: 0 <= i < j < |t.journal| ==> t.journal[i] != t.journal[j])
  }

  /** Checkpoint `i` carries the stock just before and just after its movement, neither of them negative. */
  ghost predicate Exact(t: Tables, i: nat)
    requires i < |t.journal| && t.journal[i] in t.checkpoints
  {
    var c := t.checkpoints[t.journal[i]];
    && c.before == Level(t, i, c.skuId, c.warehouse) >= 0
    && c.after == Level(t, i + 1, c.skuId, c.warehouse) >= 0
  }

  ghost predicate Balanced(t: Tables) {
    && JournalSound(t)
    && (forall i :: 0 <= i < |t.journal| ==> Exact(t, i))
    && (forall s: int, w: string :: Stock(t, s, w) == Level(t, |t.journal|, s, w) && Stock(t, s, w) >= 0)
  }

  lemma {:induction false} LevelKept(t: Tables, t': Tables, i: nat, sku: int, warehouse: string)
    requires Extends(t, t') && JournalSound(t) && i <= |t.journal|
    ensures Level(t', i, sku, warehouse) == Level(t, i, sku, warehouse)
  {
    if i > 0 {
      LevelKept(t, t', i - 1, sku, warehouse);
      assert MovementExists(t, t.journal[i - 1]) && t'.journal[i - 1] == t.journal[i - 1];
    }
  }

  /** Appending one exact checkpoint keeps the books balanced. */
  lemma BalancedStep(t: Tables, t': Tables, m: Movement)
    requires Balanced(t) && Extends(t, t')
    requires t'.journal == t.journal + [m] && m !in t.checkpoints && MovementExists(t', m)
    requires m in t'.checkpoints && t'.checkpoints == t.checkpoints[m := t'.checkpoints[m]]
    requires forall s: int, w: string :: Stock(t', s, w) == Stock(t, s, w) + Delta(t', m, s, w)
    requires forall s: int, w: string :: Stock(t', s, w) >= 0
    requires var c := t'.checkpoints[m];
      c.before == Stock(t, c.skuId, c.warehouse) && c.after == Stock(t', c.skuId, c.warehouse)
    ensures Balanced(t')
  {
    hide Stock, Delta;
    var n := |t.journal|;
    forall s: int, w: string
      ensures Level(t', n, s, w) == Stock(t, s, w) && Level(t', n + 1, s, w) == Stock(t', s, w)
    {
      LevelKept(t, t', n, s, w);
    }
    forall i | 0 <= i < n + 1 ensures t'.journal[i] in t'.checkpoints && MovementExists(t', t'.journal[i]) {
      if i < n { assert t'.journal[i] == t.journal[i]; }
    }
    forall i | 0 <= i < n ensures Exact(t', i) { ExactKept(t, t', m, i); }
  }

  lemma ExactKept(t: Tables, t': Tables, m: Movement, i: nat)
    requires JournalSound(t) && Extends(t, t') && i < |t.journal| && Exact(t, i)
    requires t'.journal == t.journal + [m] && m !in t.checkpoints && m in t'.checkpoints
    requires t'.checkpoints == t.checkpoints[m := t'.checkpoints[m]]
    ensures Exact(t', i)
  {
    hide Extends, Level;
    assert t'.journal[i] == t.journal[i] && t.journal[i] != m;
    var c := t.checkpoints[t.journal[i]];
    LevelKept(t, t', i, c.skuId, c.warehouse);
    LevelKept(t, t', i + 1, c.skuId, c.warehouse);
  }

  /** Steps that move no stock keep the books balanced. */
  lemma BalancedFrame(t: Tables, t': Tables)
    requires Balanced(t) && Extends(t, t')
    requires t'.entries == t.entries && t'.exits == t.exits
    requires t'.checkpoints == t.checkpoints && t'.journal == t.journal
    ensures Balanced(t')
  {
    forall s: int, w: string ensures Stock(t', s, w) == Stock(t, s, w) == Level(t', |t.journal|, s, w) {
      LevelKept(t, t', |t.journal|, s, w);
    }
    forall i | 0 <= i < |t.journal| ensures Exact(t', i) {
      assert Exact(t, i);
      var c := t.checkpoints[t.journal[i]];
      LevelKept(t, t', i, c.skuId, c.warehouse);
      LevelKept(t, t', i + 1, c.skuId, c.warehouse);
    }
  }

  lemma WithEntryBalanced(t: Tables, e: StockEntry, c: Checkpoint, row: Option<OutboxRow>)
    requires Balanced(t) && Bounded(t) && e.quantity > 0
    requires c.skuId == e.skuId && c.warehouse == e.warehouse
    requires c.before == Stock(t, e.skuId, e.warehouse) && c.after == c.before + e.quantity
    ensures Balanced(WithEntry(t, e, c, row))
  {
    var t', m := WithEntry(t, e, c, row), Inbound(t.nextEntry);
    WithEntryExtends(t, e, c, row);
    forall s: int, w: string ensures Stock(t', s, w) == Stock(t, s, w) + Delta(t', m, s, w) {
      StockAfterEntry(t, t', t.nextEntry, e, s, w);
    }
    BalancedStep(t, t', m);
  }

  lemma WithExitBalanced(t: Tables, x: StockExit, c: Checkpoint, row: Option<OutboxRow>)
    requires Balanced(t) && Bounded(t)
    requires c.skuId == x.skuId && c.warehouse == x.warehouse
    requires c.before == Stock(t, x.skuId, x.warehouse) && c.after == c.before - x.quantity >= 0
    ensures Balanced(WithExit(t, x, c, row))
  {
    var t', m := WithExit(t, x, c, row), Outbound(t.nextExit);
    WithExitExtends(t, x, c, row);
    forall s: int, w: string ensures Stock(t', s, w) == Stock(t, s, w) + Delta(t', m, s, w) {
      StockAfterExit(t, t', t.nextExit, x, s, w);
    }
    forall s: int, w: string ensures Stock(t', s, w) >= 0 {
      assert Stock(t', s, w) == Stock(t, s, w) + Delta(t', m, s, w);
    }
    BalancedStep(t, t', m);
  }
}
