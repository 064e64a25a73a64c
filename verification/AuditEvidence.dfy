/** The coverage evidence of an audit: its dispatch pairs, and when the coordinator accepts it. */
module AuditEvidence {
  import opened Basics
  import opened Identifiers
  import opened Vocabulary
  import opened InventoryTables
  import opened InventoryInvariants
  import opened ProducerRuns
  import opened CoverageCompleteness
  import C = Coordinator
  import OC = OperationalCoverage

  // ----- the pairs -----

  lemma {:induction false} PairsOfExact(dispatches: seq<OC.DispatchView>, o: OC.OrderView, d: Option<string>, id: string)
    ensures (d, id) in OC.PairsOf(dispatches, o) <==>
      o.orderId == id && exists b :: b in dispatches && b.dispatchId == d && b.orderPk == o.id
  {
    if dispatches != [] {
      PairsOfExact(dispatches[1..], o, d, id);
      assert dispatches == [dispatches[0]] + dispatches[1..];
    }
  }

  lemma {:induction false} PairsAmongExact(orders: seq<OC.OrderView>, dispatches: seq<OC.DispatchView>, d: Option<string>, id: string)
    ensures (d, id) in OC.DispatchPairs(orders, dispatches) <==>
      exists a, b :: a in orders && b in dispatches && a.orderId == id && b.dispatchId == d && b.orderPk == a.id
  {
    if orders != [] {
      var front, last := orders[..|orders| - 1], orders[|orders| - 1];
      PairsAmongExact(front, dispatches, d, id);
      PairsOfExact(dispatches, last, d, id);
      assert orders == front + [last];
    }
  }

  /** For every snapshot: the audit returns the pair of a dispatch id and an order id exactly when an order of the week
      and a dispatch row carry them and refer to each other by primary key. */
  lemma PairsExact(s: OC.Snapshot, d: Option<string>, id: string)
    ensures (d, id) in OC.AuditOf(s).dispatchPairs <==>
      exists a, b :: a in s.orders && b in s.dispatches && a.orderId == id && b.dispatchId == d && b.orderPk == a.id
  {
    hide OC.Diagnose, OC.CanonicalEvents, OC.OfficialRows;
    PairsAmongExact(s.orders, s.dispatches, d, id);
  }

  predicate OnceEach(pairs: OC.Pairs) { forall i, j :: 0 <= i < j < |pairs| ==> pairs[i].0 != pairs[j].0 }

  predicate IdsDiffer(dispatches: seq<OC.DispatchView>) {
    forall i, j :: 0 <= i < j < |dispatches| ==> dispatches[i].dispatchId != dispatches[j].dispatchId
  }

  lemma {:induction false} PairsOfOnce(dispatches: seq<OC.DispatchView>, o: OC.OrderView)
    requires IdsDiffer(dispatches)
    ensures OnceEach(OC.PairsOf(dispatches, o))
  {
    if dispatches != [] {
      var rest := OC.PairsOf(dispatches[1..], o);
      PairsOfOnce(dispatches[1..], o);
      forall n | 0 <= n < |rest| ensures rest[n].0 != dispatches[0].dispatchId {
        assert (rest[n].0, rest[n].1) in rest;
        PairsOfExact(dispatches[1..], o, rest[n].0, rest[n].1);
        var b :| b in dispatches[1..] && b.dispatchId == rest[n].0;
        var k :| 0 <= k < |dispatches| - 1 && dispatches[1..][k] == b;
        assert dispatches[k + 1] == b;
      }
    }
  }

  /** With distinct dispatch ids and distinct orders, no dispatch id has two pairs. */
  lemma {:induction false} PairsOnce(orders: seq<OC.OrderView>, dispatches: seq<OC.DispatchView>)
    requires IdsDiffer(dispatches) && forall i, j :: 0 <= i < j < |orders| ==> orders[i].id != orders[j].id
    ensures OnceEach(OC.DispatchPairs(orders, dispatches))
  {
    if orders != [] {
      var front, last := orders[..|orders| - 1], orders[|orders| - 1];
      var before, own := OC.DispatchPairs(front, dispatches), OC.PairsOf(dispatches, last);
      PairsOnce(front, dispatches);
      PairsOfOnce(dispatches, last);
      forall m, n | 0 <= m < |before| && 0 <= n < |own| ensures before[m].0 != own[n].0 {
        assert (before[m].0, before[m].1) in before && (own[n].0, own[n].1) in own;
        PairsAmongExact(front, dispatches, before[m].0, before[m].1);
        PairsOfExact(dispatches, last, own[n].0, own[n].1);
        var a, b :| a in front && b in dispatches && b.dispatchId == before[m].0 && b.orderPk == a.id;
        var c :| c in dispatches && c.dispatchId == own[n].0 && c.orderPk == last.id;
        var k :| 0 <= k < |orders| - 1 && front[k] == a;
        assert orders[k] == a && a.id != last.id;
      }
    }
  }

  // ----- the evidence -----

  function DispatchText(id: Option<string>): string { if id.Some? then id.value else "None" }

  /** The pairs as the coordinator gets them. */
  function PairTexts(pairs: OC.Pairs): (texts: seq<(string, string)>)
    ensures |texts| == |pairs| && forall i :: 0 <= i < |pairs| ==> texts[i] == (DispatchText(pairs[i].0), pairs[i].1)
  {
    seq(|pairs|, i requires 0 <= i < |pairs| => (DispatchText(pairs[i].0), pairs[i].1))
  }

  /** `CoverageEvidence(...)` at the end of the audit. */
  function EvidenceOf(audit: OC.Audit): C.Coverage {
    C.Coverage(C.OperationalCheckpoints, audit.diagnostics == {},
      if audit.diagnostics == {}
      then {InboundOrderCreated, OutboundOrderCreated, StockThresholdTriggered, InventoryDiscrepancyDetected} else {},
      PairTexts(audit.dispatchPairs))
  }

  lemma PairRows(t: Tables, telemetry: map<string, TelemetryRow>, week: int, s: OC.Snapshot, n: nat)
    requires Good(t) && SnapshotOf(t, telemetry, week, s) && n < |OC.DispatchPairs(s.orders, s.dispatches)|
    ensures var pair := OC.DispatchPairs(s.orders, s.dispatches)[n]; pair.0.Some? && IsUuid(pair.0.value) && IsUuid(pair.1)
  {
    hide Bounded, Known, Unique, IsUuid, EntryOk, CountOk, OC.DispatchPairs;
    var pair := OC.DispatchPairs(s.orders, s.dispatches)[n];
    PairsAmongExact(s.orders, s.dispatches, pair.0, pair.1);
    assert (pair.0, pair.1) in OC.DispatchPairs(s.orders, s.dispatches);
    var a, b :| a in s.orders && b in s.dispatches && a.orderId == pair.1 && b.dispatchId == pair.0 && b.orderPk == a.id;
    assert a in OrderViews(t, week) && b in DispatchViews(t);
    PairColumns(t, a.id, b.id);
  }

  lemma PairColumns(t: Tables, order: nat, exit: nat)
    requires Good(t) && order in t.orders && exit in t.exits && t.exits[exit].orderPk.Some?
    ensures IsUuid(t.orders[order].orderId) && t.exits[exit].dispatchId.Some? && IsUuid(t.exits[exit].dispatchId.value)
  {
    hide Bounded, Known, Unique, IsUuid, EntryOk, CountOk;
    assert OrderOk(t, order) && ExitOk(t, exit);
  }

  lemma OrderIdsDiffer(t: Tables, week: int, s: OC.Snapshot)
    requires Lists(s.orders, OrderViews(t, week))
    ensures forall i, j :: 0 <= i < j < |s.orders| ==> s.orders[i].id != s.orders[j].id
  {
    forall i, j | 0 <= i < j < |s.orders| ensures s.orders[i].id != s.orders[j].id {
      assert s.orders[i] in s.orders && s.orders[j] in s.orders;
      assert s.orders[i] in OrderViews(t, week) && s.orders[j] in OrderViews(t, week);
    }
  }

  /** In every state of the inventory: each dispatch id has one pair, each order of the week has a pair, and the
      coordinator accepts the evidence of the audit exactly when it has no diagnostics. */
  lemma EvidenceIsExact(t: Tables, telemetry: map<string, TelemetryRow>, week: int, s: OC.Snapshot)
    requires Good(t) && SnapshotOf(t, telemetry, week, s)
    ensures OnceEach(OC.AuditOf(s).dispatchPairs)
    ensures forall o :: o in s.orders ==> exists d :: (d, o.orderId) in OC.AuditOf(s).dispatchPairs
    ensures C.CoverageSufficient(EvidenceOf(OC.AuditOf(s))) <==> OC.Diagnose(s) == {}
  {
    hide Good, SnapshotOf, OC.Diagnose, OC.CanonicalEvents, OC.OfficialRows, OC.DispatchPairs, IsUuid;
    var pairs := OC.DispatchPairs(s.orders, s.dispatches);
    assert IdsDiffer(s.dispatches) by { SnapshotLists(t, telemetry, week, s); DispatchIdsDistinct(t, s); }
    SnapshotLists(t, telemetry, week, s);
    OrderIdsDiffer(t, week, s);
    PairsOnce(s.orders, s.dispatches);
    forall o | o in s.orders ensures exists d :: (d, o.orderId) in pairs {
      var b := OrderDispatch(t, week, s, o);
      PairsAmongExact(s.orders, s.dispatches, b.dispatchId, o.orderId);
      assert (b.dispatchId, o.orderId) in pairs;
    }
    forall n | 0 <= n < |pairs| ensures pairs[n].0.Some? && pairs[n].0.value != "" && pairs[n].1 != "" {
      PairRows(t, telemetry, week, s, n);
      UuidsNotEmpty(pairs[n].0.value, pairs[n].1);
    }
    AcceptedExact(OC.AuditOf(s));
  }

  lemma UuidsNotEmpty(a: string, b: string)
    requires IsUuid(a) && IsUuid(b)
    ensures a != "" && b != ""
  {
  }

  lemma AcceptedExact(audit: OC.Audit)
    requires OnceEach(audit.dispatchPairs)
    requires forall n :: 0 <= n < |audit.dispatchPairs| ==>
      audit.dispatchPairs[n].0.Some? && audit.dispatchPairs[n].0.value != "" && audit.dispatchPairs[n].1 != ""
    ensures C.CoverageSufficient(EvidenceOf(audit)) <==> audit.diagnostics == {}
  {
    assert C.REQUIRED_EVENTS <= {} ==> StockThresholdTriggered !in C.REQUIRED_EVENTS;
  }

  lemma SnapshotLists(t: Tables, telemetry: map<string, TelemetryRow>, week: int, s: OC.Snapshot)
    requires SnapshotOf(t, telemetry, week, s)
    ensures Lists(s.orders, OrderViews(t, week)) && Lists(s.dispatches, DispatchViews(t))
  {
    hide Lists;
  }

  lemma OrderDispatch(t: Tables, week: int, s: OC.Snapshot, o: OC.OrderView) returns (b: OC.DispatchView)
    requires Good(t) && Lists(s.orders, OrderViews(t, week)) && Lists(s.dispatches, DispatchViews(t)) && o in s.orders
    ensures b in s.dispatches && b.orderPk == o.id
  {
    hide Bounded, Known, Unique, EntryOk, ExitOk, CountOk;
    assert o in OrderViews(t, week);
    assert OrderOk(t, o.id);
    var x :| x in t.exits && t.exits[x].orderPk == Some(o.id);
    b := OC.DispatchView(x, t.exits[x].dispatchId, o.id);
    assert b in DispatchViews(t);
  }

  /** After every run of commands, relay attempts and other writers: the coordinator accepts the evidence exactly when
      all events of the week were acknowledged, its entries have clients and no newer event arrived. */
  lemma RunningEvidenceIsExact(w0: World, before: seq<Step>, between: seq<Step>, week: int, s: OC.Snapshot)
    requires FreshWorld(w0)
    requires var w := RunWorld(w0, before); SnapshotOf(w.tables, RunWorld(w, between).telemetry, week, s)
    ensures OnceEach(OC.AuditOf(s).dispatchPairs)
    ensures var w := RunWorld(w0, before);
      C.CoverageSufficient(EvidenceOf(OC.AuditOf(s))) <==>
        AllPublished(w.tables, week) && AllHaveClients(w.tables, week)
        && NothingNewer(w.tables, RunWorld(w, between).telemetry, week)
  {
    hide SnapshotOf, RunWorld, AllPublished, AllHaveClients, NothingNewer, OC.Diagnose, C.CoverageSufficient, FreshWorld;
    var w := RunWorld(w0, before);
    assert Good(w.tables) by {
      FreshWorldSound(w0);
      RunWorldSound(w0, before);
      hide Good;
    }
    hide Good;
    AuditIsExact(w0, before, between, week, s);
    EvidenceIsExact(w.tables, RunWorld(w, between).telemetry, week, s);
  }
}
