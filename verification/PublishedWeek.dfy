/** From operational rows to the published report: a clear gate yields a batch that may be published, and a
    reader of it sees the counts of the operational tables. */
module PublishedWeek {
  import opened Basics
  import opened Identifiers
  import opened Vocabulary
  import opened InventoryTables
  import opened WeeklyPerformance
  import opened Extraction
  import opened QualityGate
  import opened CoverageCompleteness
  import opened AuditedWeek
  import opened EndToEnd
  import opened WeeklyUpsert
  import OC = OperationalCoverage
  import P = PublicationProtocol
  import S = PublicationSafety
  import SW = SettledWeek

  /** One row for each warehouse and client that did anything in the week, with its direct counts. */
  ghost predicate RowsAreDirect(t: Tables, week: int, rows: Table) {
    && (forall g :: g in rows <==> g.week == week && Active(t, week, g.warehouse, g.clientId))
    && (forall g :: g in rows ==> rows[g] == KpiOf(DirectAggregate(t, week, g.warehouse, g.clientId)))
  }

  lemma OneAggregatePerKey(s: OC.Snapshot, x: Extraction, a: Aggregate, b: Aggregate)
    requires Readable(x.events) && a in Outcome(s, x).aggregates && b in Outcome(s, x).aggregates && a.key == b.key
    ensures a == b
  {
    hide OC.Clean, OC.Diagnose, PreparedFrom, Overflowing, Counted, Uncounted, Grains, CanonicalEvents,
      OC.CanonicalEvents, OC.OfficialRows, OrderIssue, OverflowIssues, EventIdsOf;
  }

  /** The batch of a clear gate carries the direct counts, whatever its order. */
  lemma BatchIsDirect(t: Tables, audited: map<string, TelemetryRow>, telemetry: map<string, TelemetryRow>, week: int,
                      s: OC.Snapshot, x: Extraction, batch: seq<Aggregate>)
    requires Inputs(t, audited, telemetry, week, s, x) && Readable(x.events) && GateClear(Outcome(s, x))
    requires Lists(batch, Outcome(s, x).aggregates)
    ensures DistinctKeys(batch) && RowsAreDirect(t, week, RowsOf(batch))
  {
    hide Inputs, Outcome, GateClear, Active, DirectAggregate, Readable, RowsOf;
    KpisEqualOperations(t, audited, telemetry, week, s, x);
    forall i, j | 0 <= i < j < |batch| ensures batch[i].key != batch[j].key {
      assert batch[i] in batch && batch[j] in batch;
      if batch[i].key == batch[j].key { OneAggregatePerKey(s, x, batch[i], batch[j]); }
    }
    forall a | a in batch ensures a.key in RowsOf(batch) && RowsOf(batch)[a.key] == KpiOf(a) { RowOf(batch, a); }
    forall g | g in RowsOf(batch)
      ensures g.week == week && Active(t, week, g.warehouse, g.clientId)
      ensures RowsOf(batch)[g] == KpiOf(DirectAggregate(t, week, g.warehouse, g.clientId))
    {
      var a :| a in batch && a.key == g;
    }
    forall g: AggregateKey | g.week == week && Active(t, week, g.warehouse, g.clientId) ensures g in RowsOf(batch) {
      DirectKey(t, week, g.warehouse, g.clientId);
    }
  }

  lemma DirectKey(t: Tables, week: int, w: string, c: string)
    ensures DirectAggregate(t, week, w, c).key == AggregateKey(w, c, week)
  {
  }

  // ----- the transformation never yields a row that validation refuses -----

  lemma ValidEventIsCanonical(rows: set<RawRow>, e: Event)
    requires e in ValidEvents(rows)
    ensures (e.warehouse == "los_angeles" || e.warehouse == "zaragoza") && !Blank(e.clientId)
  {
    hide ParseUuid, Consistent, ValidIdentity, ValidQuantity, ValidProduct, WeekStart, Blank;
    var r :| r in rows && ParseUuid(r.id).Some? && ValidateRow(r) == Some(e);
  }

  lemma FittingCounters(events: set<Event>, g: AggregateKey)
    requires Overflowing(events) == {}
    ensures CountersFit(AggregateOf(events, g))
  {
    hide Overflowing, Counter;
    SW.OverflowHasEvent(events, InboundUnits, g);
    SW.OverflowHasEvent(events, OutboundOrders, g);
    SW.OverflowHasEvent(events, StockoutEvents, g);
    SW.OverflowHasEvent(events, DiscrepancyEvents, g);
  }

  /** Every aggregate of any transformation may be published for its own week. */
  lemma AggregatesArePublishable(rows: seq<RawRow>, evidence: map<MoveKey, Evidence>, orders: OrderEvidence, a: Aggregate)
    requires a in Transformed(rows, evidence, orders).aggregates
    ensures Publishable(a.key.week, a)
    ensures exists e :: e in ValidEvents(SetOf(rows)) && GrainOf(e) == a.key
  {
    hide ValidEvents, Overflowing, Conflicting, Represents, Judge, CountersFit, Counter, RowIssues, ConflictIssues,
      OverflowIssues, BrokenIds, InvalidIds, InConflict, Repetitions, KeysOf, OrderIssue, RepeatedRows;
    var counted := Counted(Consolidated(ValidEvents(SetOf(rows)), evidence), orders);
    var g :| g in Grains(counted) && a == AggregateOf(counted, g);
    var e :| e in counted && GrainOf(e) == g;
    ValidEventIsCanonical(SetOf(rows), e);
    FittingCounters(counted, g);
  }

  /** A batch of a clear gate is refused only for a week that is not over or in which nothing happened. */
  lemma ClearBatchIsValid(t: Tables, audited: map<string, TelemetryRow>, telemetry: map<string, TelemetryRow>, week: int,
                          s: OC.Snapshot, x: Extraction, batch: seq<Aggregate>, now: int)
    requires Inputs(t, audited, telemetry, week, s, x) && Readable(x.events) && GateClear(Outcome(s, x))
    requires Lists(batch, Outcome(s, x).aggregates)
    ensures ValidBatch(week, batch, now) <==>
      now >= (week + 7) * DAY && exists w: string, c: string :: Active(t, week, w, c)
  {
    hide Inputs, Outcome, GateClear, Active, DirectAggregate, Readable, RowsOf, Publishable, Transformed, OC.Clean;
    ClearGateConfirms(s, x);
    InputsMonday(t, audited, telemetry, week, s, x);
    KpisEqualOperations(t, audited, telemetry, week, s, x);
    BatchIsDirect(t, audited, telemetry, week, s, x, batch);
    forall a | a in batch ensures Publishable(week, a) {
      AggregatesArePublishable(x.events, x.evidence, x.orders, a);
    }
    assert batch != [] <==> exists w: string, c: string :: Active(t, week, w, c) by {
      if batch != [] { assert batch[0] in batch; }
      if w: string, c: string :| Active(t, week, w, c) { assert DirectAggregate(t, week, w, c) in batch; }
    }
  }

  lemma InputsMonday(t: Tables, audited: map<string, TelemetryRow>, telemetry: map<string, TelemetryRow>, week: int,
                     s: OC.Snapshot, x: Extraction)
    requires Inputs(t, audited, telemetry, week, s, x)
    ensures IsMonday(week)
  {
    hide TableConstraints, SnapshotOf, IsExtraction;
  }

  // ----- what a reader sees -----

  /** If the last publication of the week took its batch from a clear gate, every report of the week, read
      over any interleaving of later steps, has exactly the direct counts of the operational tables. */
  lemma ReportIsOperations(t: Tables, audited: map<string, TelemetryRow>, telemetry: map<string, TelemetryRow>, week: int,
                           s: OC.Snapshot, x: Extraction, s0: P.State, before: seq<P.Step>, between: seq<P.Step>)
    requires Inputs(t, audited, telemetry, week, s, x) && Readable(x.events) && GateClear(Outcome(s, x))
    requires P.Initial(s0)
    requires var first := P.Play(s0, before); var last := P.LastCommit(P.Play(first, between).commits, week);
      P.LastCommit(first.commits, week).Some? && last.Some? && Lists(last.value.batch, Outcome(s, x).aggregates)
    ensures var first := P.Play(s0, before);
      var report := S.WeeklyReport(first, P.Play(first, between), week);
      report.Some? && RowsAreDirect(t, week, report.value)
  {
    hide Inputs, Outcome, GateClear, Readable, P.Play, P.LastCommit, RowsAreDirect, S.WeeklyReport, P.Initial;
    S.ReaderSeesWholeBatch(s0, before, between, week);
    var last := P.LastCommit(P.Play(P.Play(s0, before), between).commits, week);
    BatchIsDirect(t, audited, telemetry, week, s, x, last.value.batch);
  }
}
