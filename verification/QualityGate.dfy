/** The coverage confirmation and the quality gate in front of the publication. */
module QualityGate {
  import opened Basics
  import opened WeeklyPerformance
  import OC = OperationalCoverage

  /** `_canonical_event` of an extracted row. */
  function CanonicalOf(r: RawRow): OC.CanonicalEvent
    requires r.time.Instant?
  {
    OC.CanonicalEvent(r.id, r.time.utc, r.service, r.eventType, r.tags)
  }

  predicate Readable(rows: seq<RawRow>) { forall r :: r in rows ==> r.time.Instant? }

  function CanonicalEvents(rows: seq<RawRow>): multiset<OC.CanonicalEvent>
    requires Readable(rows)
  {
    Bag(rows, CanonicalOf)
  }

  /** `apply_operational_coverage`: only a clean audit of exactly the extracted events confirms the coverage. */
  function ApplyOperationalCoverage(r: Result, audit: OC.Audit, extracted: seq<RawRow>): Result
    requires Readable(extracted)
  {
    if audit.diagnostics != {} || CanonicalEvents(extracted) != audit.audited then r
    else r.(coverageConfirmed := true)
  }

  /** The codes of `BLOCKING_QUALITY_CODES` that the transformation raises; the order codes are not among them. */
  predicate Blocking(code: IssueCode) {
    code.IntegerOverflow? || code.InvalidRowId? || code.ValidationFailed? || code.RowIdConflict?
  }

  /** `blocking_quality_issues(quality)` is empty. */
  predicate GateClear(r: Result) {
    && (forall i :: i in r.issues ==> !Blocking(i.code))
    && r.coverageConfirmed && r.conflicts == {} && r.pending == {}
  }

  /** No outbound event is contradicted by the evidence of its order. */
  predicate NoContradiction(events: set<Event>, orders: OrderEvidence) {
    forall e :: e in events && e.eventType.OutboundOrderCreated? ==> Judge(e, orders) != Contradicted
  }

  /** With confirmed coverage the gate is clear if and only if nothing that was prepared blocks, no counter
      overflows and no order is contradicted. Missing and unavailable evidence does not matter. */
  lemma GateIffNoContradiction(p: Prepared, orders: OrderEvidence)
    ensures GateClear(Composed(p, orders).(coverageConfirmed := true)) <==>
      && (forall i :: i in p.issues ==> !Blocking(i.code)) && p.conflicts == {} && p.pending == {}
      && Overflowing(Counted(p.events, orders)) == {} && NoContradiction(p.events, orders)
  {
    hide Overflowing, AggregateOf, Grains, Counter, EventIdsOf, Counted, Uncounted, Judge, OverflowIssues;
    var r := Composed(p, orders);
    var moved, uncounted := Overflowing(Counted(p.events, orders)), Uncounted(p.events, orders);
    OverflowBlocks(moved);
    ContradictedKeys(p.events, orders);
    assert forall e :: e in uncounted ==> !Blocking(OrderIssue(e, orders).code);
    assert p.issues <= r.issues && OverflowIssues(moved) <= r.issues;
  }

  lemma OverflowBlocks(moved: set<Event>)
    ensures moved == {} ==> OverflowIssues(moved) == {}
    ensures moved != {} ==> exists i :: i in OverflowIssues(moved) && Blocking(i.code)
    ensures forall i :: i in OverflowIssues(moved) ==> Blocking(i.code)
  {
    hide EventIdsOf;
    if moved != {} {
      var e :| e in moved;
      assert Issue(IntegerOverflow, EventIdsOf(set o | o in moved && o.eventType == e.eventType && GrainOf(o) == GrainOf(e)), None)
        in OverflowIssues(moved);
    }
  }

  lemma ContradictedKeys(events: set<Event>, orders: OrderEvidence)
    ensures (set e | e in Uncounted(events, orders) && Judge(e, orders) == Contradicted :: KeyOf(e)) == {} <==>
      NoContradiction(events, orders)
  {
    hide Judge;
    var keys := set e | e in Uncounted(events, orders) && Judge(e, orders) == Contradicted :: KeyOf(e);
    assert forall e :: e in Uncounted(events, orders) && Judge(e, orders) == Contradicted ==> KeyOf(e) in keys;
    assert forall e :: (e in Uncounted(events, orders) && Judge(e, orders) == Contradicted) <==>
      (e in events && e.eventType.OutboundOrderCreated? && Judge(e, orders) == Contradicted);
  }

  /** An order without evidence is refused, and the gate decides as if its event were not there. */
  lemma RefusedOrderPasses(e: Event, orders: OrderEvidence, p: Prepared)
    requires e in p.events && e.eventType.OutboundOrderCreated? && e.identity !in orders.records
    ensures e.rowId in Composed(p, orders).rejected
    ensures var without := p.(events := p.events - {e});
      && Composed(p, orders).aggregates == Composed(without, orders).aggregates
      && (GateClear(Composed(p, orders).(coverageConfirmed := true)) <==>
            GateClear(Composed(without, orders).(coverageConfirmed := true)))
  {
    hide Overflowing, AggregateOf, Grains, GateClear;
    var without := p.(events := p.events - {e});
    assert e in Uncounted(p.events, orders) && e.rowId in EventIdsOf(Uncounted(p.events, orders));
    assert Counted(without.events, orders) == Counted(p.events, orders);
    assert NoContradiction(without.events, orders) <==> NoContradiction(p.events, orders);
    GateIffNoContradiction(p, orders);
    GateIffNoContradiction(without, orders);
  }
}
