/** The quality gate of a transformation, stated on its inputs. */
module GateMeaning {
  import opened Basics
  import opened Identifiers
  import opened Vocabulary
  import opened WeeklyPerformance
  import opened QualityGate
  import opened TransformMeaning
  import OC = OperationalCoverage

  /** The rows listed with their fields, as the audit reads them. */
  ghost predicate SameRows(rows: seq<RawRow>, audited: multiset<OC.CanonicalEvent>) {
    Readable(rows) && CanonicalEvents(rows) == audited
  }

  /** For all inputs the gate is clear if and only if the audit is silent and saw these rows, every id and every row
      is readable, no id carries two contents, no identity clashes or waits for its weeks, no kept order is disputed
      and every counter fits. An order without evidence does not close it. */
  lemma GateExact(rows: seq<RawRow>, evidence: map<MoveKey, Evidence>, orders: OrderEvidence, audit: OC.Audit)
    requires Readable(rows)
    ensures GateClear(ApplyOperationalCoverage(Transformed(rows, evidence, orders), audit, rows)) <==>
      && audit.diagnostics == {} && SameRows(rows, audit.audited)
      && (forall r :: r in rows ==> ParseUuid(r.id).Some?)
      && (forall r :: r in rows ==> exists e :: Reads(r, e))
      && (forall a, b :: a in rows && b in rows && ParseUuid(a.id) == ParseUuid(b.id) ==> SameContent(a, b))
      && (forall e :: Entered(rows, e) ==>
            && !Clash(rows, evidence, KeyOf(e)) && KeyOf(e) in evidence && evidence[KeyOf(e)].complete)
      && (forall e :: !Disputed(rows, evidence, orders, e))
      && (forall e :: Taken(rows, evidence, orders, e) ==> !Excess(rows, evidence, orders, e))
  {
    hide Reads, SameContent, Entered, Clash, Disputed, Taken, Excess, PreparedFrom, Counted, Uncounted, Overflowing,
      AggregateOf, OverflowIssues, CanonicalEvents, ParseUuid, Grains;
    var r := Transformed(rows, evidence, orders);
    assert GateClear(ApplyOperationalCoverage(r, audit, rows)) <==>
      && audit.diagnostics == {} && SameRows(rows, audit.audited)
      && (forall i :: i in r.issues ==> !Blocking(i.code)) && r.conflicts == {} && r.pending == {};
    BlockingExact(rows, evidence, orders);
    hide Transformed, ApplyOperationalCoverage;
    ConflictsExact(rows, evidence, orders);
    PendingExact(rows, evidence, orders);
    if forall r :: r in rows ==> ParseUuid(r.id).Some? { RowsReadable(rows); }
  }

  /** What blocks among the issues. */
  lemma BlockingExact(rows: seq<RawRow>, evidence: map<MoveKey, Evidence>, orders: OrderEvidence)
    ensures (forall i :: i in Transformed(rows, evidence, orders).issues ==> !Blocking(i.code)) <==>
      && (forall r :: r in rows ==> ParseUuid(r.id).Some?)
      && (forall id :: !IdClash(rows, id)) && (forall id :: !Invalid(rows, id))
      && (forall e :: Taken(rows, evidence, orders, e) ==> !Excess(rows, evidence, orders, e))
  {
    hide Transformed, Clash, Kept, Taken, Excess, IdClash, Invalid, Of, ParseUuid;
    var issues := Transformed(rows, evidence, orders).issues;
    forall i ensures i in issues <==> Reported(rows, evidence, orders, i) { IssueExact(rows, evidence, orders, i); }
    if r :| r in rows && ParseUuid(r.id).None? { assert Reported(rows, evidence, orders, Issue(InvalidRowId, {}, None)); }
    if id :| IdClash(rows, id) { assert Reported(rows, evidence, orders, Issue(RowIdConflict, {id}, None)); }
    if id :| Invalid(rows, id) { assert Reported(rows, evidence, orders, Issue(ValidationFailed, {id}, None)); }
    if e :| Taken(rows, evidence, orders, e) && Excess(rows, evidence, orders, e) {
      var i := ExcessIssue(rows, evidence, orders, e);
      assert i in issues;
    }
  }

  lemma ExcessIssue(rows: seq<RawRow>, evidence: map<MoveKey, Evidence>, orders: OrderEvidence, e: Event)
    returns (i: Issue)
    requires Taken(rows, evidence, orders, e) && Excess(rows, evidence, orders, e)
    ensures i.code.IntegerOverflow? && Reported(rows, evidence, orders, i)
  {
    hide Taken, Excess;
    var moved := Overflowing(CountedOf(rows, evidence, orders));
    i := Issue(IntegerOverflow, CounterIds(moved, e), None);
    SharedExcess(rows, evidence, orders, e);
  }

  lemma ConflictsExact(rows: seq<RawRow>, evidence: map<MoveKey, Evidence>, orders: OrderEvidence)
    ensures Transformed(rows, evidence, orders).conflicts == {} <==>
      (forall e :: Entered(rows, e) ==> !Clash(rows, evidence, KeyOf(e))) && forall e :: !Disputed(rows, evidence, orders, e)
  {
    hide Transformed, Clash, Entered, Disputed;
    var conflicts := Transformed(rows, evidence, orders).conflicts;
    forall e | Entered(rows, e) && Clash(rows, evidence, KeyOf(e)) ensures KeyOf(e) in conflicts {
      ConflictExact(rows, evidence, orders, KeyOf(e));
      assert Of(rows, e, KeyOf(e));
    }
    forall e | Disputed(rows, evidence, orders, e) ensures MoveKey(OutboundOrderCreated, e.identity) in conflicts {
      ConflictExact(rows, evidence, orders, MoveKey(OutboundOrderCreated, e.identity));
    }
    if k :| k in conflicts { ConflictExact(rows, evidence, orders, k); }
  }

  lemma PendingExact(rows: seq<RawRow>, evidence: map<MoveKey, Evidence>, orders: OrderEvidence)
    ensures Transformed(rows, evidence, orders).pending == {} <==>
      forall e :: Entered(rows, e) ==> KeyOf(e) in evidence && evidence[KeyOf(e)].complete
  {
    hide Transformed, Clash, Entered, Less;
    var pending := Transformed(rows, evidence, orders).pending;
    forall k ensures k in pending <==> (exists e :: Of(rows, e, k)) && (k in evidence ==> !evidence[k].complete) {
      RepetitionExact(rows, evidence, orders, "", k);
    }
    forall e ensures Of(rows, e, KeyOf(e)) <==> Entered(rows, e) {}
  }

  /** With every id readable and of one content, a row is readable exactly when its id is not invalid. */
  lemma RowsReadable(rows: seq<RawRow>)
    requires forall r :: r in rows ==> ParseUuid(r.id).Some?
    ensures (forall id :: !IdClash(rows, id)) <==>
      forall a, b :: a in rows && b in rows && ParseUuid(a.id) == ParseUuid(b.id) ==> SameContent(a, b)
    ensures (forall id :: !IdClash(rows, id)) ==>
      ((forall id :: !Invalid(rows, id)) <==> forall r :: r in rows ==> exists e :: Reads(r, e))
  {
    hide ParseUuid, SameContent, Reads;
    if forall id :: !IdClash(rows, id) {
      forall a, b | a in rows && b in rows && ParseUuid(a.id) == ParseUuid(b.id) ensures SameContent(a, b) {
        assert !IdClash(rows, ParseUuid(a.id).value);
      }
      forall r | r in rows && forall e :: !Reads(r, e) ensures Invalid(rows, ParseUuid(r.id).value) {}
    }
  }
}
