/** What each part of the transformation's result means, stated on rows, tags and evidence alone. */
module TransformMeaning {
  import opened Basics
  import opened Identifiers
  import opened Vocabulary
  import opened WeeklyPerformance
  import AW = AuditedWeek

  // ----- one row -----

  predicate TextTag(tags: Tags, name: TagName, text: string) { name in tags && tags[name] == JStr(text) }

  predicate Written(text: string) { exists c :: c in text && !IsSpace(c) }

  predicate AtLeast(tags: Tags, least: int) { Quantity in tags && tags[Quantity].JInt? && tags[Quantity].number >= least }

  predicate VersionFour(text: string) {
    ParseUuid(text).Some? && var u := ParseUuid(text).value; IsUuid(u) && u[14] == '4' && u[19] in "89ab"
  }

  /** The identity of an event of this type, with a quantity that its type admits. */
  predicate Identified(t: EventType, tags: Tags, identity: string) {
    match t
    case InboundOrderCreated => TextTag(tags, MovementId, identity) && Written(identity) && AtLeast(tags, 1)
    case OutboundOrderCreated => TextTag(tags, OrderId, identity) && VersionFour(identity)
    case StockThresholdTriggered => TextTag(tags, MovementId, identity) && Written(identity) && AtLeast(tags, 0)
    case InventoryDiscrepancyDetected => TextTag(tags, CountId, identity) && VersionFour(identity) && AtLeast(tags, 1)
    case OtherEvent(_) => false
  }

  predicate ProductNamed(tags: Tags) {
    ProductId in tags ==>
      tags[ProductId] == JNull || tags[ProductId].JInt? || (tags[ProductId].JStr? && Written(tags[ProductId].text))
  }

  /** The row is readable, and this is what it says. */
  ghost predicate Reads(r: RawRow, e: Event) {
    && ParseUuid(r.id) == Some(e.rowId) && r.service == "api" && r.eventType == e.eventType
    && r.time == Instant(e.time) && r.tags == TagObject(e.tags)
    && e.week % 7 == 4 && e.week * 86_400_000_000 <= e.time < (e.week + 7) * 86_400_000_000
    && Warehouse in e.tags && e.tags[Warehouse].JStr? && AW.At(e.tags[Warehouse].text, e.warehouse)
    && TextTag(e.tags, ClientId, e.clientId) && Written(e.clientId)
    && Identified(e.eventType, e.tags, e.identity) && ProductNamed(e.tags)
  }

  lemma IdentityExact(t: EventType, tags: Tags, identity: string)
    ensures Identified(t, tags, identity) <==>
      && !t.OtherEvent? && Tag(tags, IdentityTag(t)) == JStr(identity) && ValidIdentity(t, JStr(identity))
      && ValidQuantity(t, Tag(tags, Quantity))
  {
    if ParseUuid(identity).Some? { ParsedIsCanonical(identity); }
  }

  /** Validation accepts exactly the readable rows, and returns what they say. */
  lemma RowExact(r: RawRow, e: Event)
    ensures ValidateRow(r) == Some(e) <==> Reads(r, e)
  {
    hide ParseUuid, CanonicalWarehouse, AW.At, WeekStart, Identified, ValidQuantity, IdentityTag, ValidProduct,
      ProductNamed;
    IdentityExact(e.eventType, e.tags, e.identity);
    WeekExact(e.time, e.week);
    ProductExact(e.tags);
    var place, client := Tag(e.tags, Warehouse), Tag(e.tags, ClientId);
    if place.JStr? { AW.CanonicalIsAt(place.text, e.warehouse); }
    assert client.JStr? ==> (Blank(client.text) <==> !Written(client.text));
    hide Blank, Written;
  }

  lemma WeekExact(time: int, week: int)
    ensures WeekStart(time) == week <==>
      week % 7 == 4 && week * 86_400_000_000 <= time < (week + 7) * 86_400_000_000
  {
    WeekStartExact(time);
    if IsMonday(week) { WeekBoundsExact(time, week); }
  }

  lemma ProductExact(tags: Tags)
    ensures ValidProduct(Tag(tags, ProductId)) <==> ProductNamed(tags)
  {
  }

  // ----- the rows of one id -----

  predicate SameContent(a: RawRow, b: RawRow) {
    a.time == b.time && a.eventType == b.eventType && a.service == b.service && a.tags == b.tags
  }

  /** A readable row whose id carries one content only. */
  ghost predicate Entered(rows: seq<RawRow>, e: Event) {
    exists r :: r in rows && Reads(r, e) && forall o :: o in rows && ParseUuid(o.id) == Some(e.rowId) ==> SameContent(r, o)
  }

  lemma OneContent(rows: seq<RawRow>, r: RawRow, id: string)
    requires r in rows && ParseUuid(r.id) == Some(id)
    ensures Consistent(SetOf(rows), id) <==> forall o :: o in rows && ParseUuid(o.id) == Some(id) ==> SameContent(r, o)
  {
    hide ParseUuid;
    var found := RowsWith(SetOf(rows), id);
    assert forall o :: o in found <==> o in rows && ParseUuid(o.id) == Some(id);
    if Consistent(SetOf(rows), id) {
      forall o | o in rows && ParseUuid(o.id) == Some(id) ensures SameContent(r, o) { assert o in found && r in found; }
    }
  }

  lemma EnteredExact(rows: seq<RawRow>, e: Event)
    ensures e in ValidEvents(SetOf(rows)) <==> Entered(rows, e)
  {
    hide ValidateRow, Consistent, SameContent;
    if e in ValidEvents(SetOf(rows)) {
      var r :| r in SetOf(rows) && ParseUuid(r.id).Some? && Consistent(SetOf(rows), ParseUuid(r.id).value)
        && ValidateRow(r).Some? && ValidateRow(r).value == e;
      RowExact(r, e);
      OneContent(rows, r, e.rowId);
    }
    if Entered(rows, e) {
      var r :| r in rows && Reads(r, e)
        && forall o :: o in rows && ParseUuid(o.id) == Some(e.rowId) ==> SameContent(r, o);
      RowExact(r, e);
      OneContent(rows, r, e.rowId);
      assert r in SetOf(rows);
    }
  }

  // ----- the events of one identity -----

  ghost predicate Of(rows: seq<RawRow>, e: Event, k: MoveKey) {
    Entered(rows, e) && e.eventType == k.eventType && e.identity == k.identity
  }

  predicate Differ(a: Event, b: Event) {
    a.warehouse != b.warehouse || a.clientId != b.clientId || a.tags != b.tags || a.week != b.week
  }

  /** Two events of the identity differ, or the complete evidence names other weeks than theirs, or several. */
  ghost predicate Clash(rows: seq<RawRow>, evidence: map<MoveKey, Evidence>, k: MoveKey) {
    || (exists a, b :: Of(rows, a, k) && Of(rows, b, k) && Differ(a, b))
    || (k in evidence && evidence[k].complete && Elsewhere(rows, evidence[k].weeks, k))
  }

  ghost predicate Elsewhere(rows: seq<RawRow>, weeks: set<int>, k: MoveKey) {
    || (exists a :: Of(rows, a, k) && a.week !in weeks)
    || (exists w :: w in weeks && forall a :: Of(rows, a, k) ==> a.week != w)
    || (exists v, w :: v in weeks && w in weeks && v != w)
  }

  lemma Several(weeks: set<int>)
    ensures |weeks| > 1 <==> exists v, w :: v in weeks && w in weeks && v != w
  {
    if |weeks| > 1 {
      var v := Witness(weeks);
      assert |weeks - {v}| == |weeks| - 1;
      var w := Witness(weeks - {v});
      assert v in weeks && w in weeks && v != w;
    }
    if v, w :| v in weeks && w in weeks && v != w { assert |weeks - {v} - {w}| == |weeks| - 2; }
  }

  lemma ElsewhereExact(rows: seq<RawRow>, weeks: set<int>, k: MoveKey)
    ensures Elsewhere(rows, weeks, k) <==> |weeks| > 1 || weeks != Weeks(Group(ValidEvents(SetOf(rows)), k))
  {
    hide Of, Weeks;
    var observed := Weeks(Group(ValidEvents(SetOf(rows)), k));
    Several(weeks);
    forall w ensures w in observed <==> exists a :: Of(rows, a, k) && a.week == w { ObservedExact(rows, k, w); }
    if Elsewhere(rows, weeks, k) && weeks == observed {
      assert !exists a :: Of(rows, a, k) && a.week !in weeks;
      assert !exists w :: w in weeks && forall a :: Of(rows, a, k) ==> a.week != w;
    }
    if forall w :: w in weeks <==> w in observed { assert weeks == observed; }
  }

  lemma ObservedExact(rows: seq<RawRow>, k: MoveKey, w: int)
    ensures w in Weeks(Group(ValidEvents(SetOf(rows)), k)) <==> exists a :: Of(rows, a, k) && a.week == w
  {
    hide Entered, ValidEvents, SetOf;
    var group := Group(ValidEvents(SetOf(rows)), k);
    forall e ensures e in group <==> Of(rows, e, k) { EnteredExact(rows, e); }
    if a :| Of(rows, a, k) && a.week == w { assert a in group; }
  }

  lemma ClashExact(rows: seq<RawRow>, evidence: map<MoveKey, Evidence>, k: MoveKey)
    ensures Clash(rows, evidence, k) <==> Conflicting(ValidEvents(SetOf(rows)), evidence, k)
  {
    hide Entered, ValidEvents, SetOf, Elsewhere, Weeks, Group;
    if k in evidence { ElsewhereExact(rows, evidence[k].weeks, k); }
    forall e ensures e in ValidEvents(SetOf(rows)) <==> Entered(rows, e) { EnteredExact(rows, e); }
    forall a, b ensures Differ(a, b) <==> !SameSignature(a, b) {}
    hide SameSignature, Differ;
    if a, b :| Of(rows, a, k) && Of(rows, b, k) && Differ(a, b) {
      assert KeyOf(a) == k && KeyOf(b) == k;
    }
  }

  /** The event with the least row id of an identity without a clash. */
  ghost predicate Kept(rows: seq<RawRow>, evidence: map<MoveKey, Evidence>, e: Event) {
    && Entered(rows, e) && !Clash(rows, evidence, MoveKey(e.eventType, e.identity))
    && forall o :: Of(rows, o, MoveKey(e.eventType, e.identity)) && o != e ==> Less(e.rowId, o.rowId)
  }

  lemma KeptExact(rows: seq<RawRow>, evidence: map<MoveKey, Evidence>, e: Event)
    ensures Kept(rows, evidence, e) <==> e in Consolidated(ValidEvents(SetOf(rows)), evidence)
  {
    hide Entered, ValidEvents, SetOf, Clash, Conflicting, Less;
    ClashExact(rows, evidence, KeyOf(e));
    forall o ensures o in ValidEvents(SetOf(rows)) <==> Entered(rows, o) { EnteredExact(rows, o); }
    forall o ensures Of(rows, o, KeyOf(e)) <==> o in ValidEvents(SetOf(rows)) && KeyOf(o) == KeyOf(e) {}
  }

  // ----- orders -----

  /** The records hold this order, for the event's site and client, with a dispatch. */
  predicate Backed(e: Event, orders: OrderEvidence) {
    && e.identity in orders.records
    && var record := orders.records[e.identity];
       record.orderId == e.identity && AW.At(record.warehouse, e.warehouse) && record.clientId == e.clientId
       && record.dispatchCount >= 1
  }

  ghost predicate Taken(rows: seq<RawRow>, evidence: map<MoveKey, Evidence>, orders: OrderEvidence, e: Event) {
    Kept(rows, evidence, e) && (e.eventType.OutboundOrderCreated? ==> Backed(e, orders))
  }

  lemma JudgeExact(e: Event, orders: OrderEvidence)
    ensures Judge(e, orders) ==
      if Backed(e, orders) then Verified
      else if e.identity in orders.records then Contradicted
      else if orders.complete then Missing else Unavailable
  {
    hide CanonicalWarehouse, AW.At;
    if e.identity in orders.records { AW.CanonicalIsAt(orders.records[e.identity].warehouse, e.warehouse); }
  }

  ghost function CountedOf(rows: seq<RawRow>, evidence: map<MoveKey, Evidence>, orders: OrderEvidence): set<Event> {
    Counted(Consolidated(ValidEvents(SetOf(rows)), evidence), orders)
  }

  lemma TakenExact(rows: seq<RawRow>, evidence: map<MoveKey, Evidence>, orders: OrderEvidence, e: Event)
    ensures Taken(rows, evidence, orders, e) <==> e in CountedOf(rows, evidence, orders)
  {
    hide Kept, Consolidated, Judge, Backed;
    KeptExact(rows, evidence, e);
    JudgeExact(e, orders);
  }

  // ----- counters -----

  /** The quantity of an inbound event; one for every other event. */
  function Units(e: Event): int {
    if e.eventType.InboundOrderCreated? then (if AtLeast(e.tags, 1) then e.tags[Quantity].number else 0) else 1
  }

  ghost function Tallied(rows: seq<RawRow>, evidence: map<MoveKey, Evidence>, orders: OrderEvidence, t: EventType,
                         g: AggregateKey): set<Event> {
    set e | e in ValidEvents(SetOf(rows)) && Taken(rows, evidence, orders, e) && e.eventType == t
            && e.warehouse == g.warehouse && e.clientId == g.clientId && e.week == g.week
  }

  ghost function Tally(rows: seq<RawRow>, evidence: map<MoveKey, Evidence>, orders: OrderEvidence, t: EventType,
                       g: AggregateKey): int {
    Sum(Tallied(rows, evidence, orders, t, g), Units)
  }

  lemma TakenWeighs(rows: seq<RawRow>, evidence: map<MoveKey, Evidence>, orders: OrderEvidence, e: Event)
    requires Taken(rows, evidence, orders, e)
    ensures Weight(e) == Units(e) && Units(e) >= 1 && !e.eventType.OtherEvent?
  {
    var r :| r in rows && Reads(r, e);
  }

  lemma TallyExact(rows: seq<RawRow>, evidence: map<MoveKey, Evidence>, orders: OrderEvidence, m: Metric, g: AggregateKey)
    ensures Counter(CountedOf(rows, evidence, orders), m, g) == Tally(rows, evidence, orders, TypeOf(m), g)
    ensures Tally(rows, evidence, orders, TypeOf(m), g) >= 0
  {
    hide Taken, CountedOf, Weight, Units, ValidEvents, SetOf, TypeOf;
    forall e ensures Taken(rows, evidence, orders, e) <==> e in CountedOf(rows, evidence, orders) {
      TakenExact(rows, evidence, orders, e);
    }
    forall e | Taken(rows, evidence, orders, e) ensures e in ValidEvents(SetOf(rows)) { TakenIsValid(rows, evidence, orders, e); }
    var share := Share(CountedOf(rows, evidence, orders), m, g);
    assert share == Tallied(rows, evidence, orders, TypeOf(m), g);
    forall e | e in share ensures Weight(e) == Units(e) && Units(e) >= 0 { TakenWeighs(rows, evidence, orders, e); }
    SumAgree(share, Weight, Units);
    SumNonNegative(share, Units);
  }

  lemma TakenIsValid(rows: seq<RawRow>, evidence: map<MoveKey, Evidence>, orders: OrderEvidence, e: Event)
    requires Taken(rows, evidence, orders, e)
    ensures e in ValidEvents(SetOf(rows))
  {
    hide Entered, ValidEvents;
    EnteredExact(rows, e);
  }

  /** The counter that this event is part of does not fit a PostgreSQL integer. */
  ghost predicate Excess(rows: seq<RawRow>, evidence: map<MoveKey, Evidence>, orders: OrderEvidence, e: Event) {
    Tally(rows, evidence, orders, e.eventType, AggregateKey(e.warehouse, e.clientId, e.week)) > 2_147_483_647
  }

  function MetricOf(t: EventType): Metric
    requires !t.OtherEvent?
  {
    match t
    case InboundOrderCreated => InboundUnits
    case OutboundOrderCreated => OutboundOrders
    case StockThresholdTriggered => StockoutEvents
    case InventoryDiscrepancyDetected => DiscrepancyEvents
  }

  lemma MetricExact(t: EventType, m: Metric)
    requires !t.OtherEvent?
    ensures t == TypeOf(m) <==> m == MetricOf(t)
  {
  }

  lemma ExcessExact(rows: seq<RawRow>, evidence: map<MoveKey, Evidence>, orders: OrderEvidence, e: Event)
    ensures e in Overflowing(CountedOf(rows, evidence, orders)) <==>
      Taken(rows, evidence, orders, e) && Excess(rows, evidence, orders, e)
  {
    hide Taken, CountedOf, Counter, Tally, TypeOf;
    var counted := CountedOf(rows, evidence, orders);
    TakenExact(rows, evidence, orders, e);
    if e in counted {
      TakenWeighs(rows, evidence, orders, e);
      var m := MetricOf(e.eventType);
      forall n: Metric ensures e.eventType == TypeOf(n) <==> n == m { MetricExact(e.eventType, n); }
      TallyExact(rows, evidence, orders, m, GrainOf(e));
      assert e in Overflowing(counted) <==> Overflows(Counter(counted, m, GrainOf(e)));
    }
  }

  // ----- the result -----

  /** An id is accepted when it is the row of an event that counts, in a counter that fits. */
  lemma AcceptedExact(rows: seq<RawRow>, evidence: map<MoveKey, Evidence>, orders: OrderEvidence, id: string)
    ensures id in Transformed(rows, evidence, orders).accepted <==>
      exists e :: Taken(rows, evidence, orders, e) && e.rowId == id && !Excess(rows, evidence, orders, e)
  {
    hide Taken, Excess, Consolidated, Counted, Overflowing, AggregateOf, Grains, Uncounted, OverflowIssues, RowIssues,
      ConflictIssues, BrokenIds, InvalidIds, InConflict, Repetitions, OrderIssue, Judge, RepeatedRows, ValidEvents, SetOf;
    var counted := CountedOf(rows, evidence, orders);
    forall e ensures e in counted <==> Taken(rows, evidence, orders, e) { TakenExact(rows, evidence, orders, e); }
    forall e ensures e in Overflowing(counted) <==>
      Taken(rows, evidence, orders, e) && Excess(rows, evidence, orders, e) { ExcessExact(rows, evidence, orders, e); }
    ValidIdsUnique(SetOf(rows));
    CountedIsValid(ValidEvents(SetOf(rows)), evidence, orders);
    AcceptedIds(counted, Overflowing(counted), id);
  }

  lemma AcceptedIds(counted: set<Event>, moved: set<Event>, id: string)
    requires IdsUnique(counted) && moved <= counted
    ensures id in EventIdsOf(counted) - EventIdsOf(moved) <==> exists e :: e in counted && e.rowId == id && e !in moved
  {
    if e :| e in counted && e.rowId == id && e !in moved {
      assert id in EventIdsOf(counted);
    }
  }

  /** The fields of an aggregate of this grain. */
  ghost predicate CountsOf(rows: seq<RawRow>, evidence: map<MoveKey, Evidence>, orders: OrderEvidence, a: Aggregate) {
    && a.inbound == Tally(rows, evidence, orders, InboundOrderCreated, a.key)
    && a.outbound == Tally(rows, evidence, orders, OutboundOrderCreated, a.key)
    && a.stockouts == Tally(rows, evidence, orders, StockThresholdTriggered, a.key)
    && a.discrepancies == Tally(rows, evidence, orders, InventoryDiscrepancyDetected, a.key)
    && a.rate == if a.outbound == 0 then 0.0 else a.discrepancies as real / a.outbound as real
  }

  lemma AggregateCounts(rows: seq<RawRow>, evidence: map<MoveKey, Evidence>, orders: OrderEvidence, a: Aggregate)
    ensures a == AggregateOf(CountedOf(rows, evidence, orders), a.key) <==> CountsOf(rows, evidence, orders, a)
  {
    hide CountedOf, Counter, Tally;
    TallyExact(rows, evidence, orders, InboundUnits, a.key);
    TallyExact(rows, evidence, orders, OutboundOrders, a.key);
    TallyExact(rows, evidence, orders, StockoutEvents, a.key);
    TallyExact(rows, evidence, orders, DiscrepancyEvents, a.key);
  }

  /** There is one aggregate for each grain of an event that counts, with its four tallies and their rate; and
      none at all when one counter does not fit. */
  lemma AggregateExact(rows: seq<RawRow>, evidence: map<MoveKey, Evidence>, orders: OrderEvidence, a: Aggregate)
    ensures a in Transformed(rows, evidence, orders).aggregates <==>
      && (forall e :: Taken(rows, evidence, orders, e) ==> !Excess(rows, evidence, orders, e))
      && (exists e :: Taken(rows, evidence, orders, e) && a.key == AggregateKey(e.warehouse, e.clientId, e.week))
      && CountsOf(rows, evidence, orders, a)
  {
    hide Taken, Excess, Consolidated, Counted, Overflowing, AggregateOf, Uncounted, OverflowIssues, RowIssues, CountsOf,
      ConflictIssues, BrokenIds, InvalidIds, InConflict, Repetitions, OrderIssue, Judge, RepeatedRows, ValidEvents, SetOf;
    var counted := CountedOf(rows, evidence, orders);
    forall e ensures e in counted <==> Taken(rows, evidence, orders, e) { TakenExact(rows, evidence, orders, e); }
    forall e ensures e in Overflowing(counted) <==>
      Taken(rows, evidence, orders, e) && Excess(rows, evidence, orders, e) { ExcessExact(rows, evidence, orders, e); }
    AggregateCounts(rows, evidence, orders, a);
    AggregateKeyed(counted, a);
    assert Overflowing(counted) == {} <==> forall e :: Taken(rows, evidence, orders, e) ==> !Excess(rows, evidence, orders, e);
  }

  lemma AggregateKeyed(counted: set<Event>, a: Aggregate)
    ensures a in (set key | key in Grains(counted) :: AggregateOf(counted, key)) <==>
      a == AggregateOf(counted, a.key) && exists e :: e in counted && a.key == AggregateKey(e.warehouse, e.clientId, e.week)
  {
    hide Counter;
    if e :| e in counted && a.key == AggregateKey(e.warehouse, e.clientId, e.week) { assert GrainOf(e) in Grains(counted); }
  }

  /** A key is in conflict when its events clash, or when the record of its order contradicts the kept event. */
  lemma ConflictExact(rows: seq<RawRow>, evidence: map<MoveKey, Evidence>, orders: OrderEvidence, k: MoveKey)
    ensures k in Transformed(rows, evidence, orders).conflicts <==>
      || (Clash(rows, evidence, k) && exists e :: Of(rows, e, k))
      || (exists e :: Disputed(rows, evidence, orders, e) && k == MoveKey(OutboundOrderCreated, e.identity))
  {
    hide Entered, Kept, Clash, Conflicting, Consolidated, Counted, Overflowing, AggregateOf, Grains, OverflowIssues, RowIssues,
      ConflictIssues, BrokenIds, InvalidIds, Repetitions, OrderIssue, Judge, RepeatedRows, ValidEvents, SetOf, Backed;
    var events := ValidEvents(SetOf(rows));
    var kept := Consolidated(events, evidence);
    ClashExact(rows, evidence, k);
    forall e ensures e in events <==> Entered(rows, e) { EnteredExact(rows, e); }
    forall e ensures e in kept <==> Kept(rows, evidence, e) { KeptExact(rows, evidence, e); }
    forall e ensures e in Uncounted(kept, orders) && Judge(e, orders) == Contradicted <==> Disputed(rows, evidence, orders, e) {
      JudgeExact(e, orders);
    }
    ClashingKeys(events, evidence, k);
    hide Uncounted, InConflict, KeysOf, Disputed;
    assert (exists e :: Of(rows, e, k)) <==> exists e :: e in events && KeyOf(e) == k by {
      if e :| e in events && KeyOf(e) == k { assert Of(rows, e, k); }
      if e :| Of(rows, e, k) { assert e in events && KeyOf(e) == k; }
    }
    hide Of, Clash;
    if e :| Disputed(rows, evidence, orders, e) && k == MoveKey(OutboundOrderCreated, e.identity) { assert k == KeyOf(e); }
  }

  lemma ClashingKeys(events: set<Event>, evidence: map<MoveKey, Evidence>, k: MoveKey)
    ensures k in KeysOf(InConflict(events, evidence)) <==>
      Conflicting(events, evidence, k) && exists e :: e in events && KeyOf(e) == k
  {
    hide Conflicting;
    if e :| e in events && KeyOf(e) == k && Conflicting(events, evidence, k) { assert e in InConflict(events, evidence); }
  }

  /** A kept outbound event whose order has a record that says something else. */
  ghost predicate Disputed(rows: seq<RawRow>, evidence: map<MoveKey, Evidence>, orders: OrderEvidence, e: Event) {
    Kept(rows, evidence, e) && e.eventType.OutboundOrderCreated? && e.identity in orders.records && !Backed(e, orders)
  }

  /** The ids that repeat, the identities that repeat, and those that wait for their weeks. */
  lemma RepetitionExact(rows: seq<RawRow>, evidence: map<MoveKey, Evidence>, orders: OrderEvidence, id: string, k: MoveKey)
    ensures var r := Transformed(rows, evidence, orders);
      && (id in r.repeatedIds <==>
            exists e, o :: (Entered(rows, e) && e.rowId == id && Of(rows, o, KeyOf(e)) && Less(o.rowId, id)
                            && !Clash(rows, evidence, KeyOf(e))))
      && (k in r.repeatedKeys <==>
            !Clash(rows, evidence, k) && exists e, o :: Of(rows, e, k) && Of(rows, o, k) && Less(o.rowId, e.rowId))
      && (k in r.pending <==> (exists e :: Of(rows, e, k)) && (k in evidence ==> !evidence[k].complete))
  {
    hide Of, Entered, Clash, PreparedFrom, RepeatedRows, ValidEvents, SetOf, Less, Unverified, Repetitions;
    var events := ValidEvents(SetOf(rows));
    PreparedKeys(rows, evidence);
    hide KeysOf;
    KeyExact(rows, k);
    AgainKey(rows, evidence, k);
    AgainId(rows, evidence, id);
  }

  lemma PreparedKeys(rows: seq<RawRow>, evidence: map<MoveKey, Evidence>)
    ensures var events := ValidEvents(SetOf(rows));
      var p := PreparedFrom(SetOf(rows), evidence, RepeatedRows(rows));
      && p.repeatedKeys == KeysOf(Repetitions(events, evidence))
      && p.repeatedIds == EventIdsOf(Repetitions(events, evidence))
      && forall k :: k in p.pending <==> k in KeysOf(events) && (k in evidence ==> !evidence[k].complete)
  {
  }

  ghost predicate Again(rows: seq<RawRow>, evidence: map<MoveKey, Evidence>, e: Event) {
    Entered(rows, e) && !Clash(rows, evidence, KeyOf(e)) && exists o :: Of(rows, o, KeyOf(e)) && Less(o.rowId, e.rowId)
  }

  lemma OfExact(rows: seq<RawRow>, e: Event, k: MoveKey)
    ensures e in ValidEvents(SetOf(rows)) && KeyOf(e) == k <==> Of(rows, e, k)
  {
    hide Entered, ValidEvents, SetOf;
    EnteredExact(rows, e);
  }

  lemma KeyExact(rows: seq<RawRow>, k: MoveKey)
    ensures k in KeysOf(ValidEvents(SetOf(rows))) <==> exists e :: Of(rows, e, k)
  {
    hide Of, ValidEvents, SetOf;
    forall e ensures e in ValidEvents(SetOf(rows)) && KeyOf(e) == k <==> Of(rows, e, k) { OfExact(rows, e, k); }
  }

  lemma AgainExact(rows: seq<RawRow>, evidence: map<MoveKey, Evidence>, e: Event)
    ensures e in Repetitions(ValidEvents(SetOf(rows)), evidence) <==> Again(rows, evidence, e)
  {
    hide Of, Entered, ValidEvents, SetOf, Clash, Conflicting, Represents, Less;
    var events := ValidEvents(SetOf(rows));
    ValidIdsUnique(SetOf(rows));
    ClashExact(rows, evidence, KeyOf(e));
    EnteredExact(rows, e);
    forall o ensures o in events && KeyOf(o) == KeyOf(e) <==> Of(rows, o, KeyOf(e)) { OfExact(rows, o, KeyOf(e)); }
    if e in events { LaterExact(events, e); }
  }

  lemma AgainKey(rows: seq<RawRow>, evidence: map<MoveKey, Evidence>, k: MoveKey)
    ensures k in KeysOf(Repetitions(ValidEvents(SetOf(rows)), evidence)) <==>
      !Clash(rows, evidence, k) && exists e, o :: Of(rows, e, k) && Of(rows, o, k) && Less(o.rowId, e.rowId)
  {
    hide Entered, ValidEvents, SetOf, Clash, Less, Repetitions;
    forall e ensures e in Repetitions(ValidEvents(SetOf(rows)), evidence) <==> Again(rows, evidence, e) {
      AgainExact(rows, evidence, e);
    }
    if e, o :| Of(rows, e, k) && Of(rows, o, k) && Less(o.rowId, e.rowId) { assert KeyOf(e) == k; }
  }

  lemma AgainId(rows: seq<RawRow>, evidence: map<MoveKey, Evidence>, id: string)
    ensures id in EventIdsOf(Repetitions(ValidEvents(SetOf(rows)), evidence)) <==>
      exists e, o :: (Entered(rows, e) && e.rowId == id && Of(rows, o, KeyOf(e)) && Less(o.rowId, id)
                      && !Clash(rows, evidence, KeyOf(e)))
  {
    hide Of, Entered, ValidEvents, SetOf, Clash, Less, Repetitions;
    forall e ensures e in Repetitions(ValidEvents(SetOf(rows)), evidence) <==> Again(rows, evidence, e) {
      AgainExact(rows, evidence, e);
    }
    if e, o :| Entered(rows, e) && e.rowId == id && Of(rows, o, KeyOf(e)) && Less(o.rowId, id) && !Clash(rows, evidence, KeyOf(e)) {
      assert Again(rows, evidence, e);
    }
  }

  lemma LaterExact(events: set<Event>, e: Event)
    requires e in events && IdsUnique(events)
    ensures !Represents(events, e) <==> exists o :: o in events && KeyOf(o) == KeyOf(e) && Less(o.rowId, e.rowId)
  {
    hide Less;
    forall o | o in events ensures Less(o.rowId, e.rowId) <==> o != e && !Less(e.rowId, o.rowId) {
      LessTotal(o.rowId, e.rowId);
    }
  }

  /** An id of one content repeats when two positions hold it. */
  lemma RepeatedRowExact(rows: seq<RawRow>, evidence: map<MoveKey, Evidence>, orders: OrderEvidence, id: string)
    ensures id in Transformed(rows, evidence, orders).repeatedRows <==>
      && !IdClash(rows, id)
      && exists i, j :: 0 <= i < j < |rows| && ParseUuid(rows[i].id) == Some(id) && ParseUuid(rows[j].id) == Some(id)
  {
    hide ParseUuid, Consistent, RowsById, PreparedFrom, IdClash;
    TwiceExact(rows, id);
    IdClashExact(rows, id);
    if i: nat :| i < |rows| && ParseUuid(rows[i].id) == Some(id) { assert rows[i] in SetOf(rows) && id in Ids(SetOf(rows)); }
    assert Transformed(rows, evidence, orders).repeatedRows == RepeatedRows(rows) by { PreparedRepeats(rows, evidence); }
  }

  lemma PreparedRepeats(rows: seq<RawRow>, evidence: map<MoveKey, Evidence>)
    ensures PreparedFrom(SetOf(rows), evidence, RepeatedRows(rows)).repeatedRows == RepeatedRows(rows)
  {
  }

  lemma {:induction false} TwiceExact(rows: seq<RawRow>, id: string)
    ensures RowsById(rows, id) != [] <==> exists i :: 0 <= i < |rows| && ParseUuid(rows[i].id) == Some(id)
    ensures |RowsById(rows, id)| > 1 <==>
      exists i, j :: 0 <= i < j < |rows| && ParseUuid(rows[i].id) == Some(id) && ParseUuid(rows[j].id) == Some(id)
  {
    hide ParseUuid;
    if rows != [] {
      var n := |rows| - 1;
      var rest := rows[..n];
      TwiceExact(rest, id);
      assert forall i :: 0 <= i < n ==> rest[i] == rows[i];
      if ParseUuid(rows[n].id) == Some(id) && RowsById(rest, id) != [] {
        var i :| 0 <= i < n && ParseUuid(rest[i].id) == Some(id);
        assert 0 <= i < n < |rows| && ParseUuid(rows[i].id) == Some(id);
      }
    }
  }

  // ----- issues -----

  ghost predicate IdClash(rows: seq<RawRow>, id: string) {
    exists a, b :: a in rows && b in rows && ParseUuid(a.id) == Some(id) && ParseUuid(b.id) == Some(id) && !SameContent(a, b)
  }

  ghost predicate Invalid(rows: seq<RawRow>, id: string) {
    !IdClash(rows, id) && exists r :: r in rows && ParseUuid(r.id) == Some(id) && forall e :: !Reads(r, e)
  }

  ghost predicate Outgoing(rows: seq<RawRow>, evidence: map<MoveKey, Evidence>, i: Issue, e: Event) {
    && Kept(rows, evidence, e) && e.eventType.OutboundOrderCreated?
    && i.eventIds == {e.rowId} && i.key == Some(MoveKey(OutboundOrderCreated, e.identity))
  }

  predicate SameCounter(a: Event, b: Event) {
    a.eventType == b.eventType && a.warehouse == b.warehouse && a.clientId == b.clientId && a.week == b.week
  }

  ghost predicate CounterIs(rows: seq<RawRow>, evidence: map<MoveKey, Evidence>, orders: OrderEvidence, ids: set<string>,
                            e: Event) {
    forall id :: id in ids <==> exists o :: Taken(rows, evidence, orders, o) && SameCounter(o, e) && o.rowId == id
  }

  /** What each issue says of the rows and the evidence. */
  ghost predicate Reported(rows: seq<RawRow>, evidence: map<MoveKey, Evidence>, orders: OrderEvidence, i: Issue) {
    match i.code
    case InvalidRowId => i.eventIds == {} && i.key == None && exists r :: r in rows && ParseUuid(r.id) == None
    case RowIdConflict => i.key == None && exists id :: i.eventIds == {id} && IdClash(rows, id)
    case ValidationFailed => i.key == None && exists id :: i.eventIds == {id} && Invalid(rows, id)
    case MovementConflict =>
      && i.key.Some? && Clash(rows, evidence, i.key.value) && i.eventIds != {}
      && forall id :: id in i.eventIds <==> exists e :: Of(rows, e, i.key.value) && e.rowId == id
    case OrderMissing =>
      orders.complete && exists e :: Outgoing(rows, evidence, i, e) && e.identity !in orders.records
    case OrderUnavailable =>
      !orders.complete && exists e :: Outgoing(rows, evidence, i, e) && e.identity !in orders.records
    case OrderIdentityConflict =>
      exists e :: Outgoing(rows, evidence, i, e) && e.identity in orders.records && !Backed(e, orders)
    case IntegerOverflow =>
      i.key == None
      && exists e :: (Taken(rows, evidence, orders, e) && Excess(rows, evidence, orders, e)
                      && CounterIs(rows, evidence, orders, i.eventIds, e))
  }

  lemma IdClashExact(rows: seq<RawRow>, id: string)
    ensures id in BrokenIds(SetOf(rows)) <==> IdClash(rows, id)
  {
    hide ParseUuid;
    var all := SetOf(rows);
    if IdClash(rows, id) {
      var a, b :| a in rows && b in rows && ParseUuid(a.id) == Some(id) && ParseUuid(b.id) == Some(id) && !SameContent(a, b);
      assert a in RowsWith(all, id) && b in RowsWith(all, id) && !SameRow(a, b) && a in all;
    }
    if id in BrokenIds(all) {
      var a, b :| a in RowsWith(all, id) && b in RowsWith(all, id) && !SameRow(a, b);
      assert a in rows && b in rows && !SameContent(a, b);
    }
  }

  lemma InvalidExact(rows: seq<RawRow>, id: string)
    ensures id in InvalidIds(SetOf(rows)) <==> Invalid(rows, id)
  {
    hide ParseUuid, ValidateRow, Reads, IdClash, Consistent;
    var all := SetOf(rows);
    IdClashExact(rows, id);
    forall r, e ensures ValidateRow(r) == Some(e) <==> Reads(r, e) { RowExact(r, e); }
    forall r ensures ValidateRow(r).None? <==> forall e :: !Reads(r, e) {
      if ValidateRow(r).Some? { assert Reads(r, ValidateRow(r).value); }
    }
    if r :| r in rows && ParseUuid(r.id) == Some(id) { assert r in all && id in Ids(all); }
    if Invalid(rows, id) {
      var r :| r in rows && ParseUuid(r.id) == Some(id) && forall e :: !Reads(r, e);
      assert r in all;
    }
  }

  /** The issues before the counters. */
  lemma PreparedIssues(rows: seq<RawRow>, evidence: map<MoveKey, Evidence>, orders: OrderEvidence, i: Issue)
    ensures i in RowIssues(SetOf(rows)) <==>
      (i.code.InvalidRowId? || i.code.RowIdConflict? || i.code.ValidationFailed?) && Reported(rows, evidence, orders, i)
  {
    hide ParseUuid, IdClash, Invalid, BrokenIds, InvalidIds, Kept, Taken, Excess, Clash;
    forall id ensures id in BrokenIds(SetOf(rows)) <==> IdClash(rows, id) { IdClashExact(rows, id); }
    forall id ensures id in InvalidIds(SetOf(rows)) <==> Invalid(rows, id) { InvalidExact(rows, id); }
    assert (exists r :: r in SetOf(rows) && ParseUuid(r.id).None?) <==> exists r :: r in rows && ParseUuid(r.id) == None;
  }

  lemma ClashIssues(rows: seq<RawRow>, evidence: map<MoveKey, Evidence>, orders: OrderEvidence, i: Issue)
    ensures i in ConflictIssues(ValidEvents(SetOf(rows)), evidence) <==> i.code.MovementConflict? && Reported(rows, evidence, orders, i)
  {
    hide Entered, ValidEvents, SetOf, Clash, Conflicting, Kept, Taken, Excess, IdClash, Invalid, InConflict, ParseUuid;
    var events := ValidEvents(SetOf(rows));
    forall e ensures e in events <==> Entered(rows, e) { EnteredExact(rows, e); }
    forall k ensures Clash(rows, evidence, k) <==> Conflicting(events, evidence, k) { ClashExact(rows, evidence, k); }
    forall k ensures k in KeysOf(InConflict(events, evidence)) <==>
      Conflicting(events, evidence, k) && exists e :: e in events && KeyOf(e) == k { ClashingKeys(events, evidence, k); }
    if i.code.MovementConflict? && i.key.Some? {
      var k := i.key.value;
      forall id ensures id in EventIdsOf(Group(events, k)) <==> exists e :: Of(rows, e, k) && e.rowId == id {
        GroupIds(rows, k, id);
      }
      hide EventIdsOf, Group, Of, KeysOf;
      if Reported(rows, evidence, orders, i) {
        assert i.eventIds == EventIdsOf(Group(events, k));
        GroupInhabited(rows, k);
        assert i == Issue(MovementConflict, EventIdsOf(Group(events, k)), Some(k));
      }
      if k in KeysOf(InConflict(events, evidence)) { GroupInhabited(rows, k); }
    }
  }

  lemma GroupIds(rows: seq<RawRow>, k: MoveKey, id: string)
    ensures id in EventIdsOf(Group(ValidEvents(SetOf(rows)), k)) <==> exists e :: Of(rows, e, k) && e.rowId == id
  {
    hide Entered, ValidEvents, SetOf;
    var group := Group(ValidEvents(SetOf(rows)), k);
    forall e ensures e in group <==> Of(rows, e, k) { EnteredExact(rows, e); }
    if e :| Of(rows, e, k) && e.rowId == id { assert e in group; }
  }

  lemma GroupInhabited(rows: seq<RawRow>, k: MoveKey)
    ensures EventIdsOf(Group(ValidEvents(SetOf(rows)), k)) != {} <==> exists e :: e in ValidEvents(SetOf(rows)) && KeyOf(e) == k
  {
    hide ValidEvents, SetOf;
    if e :| e in ValidEvents(SetOf(rows)) && KeyOf(e) == k {
      assert e in Group(ValidEvents(SetOf(rows)), k) && e.rowId in EventIdsOf(Group(ValidEvents(SetOf(rows)), k));
    }
    if id :| id in EventIdsOf(Group(ValidEvents(SetOf(rows)), k)) {}
  }

  lemma OrderIssues(rows: seq<RawRow>, evidence: map<MoveKey, Evidence>, orders: OrderEvidence, i: Issue)
    ensures var kept := Consolidated(ValidEvents(SetOf(rows)), evidence);
      i in (set e | e in Uncounted(kept, orders) :: OrderIssue(e, orders)) <==>
        (i.code.OrderMissing? || i.code.OrderUnavailable? || i.code.OrderIdentityConflict?) && Reported(rows, evidence, orders, i)
  {
    hide ValidEvents, SetOf, Consolidated, Kept, Judge, Taken, Excess, Clash, IdClash, Invalid, Entered, ParseUuid, AW.At;
    var kept := Consolidated(ValidEvents(SetOf(rows)), evidence);
    forall e ensures e in kept <==> Kept(rows, evidence, e) { KeptExact(rows, evidence, e); }
    forall e ensures Judge(e, orders) ==
      if Backed(e, orders) then Verified
      else if e.identity in orders.records then Contradicted
      else if orders.complete then Missing else Unavailable { JudgeExact(e, orders); }
    forall e ensures e in Uncounted(kept, orders) <==>
      Kept(rows, evidence, e) && e.eventType.OutboundOrderCreated? && Judge(e, orders) != Verified {}
    forall e ensures Backed(e, orders) ==> e.identity in orders.records {}
    hide Uncounted, Backed;
    forall e | e in Uncounted(kept, orders) && OrderIssue(e, orders) == i ensures Reported(rows, evidence, orders, i) {
      assert Outgoing(rows, evidence, i, e);
    }
    forall e | Outgoing(rows, evidence, i, e) && !Backed(e, orders) ensures
      OrderIssue(e, orders) == i.(code := OrderIssue(e, orders).code) && e in Uncounted(kept, orders) {}
    if Reported(rows, evidence, orders, i) && (i.code.OrderMissing? || i.code.OrderUnavailable? || i.code.OrderIdentityConflict?) {
      var e :| Outgoing(rows, evidence, i, e) && if i.code.OrderIdentityConflict?
        then e.identity in orders.records && !Backed(e, orders) else e.identity !in orders.records;
      assert OrderIssue(e, orders) == i;
    }
  }

  lemma ExcessIssues(rows: seq<RawRow>, evidence: map<MoveKey, Evidence>, orders: OrderEvidence, i: Issue)
    ensures i in OverflowIssues(Overflowing(CountedOf(rows, evidence, orders))) <==>
      i.code.IntegerOverflow? && Reported(rows, evidence, orders, i)
  {
    hide Taken, Excess, CountedOf, Overflowing, Clash, IdClash, Invalid, Kept, ParseUuid;
    var moved := Overflowing(CountedOf(rows, evidence, orders));
    forall e ensures e in moved <==> Taken(rows, evidence, orders, e) && Excess(rows, evidence, orders, e) {
      ExcessExact(rows, evidence, orders, e);
    }
    forall e | e in moved ensures forall id :: id in CounterIds(moved, e) <==>
      exists o :: Taken(rows, evidence, orders, o) && SameCounter(o, e) && o.rowId == id
    {
      SharedExcess(rows, evidence, orders, e);
    }
    forall e, id ensures id in CounterIds(moved, e) <==> exists o :: o in moved && SameCounter(o, e) && o.rowId == id {
      if o :| o in moved && SameCounter(o, e) && o.rowId == id { assert o in CounterEvents(moved, e); }
    }
    hide CounterEvents, SameCounter;
    assert OverflowIssues(moved) == set e | e in moved :: Issue(IntegerOverflow, CounterIds(moved, e), None) by {
      OverflowIssuesExact(moved);
    }
    hide OverflowIssues, CounterIds;
    if i.code.IntegerOverflow? && Reported(rows, evidence, orders, i) {
      var e :| Taken(rows, evidence, orders, e) && Excess(rows, evidence, orders, e)
        && CounterIs(rows, evidence, orders, i.eventIds, e);
      assert i.eventIds == CounterIds(moved, e);
      assert i == Issue(IntegerOverflow, CounterIds(moved, e), None) && e in moved;
    }
  }

  ghost function CounterEvents(moved: set<Event>, e: Event): set<Event> { set o | o in moved && SameCounter(o, e) }

  ghost function CounterIds(moved: set<Event>, e: Event): set<string> { EventIdsOf(CounterEvents(moved, e)) }

  lemma OverflowIssuesExact(moved: set<Event>)
    ensures OverflowIssues(moved) == set e | e in moved :: Issue(IntegerOverflow, CounterIds(moved, e), None)
  {
    forall e: Event ensures (set o | o in moved && o.eventType == e.eventType && GrainOf(o) == GrainOf(e)) == CounterEvents(moved, e) {}
  }

  /** All events of a counter overflow together. */
  lemma SharedExcess(rows: seq<RawRow>, evidence: map<MoveKey, Evidence>, orders: OrderEvidence, e: Event)
    requires Taken(rows, evidence, orders, e) && Excess(rows, evidence, orders, e)
    ensures var moved := Overflowing(CountedOf(rows, evidence, orders));
      forall id :: id in CounterIds(moved, e) <==>
        exists o :: Taken(rows, evidence, orders, o) && SameCounter(o, e) && o.rowId == id
  {
    hide Taken, CountedOf, Overflowing, Tally;
    var moved := Overflowing(CountedOf(rows, evidence, orders));
    forall o | SameCounter(o, e) ensures o in CounterEvents(moved, e) <==> Taken(rows, evidence, orders, o) {
      ExcessExact(rows, evidence, orders, o);
    }
  }

  /** For all rows, evidence and records: an issue is in the result if and only if what it says is the case. */
  lemma IssueExact(rows: seq<RawRow>, evidence: map<MoveKey, Evidence>, orders: OrderEvidence, i: Issue)
    ensures i in Transformed(rows, evidence, orders).issues <==> Reported(rows, evidence, orders, i)
  {
    hide Reported, ValidEvents, SetOf, Consolidated, Counted, Uncounted, Overflowing, AggregateOf, Grains, OverflowIssues,
      RowIssues, ConflictIssues, BrokenIds, InvalidIds, InConflict, Repetitions, OrderIssue, Judge, RepeatedRows;
    PreparedIssues(rows, evidence, orders, i);
    ClashIssues(rows, evidence, orders, i);
    OrderIssues(rows, evidence, orders, i);
    ExcessIssues(rows, evidence, orders, i);
  }
}
