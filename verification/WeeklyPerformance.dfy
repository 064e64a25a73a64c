/** What the weekly transformation computes: validation, two deduplications, four counters, composition. */
module WeeklyPerformance {
  import opened Basics
  import opened Identifiers
  import opened Vocabulary

  // ----- rows and evidence -----

  /** A timestamp that normalises to an instant, or raw text that does not. */
  datatype Time = Instant(utc: int) | Unreadable(raw: string)

  datatype RawRow = RawRow(id: string, time: Time, service: string, eventType: EventType, tags: TagColumn)

  /** The business identity of an event: its type and the text of its identity tag. */
  datatype MoveKey = MoveKey(eventType: EventType, identity: string)

  datatype Event = Event(
    rowId: string, eventType: EventType, time: int, week: int, warehouse: string, clientId: string, tags: Tags,
    identity: string)

  function KeyOf(e: Event): MoveKey { MoveKey(e.eventType, e.identity) }

  datatype Evidence = Evidence(weeks: set<int>, complete: bool)

  datatype OrderRecord = OrderRecord(orderId: string, warehouse: string, clientId: string, dispatchCount: int)

  datatype OrderEvidence = OrderEvidence(records: map<string, OrderRecord>, complete: bool)

  // ----- validation of one row -----

  function Tag(tags: Tags, name: TagName): Json { if name in tags then tags[name] else JNull }

  function IdentityTag(t: EventType): TagName {
    match t
    case OutboundOrderCreated => OrderId
    case InventoryDiscrepancyDetected => CountId
    case _ => MovementId
  }

  predicate UuidV4Text(j: Json) { j.JStr? && ParseUuid(j.text).Some? && IsUuidV4(ParseUuid(j.text).value) }

  predicate ValidIdentity(t: EventType, j: Json) {
    if t.OutboundOrderCreated? || t.InventoryDiscrepancyDetected? then UuidV4Text(j)
    else j.JStr? && !Blank(j.text)
  }

  predicate ValidQuantity(t: EventType, j: Json) {
    match t
    case OutboundOrderCreated => true
    case StockThresholdTriggered => j.JInt? && j.number >= 0
    case _ => j.JInt? && j.number >= 1
  }

  predicate ValidProduct(j: Json) { j.JNull? || j.JInt? || (j.JStr? && !Blank(j.text)) }

  /** `_validate_event`: `None` where it raises. */
  function ValidateRow(r: RawRow): Option<Event> {
    var id := ParseUuid(r.id);
    if id.None? || !Official(r.eventType) || r.service != API || !r.tags.TagObject? || !r.time.Instant? then None else
    var tags := r.tags.tags;
    var place, client := Tag(tags, Warehouse), Tag(tags, ClientId);
    var identity := Tag(tags, IdentityTag(r.eventType));
    if !place.JStr? || CanonicalWarehouse(place.text).None? || !client.JStr? || Blank(client.text) then None
    else if !ValidIdentity(r.eventType, identity) || !ValidQuantity(r.eventType, Tag(tags, Quantity)) then None
    else if !ValidProduct(Tag(tags, ProductId)) then None
    else Some(Event(id.value, r.eventType, r.time.utc, WeekStart(r.time.utc), CanonicalWarehouse(place.text).value,
      client.text, tags, identity.text))
  }

  // ----- first deduplication: row ids -----

  predicate SameRow(a: RawRow, b: RawRow) {
    a.time == b.time && a.eventType == b.eventType && a.service == b.service && a.tags == b.tags
  }

  function Ids(rows: set<RawRow>): set<string> {
    set r | r in rows && ParseUuid(r.id).Some? :: ParseUuid(r.id).value
  }

  function RowsWith(rows: set<RawRow>, id: string): set<RawRow> { set r | r in rows && ParseUuid(r.id) == Some(id) }

  predicate Consistent(rows: set<RawRow>, id: string) {
    forall a, b :: a in RowsWith(rows, id) && b in RowsWith(rows, id) ==> SameRow(a, b)
  }

  /** The events of all rows whose id carries one content, and that validate. */
  function ValidEvents(rows: set<RawRow>): set<Event> {
    set r | r in rows && ParseUuid(r.id).Some? && Consistent(rows, ParseUuid(r.id).value) && ValidateRow(r).Some?
      :: ValidateRow(r).value
  }

  function EventIdsOf(events: set<Event>): set<string> { set e | e in events :: e.rowId }

  // ----- second deduplication: business identities -----

  function Group(events: set<Event>, k: MoveKey): set<Event> { set e | e in events && KeyOf(e) == k }

  function Weeks(events: set<Event>): set<int> { set e | e in events :: e.week }

  /** `_movement_signature`; the key fixes the event type. */
  predicate SameSignature(a: Event, b: Event) {
    a.warehouse == b.warehouse && a.clientId == b.clientId && a.tags == b.tags && a.week == b.week
  }

  predicate Agree(events: set<Event>, k: MoveKey) {
    forall a, b :: a in events && b in events && KeyOf(a) == k && KeyOf(b) == k ==> SameSignature(a, b)
  }

  predicate Unverified(evidence: map<MoveKey, Evidence>, k: MoveKey) { k !in evidence || !evidence[k].complete }

  predicate CrossWeek(evidence: map<MoveKey, Evidence>, k: MoveKey, observed: set<int>) {
    !Unverified(evidence, k) && (|evidence[k].weeks| > 1 || evidence[k].weeks != observed)
  }

  predicate Conflicting(events: set<Event>, evidence: map<MoveKey, Evidence>, k: MoveKey) {
    !Agree(events, k) || CrossWeek(evidence, k, Weeks(Group(events, k)))
  }

  /** The least row id of its identity represents it. */
  predicate Represents(events: set<Event>, e: Event) {
    forall o :: o in events && KeyOf(o) == KeyOf(e) && o != e ==> Less(e.rowId, o.rowId)
  }

  function Consolidated(events: set<Event>, evidence: map<MoveKey, Evidence>): set<Event> {
    set e | e in events && !Conflicting(events, evidence, KeyOf(e)) && Represents(events, e)
  }

  function Repetitions(events: set<Event>, evidence: map<MoveKey, Evidence>): set<Event> {
    set e | e in events && !Conflicting(events, evidence, KeyOf(e)) && !Represents(events, e)
  }

  function InConflict(events: set<Event>, evidence: map<MoveKey, Evidence>): set<Event> {
    set e | e in events && Conflicting(events, evidence, KeyOf(e))
  }

  function KeysOf(events: set<Event>): set<MoveKey> { set e | e in events :: KeyOf(e) }

  // ----- prepared events -----

  datatype IssueCode =
    | InvalidRowId | RowIdConflict | ValidationFailed | MovementConflict | OrderMissing | OrderUnavailable
    | OrderIdentityConflict | IntegerOverflow

  /** An issue without its message. */
  datatype Issue = Issue(code: IssueCode, eventIds: set<string>, key: Option<MoveKey>)

  datatype Prepared = Prepared(
    events: set<Event>, rejected: set<string>, repeatedRows: set<string>, repeatedKeys: set<MoveKey>,
    repeatedIds: set<string>, conflicts: set<MoveKey>, issues: set<Issue>, pending: set<MoveKey>)

  function SetOf<T>(s: seq<T>): set<T> { set x | x in s }

  function BrokenIds(rows: set<RawRow>): set<string> { set id | id in Ids(rows) && !Consistent(rows, id) }

  function InvalidIds(rows: set<RawRow>): set<string> {
    set r | r in rows && ParseUuid(r.id).Some? && Consistent(rows, ParseUuid(r.id).value) && ValidateRow(r).None?
      :: ParseUuid(r.id).value
  }

  function RowIssues(rows: set<RawRow>): set<Issue> {
    (if exists r :: r in rows && ParseUuid(r.id).None? then {Issue(InvalidRowId, {}, None)} else {})
    + (set id | id in BrokenIds(rows) :: Issue(RowIdConflict, {id}, None))
    + (set id | id in InvalidIds(rows) :: Issue(ValidationFailed, {id}, None))
  }

  function ConflictIssues(events: set<Event>, evidence: map<MoveKey, Evidence>): set<Issue> {
    set k | k in KeysOf(InConflict(events, evidence)) :: Issue(MovementConflict, EventIdsOf(Group(events, k)), Some(k))
  }

  /** The rows of one id, in input order. */
  function RowsById(rows: seq<RawRow>, id: string): seq<RawRow> {
    if rows == [] then []
    else
      var last := rows[|rows| - 1];
      RowsById(rows[..|rows| - 1], id) + (if ParseUuid(last.id) == Some(id) then [last] else [])
  }

  /** Ids that occur in more than one row, all of one content. */
  function RepeatedRows(rows: seq<RawRow>): set<string> {
    set id | id in Ids(SetOf(rows)) && Consistent(SetOf(rows), id) && |RowsById(rows, id)| > 1
  }

  function PreparedFrom(rows: set<RawRow>, evidence: map<MoveKey, Evidence>, repeatedRows: set<string>): Prepared {
    var events := ValidEvents(rows);
    Prepared(
      Consolidated(events, evidence),
      BrokenIds(rows) + InvalidIds(rows) + EventIdsOf(InConflict(events, evidence)),
      repeatedRows,
      KeysOf(Repetitions(events, evidence)),
      EventIdsOf(Repetitions(events, evidence)),
      KeysOf(InConflict(events, evidence)),
      RowIssues(rows) + ConflictIssues(events, evidence),
      set k | k in KeysOf(events) && Unverified(evidence, k))
  }

  // ----- order evidence -----

  datatype Verdict = Verified | Missing | Unavailable | Contradicted

  function Judge(e: Event, orders: OrderEvidence): Verdict {
    if e.identity !in orders.records then (if orders.complete then Missing else Unavailable)
    else
      var record := orders.records[e.identity];
      if record.orderId != e.identity || CanonicalWarehouse(record.warehouse) != Some(e.warehouse)
         || record.clientId != e.clientId || record.dispatchCount < 1
      then Contradicted else Verified
  }

  predicate Counts(e: Event, orders: OrderEvidence) { e.eventType.OutboundOrderCreated? ==> Judge(e, orders) == Verified }

  function Counted(events: set<Event>, orders: OrderEvidence): set<Event> { set e | e in events && Counts(e, orders) }

  function Uncounted(events: set<Event>, orders: OrderEvidence): set<Event> { set e | e in events && !Counts(e, orders) }

  function OrderIssue(e: Event, orders: OrderEvidence): Issue {
    var code := match Judge(e, orders)
      case Missing => OrderMissing
      case Unavailable => OrderUnavailable
      case _ => OrderIdentityConflict;
    Issue(code, {e.rowId}, Some(KeyOf(e)))
  }

  // ----- counters -----

  datatype AggregateKey = AggregateKey(warehouse: string, clientId: string, week: int)

  function GrainOf(e: Event): AggregateKey { AggregateKey(e.warehouse, e.clientId, e.week) }

  /** One counter per official event type, in the canonical order. */
  datatype Metric = InboundUnits | OutboundOrders | StockoutEvents | DiscrepancyEvents

  function TypeOf(m: Metric): EventType {
    match m
    case InboundUnits => InboundOrderCreated
    case OutboundOrders => OutboundOrderCreated
    case StockoutEvents => StockThresholdTriggered
    case DiscrepancyEvents => InventoryDiscrepancyDetected
  }

  /** The units of an inbound event; every other event counts one. */
  function Weight(e: Event): int {
    if e.eventType.InboundOrderCreated? && Tag(e.tags, Quantity).JInt? then Tag(e.tags, Quantity).number else 1
  }

  function Share(events: set<Event>, m: Metric, key: AggregateKey): set<Event> {
    set e | e in events && e.eventType == TypeOf(m) && GrainOf(e) == key
  }

  ghost function Counter(events: set<Event>, m: Metric, key: AggregateKey): int { Sum(Share(events, m, key), Weight) }

  // ----- composition -----

  const POSTGRES_INTEGER_MAX := 2_147_483_647

  predicate Overflows(n: int) { n < 0 || n > POSTGRES_INTEGER_MAX }

  datatype Aggregate = Aggregate(
    key: AggregateKey, inbound: int, outbound: int, stockouts: int, discrepancies: int, rate: real)

  function Rate(discrepancies: int, outbound: int): real {
    if outbound == 0 then 0.0 else discrepancies as real / outbound as real
  }

  ghost function AggregateOf(events: set<Event>, key: AggregateKey): Aggregate {
    var d, o := Counter(events, DiscrepancyEvents, key), Counter(events, OutboundOrders, key);
    Aggregate(key, Counter(events, InboundUnits, key), o, Counter(events, StockoutEvents, key), d, Rate(d, o))
  }

  function Grains(events: set<Event>): set<AggregateKey> { set e | e in events :: GrainOf(e) }

  /** The events whose counter overflows. */
  ghost function Overflowing(events: set<Event>): set<Event> {
    set e, m: Metric | e in events && e.eventType == TypeOf(m) && Overflows(Counter(events, m, GrainOf(e))) :: e
  }

  datatype Result = Result(
    aggregates: set<Aggregate>, accepted: set<string>, rejected: set<string>, repeatedRows: set<string>,
    repeatedKeys: set<MoveKey>, repeatedIds: set<string>, conflicts: set<MoveKey>, issues: set<Issue>,
    pending: set<MoveKey>, coverageConfirmed: bool)

  function OverflowIssues(moved: set<Event>): set<Issue> {
    set e | e in moved ::
      Issue(IntegerOverflow, EventIdsOf(set o | o in moved && o.eventType == e.eventType && GrainOf(o) == GrainOf(e)), None)
  }

  /** `compose_weekly_performance` over the counted events: any overflow empties the whole result. */
  ghost function Composed(p: Prepared, orders: OrderEvidence): Result {
    var counted, uncounted := Counted(p.events, orders), Uncounted(p.events, orders);
    var moved := Overflowing(counted);
    Result(
      if moved == {} then set key | key in Grains(counted) :: AggregateOf(counted, key) else {},
      EventIdsOf(counted) - EventIdsOf(moved),
      p.rejected + EventIdsOf(uncounted) + EventIdsOf(moved),
      p.repeatedRows, p.repeatedKeys, p.repeatedIds,
      p.conflicts + (set e | e in uncounted && Judge(e, orders) == Contradicted :: KeyOf(e)),
      p.issues + (set e | e in uncounted :: OrderIssue(e, orders)) + OverflowIssues(moved),
      p.pending, false)
  }

  /** `transform_weekly_performance` */
  ghost function Transformed(rows: seq<RawRow>, evidence: map<MoveKey, Evidence>, orders: OrderEvidence): Result {
    Composed(PreparedFrom(SetOf(rows), evidence, RepeatedRows(rows)), orders)
  }

  // ----- one event per row id, one representative per identity -----

  lemma OneEventPerId(rows: set<RawRow>, a: Event, b: Event)
    requires a in ValidEvents(rows) && b in ValidEvents(rows) && a.rowId == b.rowId
    ensures a == b
  {
    var r :| r in rows && ParseUuid(r.id).Some? && Consistent(rows, ParseUuid(r.id).value) && ValidateRow(r) == Some(a);
    var s :| s in rows && ParseUuid(s.id).Some? && Consistent(rows, ParseUuid(s.id).value) && ValidateRow(s) == Some(b);
    assert r in RowsWith(rows, a.rowId) && s in RowsWith(rows, a.rowId);
    assert SameRow(r, s);
  }

  ghost predicate IdsUnique(events: set<Event>) {
    forall a, b :: a in events && b in events && a.rowId == b.rowId ==> a == b
  }

  lemma ValidIdsUnique(rows: set<RawRow>)
    ensures IdsUnique(ValidEvents(rows))
  {
    forall a, b | a in ValidEvents(rows) && b in ValidEvents(rows) && a.rowId == b.rowId ensures a == b {
      OneEventPerId(rows, a, b);
    }
  }

  lemma {:induction false} LeastExists(events: set<Event>) returns (least: Event)
    requires events != {} && IdsUnique(events)
    ensures least in events && forall o :: o in events && o != least ==> Less(least.rowId, o.rowId)
    decreases |events|
  {
    var e :| e in events;
    if events == {e} {
      least := e;
    } else {
      var rest := LeastExists(events - {e});
      LessTotal(e.rowId, rest.rowId);
      if Less(e.rowId, rest.rowId) {
        least := e;
        forall o | o in events && o != e ensures Less(e.rowId, o.rowId) {
          if o != rest { LessTransitive(e.rowId, rest.rowId, o.rowId); }
        }
      } else {
        least := rest;
      }
    }
  }

  /** Every identity has exactly one representative. */
  lemma RepresentativeExists(events: set<Event>, k: MoveKey) returns (e: Event)
    requires k in KeysOf(events) && IdsUnique(events)
    ensures e in events && KeyOf(e) == k && Represents(events, e)
    ensures forall o :: o in events && KeyOf(o) == k && Represents(events, o) ==> o == e
  {
    var some :| some in events && KeyOf(some) == k;
    assert some in Group(events, k);
    e := LeastExists(Group(events, k));
    forall o | o in events && KeyOf(o) == KeyOf(e) && o != e ensures Less(e.rowId, o.rowId) {
      assert o in Group(events, k);
    }
    forall o | o in events && KeyOf(o) == k && Represents(events, o) ensures o == e {
      if o != e { LessTotal(o.rowId, e.rowId); }
    }
  }

  /** An identity is kept, with one event, exactly when its rows agree with each other and with the evidence. */
  lemma KeptOnce(rows: set<RawRow>, evidence: map<MoveKey, Evidence>, k: MoveKey)
    requires k in KeysOf(ValidEvents(rows))
    ensures var events := ValidEvents(rows);
      && (Conflicting(events, evidence, k) ==> k !in KeysOf(Consolidated(events, evidence)))
      && (!Conflicting(events, evidence, k) ==> |Group(Consolidated(events, evidence), k)| == 1)
  {
    var events := ValidEvents(rows);
    ValidIdsUnique(rows);
    var e := RepresentativeExists(events, k);
    if !Conflicting(events, evidence, k) {
      assert Group(Consolidated(events, evidence), k) == {e};
    }
  }

  // ----- bookkeeping -----

  lemma IdsSplit(rows: set<RawRow>)
    ensures Ids(rows) == BrokenIds(rows) + InvalidIds(rows) + EventIdsOf(ValidEvents(rows))
  {
    forall id | id in Ids(rows) ensures id in BrokenIds(rows) + InvalidIds(rows) + EventIdsOf(ValidEvents(rows)) {
      var r :| r in rows && ParseUuid(r.id) == Some(id);
      if Consistent(rows, id) && ValidateRow(r).Some? {
        assert ValidateRow(r).value in ValidEvents(rows) && ValidateRow(r).value.rowId == id;
      }
    }
    forall e | e in ValidEvents(rows) ensures e.rowId in Ids(rows) {
      var r :| r in rows && ParseUuid(r.id).Some? && ValidateRow(r) == Some(e);
    }
  }

  lemma ValidIdsAreNotRefused(rows: set<RawRow>, e: Event)
    requires e in ValidEvents(rows)
    ensures e.rowId !in BrokenIds(rows) && e.rowId !in InvalidIds(rows)
  {
    var r :| r in rows && ParseUuid(r.id).Some? && Consistent(rows, ParseUuid(r.id).value) && ValidateRow(r) == Some(e);
    forall s | s in rows && ParseUuid(s.id) == Some(e.rowId) ensures ValidateRow(s).Some? {
      assert r in RowsWith(rows, e.rowId) && s in RowsWith(rows, e.rowId) && SameRow(r, s);
    }
  }

  lemma EventsSplit(events: set<Event>, evidence: map<MoveKey, Evidence>)
    ensures events == Consolidated(events, evidence) + Repetitions(events, evidence) + InConflict(events, evidence)
    ensures Consolidated(events, evidence) !! Repetitions(events, evidence)
    ensures InConflict(events, evidence) !! Consolidated(events, evidence) + Repetitions(events, evidence)
  {
    hide Conflicting, Represents;
  }

  lemma DisjointIds(events: set<Event>, a: set<Event>, b: set<Event>)
    requires IdsUnique(events) && a <= events && b <= events && a !! b
    ensures EventIdsOf(a) !! EventIdsOf(b)
  {
    forall x, y | x in a && y in b ensures x.rowId != y.rowId { assert x != y; }
  }

  lemma OverflowingIsCounted(events: set<Event>)
    ensures Overflowing(events) <= events
  {
  }

  /** Accepted, rejected and repeated ids partition the distinct valid row ids. */
  lemma Partition(rows: seq<RawRow>, evidence: map<MoveKey, Evidence>, orders: OrderEvidence)
    ensures var r := Transformed(rows, evidence, orders);
      && r.accepted + r.rejected + r.repeatedIds == Ids(SetOf(rows))
      && r.accepted !! r.rejected && r.accepted !! r.repeatedIds && r.rejected !! r.repeatedIds
  {
    hide Consolidated, Repetitions, InConflict, Counted, Uncounted, Overflowing, ValidEvents, EventIdsOf, BrokenIds,
      InvalidIds, RowIssues, ConflictIssues, OverflowIssues, AggregateOf, Grains, KeysOf, OrderIssue, Judge;
    var all := SetOf(rows);
    var events := ValidEvents(all);
    var kept, again, clash := Consolidated(events, evidence), Repetitions(events, evidence), InConflict(events, evidence);
    var counted, uncounted := Counted(kept, orders), Uncounted(kept, orders);
    var moved := Overflowing(counted);
    OverflowingIsCounted(counted);
    IdsSplit(all);
    ValidIdsUnique(all);
    EventsSplit(events, evidence);
    CountedSplit(kept, orders);
    IdsOfParts(events, counted, uncounted, again, clash, moved);
    forall e | e in events ensures e.rowId !in BrokenIds(all) + InvalidIds(all) { ValidIdsAreNotRefused(all, e); }
    RefusedApart(events, BrokenIds(all) + InvalidIds(all));
  }

  lemma CountedSplit(events: set<Event>, orders: OrderEvidence)
    ensures events == Counted(events, orders) + Uncounted(events, orders)
    ensures Counted(events, orders) !! Uncounted(events, orders)
  {
  }

  lemma RefusedApart(events: set<Event>, refused: set<string>)
    requires forall e :: e in events ==> e.rowId !in refused
    ensures EventIdsOf(events) !! refused
  {
  }

  lemma IdsOfParts(events: set<Event>, counted: set<Event>, uncounted: set<Event>, again: set<Event>, clash: set<Event>,
                   moved: set<Event>)
    requires IdsUnique(events) && events == counted + uncounted + again + clash && moved <= counted
    requires counted !! uncounted && counted !! again && counted !! clash && uncounted !! again && again !! clash
    ensures EventIdsOf(events) ==
      (EventIdsOf(counted) - EventIdsOf(moved)) + (EventIdsOf(uncounted) + EventIdsOf(moved) + EventIdsOf(clash)) + EventIdsOf(again)
    ensures EventIdsOf(counted) !! EventIdsOf(uncounted) && EventIdsOf(counted) !! EventIdsOf(again)
    ensures EventIdsOf(counted) !! EventIdsOf(clash) && EventIdsOf(uncounted) !! EventIdsOf(again)
    ensures EventIdsOf(again) !! EventIdsOf(clash) && EventIdsOf(moved) <= EventIdsOf(counted)
  {
    DisjointIds(events, counted, uncounted);
    DisjointIds(events, counted, again);
    DisjointIds(events, counted, clash);
    DisjointIds(events, uncounted, again);
    DisjointIds(events, again, clash);
  }

  /** The result depends on the rows only as a set, but for the list of repeated row ids: neither
      the order of the input nor repeating its rows changes an aggregate, an issue or a verdict. */
  lemma OrderAndRepetition(rows: seq<RawRow>, rows': seq<RawRow>, evidence: map<MoveKey, Evidence>, orders: OrderEvidence)
    requires forall r :: r in rows <==> r in rows'
    ensures var a := Transformed(rows, evidence, orders);
      a == Transformed(rows', evidence, orders).(repeatedRows := a.repeatedRows)
  {
    hide Consolidated, Repetitions, InConflict, Counted, Uncounted, Overflowing, ValidEvents, EventIdsOf, BrokenIds,
      InvalidIds, RowIssues, ConflictIssues, OverflowIssues, AggregateOf, Grains, KeysOf, OrderIssue, Judge,
      RepeatedRows;
    assert SetOf(rows) == SetOf(rows');
  }

  /** Without overflow, each grain with an accepted event has exactly one aggregate, whose counters
      are sums over the accepted events; with an overflow there is no aggregate at all. */
  lemma AggregatesAreFolds(rows: seq<RawRow>, evidence: map<MoveKey, Evidence>, orders: OrderEvidence)
    ensures var r := Transformed(rows, evidence, orders);
      var events := set e | e in ValidEvents(SetOf(rows)) && e.rowId in r.accepted;
      if Overflowing(Counted(Consolidated(ValidEvents(SetOf(rows)), evidence), orders)) == {}
      then
        && (forall g :: g in Grains(events) <==> exists a :: a in r.aggregates && a.key == g)
        && (forall a :: a in r.aggregates ==> a == AggregateOf(events, a.key))
      else r.aggregates == {}
  {
    hide ValidEvents, Consolidated, Counted, Counter, Overflowing, Uncounted, RowIssues, ConflictIssues,
      OverflowIssues, BrokenIds, InvalidIds, InConflict, Repetitions, KeysOf, OrderIssue, Judge;
    var all := ValidEvents(SetOf(rows));
    var counted := Counted(Consolidated(all, evidence), orders);
    var r := Transformed(rows, evidence, orders);
    if Overflowing(counted) == {} {
      ValidIdsUnique(SetOf(rows));
      CountedIsValid(all, evidence, orders);
      var events := set e | e in all && e.rowId in r.accepted;
      assert r.accepted == EventIdsOf(counted);
      assert events == counted;
      forall g | g in Grains(events) ensures exists a :: a in r.aggregates && a.key == g {
        assert AggregateOf(counted, g) in r.aggregates;
      }
    }
  }

  lemma CountedIsValid(events: set<Event>, evidence: map<MoveKey, Evidence>, orders: OrderEvidence)
    ensures Counted(Consolidated(events, evidence), orders) <= events
  {
  }
}
