/** What the weekly extraction reads: the week's rows, the weeks of their identities, and order evidence. */
module Extraction {
  import opened Basics
  import opened Identifiers
  import opened Vocabulary
  import opened InventoryTables
  import opened WeeklyPerformance

  datatype Extraction = Extraction(events: seq<RawRow>, evidence: map<MoveKey, Evidence>, orders: OrderEvidence)

  function RawOf(r: TelemetryRow): RawRow { RawRow(r.id, Instant(r.time), r.service, r.eventType, r.tags) }

  /** `_movement_key`: the identity of any row that has one, valid or not. */
  function MoveKeyOf(t: EventType, c: TagColumn): Option<MoveKey> {
    if !Official(t) || !c.TagObject? then None else
    var identity := Tag(c.tags, IdentityTag(t));
    if identity.JStr? && !Blank(identity.text) then Some(MoveKey(t, identity.text)) else None
  }

  // ----- what each query selects -----

  /** The official events of the week, of any service. */
  function WeekRows(telemetry: map<string, TelemetryRow>, week: int): set<TelemetryRow> {
    set id | id in telemetry && Official(telemetry[id].eventType) && InWeek(telemetry[id].time, week) :: telemetry[id]
  }

  function KeysIn(rows: set<TelemetryRow>): set<MoveKey> {
    set r | r in rows && MoveKeyOf(r.eventType, r.tags).Some? :: MoveKeyOf(r.eventType, r.tags).value
  }

  /** Every ISO week in which the identity occurs, over the whole table. */
  function WeeksOf(telemetry: map<string, TelemetryRow>, k: MoveKey): set<int> {
    set id | id in telemetry && MoveKeyOf(telemetry[id].eventType, telemetry[id].tags) == Some(k) :: WeekStart(telemetry[id].time)
  }

  function EvidenceOf(telemetry: map<string, TelemetryRow>, week: int): map<MoveKey, Evidence> {
    map k | k in KeysIn(WeekRows(telemetry, week)) :: Evidence(WeeksOf(telemetry, k), true)
  }

  /** `_commercial_order_id`: canonical version 4 texts only. */
  predicate OrderIdAccepted(text: string) { ParseUuid(text) == Some(text) && IsUuidV4(text) }

  function OutboundIds(telemetry: map<string, TelemetryRow>, week: int): set<string> {
    set k | k in KeysIn(WeekRows(telemetry, week)) && k.eventType.OutboundOrderCreated? :: k.identity
  }

  function DispatchesOf(exits: map<nat, StockExit>, pk: nat): set<nat> {
    set x | x in exits && exits[x].orderPk == Some(pk) && exits[x].exitType == Dispatch
  }

  /** The requested orders that have a dispatch: an inner join grouped by order. */
  function RecordedOrders(orders: map<nat, CommercialOrder>, exits: map<nat, StockExit>, ids: set<string>): set<nat> {
    set pk | pk in orders && orders[pk].orderId in ids && DispatchesOf(exits, pk) != {}
  }

  ghost predicate OrderIdsUnique(orders: map<nat, CommercialOrder>) {
    forall a, b :: a in orders && b in orders && orders[a].orderId == orders[b].orderId ==> a == b
  }

  function RecordOf(orders: map<nat, CommercialOrder>, exits: map<nat, StockExit>, pk: nat): OrderRecord
    requires pk in orders
  {
    OrderRecord(orders[pk].orderId, orders[pk].warehouse, orders[pk].clientId, |DispatchesOf(exits, pk)|)
  }

  ghost predicate IsOrderEvidence(o: OrderEvidence, orders: map<nat, CommercialOrder>, exits: map<nat, StockExit>,
                                  requested: set<string>) {
    var ids := set i | i in requested && OrderIdAccepted(i);
    && o.complete == (ids == requested)
    && o.records.Keys == (set pk | pk in RecordedOrders(orders, exits, ids) :: orders[pk].orderId)
    && (forall pk :: pk in RecordedOrders(orders, exits, ids) ==> o.records[orders[pk].orderId] == RecordOf(orders, exits, pk))
  }

  /** One extraction of a week from the two databases; the rows may come in any order. */
  ghost predicate IsExtraction(x: Extraction, telemetry: map<string, TelemetryRow>, orders: map<nat, CommercialOrder>,
                               exits: map<nat, StockExit>, week: int) {
    && Lists(x.events, set r | r in WeekRows(telemetry, week) :: RawOf(r))
    && x.evidence == EvidenceOf(telemetry, week)
    && IsOrderEvidence(x.orders, orders, exits, OutboundIds(telemetry, week))
  }

  // ----- the extraction as a program -----

  method ReadEvents(rows: set<TelemetryRow>) returns (events: seq<RawRow>, keys: set<MoveKey>)
    requires forall a, b :: a in rows && b in rows && a.id == b.id ==> a == b
    ensures Lists(events, set r | r in rows :: RawOf(r))
    ensures keys == KeysIn(rows)
  {
    hide MoveKeyOf;
    events, keys := [], {};
    var todo := rows;
    ghost var done: set<TelemetryRow> := {};
    while todo != {}
      invariant todo <= rows && done == rows - todo
      invariant Lists(events, set r | r in done :: RawOf(r))
      invariant keys == KeysIn(done)
      decreases |todo|
    {
      var r :| r in todo;
      assert RawOf(r) !in events by { assert forall o :: o in done ==> RawOf(o).id != RawOf(r).id; }
      assert (set o | o in done + {r} :: RawOf(o)) == (set o | o in done :: RawOf(o)) + {RawOf(r)};
      events := events + [RawOf(r)];
      var key := MoveKeyOf(r.eventType, r.tags);
      if key.Some? { keys := keys + {key.value}; }
      todo, done := todo - {r}, done + {r};
    }
    assert done == rows;
  }

  /** The unbounded lookup of the identities, grouped into weeks. */
  method ReadWeeks(telemetry: map<string, TelemetryRow>, keys: set<MoveKey>) returns (weeks: map<MoveKey, set<int>>)
    ensures weeks == map k | k in keys :: WeeksOf(telemetry, k)
  {
    weeks := map k | k in keys :: {};
    var todo := telemetry.Keys;
    ghost var done: set<string> := {};
    while todo != {}
      invariant todo <= telemetry.Keys && done == telemetry.Keys - todo
      invariant weeks.Keys == keys && Collected(telemetry, done, weeks)
      decreases |todo|
    {
      hide Collected, MoveKeyOf, WeekStart;
      var id :| id in todo;
      var key := MoveKeyOf(telemetry[id].eventType, telemetry[id].tags);
      CollectedNext(telemetry, done, weeks, id);
      if key.Some? && key.value in weeks {
        weeks := weeks[key.value := weeks[key.value] + {WeekStart(telemetry[id].time)}];
      }
      todo, done := todo - {id}, done + {id};
    }
    assert done == telemetry.Keys;
  }

  ghost predicate Collected(telemetry: map<string, TelemetryRow>, done: set<string>, weeks: map<MoveKey, set<int>>)
    requires done <= telemetry.Keys
  {
    forall k :: k in weeks ==> weeks[k] == WeeksAmong(telemetry, done, k)
  }

  ghost function WeeksAmong(telemetry: map<string, TelemetryRow>, done: set<string>, k: MoveKey): set<int>
    requires done <= telemetry.Keys
  {
    set id | id in done && MoveKeyOf(telemetry[id].eventType, telemetry[id].tags) == Some(k) :: WeekStart(telemetry[id].time)
  }

  lemma CollectedNext(telemetry: map<string, TelemetryRow>, done: set<string>, weeks: map<MoveKey, set<int>>, id: string)
    requires done <= telemetry.Keys && Collected(telemetry, done, weeks) && id in telemetry
    ensures var key := MoveKeyOf(telemetry[id].eventType, telemetry[id].tags);
      Collected(telemetry, done + {id},
        if key.Some? && key.value in weeks then weeks[key.value := weeks[key.value] + {WeekStart(telemetry[id].time)}]
        else weeks)
  {
    hide MoveKeyOf, WeekStart;
    var key := MoveKeyOf(telemetry[id].eventType, telemetry[id].tags);
    forall k ensures WeeksAmong(telemetry, done + {id}, k) ==
      WeeksAmong(telemetry, done, k) + (if key == Some(k) then {WeekStart(telemetry[id].time)} else {}) {}
  }

  method ReadOrders(orders: map<nat, CommercialOrder>, exits: map<nat, StockExit>, requested: set<string>)
    returns (o: OrderEvidence)
    requires OrderIdsUnique(orders)
    ensures IsOrderEvidence(o, orders, exits, requested)
  {
    hide OrderIdAccepted, DispatchesOf;
    var ids := set i | i in requested && OrderIdAccepted(i);
    var found := RecordedOrders(orders, exits, ids);
    var records: map<string, OrderRecord> := map[];
    var todo := found;
    while todo != {}
      invariant todo <= found
      invariant records.Keys == set pk | pk in found - todo :: orders[pk].orderId
      invariant forall pk :: pk in found - todo ==> records[orders[pk].orderId] == RecordOf(orders, exits, pk)
      decreases |todo|
    {
      var pk :| pk in todo;
      records := records[orders[pk].orderId := RecordOf(orders, exits, pk)];
      todo := todo - {pk};
    }
    o := OrderEvidence(records, ids == requested);
  }

  method ExtractWeeklyInputs(telemetry: map<string, TelemetryRow>, orders: map<nat, CommercialOrder>,
                             exits: map<nat, StockExit>, week: int) returns (x: Option<Extraction>)
    requires OrderIdsUnique(orders) && forall id :: id in telemetry ==> telemetry[id].id == id
    ensures x.Some? <==> IsMonday(week)
    ensures x.Some? ==> IsExtraction(x.value, telemetry, orders, exits, week)
  {
    hide IsOrderEvidence, RecordedOrders, MoveKeyOf;
    if !IsMonday(week) { return None; }
    var events, keys := ReadEvents(WeekRows(telemetry, week));
    var weeks := ReadWeeks(telemetry, keys);
    var evidence := map k | k in weeks :: Evidence(weeks[k], true);
    var requested := set k | k in keys && k.eventType.OutboundOrderCreated? :: k.identity;
    var found := ReadOrders(orders, exits, requested);
    x := Some(Extraction(events, evidence, found));
  }

  // ----- agreement with the transformation -----

  /** A validated row has the movement key of its event. */
  lemma ValidRowKey(r: RawRow)
    requires ValidateRow(r).Some?
    ensures MoveKeyOf(r.eventType, r.tags) == Some(KeyOf(ValidateRow(r).value))
    ensures ValidateRow(r).value.week == WeekStart(r.time.utc)
  {
    var identity := Tag(r.tags.tags, IdentityTag(r.eventType));
    if identity.JStr? && Blank(identity.text) { BlankIsNoUuid(identity.text); }
  }

  lemma {:induction false} BlankDrops(s: string)
    requires Blank(s)
    ensures Blank(DropDashes(s)) && Blank(TrimLeft(s)) && Blank(TrimRight(s))
    decreases |s|
  {
    if s != [] {
      BlankDrops(s[1..]);
      BlankDrops(s[..|s| - 1]);
    }
  }

  lemma {:induction false} BlankRemove(s: string, word: string)
    requires Blank(s) && word != []
    ensures Blank(Remove(s, word))
    decreases |s|
  {
    if |s| >= |word| {
      if s[..|word|] == word { BlankRemove(s[|word|..], word); } else { BlankRemove(s[1..], word); }
    }
  }

  lemma BlankIsNoUuid(s: string)
    requires Blank(s)
    ensures ParseUuid(s).None?
  {
    var a := Remove(s, "urn:");
    var b := Remove(a, "uuid:");
    BlankRemove(s, "urn:");
    BlankRemove(a, "uuid:");
    BlankDrops(b);
    BlankDrops(TrimLeft(b));
    BlankDrops(TrimRight(TrimLeft(b)));
    var h := DropDashes(TrimRight(TrimLeft(b)));
    assert |h| > 0 ==> h[0] in h && IsSpace(h[0]) && !IsHex(h[0]);
  }

  /** Where an extracted event comes from. */
  lemma EventSource(x: Extraction, telemetry: map<string, TelemetryRow>, orders: map<nat, CommercialOrder>,
                    exits: map<nat, StockExit>, week: int, e: Event) returns (id: string)
    requires IsExtraction(x, telemetry, orders, exits, week) && e in ValidEvents(SetOf(x.events))
    ensures id in telemetry && telemetry[id] in WeekRows(telemetry, week)
    ensures ValidateRow(RawOf(telemetry[id])) == Some(e)
  {
    hide ValidateRow, ParseUuid, Consistent, IsOrderEvidence;
    var r :| r in SetOf(x.events) && ParseUuid(r.id).Some? && ValidateRow(r) == Some(e);
    assert r in x.events;
    var row :| row in WeekRows(telemetry, week) && r == RawOf(row);
    id :| id in telemetry && telemetry[id] == row;
  }

  /** On extracted inputs no validated event waits for cross-week verification. */
  lemma NothingPending(x: Extraction, telemetry: map<string, TelemetryRow>, orders: map<nat, CommercialOrder>,
                       exits: map<nat, StockExit>, week: int)
    requires IsExtraction(x, telemetry, orders, exits, week)
    ensures Transformed(x.events, x.evidence, x.orders).pending == {}
  {
    hide ValidateRow, ParseUuid, ValidEvents, IsOrderEvidence, Consolidated, Repetitions, InConflict, Overflowing,
      AggregateOf, RowIssues, ConflictIssues, OverflowIssues, BrokenIds, InvalidIds, WeekStart;
    forall k | k in KeysOf(ValidEvents(SetOf(x.events))) ensures !Unverified(x.evidence, k) {
      var e :| e in ValidEvents(SetOf(x.events)) && KeyOf(e) == k;
      var id := EventSource(x, telemetry, orders, exits, week, e);
      ValidRowKey(RawOf(telemetry[id]));
      assert k in KeysIn(WeekRows(telemetry, week));
    }
  }

  /** An extracted event of a Monday week belongs to that ISO week. */
  lemma EventWeek(x: Extraction, telemetry: map<string, TelemetryRow>, orders: map<nat, CommercialOrder>,
                  exits: map<nat, StockExit>, week: int, e: Event)
    requires IsExtraction(x, telemetry, orders, exits, week) && e in ValidEvents(SetOf(x.events)) && IsMonday(week)
    ensures e.week == week
  {
    hide ValidateRow, ValidEvents, IsOrderEvidence, WeekStart;
    var id := EventSource(x, telemetry, orders, exits, week, e);
    ValidRowKey(RawOf(telemetry[id]));
    WeekBoundsExact(telemetry[id].time, week);
    assert InWeek(telemetry[id].time, week);
    assert e.week == WeekStart(telemetry[id].time);
  }

  /** A group is rejected for its weeks exactly when its identity also occurs in another ISO week. */
  lemma CrossWeekExact(x: Extraction, telemetry: map<string, TelemetryRow>, orders: map<nat, CommercialOrder>,
                       exits: map<nat, StockExit>, week: int, k: MoveKey)
    requires IsExtraction(x, telemetry, orders, exits, week) && IsMonday(week)
    requires k in KeysOf(ValidEvents(SetOf(x.events)))
    ensures CrossWeek(x.evidence, k, Weeks(Group(ValidEvents(SetOf(x.events)), k))) <==>
      exists id :: (id in telemetry && MoveKeyOf(telemetry[id].eventType, telemetry[id].tags) == Some(k)
                    && WeekStart(telemetry[id].time) != week)
  {
    hide ValidateRow, ParseUuid, ValidEvents, IsOrderEvidence, MoveKeyOf, WeekStart;
    var events := ValidEvents(SetOf(x.events));
    var e :| e in events && KeyOf(e) == k;
    var id := EventSource(x, telemetry, orders, exits, week, e);
    ValidRowKey(RawOf(telemetry[id]));
    assert k in KeysIn(WeekRows(telemetry, week));
    EventWeek(x, telemetry, orders, exits, week, e);
    assert Weeks(Group(events, k)) == {week} by {
      assert e in Group(events, k);
      forall o | o in Group(events, k) ensures o.week == week { EventWeek(x, telemetry, orders, exits, week, o); }
    }
    assert week in WeeksOf(telemetry, k);
    SingleWeek(WeeksOf(telemetry, k), week);
    WeeksWitness(telemetry, k, week);
  }

  lemma WeeksWitness(telemetry: map<string, TelemetryRow>, k: MoveKey, week: int)
    ensures (forall w :: w in WeeksOf(telemetry, k) ==> w == week) <==>
      forall id :: (id in telemetry && MoveKeyOf(telemetry[id].eventType, telemetry[id].tags) == Some(k)
                    ==> WeekStart(telemetry[id].time) == week)
  {
    hide MoveKeyOf, WeekStart;
    forall id | id in telemetry && MoveKeyOf(telemetry[id].eventType, telemetry[id].tags) == Some(k)
      ensures WeekStart(telemetry[id].time) in WeeksOf(telemetry, k)
    {
    }
  }

  lemma SingleWeek(weeks: set<int>, week: int)
    requires week in weeks
    ensures weeks == {week} <==> forall w :: w in weeks ==> w == week
    ensures weeks == {week} ==> |weeks| == 1
  {
    if forall w :: w in weeks ==> w == week { assert weeks == {week}; }
  }
}
