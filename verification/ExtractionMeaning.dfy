/** What one extraction contains, stated on the rows of the two databases alone. */
module ExtractionMeaning {
  import opened Basics
  import opened Identifiers
  import opened Vocabulary
  import opened InventoryTables
  import opened WeeklyPerformance
  import opened Extraction
  import opened TransformMeaning

  /** A row of the four business events whose instant lies in the week. */
  ghost predicate RowOfWeek(telemetry: map<string, TelemetryRow>, id: string, week: int) {
    && id in telemetry && !telemetry[id].eventType.OtherEvent?
    && week * 86_400_000_000 <= telemetry[id].time < (week + 7) * 86_400_000_000
  }

  /** The row names this identity, in the tag that its event type uses. */
  ghost predicate Names(row: TelemetryRow, k: MoveKey) {
    && row.eventType == k.eventType && row.tags.TagObject? && Written(k.identity)
    && match k.eventType
       case InboundOrderCreated => TextTag(row.tags.tags, MovementId, k.identity)
       case OutboundOrderCreated => TextTag(row.tags.tags, OrderId, k.identity)
       case StockThresholdTriggered => TextTag(row.tags.tags, MovementId, k.identity)
       case InventoryDiscrepancyDetected => TextTag(row.tags.tags, CountId, k.identity)
       case OtherEvent(_) => false
  }

  lemma NamesExact(row: TelemetryRow, k: MoveKey)
    ensures Names(row, k) <==> MoveKeyOf(row.eventType, row.tags) == Some(k)
  {
  }

  ghost predicate NamedInWeek(telemetry: map<string, TelemetryRow>, k: MoveKey, week: int) {
    exists id :: RowOfWeek(telemetry, id, week) && Names(telemetry[id], k)
  }

  lemma KeysExact(telemetry: map<string, TelemetryRow>, week: int, k: MoveKey)
    ensures k in KeysIn(WeekRows(telemetry, week)) <==> NamedInWeek(telemetry, k, week)
  {
    hide MoveKeyOf, Names;
    forall row ensures Names(row, k) <==> MoveKeyOf(row.eventType, row.tags) == Some(k) { NamesExact(row, k); }
    if id :| RowOfWeek(telemetry, id, week) && Names(telemetry[id], k) { assert telemetry[id] in WeekRows(telemetry, week); }
  }

  /** The events are the business rows of the week, of every service, each listed once. */
  lemma EventsExact(x: Extraction, telemetry: map<string, TelemetryRow>, orders: map<nat, CommercialOrder>,
                    exits: map<nat, StockExit>, week: int, r: RawRow)
    requires IsExtraction(x, telemetry, orders, exits, week)
    ensures r in x.events <==>
      exists id :: RowOfWeek(telemetry, id, week) && var t := telemetry[id];
        r == RawRow(t.id, Instant(t.time), t.service, t.eventType, t.tags)
    ensures forall i, j :: 0 <= i < j < |x.events| ==> x.events[i] != x.events[j]
  {
    hide IsOrderEvidence, EvidenceOf;
    var rows := WeekRows(telemetry, week);
    forall id | RowOfWeek(telemetry, id, week) ensures telemetry[id] in rows {}
    assert r in x.events <==> r in set t | t in rows :: RawOf(t);
  }

  /** Every identity of the week has complete evidence: the weeks of its rows in the whole table. */
  lemma WeeksExact(x: Extraction, telemetry: map<string, TelemetryRow>, orders: map<nat, CommercialOrder>,
                   exits: map<nat, StockExit>, week: int, k: MoveKey)
    requires IsExtraction(x, telemetry, orders, exits, week)
    ensures k in x.evidence <==> NamedInWeek(telemetry, k, week)
    ensures k in x.evidence ==>
      && x.evidence[k].complete
      && forall w :: w in x.evidence[k].weeks <==>
           w % 7 == 4 && exists id :: (id in telemetry && Names(telemetry[id], k)
             && w * 86_400_000_000 <= telemetry[id].time < (w + 7) * 86_400_000_000)
  {
    hide MoveKeyOf, Names, IsOrderEvidence, WeekRows, KeysIn, WeekStart, RowOfWeek;
    KeysExact(telemetry, week, k);
    forall row ensures Names(row, k) <==> MoveKeyOf(row.eventType, row.tags) == Some(k) { NamesExact(row, k); }
    if k in x.evidence {
      forall w ensures w in WeeksOf(telemetry, k) <==>
        w % 7 == 4 && exists id :: (id in telemetry && Names(telemetry[id], k)
          && w * 86_400_000_000 <= telemetry[id].time < (w + 7) * 86_400_000_000)
      {
        forall id | id in telemetry ensures WeekStart(telemetry[id].time) == w <==>
          w % 7 == 4 && w * 86_400_000_000 <= telemetry[id].time < (w + 7) * 86_400_000_000
        {
          WeekExact(telemetry[id].time, w);
        }
      }
    }
  }

  /** The text is its own UUID rendering, of version 4. */
  ghost predicate CanonicalV4(text: string) {
    ParseUuid(text) == Some(text) && |text| == 36 && text[14] == '4' && text[19] in "89ab"
  }

  lemma CanonicalExact(text: string)
    ensures OrderIdAccepted(text) <==> CanonicalV4(text)
  {
    if ParseUuid(text) == Some(text) { ParsedIsCanonical(text); }
  }

  ghost function Asked(telemetry: map<string, TelemetryRow>, week: int, text: string): bool {
    NamedInWeek(telemetry, MoveKey(OutboundOrderCreated, text), week)
  }

  /** The exit row is a dispatch of this order. */
  predicate Dispatches(exits: map<nat, StockExit>, x: nat, pk: nat) {
    x in exits && exits[x].orderPk == Some(pk) && exits[x].exitType.Dispatch?
  }

  lemma RequestedExact(telemetry: map<string, TelemetryRow>, week: int, text: string)
    ensures text in OutboundIds(telemetry, week) <==> Asked(telemetry, week, text)
  {
    hide KeysIn, WeekRows, NamedInWeek;
    KeysExact(telemetry, week, MoveKey(OutboundOrderCreated, text));
    if Asked(telemetry, week, text) { assert MoveKey(OutboundOrderCreated, text).identity == text; }
  }

  /** The record of an order: its own identity, site and client, and the number of its dispatch rows. */
  ghost predicate RecordsOrder(orders: map<nat, CommercialOrder>, exits: map<nat, StockExit>, pk: nat, record: OrderRecord) {
    && pk in orders && record.orderId == orders[pk].orderId && record.warehouse == orders[pk].warehouse
    && record.clientId == orders[pk].clientId
    && record.dispatchCount == |set x | x in exits && Dispatches(exits, x, pk)|
  }

  /** The records hold exactly the requested orders with a canonical id and a dispatch; the evidence is complete
      exactly when every requested id is canonical. */
  lemma RecordsExact(x: Extraction, telemetry: map<string, TelemetryRow>, orders: map<nat, CommercialOrder>,
                     exits: map<nat, StockExit>, week: int, id: string)
    requires IsExtraction(x, telemetry, orders, exits, week)
    ensures id in x.orders.records <==>
      && Asked(telemetry, week, id) && CanonicalV4(id)
      && exists pk, e :: pk in orders && orders[pk].orderId == id && Dispatches(exits, e, pk)
    ensures id in x.orders.records ==>
      exists pk :: RecordsOrder(orders, exits, pk, x.orders.records[id]) && orders[pk].orderId == id
    ensures x.orders.complete <==> forall text :: Asked(telemetry, week, text) ==> CanonicalV4(text)
  {
    hide OutboundIds, Asked, CanonicalV4, OrderIdAccepted, EvidenceOf, WeekRows;
    var requested := OutboundIds(telemetry, week);
    forall text ensures text in requested <==> Asked(telemetry, week, text) { RequestedExact(telemetry, week, text); }
    forall text ensures OrderIdAccepted(text) <==> CanonicalV4(text) { CanonicalExact(text); }
    var ids := set i | i in requested && OrderIdAccepted(i);
    assert ids == requested <==> forall text :: text in requested ==> OrderIdAccepted(text);
    forall pk ensures pk in RecordedOrders(orders, exits, ids) <==>
      pk in orders && orders[pk].orderId in ids && exists e :: Dispatches(exits, e, pk)
    {
      forall e ensures e in DispatchesOf(exits, pk) <==> Dispatches(exits, e, pk) {}
      if pk in RecordedOrders(orders, exits, ids) { var e :| e in DispatchesOf(exits, pk); }
    }
    forall pk | pk in orders ensures RecordsOrder(orders, exits, pk, RecordOf(orders, exits, pk)) {
      assert DispatchesOf(exits, pk) == set e | e in exits && Dispatches(exits, e, pk);
    }
    hide DispatchesOf, RecordedOrders, RecordOf, RecordsOrder;
    if id in x.orders.records {
      var pk :| pk in RecordedOrders(orders, exits, ids) && orders[pk].orderId == id;
      assert RecordsOrder(orders, exits, pk, x.orders.records[id]);
    }
  }
}
