/** Event vocabulary shared by the producer, the audit and the weekly transformation. */
module Vocabulary {
  import opened Basics

  /** JSON with structural equality; numbers, booleans and containers are never confused. */
  datatype Json =
    | JNull
    | JBool(flag: bool)
    | JInt(number: int)
    | JReal(decimal: real)
    | JStr(text: string)
    | JList(items: seq<Json>)
    | JObject(fields: map<string, Json>)

  datatype TagName =
    | Warehouse | ClientId | ProductId | ProductCategory | Quantity | MovementId | OrderId
    | ThresholdQuantity | SystemQuantity | CountedQuantity | DiscrepancyDelta | DiscrepancyType
    | CountId | OtherTag(name: string)

  type Tags = map<TagName, Json>

  /** A JSONB `tags` column holds an object or any other JSON value. */
  datatype TagColumn = TagObject(tags: Tags) | NotAnObject(json: Json)

  datatype EventType =
    | InboundOrderCreated
    | OutboundOrderCreated
    | StockThresholdTriggered
    | InventoryDiscrepancyDetected
    | OtherEvent(name: string)

  predicate Official(t: EventType) { !t.OtherEvent? }

  datatype SourceTable = StockEntryTable | StockExitTable | CommercialOrderTable | PhysicalCountTable

  /** The only event each source table may enqueue. */
  function SourceEvent(source: SourceTable): EventType {
    match source
    case StockEntryTable => InboundOrderCreated
    case StockExitTable => StockThresholdTriggered
    case CommercialOrderTable => OutboundOrderCreated
    case PhysicalCountTable => InventoryDiscrepancyDetected
  }

  // ----- warehouses -----

  function TelemetryWarehouse(w: string): Option<string> {
    if w == "LA" || w == "Los Angeles" then Some("los_angeles")
    else if w == "ZGZ" || w == "Zaragoza" then Some("zaragoza")
    else None
  }

  function CanonicalWarehouse(w: string): Option<string> {
    if w == "los_angeles" || w == "zaragoza" then Some(w) else TelemetryWarehouse(w)
  }

  function JsonOf(text: Option<string>): Json {
    if text.Some? then JStr(text.value) else JNull
  }

  // ----- telemetry rows -----

  datatype TelemetryRow = TelemetryRow(
    id: string,
    time: int,
    service: string,
    eventType: EventType,
    level: Option<string>,
    value: Option<real>,
    message: Option<string>,
    tags: TagColumn)

  function Allowlist(t: EventType): set<TagName> {
    match t
    case InboundOrderCreated => {Warehouse, ClientId, ProductId, ProductCategory, Quantity, MovementId}
    case OutboundOrderCreated => {Warehouse, ClientId, OrderId}
    case StockThresholdTriggered =>
      {Warehouse, ClientId, ProductId, ProductCategory, Quantity, ThresholdQuantity, MovementId}
    case InventoryDiscrepancyDetected =>
      {Warehouse, ClientId, ProductId, ProductCategory, Quantity, SystemQuantity, CountedQuantity,
       DiscrepancyDelta, DiscrepancyType, CountId}
    case OtherEvent(_) => {}
  }

  function FilterTags(t: EventType, tags: Tags): Tags {
    map k | k in tags && k in Allowlist(t) :: tags[k]
  }

  const API := "api"

  function MapOutboxEvent(eventId: string, occurredAt: int, t: EventType, tags: Tags): TelemetryRow {
    TelemetryRow(eventId, occurredAt, API, t, Some("info"), None, None, TagObject(FilterTags(t, tags)))
  }

  /** Rows of the four business events that claim to come from the API. */
  predicate OfficialRow(row: TelemetryRow) { row.service == API && Official(row.eventType) }

  lemma FilterTagsExact(t: EventType, tags: Tags)
    requires tags.Keys <= Allowlist(t)
    ensures FilterTags(t, tags) == tags
  {
  }

  // ----- ISO weeks -----

  /** Instants are UTC microseconds since 1970-01-01, a Thursday; dates are day numbers. */
  const DAY := 86_400_000_000

  /** `timestamp.date() - timedelta(days=timestamp.weekday())` */
  function WeekStart(time: int): int {
    var day := time / DAY;
    day - (day + 3) % 7
  }

  predicate IsMonday(day: int) { (day + 3) % 7 == 0 }

  predicate InWeek(time: int, week: int) { week * DAY <= time < (week + 7) * DAY }

  /** The week of an instant starts at most seven days before it, on a day that is four after a multiple of seven:
      1970-01-05, day 4, was a Monday. */
  lemma WeekStartExact(time: int)
    ensures IsMonday(WeekStart(time)) && WeekStart(time) % 7 == 4
    ensures WeekStart(time) * 86_400_000_000 <= time < (WeekStart(time) + 7) * 86_400_000_000
    ensures forall day :: IsMonday(day) <==> day % 7 == 4
  {
    var day := time / DAY;
    assert day * DAY <= time < (day + 1) * DAY;
    assert day - 6 <= WeekStart(time) <= day;
  }

  /** The half-open bounds of a Monday contain exactly the instants whose ISO week it is. */
  lemma WeekBoundsExact(time: int, week: int)
    requires IsMonday(week)
    ensures InWeek(time, week) <==> WeekStart(time) == week
  {
    var day := time / DAY;
    assert day * DAY <= time < (day + 1) * DAY;
    assert InWeek(time, week) <==> week <= day < week + 7;
  }
}
