/** What one delivery writes on both sides, where a call ends, and which rows a call delivers. */
module RelayOrder {
  import opened Basics
  import opened Identifiers
  import opened Vocabulary
  import opened InventoryTables
  import opened OutboxRelay

  // ----- one row -----

  /** The tags that may leave the operational database. */
  predicate Exported(t: EventType, name: TagName) {
    match name
    case Warehouse => Official(t)
    case ClientId => Official(t)
    case ProductId => Official(t) && !t.OutboundOrderCreated?
    case ProductCategory => Official(t) && !t.OutboundOrderCreated?
    case Quantity => Official(t) && !t.OutboundOrderCreated?
    case MovementId => t.InboundOrderCreated? || t.StockThresholdTriggered?
    case OrderId => t.OutboundOrderCreated?
    case ThresholdQuantity => t.StockThresholdTriggered?
    case SystemQuantity => t.InventoryDiscrepancyDetected?
    case CountedQuantity => t.InventoryDiscrepancyDetected?
    case DiscrepancyDelta => t.InventoryDiscrepancyDetected?
    case DiscrepancyType => t.InventoryDiscrepancyDetected?
    case CountId => t.InventoryDiscrepancyDetected?
    case OtherTag(_) => false
  }

  /** The destination row keeps id, time and type of the outbox row, and of its tags exactly those exported for the type. */
  lemma TargetExact(r: OutboxRow)
    ensures Target(r) == TelemetryRow(r.eventId, r.occurredAt, "api", r.eventType, Some("info"), None, None, Target(r).tags)
    ensures Target(r).tags.TagObject?
    ensures forall k :: k in Target(r).tags.tags <==> k in r.tags && Exported(r.eventType, k)
    ensures forall k :: k in Target(r).tags.tags ==> Target(r).tags.tags[k] == r.tags[k]
  {
  }

  /** The values that Python finds false. */
  const EMPTY_TAGS: set<Json> := {JNull, JBool(false), JInt(0), JReal(0.0), JStr(""), JList([]), JObject(map[])}

  predicate NoTags(c: TagColumn) {
    if c.TagObject? then c.tags == map[] else c.json in EMPTY_TAGS
  }

  /** A stored row conflicts with an event exactly when another column differs, or the tags differ and are not both
      empty. */
  lemma ConflictExact(telemetry: map<string, TelemetryRow>, row: TelemetryRow)
    ensures Conflicts(telemetry, row) <==>
      && row.id in telemetry
      && var stored := telemetry[row.id];
        || stored.(tags := row.tags) != row
        || (stored.tags != row.tags && !(NoTags(stored.tags) && NoTags(row.tags)))
  {
    assert forall c: TagColumn :: Falsy(c) <==> NoTags(c);
    hide Falsy, NoTags;
  }

  /** Both sides after one attempt. A conflict or a reported error is counted on the row with its code; a crash leaves
      it as it was; an acknowledgement clears the error and stamps the row. What the destination committed stays. */
  lemma AttemptExact(s: Stores, k: OutboxKey, fate: Fate, now: int)
    requires k in s.outbox
    ensures var row := s.outbox[k];
      var conflict := Conflicts(s.telemetry, Target(row));
      var arrives := !conflict && !fate.CrashBeforeDestination? && !fate.DestinationFails?;
      var telemetry := if arrives && row.eventId !in s.telemetry then s.telemetry[row.eventId := Target(row)] else s.telemetry;
      Attempt(s, k, fate, now) == Stores(s.outbox[k :=
        match fate
        case CrashBeforeDestination => row
        case DestinationFails(code) => OutboxRow(row.eventId, row.occurredAt, row.eventType, row.tags, row.publishedAt,
          row.attempts + 1, Some(code))
        case _ =>
          if conflict then OutboxRow(row.eventId, row.occurredAt, row.eventType, row.tags, row.publishedAt,
            row.attempts + 1, Some("destination_event_conflict"))
          else match fate
            case DestinationUncertain(code) => OutboxRow(row.eventId, row.occurredAt, row.eventType, row.tags,
              row.publishedAt, row.attempts + 1, Some(code))
            case CrashBeforeAck => row
            case _ => OutboxRow(row.eventId, row.occurredAt, row.eventType, row.tags, Some(now), row.attempts + 1, None)],
        telemetry)
  {
    hide Conflicts, FilterTags;
    assert s.outbox[k := s.outbox[k]] == s.outbox;
  }

  // ----- the order of a call -----

  /** The rows still waiting before this one: older, or of the same time with a smaller event id. */
  ghost function Ahead(s: Stores, locked: set<OutboxKey>, k: OutboxKey): set<OutboxKey>
    requires k in s.outbox
  {
    set j | j in s.outbox && j !in locked && s.outbox[j].publishedAt.None?
            && (s.outbox[j].occurredAt < s.outbox[k].occurredAt
                || (s.outbox[j].occurredAt == s.outbox[k].occurredAt && Less(s.outbox[j].eventId, s.outbox[k].eventId)))
  }

  lemma NoneAhead(s: Stores, locked: set<OutboxKey>, k: OutboxKey)
    requires EventIdsUnique(s)
    ensures NextRow(s, locked) == Some(k) <==> Pending(s, k) && k !in locked && Ahead(s, locked, k) == {}
  {
    hide Less;
    if Pending(s, k) && k !in locked && Ahead(s, locked, k) == {} {
      forall j | Pending(s, j) && j !in locked && j != k ensures Before(s.outbox[k], s.outbox[j]) {
        BeforeTotal(s.outbox[k], s.outbox[j]);
        assert j !in Ahead(s, locked, k);
      }
      assert IsNext(s, locked, k);
      NextUnique(s, locked, k);
    }
    if NextRow(s, locked) == Some(k) {
      forall j | Pending(s, j) && j !in locked ensures j !in Ahead(s, locked, k) {
        if j == k { LessTotal(s.outbox[k].eventId, s.outbox[k].eventId); } else { BeforeTotal(s.outbox[k], s.outbox[j]); }
      }
      assert Ahead(s, locked, k) == {};
    }
  }

  /** A call goes on after a delivery only: anything else that befalls a row is its last row, and its reply. */
  lemma FaultEndsCall(s: Stores, n: nat, limit: nat, w: Weather, k: OutboxKey)
    requires EventIdsUnique(s) && n < limit
    requires Pending(s, k) && k !in w.locked(n) && Ahead(s, w.locked(n), k) == {}
    ensures var fate, conflict := w.fate(n), Conflicts(s.telemetry, Target(s.outbox[k]));
      var s' := Attempt(s, k, fate, w.clock(n));
      Relayed(s, n, limit, w) ==
        if fate.Delivers? && !conflict then Relayed(s', n + 1, limit, w)
        else (s', match fate
          case CrashBeforeDestination => Aborted
          case DestinationFails(code) => Completed(n, 1, [code])
          case DestinationUncertain(code) => Completed(n, 1, [if conflict then "destination_event_conflict" else code])
          case _ => if conflict then Completed(n, 1, ["destination_event_conflict"]) else Aborted)
  {
    hide Conflicts, Attempt, Target, Ahead;
    NoneAhead(s, w.locked(n), k);
  }

  /** A fault-free call delivers exactly the first rows: a row waits on if and only if as many rows as the call may
      still deliver were waiting before it. */
  lemma {:induction false} FairCallInOrder(s: Stores, n: nat, limit: nat, w: Weather, k: OutboxKey)
    requires EventIdsUnique(s) && NoConflict(s) && Fair(w) && n <= limit && Pending(s, k)
    ensures k in Relayed(s, n, limit, w).0.outbox
    ensures Relayed(s, n, limit, w).0.outbox[k].publishedAt.None? <==> |Ahead(s, {}, k)| >= limit - n
    decreases limit - n
  {
    hide Less, Conflicts, Target, Ahead, Fair;
    if n < limit {
      assert w.fate(n).Delivers? && w.locked(n) == {} by { FairAt(w, n); }
      NextWhilePending(s);
      assert k in PendingKeys(s);
      var first := NextRow(s, {}).value;
      NoneAhead(s, {}, first);
      FaultEndsCall(s, n, limit, w, first);
      var s1 := Attempt(s, first, Delivers, w.clock(n));
      DeliveryShrinks(s, first, w.clock(n));
      if k == first {
        DeliveredStays(s1, n + 1, limit, w, k) by { DeliveredRow(s, k, w.clock(n)); }
      } else {
        FirstLeaves(s, s1, first, k, w.clock(n));
        FairCallInOrder(s1, n + 1, limit, w, k);
      }
    }
  }

  lemma FairAt(w: Weather, n: nat)
    requires Fair(w)
    ensures w.fate(n).Delivers? && w.locked(n) == {}
  {
  }

  lemma DeliveredRow(s: Stores, k: OutboxKey, now: int)
    requires Pending(s, k) && NoConflict(s)
    ensures var s1 := Attempt(s, k, Delivers, now); k in s1.outbox && s1.outbox[k].publishedAt.Some?
  {
    hide Conflicts, Target;
  }

  lemma {:induction false} DeliveredStays(s: Stores, n: nat, limit: nat, w: Weather, k: OutboxKey)
    requires k in s.outbox && s.outbox[k].publishedAt.Some?
    ensures k in Relayed(s, n, limit, w).0.outbox && Relayed(s, n, limit, w).0.outbox[k].publishedAt.Some?
    decreases limit - n
  {
    hide Conflicts, Target;
    if n < limit && NextRow(s, w.locked(n)).Some? {
      var j := NextRow(s, w.locked(n)).value;
      assert Pending(s, j);
      DeliveredStays(Attempt(s, j, w.fate(n), w.clock(n)), n + 1, limit, w, k);
    }
  }

  lemma FirstLeaves(s: Stores, s1: Stores, first: OutboxKey, k: OutboxKey, now: int)
    requires EventIdsUnique(s) && NoConflict(s) && Pending(s, first) && Pending(s, k) && k != first
    requires Ahead(s, {}, first) == {} && s1 == Attempt(s, first, Delivers, now)
    ensures Pending(s1, k) && |Ahead(s1, {}, k)| == |Ahead(s, {}, k)| - 1
  {
    hide Less, Conflicts, Target;
    assert s1.outbox == s.outbox[first := Acknowledged(s.outbox[first], now)];
    BeforeTotal(s.outbox[first], s.outbox[k]);
    assert k !in Ahead(s, {}, first);
    assert first in Ahead(s, {}, k);
    assert Ahead(s1, {}, k) == Ahead(s, {}, k) - {first};
  }
}
