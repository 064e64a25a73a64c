/** The relay from the operational outbox to telemetry, with a crash possible at every point. */
module OutboxRelay {
  import opened Basics
  import opened Identifiers
  import opened Vocabulary
  import opened InventoryTables

  /** The outbox table of the operational database and the telemetry table of the reporting one. */
  datatype Stores = Stores(outbox: map<OutboxKey, OutboxRow>, telemetry: map<string, TelemetryRow>)

  // ----- one destination insert -----

  /** `value or {}` replaces exactly the values Python finds false. */
  predicate Falsy(c: TagColumn) {
    match c
    case TagObject(tags) => tags == map[]
    case NotAnObject(json) =>
      json == JNull || json == JBool(false) || json == JInt(0) || json == JReal(0.0) || json == JStr("")
      || json == JList([]) || json == JObject(map[])
  }

  function Canonical(row: TelemetryRow): TelemetryRow {
    if Falsy(row.tags) then row.(tags := TagObject(map[])) else row
  }

  function Target(row: OutboxRow): TelemetryRow {
    MapOutboxEvent(row.eventId, row.occurredAt, row.eventType, row.tags)
  }

  predicate Conflicts(telemetry: map<string, TelemetryRow>, row: TelemetryRow) {
    row.id in telemetry && Canonical(telemetry[row.id]) != Canonical(row)
  }

  /** `INSERT ... ON CONFLICT (id) DO NOTHING`, without the comparison that follows it. */
  function Insert(telemetry: map<string, TelemetryRow>, row: TelemetryRow): map<string, TelemetryRow> {
    if row.id in telemetry then telemetry else telemetry[row.id := row]
  }

  // ----- one row -----

  /** What happens around the two commits of one row. */
  datatype Fate =
    | Delivers
    | DestinationFails(code: string)      // rolled back, and reported to the relay
    | DestinationUncertain(code: string)  // committed, but reported as an error
    | CrashBeforeDestination              // the process ends, or the source row cannot be updated
    | CrashBeforeAck                      // the destination commit is kept, the acknowledgement is not
    | AckUncertain                        // both commits are kept, the call still ends with an error

  predicate Pending(s: Stores, k: OutboxKey) { k in s.outbox && s.outbox[k].publishedAt.None? }

  const CONFLICT := "destination_event_conflict"

  function Failed(row: OutboxRow, code: string): OutboxRow {
    row.(attempts := row.attempts + 1, lastError := Some(code))
  }

  function Acknowledged(row: OutboxRow, now: int): OutboxRow {
    row.(publishedAt := Some(now), attempts := row.attempts + 1, lastError := None)
  }

  /** Both databases after one pending row was tried. */
  function Attempt(s: Stores, k: OutboxKey, fate: Fate, now: int): Stores
    requires k in s.outbox
  {
    var row := s.outbox[k];
    var target := Target(row);
    if fate.CrashBeforeDestination? then s
    else if fate.DestinationFails? then s.(outbox := s.outbox[k := Failed(row, fate.code)])
    else if Conflicts(s.telemetry, target) then s.(outbox := s.outbox[k := Failed(row, CONFLICT)])
    else
      var telemetry := Insert(s.telemetry, target);
      match fate
      case DestinationUncertain(code) => Stores(s.outbox[k := Failed(row, code)], telemetry)
      case CrashBeforeAck => Stores(s.outbox, telemetry)
      case _ => Stores(s.outbox[k := Acknowledged(row, now)], telemetry)
  }

  // ----- safety of one row -----

  /** A published row has its own event at the destination. */
  ghost predicate Faithful(s: Stores) {
    forall k :: k in s.outbox && s.outbox[k].publishedAt.Some? ==>
      s.outbox[k].eventId in s.telemetry
      && Canonical(s.telemetry[s.outbox[k].eventId]) == Canonical(Target(s.outbox[k]))
  }

  ghost predicate TelemetryKept(s: Stores, s': Stores) {
    forall id :: id in s.telemetry ==> id in s'.telemetry && s'.telemetry[id] == s.telemetry[id]
  }

  /** No crash and no retry overwrites a destination row or acknowledges an undelivered event. */
  lemma AttemptFaithful(s: Stores, k: OutboxKey, fate: Fate, now: int)
    requires Faithful(s) && Pending(s, k)
    ensures var s' := Attempt(s, k, fate, now);
      && Faithful(s') && TelemetryKept(s, s')
      && s'.outbox.Keys == s.outbox.Keys
      && (forall j :: j in s.outbox && j != k ==> s'.outbox[j] == s.outbox[j])
      && Target(s'.outbox[k]) == Target(s.outbox[k])
      && (Conflicts(s.telemetry, Target(s.outbox[k])) ==> Pending(s', k))
  {
    var s' := Attempt(s, k, fate, now);
    assert Target(s'.outbox[k]) == Target(s.outbox[k]);
    forall j | j in s'.outbox && s'.outbox[j].publishedAt.Some?
      ensures s'.outbox[j].eventId in s'.telemetry
      ensures Canonical(s'.telemetry[s'.outbox[j].eventId]) == Canonical(Target(s'.outbox[j]))
    {
      if j != k { assert s'.outbox[j] == s.outbox[j]; }
    }
  }

  // ----- one call -----

  /** `ORDER BY occurred_at, event_id` */
  predicate Before(a: OutboxRow, b: OutboxRow) {
    a.occurredAt < b.occurredAt || (a.occurredAt == b.occurredAt && Less(a.eventId, b.eventId))
  }

  /** The first pending row that `SKIP LOCKED` does not skip. */
  ghost predicate IsNext(s: Stores, locked: set<OutboxKey>, k: OutboxKey) {
    && Pending(s, k) && k !in locked
    && forall j :: Pending(s, j) && j !in locked && j != k ==> Before(s.outbox[k], s.outbox[j])
  }

  ghost predicate IsFirst(s: Stores, keys: set<OutboxKey>, k: OutboxKey) {
    && Pending(s, k)
    && forall j :: j in keys && Pending(s, j) && j != k ==> Before(s.outbox[k], s.outbox[j])
  }

  ghost predicate EventIdsUnique(s: Stores) {
    forall j, k :: j in s.outbox && k in s.outbox && s.outbox[j].eventId == s.outbox[k].eventId ==> j == k
  }

  datatype CallResult = Rejected | Aborted | Completed(delivered: nat, failed: nat, codes: seq<string>)

  /** The environment of a call: what befalls row `n`, the clock then, and the rows others hold. */
  datatype Weather = Weather(fate: nat -> Fate, clock: nat -> int, locked: nat -> set<OutboxKey>)

  ghost function NextRow(s: Stores, locked: set<OutboxKey>): (next: Option<OutboxKey>)
    ensures next.Some? ==> IsNext(s, locked, next.value)
  {
    if k :| IsNext(s, locked, k) then Some(k) else None
  }

  /** The call from its row `n` on. */
  ghost function Relayed(s: Stores, n: nat, limit: nat, w: Weather): (Stores, CallResult)
    decreases limit - n
  {
    var next := if n < limit then NextRow(s, w.locked(n)) else None;
    if next.None? then (s, Completed(n, 0, []))
    else
      var k, fate := next.value, w.fate(n);
      var s' := Attempt(s, k, fate, w.clock(n));
      if fate.CrashBeforeDestination? then (s', Aborted)
      else if fate.DestinationFails? then (s', Completed(n, 1, [fate.code]))
      else if Conflicts(s.telemetry, Target(s.outbox[k])) then (s', Completed(n, 1, [CONFLICT]))
      else match fate
        case DestinationUncertain(code) => (s', Completed(n, 1, [code]))
        case CrashBeforeAck => (s', Aborted)
        case AckUncertain => (s', Aborted)
        case _ => Relayed(s', n + 1, limit, w)
  }

  lemma BeforeTotal(a: OutboxRow, b: OutboxRow)
    requires a.eventId != b.eventId
    ensures Before(a, b) || Before(b, a)
    ensures !(Before(a, b) && Before(b, a))
  {
    LessTotal(a.eventId, b.eventId);
  }

  lemma BeforeTransitive(a: OutboxRow, b: OutboxRow, c: OutboxRow)
    requires Before(a, b) && Before(b, c)
    ensures Before(a, c)
  {
    if a.occurredAt == b.occurredAt == c.occurredAt { LessTransitive(a.eventId, b.eventId, c.eventId); }
  }

  lemma NextUnique(s: Stores, locked: set<OutboxKey>, k: OutboxKey)
    requires EventIdsUnique(s) && IsNext(s, locked, k)
    ensures NextRow(s, locked) == Some(k)
  {
    assert NextRow(s, locked).Some?;
    var j := NextRow(s, locked).value;
    if j != k {
      assert Pending(s, j) && Pending(s, k);
      BeforeTotal(s.outbox[j], s.outbox[k]);
    }
  }

  // ----- the call as a program -----

  class Relay {
    var outbox: map<OutboxKey, OutboxRow>
    var telemetry: map<string, TelemetryRow>

    function View(): Stores
      reads this
    {
      Stores(outbox, telemetry)
    }

    constructor (pending: map<OutboxKey, OutboxRow>, existing: map<string, TelemetryRow>)
      ensures View() == Stores(pending, existing)
    {
      outbox, telemetry := pending, existing;
    }

    method SelectNext(locked: set<OutboxKey>) returns (next: Option<OutboxKey>)
      requires EventIdsUnique(View())
      ensures next == NextRow(View(), locked)
    {
      ghost var s := View();
      var todo := set k | k in outbox && outbox[k].publishedAt.None? && k !in locked;
      next := None;
      ghost var seen: set<OutboxKey> := {};
      while todo != {}
        invariant forall k :: k in todo || k in seen <==> Pending(s, k) && k !in locked
        invariant next.None? ==> seen == {}
        invariant next.Some? ==> next.value in seen && IsFirst(s, seen, next.value)
        decreases |todo|
      {
        var k :| k in todo;
        if next.Some? && next.value != k { BeforeTotal(outbox[k], outbox[next.value]); }
        if next.None? || Before(outbox[k], outbox[next.value]) {
          forall j | j in seen && j != k ensures Before(s.outbox[k], s.outbox[j]) {
            if j != next.value { BeforeTransitive(s.outbox[k], s.outbox[next.value], s.outbox[j]); }
          }
          next := Some(k);
        }
        seen := seen + {k};
        todo := todo - {k};
      }
      if next.Some? {
        assert IsNext(s, locked, next.value);
        NextUnique(s, locked, next.value);
      } else {
        assert forall k :: !IsNext(s, locked, k);
      }
    }

    /** `relay_inventory_outbox`: the reply and both databases are those of the specified run. */
    method RelayInventoryOutbox(limit: int, w: Weather) returns (result: CallResult)
      requires EventIdsUnique(View())
      modifies this
      ensures limit <= 0 ==> result == Rejected && View() == old(View())
      ensures limit > 0 ==> (View(), result) == Relayed(old(View()), 0, limit, w)
    {
      if limit <= 0 { return Rejected; }
      for n := 0 to limit
        invariant EventIdsUnique(View())
        invariant Relayed(View(), n, limit, w) == Relayed(old(View()), 0, limit, w)
      {
        var next := SelectNext(w.locked(n));
        if next.None? { return Completed(n, 0, []); }
        var k, fate := next.value, w.fate(n);
        assert Pending(View(), k);
        var row := outbox[k];
        var target := Target(row);
        if fate.CrashBeforeDestination? { return Aborted; }
        if fate.DestinationFails? {
          outbox := outbox[k := Failed(row, fate.code)];
          return Completed(n, 1, [fate.code]);
        }
        if Conflicts(telemetry, target) {
          outbox := outbox[k := Failed(row, CONFLICT)];
          return Completed(n, 1, [CONFLICT]);
        }
        telemetry := Insert(telemetry, target);
        if fate.DestinationUncertain? {
          outbox := outbox[k := Failed(row, fate.code)];
          return Completed(n, 1, [fate.code]);
        }
        if fate.CrashBeforeAck? { return Aborted; }
        outbox := outbox[k := Acknowledged(row, w.clock(n))];
        if fate.AckUncertain? { return Aborted; }
      }
      result := Completed(limit, 0, []);
    }
  }

  // ----- whole calls -----

  ghost predicate CallSafe(s: Stores, s': Stores) {
    && Faithful(s') && TelemetryKept(s, s') && s'.outbox.Keys == s.outbox.Keys
    && (forall k :: k in s.outbox ==> Target(s'.outbox[k]) == Target(s.outbox[k]))
    && (forall k :: Pending(s, k) && Conflicts(s.telemetry, Target(s.outbox[k])) ==> Pending(s', k))
    && (forall k :: k in s.outbox && !Pending(s, k) ==> s'.outbox[k] == s.outbox[k])
  }

  lemma {:induction false} CallIsSafe(s: Stores, n: nat, limit: nat, w: Weather)
    requires Faithful(s)
    ensures CallSafe(s, Relayed(s, n, limit, w).0)
    decreases limit - n
  {
    hide Faithful, TelemetryKept, Conflicts, Target;
    var next := if n < limit then NextRow(s, w.locked(n)) else None;
    KeptSame(s);
    if next.Some? {
      var k := next.value;
      assert Pending(s, k);
      AttemptFaithful(s, k, w.fate(n), w.clock(n));
      var s1 := Attempt(s, k, w.fate(n), w.clock(n));
      if w.fate(n).Delivers? && !Conflicts(s.telemetry, Target(s.outbox[k])) {
        CallIsSafe(s1, n + 1, limit, w);
        CallSafeTransitive(s, s1, Relayed(s1, n + 1, limit, w).0, k);
      }
    }
  }

  lemma KeptSame(s: Stores)
    ensures TelemetryKept(s, s)
  {
  }

  lemma CallSafeTransitive(s: Stores, s1: Stores, s2: Stores, k: OutboxKey)
    requires TelemetryKept(s, s1) && s1.outbox.Keys == s.outbox.Keys && Pending(s, k)
    requires forall j :: j in s.outbox && j != k ==> s1.outbox[j] == s.outbox[j]
    requires Target(s1.outbox[k]) == Target(s.outbox[k]) && !Conflicts(s.telemetry, Target(s.outbox[k]))
    requires CallSafe(s1, s2)
    ensures CallSafe(s, s2)
  {
    hide Target, Faithful;
    forall j | Pending(s, j) && Conflicts(s.telemetry, Target(s.outbox[j])) ensures Pending(s2, j) {
      assert j != k && Pending(s1, j) && Conflicts(s1.telemetry, Target(s1.outbox[j]));
    }
  }

  // ----- progress -----

  ghost function PendingKeys(s: Stores): set<OutboxKey> { set k | k in s.outbox && s.outbox[k].publishedAt.None? }

  ghost predicate NoConflict(s: Stores) { forall k :: Pending(s, k) ==> !Conflicts(s.telemetry, Target(s.outbox[k])) }

  ghost predicate Fair(w: Weather) { forall n :: w.fate(n).Delivers? && w.locked(n) == {} }

  /** Some pending row is first, as long as there is one. */
  lemma {:induction false} FirstExists(s: Stores, keys: set<OutboxKey>) returns (k: OutboxKey)
    requires EventIdsUnique(s) && keys != {} && forall j :: j in keys ==> Pending(s, j)
    ensures k in keys && IsFirst(s, keys, k)
    decreases |keys|
  {
    k :| k in keys;
    if keys != {k} {
      var m := FirstExists(s, keys - {k});
      BeforeTotal(s.outbox[k], s.outbox[m]);
      if Before(s.outbox[m], s.outbox[k]) {
        k := m;
      } else {
        forall j | j in keys && j != k ensures Before(s.outbox[k], s.outbox[j]) {
          if j != m { BeforeTransitive(s.outbox[k], s.outbox[m], s.outbox[j]); }
        }
      }
    }
  }

  lemma NextWhilePending(s: Stores)
    requires EventIdsUnique(s)
    ensures NextRow(s, {}).Some? <==> PendingKeys(s) != {}
  {
    if PendingKeys(s) != {} {
      var k := FirstExists(s, PendingKeys(s));
      assert IsNext(s, {}, k);
    } else {
      assert forall k :: !Pending(s, k) by { forall k ensures !Pending(s, k) { assert k !in PendingKeys(s); } }
    }
  }

  lemma DeliveryShrinks(s: Stores, k: OutboxKey, now: int)
    requires Pending(s, k) && NoConflict(s) && EventIdsUnique(s)
    ensures var s' := Attempt(s, k, Delivers, now);
      && PendingKeys(s') == PendingKeys(s) - {k} && NoConflict(s') && EventIdsUnique(s')
  {
    var s' := Attempt(s, k, Delivers, now);
    assert s'.outbox.Keys == s.outbox.Keys;
    forall j | Pending(s', j) ensures !Conflicts(s'.telemetry, Target(s'.outbox[j])) {
      assert j != k && s'.outbox[j] == s.outbox[j] && Pending(s, j);
    }
  }

  /** A fault-free call delivers as many pending rows as its limit allows, and reports that number. */
  lemma {:induction false} FairCall(s: Stores, n: nat, limit: nat, w: Weather)
    requires EventIdsUnique(s) && NoConflict(s) && Fair(w) && n <= limit
    ensures var (s', result) := Relayed(s, n, limit, w);
      var moved := if |PendingKeys(s)| < limit - n then |PendingKeys(s)| else limit - n;
      && result == Completed(n + moved, 0, [])
      && |PendingKeys(s')| == |PendingKeys(s)| - moved && PendingKeys(s') <= PendingKeys(s)
      && EventIdsUnique(s') && NoConflict(s')
    decreases limit - n
  {
    NextWhilePending(s);
    if n < limit && PendingKeys(s) != {} {
      var k := NextRow(s, {}).value;
      assert Pending(s, k) && k in PendingKeys(s);
      DeliveryShrinks(s, k, w.clock(n));
      FairCall(Attempt(s, k, Delivers, w.clock(n)), n + 1, limit, w);
    }
  }

  /** Calls one after the other. */
  ghost function RelayCalls(s: Stores, limit: nat, weathers: seq<Weather>): Stores
    decreases |weathers|
  {
    if weathers == [] then s else RelayCalls(Relayed(s, 0, limit, weathers[0]).0, limit, weathers[1..])
  }

  /** Enough fault-free calls empty the outbox. */
  lemma {:induction false} OutboxDrains(s: Stores, limit: nat, weathers: seq<Weather>)
    requires EventIdsUnique(s) && NoConflict(s) && limit > 0 && forall w :: w in weathers ==> Fair(w)
    requires |weathers| * limit >= |PendingKeys(s)|
    ensures PendingKeys(RelayCalls(s, limit, weathers)) == {}
    decreases |weathers|
  {
    if weathers != [] {
      FairCall(s, 0, limit, weathers[0]);
      var s1 := Relayed(s, 0, limit, weathers[0]).0;
      assert (|weathers| - 1) * limit == |weathers| * limit - limit;
      OutboxDrains(s1, limit, weathers[1..]);
    }
  }

  predicate Blocked(s: Stores, k: OutboxKey) { Pending(s, k) && Conflicts(s.telemetry, Target(s.outbox[k])) }

  lemma AttemptBlocked(s: Stores, j: OutboxKey, k: OutboxKey, fate: Fate, now: int)
    requires Blocked(s, k) && Pending(s, j)
    ensures Blocked(Attempt(s, j, fate, now), k)
  {
  }

  /** A conflicting row stays pending through any call, whatever fails in it. */
  lemma {:induction false} CallBlocked(s: Stores, n: nat, limit: nat, w: Weather, k: OutboxKey)
    requires Blocked(s, k)
    ensures Blocked(Relayed(s, n, limit, w).0, k)
    decreases limit - n
  {
    hide Blocked, Attempt;
    if n < limit && NextRow(s, w.locked(n)).Some? {
      var j := NextRow(s, w.locked(n)).value;
      AttemptBlocked(s, j, k, w.fate(n), w.clock(n));
      CallBlocked(Attempt(s, j, w.fate(n), w.clock(n)), n + 1, limit, w, k);
    }
  }

  lemma {:induction false} CallsBlocked(s: Stores, limit: nat, weathers: seq<Weather>, k: OutboxKey)
    requires Blocked(s, k)
    ensures Blocked(RelayCalls(s, limit, weathers), k)
    decreases |weathers|
  {
    hide Blocked, Relayed;
    if weathers != [] {
      CallBlocked(s, 0, limit, weathers[0], k);
      CallsBlocked(Relayed(s, 0, limit, weathers[0]).0, limit, weathers[1..], k);
    }
  }

  /** Enough fault-free calls empty the outbox if and only if no pending row conflicts with the destination. */
  lemma DrainsIffNoConflict(s: Stores, limit: nat, weathers: seq<Weather>)
    requires EventIdsUnique(s) && limit > 0 && (forall w :: w in weathers ==> Fair(w))
    requires |weathers| * limit >= |PendingKeys(s)|
    ensures PendingKeys(RelayCalls(s, limit, weathers)) == {} <==> NoConflict(s)
  {
    hide Conflicts, Target, RelayCalls;
    if NoConflict(s) {
      OutboxDrains(s, limit, weathers);
    } else {
      var k :| Pending(s, k) && Conflicts(s.telemetry, Target(s.outbox[k]));
      CallsBlocked(s, limit, weathers, k);
      assert k in PendingKeys(RelayCalls(s, limit, weathers));
    }
  }

  lemma TargetKept(s: Stores, k: OutboxKey, fate: Fate, now: int)
    requires k in s.outbox
    ensures var s' := Attempt(s, k, fate, now);
      s'.outbox.Keys == s.outbox.Keys && Target(s'.outbox[k]) == Target(s.outbox[k])
  {
  }

  lemma ConflictStays(s: Stores, k: OutboxKey, fate: Fate, now: int)
    requires EventIdsUnique(s) && IsNext(s, {}, k) && Conflicts(s.telemetry, Target(s.outbox[k]))
    ensures var s' := Attempt(s, k, fate, now);
      && s'.telemetry == s.telemetry && PendingKeys(s') == PendingKeys(s)
      && EventIdsUnique(s') && IsNext(s', {}, k) && Conflicts(s'.telemetry, Target(s'.outbox[k]))
  {
    hide Target, Conflicts;
    var s' := Attempt(s, k, fate, now);
    assert s'.outbox.Keys == s.outbox.Keys && Target(s'.outbox[k]) == Target(s.outbox[k]) by {
      TargetKept(s, k, fate, now);
    }
    forall j | Pending(s', j) && j != k ensures Before(s'.outbox[k], s'.outbox[j]) { assert Pending(s, j); }
  }

  /** A conflicting row at the head of the queue is all that any call reaches: nothing is delivered
      behind it, whatever the number of calls. */
  lemma {:induction false} ConflictBlocks(s: Stores, k: OutboxKey, limit: nat, weathers: seq<Weather>)
    requires EventIdsUnique(s) && IsNext(s, {}, k) && Conflicts(s.telemetry, Target(s.outbox[k])) && limit > 0
    requires forall w :: w in weathers ==> forall n :: w.locked(n) == {}
    ensures var s' := RelayCalls(s, limit, weathers);
      s'.telemetry == s.telemetry && PendingKeys(s') == PendingKeys(s)
    decreases |weathers|
  {
    if weathers != [] {
      var w := weathers[0];
      assert w.locked(0) == {};
      NextUnique(s, {}, k);
      var s1 := Relayed(s, 0, limit, w).0;
      assert s1 == Attempt(s, k, w.fate(0), w.clock(0));
      ConflictStays(s, k, w.fate(0), w.clock(0));
      ConflictBlocks(s1, k, limit, weathers[1..]);
    }
  }
}
