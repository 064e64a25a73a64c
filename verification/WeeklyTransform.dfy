/** The weekly transformation as it runs, loop by loop, proved to compute the specified result. */
module WeeklyTransform {
  import opened Basics
  import opened Identifiers
  import opened Vocabulary
  import opened WeeklyPerformance

  // ----- rows by id -----

  lemma {:induction false} RowsByIdMembers(rows: seq<RawRow>, id: string)
    ensures forall r :: r in RowsById(rows, id) <==> r in RowsWith(SetOf(rows), id)
  {
    if rows != [] {
      RowsByIdMembers(rows[..|rows| - 1], id);
      assert rows == rows[..|rows| - 1] + [rows[|rows| - 1]];
    }
  }

  lemma IndexedIds(rows: seq<RawRow>, id: string)
    ensures RowsById(rows, id) != [] <==> id in Ids(SetOf(rows))
  {
    hide ParseUuid, RowsById;
    RowsByIdMembers(rows, id);
    if RowsById(rows, id) != [] { assert RowsById(rows, id)[0] in RowsWith(SetOf(rows), id); }
    if id in Ids(SetOf(rows)) {
      var r :| r in SetOf(rows) && ParseUuid(r.id).Some? && ParseUuid(r.id).value == id;
      assert r in RowsWith(SetOf(rows), id);
    }
  }

  ghost predicate AnyUnreadable(rows: seq<RawRow>) { exists r :: r in rows && ParseUuid(r.id).None? }

  ghost predicate Indexed(byId: map<string, seq<RawRow>>, rows: seq<RawRow>) {
    && (forall id :: id in byId <==> RowsById(rows, id) != [])
    && (forall id :: id in byId ==> byId[id] == RowsById(rows, id))
  }

  lemma IndexedNext(byId: map<string, seq<RawRow>>, rows: seq<RawRow>, row: RawRow)
    requires Indexed(byId, rows)
    ensures AnyUnreadable(rows + [row]) <==> AnyUnreadable(rows) || ParseUuid(row.id).None?
    ensures ParseUuid(row.id).None? ==> Indexed(byId, rows + [row])
    ensures ParseUuid(row.id).Some? ==>
      var id := ParseUuid(row.id).value;
      Indexed(byId[id := (if id in byId then byId[id] else []) + [row]], rows + [row])
  {
    hide ParseUuid;
    assert (rows + [row])[..|rows|] == rows;
  }

  /** `by_row_id[_row_id(row.get("id"))].append(row)` */
  method IndexRows(rows: seq<RawRow>) returns (byId: map<string, seq<RawRow>>, unreadable: bool)
    ensures Indexed(byId, rows)
    ensures unreadable <==> AnyUnreadable(rows)
  {
    byId, unreadable := map[], false;
    assert Indexed(byId, rows[..0]);
    for n := 0 to |rows|
      invariant Indexed(byId, rows[..n])
      invariant unreadable <==> AnyUnreadable(rows[..n])
    {
      hide ParseUuid, Indexed, AnyUnreadable;
      var row := rows[n];
      assert rows[..n + 1] == rows[..n] + [row];
      IndexedNext(byId, rows[..n], row);
      var id := ParseUuid(row.id);
      if id.None? {
        unreadable := true;
      } else {
        byId := byId[id.value := (if id.value in byId then byId[id.value] else []) + [row]];
      }
    }
    assert rows[..|rows|] == rows;
  }

  /** `all(_same_persisted_row(rows[0], row) for row in rows[1:])` compares every pair. */
  lemma FirstAgreesWithAll(rows: seq<RawRow>, id: string)
    requires RowsById(rows, id) != []
    ensures var found := RowsById(rows, id);
      (forall r :: r in found[1..] ==> SameRow(found[0], r)) <==> Consistent(SetOf(rows), id)
  {
    var found := RowsById(rows, id);
    RowsByIdMembers(rows, id);
    assert found == [found[0]] + found[1..];
    if Consistent(SetOf(rows), id) {
      forall r | r in found[1..] ensures SameRow(found[0], r) { assert r in found && found[0] in found; }
    }
  }

  /** What is known of the ids already compared. */
  ghost predicate Compared(rows: seq<RawRow>, done: set<string>, unique: map<string, RawRow>, broken: set<string>,
                           repeated: set<string>) {
    && (forall id :: id in broken <==> id in done && !Consistent(SetOf(rows), id))
    && (forall id :: id in repeated <==> id in done && Consistent(SetOf(rows), id) && |RowsById(rows, id)| > 1)
    && (forall id :: id in unique <==> id in done && Consistent(SetOf(rows), id))
    && (forall id :: id in unique ==> RowsById(rows, id) != [] && unique[id] == RowsById(rows, id)[0])
  }

  lemma ComparedSame(rows: seq<RawRow>, done: set<string>, unique: map<string, RawRow>, broken: set<string>,
                     repeated: set<string>, id: string)
    requires Compared(rows, done, unique, broken, repeated) && RowsById(rows, id) != [] && Consistent(SetOf(rows), id)
    ensures Compared(rows, done + {id}, unique[id := RowsById(rows, id)[0]], broken,
      if |RowsById(rows, id)| > 1 then repeated + {id} else repeated)
  {
    hide Consistent, RowsById, SetOf;
  }

  lemma ComparedBroken(rows: seq<RawRow>, done: set<string>, unique: map<string, RawRow>, broken: set<string>,
                       repeated: set<string>, id: string)
    requires Compared(rows, done, unique, broken, repeated) && !Consistent(SetOf(rows), id)
    ensures Compared(rows, done + {id}, unique, broken + {id}, repeated)
  {
    hide Consistent, RowsById, SetOf;
  }

  lemma ComparedAll(rows: seq<RawRow>, unique: map<string, RawRow>, broken: set<string>, repeated: set<string>)
    requires Compared(rows, Ids(SetOf(rows)), unique, broken, repeated)
    ensures broken == BrokenIds(SetOf(rows)) && repeated == RepeatedRows(rows)
    ensures unique.Keys == Ids(SetOf(rows)) - broken
    ensures forall id :: id in unique ==> unique[id] in rows && ParseUuid(unique[id].id) == Some(id)
  {
    hide ParseUuid, Consistent, RowsById, Ids, SetOf;
    forall id | id in unique ensures unique[id] in rows && ParseUuid(unique[id].id) == Some(id) { FirstIsRow(rows, id); }
  }

  /** One row for each id of one content; the ids of several contents; the ids that repeat. */
  method UniqueRows(rows: seq<RawRow>, byId: map<string, seq<RawRow>>)
    returns (unique: map<string, RawRow>, broken: set<string>, repeated: set<string>)
    requires Indexed(byId, rows)
    ensures broken == BrokenIds(SetOf(rows)) && repeated == RepeatedRows(rows)
    ensures unique.Keys == Ids(SetOf(rows)) - broken
    ensures forall id :: id in unique ==> unique[id] in rows && ParseUuid(unique[id].id) == Some(id)
  {
    hide ParseUuid, SameRow, Consistent, RowsById, Ids, SetOf, RepeatedRows, BrokenIds;
    unique, broken, repeated := map[], {}, {};
    forall id ensures id in byId <==> id in Ids(SetOf(rows)) { IndexedIds(rows, id); }
    assert byId.Keys == Ids(SetOf(rows));
    var todo := byId.Keys;
    ghost var done: set<string> := {};
    while todo != {}
      invariant done == byId.Keys - todo && todo <= byId.Keys
      invariant Compared(rows, done, unique, broken, repeated)
      decreases |todo|
    {
      hide Compared;
      var id :| id in todo;
      var found := byId[id];
      FirstAgreesWithAll(rows, id);
      var same := forall r :: r in found[1..] ==> SameRow(found[0], r);
      if same {
        ComparedSame(rows, done, unique, broken, repeated, id);
        unique, repeated := unique[id := found[0]], if |found| > 1 then repeated + {id} else repeated;
      } else {
        ComparedBroken(rows, done, unique, broken, repeated, id);
        broken := broken + {id};
      }
      todo, done := todo - {id}, done + {id};
    }
    assert done == Ids(SetOf(rows));
    ComparedAll(rows, unique, broken, repeated);
  }

  lemma FirstIsRow(rows: seq<RawRow>, id: string)
    requires RowsById(rows, id) != []
    ensures RowsById(rows, id)[0] in rows && ParseUuid(RowsById(rows, id)[0].id) == Some(id)
  {
    hide ParseUuid, RowsById;
    RowsByIdMembers(rows, id);
    assert RowsById(rows, id)[0] in RowsWith(SetOf(rows), id);
  }

  /** All rows of one content validate alike. */
  lemma SameRowValidates(a: RawRow, b: RawRow)
    requires SameRow(a, b) && ParseUuid(a.id) == ParseUuid(b.id)
    ensures ValidateRow(a) == ValidateRow(b)
  {
  }

  method ValidateRows(rows: set<RawRow>, unique: map<string, RawRow>) returns (events: set<Event>, invalid: set<string>)
    requires unique.Keys == Ids(rows) - BrokenIds(rows)
    requires forall id :: id in unique ==> unique[id] in rows && ParseUuid(unique[id].id) == Some(id)
    ensures events == ValidEvents(rows) && invalid == InvalidIds(rows)
  {
    hide ParseUuid, ValidateRow, Consistent;
    events, invalid := {}, {};
    var todo := unique.Keys;
    while todo != {}
      invariant todo <= unique.Keys
      invariant events == set id | id in unique.Keys - todo && ValidateRow(unique[id]).Some? :: ValidateRow(unique[id]).value
      invariant invalid == set id | id in unique.Keys - todo && ValidateRow(unique[id]).None?
      decreases |todo|
    {
      var id :| id in todo;
      var event := ValidateRow(unique[id]);
      if event.Some? { events := events + {event.value}; } else { invalid := invalid + {id}; }
      todo := todo - {id};
    }
    forall r | r in rows && ParseUuid(r.id).Some? && Consistent(rows, ParseUuid(r.id).value)
      ensures ParseUuid(r.id).value in unique && ValidateRow(unique[ParseUuid(r.id).value]) == ValidateRow(r)
    {
      UniqueStandsFor(rows, unique, r);
    }
    forall id | id in unique ensures Consistent(rows, id) {}
  }

  lemma UniqueStandsFor(rows: set<RawRow>, unique: map<string, RawRow>, r: RawRow)
    requires unique.Keys == Ids(rows) - BrokenIds(rows)
    requires forall id :: id in unique ==> unique[id] in rows && ParseUuid(unique[id].id) == Some(id)
    requires r in rows && ParseUuid(r.id).Some? && Consistent(rows, ParseUuid(r.id).value)
    ensures ParseUuid(r.id).value in unique && ValidateRow(unique[ParseUuid(r.id).value]) == ValidateRow(r)
  {
    hide ParseUuid, ValidateRow, SameRow;
    var id := ParseUuid(r.id).value;
    assert id in Ids(rows) && id in unique;
    assert unique[id] in RowsWith(rows, id) && r in RowsWith(rows, id);
    SameRowValidates(unique[id], r);
  }

  // ----- identities -----

  ghost predicate Grouped(groups: map<MoveKey, set<Event>>, events: set<Event>) {
    groups.Keys == KeysOf(events) && forall k :: k in groups ==> groups[k] == Group(events, k)
  }

  lemma GroupedNext(groups: map<MoveKey, set<Event>>, events: set<Event>, e: Event)
    requires Grouped(groups, events)
    ensures Grouped(groups[KeyOf(e) := (if KeyOf(e) in groups then groups[KeyOf(e)] else {}) + {e}], events + {e})
  {
    var next := groups[KeyOf(e) := (if KeyOf(e) in groups then groups[KeyOf(e)] else {}) + {e}];
    assert KeysOf(events + {e}) == KeysOf(events) + {KeyOf(e)};
    forall k | k in next ensures next[k] == Group(events + {e}, k) {
      if k == KeyOf(e) {
        if k !in groups { assert Group(events, k) == {}; }
        assert Group(events + {e}, k) == Group(events, k) + {e};
      } else {
        assert Group(events + {e}, k) == Group(events, k);
      }
    }
  }

  method GroupEvents(events: set<Event>) returns (groups: map<MoveKey, set<Event>>)
    ensures Grouped(groups, events)
  {
    groups := map[];
    var todo := events;
    assert Grouped(groups, events - todo);
    while todo != {}
      invariant todo <= events && Grouped(groups, events - todo)
      decreases |todo|
    {
      hide Grouped;
      var e :| e in todo;
      GroupedNext(groups, events - todo, e);
      assert events - (todo - {e}) == events - todo + {e};
      groups := groups[KeyOf(e) := (if KeyOf(e) in groups then groups[KeyOf(e)] else {}) + {e}];
      todo := todo - {e};
    }
    assert events - todo == events;
  }

  /** `group[0]` of the group sorted by row id. */
  method First(group: set<Event>) returns (first: Event)
    requires group != {} && IdsUnique(group)
    ensures first in group && forall o :: o in group && o != first ==> Less(first.rowId, o.rowId)
  {
    first :| first in group;
    var todo := group - {first};
    while todo != {}
      invariant todo <= group && first in group && first !in todo
      invariant forall o :: o in group - todo && o != first ==> Less(first.rowId, o.rowId)
      decreases |todo|
    {
      var e :| e in todo;
      LessTotal(e.rowId, first.rowId);
      if Less(e.rowId, first.rowId) {
        forall o | o in group - todo && o != first ensures Less(e.rowId, o.rowId) {
          LessTransitive(e.rowId, first.rowId, o.rowId);
        }
        first := e;
      }
      todo := todo - {e};
    }
  }

  datatype Identities = Identities(
    kept: set<Event>, again: set<Event>, clash: set<Event>, pending: set<MoveKey>)

  ghost predicate Sorted(events: set<Event>, evidence: map<MoveKey, Evidence>, done: set<MoveKey>, i: Identities) {
    && i.kept == (set e | e in Consolidated(events, evidence) && KeyOf(e) in done)
    && i.again == (set e | e in Repetitions(events, evidence) && KeyOf(e) in done)
    && i.clash == (set e | e in InConflict(events, evidence) && KeyOf(e) in done)
    && i.pending == (set k | k in done && Unverified(evidence, k))
  }

  /** The loop over the identities: verification, conflict, representative. */
  method SortIdentities(events: set<Event>, evidence: map<MoveKey, Evidence>) returns (i: Identities)
    requires IdsUnique(events)
    ensures i == Identities(Consolidated(events, evidence), Repetitions(events, evidence), InConflict(events, evidence),
      set k | k in KeysOf(events) && Unverified(evidence, k))
  {
    hide Conflicting, Represents, Unverified, Less;
    var groups := GroupEvents(events);
    i := Identities({}, {}, {}, {});
    var todo := groups.Keys;
    while todo != {}
      invariant todo <= groups.Keys
      invariant Sorted(events, evidence, groups.Keys - todo, i)
      decreases |todo|
    {
      hide Sorted, KeysOf, Group;
      var k :| k in todo;
      ghost var done := groups.Keys - todo;
      assert groups.Keys - (todo - {k}) == done + {k};
      GroupNonEmpty(events, k);
      var group := groups[k];
      var pending := if Unverified(evidence, k) then i.pending + {k} else i.pending;
      var observed := Weeks(group);
      GroupVerdict(events, evidence, k);
      if (exists a, b :: a in group && b in group && !SameSignature(a, b)) || CrossWeek(evidence, k, observed) {
        SortedClash(events, evidence, done, i, k);
        i := i.(clash := i.clash + group, pending := pending);
      } else {
        var first := First(group);
        SortedKept(events, evidence, done, i, k, first);
        i := i.(kept := i.kept + {first}, again := i.again + (group - {first}), pending := pending);
      }
      todo := todo - {k};
    }
    AllSorted(events, evidence, groups.Keys - todo, i);
  }

  lemma GroupNonEmpty(events: set<Event>, k: MoveKey)
    requires k in KeysOf(events) && IdsUnique(events)
    ensures Group(events, k) != {} && IdsUnique(Group(events, k)) && Group(events, k) <= events
  {
    var e :| e in events && KeyOf(e) == k;
    assert e in Group(events, k);
  }

  lemma GroupVerdict(events: set<Event>, evidence: map<MoveKey, Evidence>, k: MoveKey)
    ensures Conflicting(events, evidence, k) <==>
      (exists a, b :: a in Group(events, k) && b in Group(events, k) && !SameSignature(a, b))
      || CrossWeek(evidence, k, Weeks(Group(events, k)))
  {
    hide SameSignature, CrossWeek, Weeks;
    if a, b :| a in events && b in events && KeyOf(a) == k && KeyOf(b) == k && !SameSignature(a, b) {
      assert a in Group(events, k) && b in Group(events, k);
    }
  }

  function PendingAfter(evidence: map<MoveKey, Evidence>, i: Identities, k: MoveKey): set<MoveKey> {
    if Unverified(evidence, k) then i.pending + {k} else i.pending
  }

  lemma SortedClash(events: set<Event>, evidence: map<MoveKey, Evidence>, done: set<MoveKey>, i: Identities, k: MoveKey)
    requires Sorted(events, evidence, done, i) && k !in done && Conflicting(events, evidence, k)
    ensures Sorted(events, evidence, done + {k},
      i.(clash := i.clash + Group(events, k), pending := PendingAfter(evidence, i, k)))
  {
    hide Conflicting, Represents, Unverified;
  }

  lemma SortedKept(events: set<Event>, evidence: map<MoveKey, Evidence>, done: set<MoveKey>, i: Identities, k: MoveKey,
                   first: Event)
    requires Sorted(events, evidence, done, i) && k !in done && !Conflicting(events, evidence, k)
    requires first in Group(events, k) && forall o :: o in Group(events, k) && o != first ==> Less(first.rowId, o.rowId)
    ensures Sorted(events, evidence, done + {k},
      i.(kept := i.kept + {first}, again := i.again + (Group(events, k) - {first}), pending := PendingAfter(evidence, i, k)))
  {
    hide Conflicting, Unverified, Less;
    forall e | e in Group(events, k) ensures Represents(events, e) <==> e == first {
      if e != first { LessTotal(e.rowId, first.rowId); assert first in events && KeyOf(first) == KeyOf(e); }
      else {
        forall o | o in events && KeyOf(o) == KeyOf(e) && o != e ensures Less(e.rowId, o.rowId) {
          assert o in Group(events, k);
        }
      }
    }
    hide Represents;
  }

  lemma AllSorted(events: set<Event>, evidence: map<MoveKey, Evidence>, done: set<MoveKey>, i: Identities)
    requires Sorted(events, evidence, done, i) && done == KeysOf(events)
    ensures i == Identities(Consolidated(events, evidence), Repetitions(events, evidence), InConflict(events, evidence),
      set k | k in KeysOf(events) && Unverified(evidence, k))
  {
    hide Conflicting, Represents, Unverified;
    assert forall e :: e in events ==> KeyOf(e) in done;
  }

  /** `prepare_weekly_events` */
  method PrepareWeeklyEvents(rows: seq<RawRow>, evidence: map<MoveKey, Evidence>) returns (p: Prepared)
    ensures p == PreparedFrom(SetOf(rows), evidence, RepeatedRows(rows))
  {
    hide ValidEvents, Consolidated, Repetitions, InConflict, BrokenIds, InvalidIds, ParseUuid, RepeatedRows, RowsById,
      KeysOf, Unverified, EventIdsOf, ConflictIssues, Ids;
    var byId, unreadable := IndexRows(rows);
    var unique, broken, repeated := UniqueRows(rows, byId);
    var events, invalid := ValidateRows(SetOf(rows), unique);
    ValidIdsUnique(SetOf(rows));
    var i := SortIdentities(events, evidence);
    var issues := (if unreadable then {Issue(InvalidRowId, {}, None)} else {})
      + (set id | id in broken :: Issue(RowIdConflict, {id}, None))
      + (set id | id in invalid :: Issue(ValidationFailed, {id}, None))
      + ConflictIssues(events, evidence);
    p := Prepared(i.kept, broken + invalid + EventIdsOf(i.clash), repeated, KeysOf(i.again), EventIdsOf(i.again),
      KeysOf(i.clash), issues, i.pending);
  }

  // ----- counters -----

  datatype Contribution = Contribution(
    values: map<AggregateKey, int>, contributors: map<AggregateKey, set<string>>, accepted: set<Event>,
    refused: set<Event>)

  function OfType(events: set<Event>, m: Metric): set<Event> { set e | e in events && e.eventType == TypeOf(m) }

  /** `_group_metric_values`: the sums and the contributing ids of each grain. */
  ghost predicate Tallied(events: set<Event>, m: Metric, values: map<AggregateKey, int>,
                          contributors: map<AggregateKey, set<string>>) {
    && values.Keys == Grains(OfType(events, m)) && contributors.Keys == values.Keys
    && (forall g :: g in values ==> values[g] == Counter(events, m, g) && contributors[g] == EventIdsOf(Share(events, m, g)))
  }

  lemma TalliedNext(events: set<Event>, m: Metric, values: map<AggregateKey, int>,
                    contributors: map<AggregateKey, set<string>>, e: Event)
    requires Tallied(events, m, values, contributors) && e !in events && e.eventType == TypeOf(m)
    ensures var g := GrainOf(e);
      Tallied(events + {e}, m,
        values[g := (if g in values then values[g] else 0) + Weight(e)],
        contributors[g := (if g in contributors then contributors[g] else {}) + {e.rowId}])
    ensures OfType(events + {e}, m) == OfType(events, m) + {e}
  {
    hide Share, Weight, OfType, Grains, EventIdsOf, Counter;
    var g, grown := GrainOf(e), events + {e};
    GrainsNext(events, m, e);
    ShareNext(events, m, e);
    forall h | h != g ensures Counter(grown, m, h) == Counter(events, m, h) && Share(grown, m, h) == Share(events, m, h) {
      ShareOther(events, m, e, h);
    }
  }

  lemma GrainsNext(events: set<Event>, m: Metric, e: Event)
    requires e.eventType == TypeOf(m)
    ensures Grains(OfType(events + {e}, m)) == Grains(OfType(events, m)) + {GrainOf(e)}
    ensures OfType(events + {e}, m) == OfType(events, m) + {e}
  {
    assert OfType(events + {e}, m) == OfType(events, m) + {e};
  }

  lemma ShareNext(events: set<Event>, m: Metric, e: Event)
    requires e !in events && e.eventType == TypeOf(m)
    ensures Counter(events + {e}, m, GrainOf(e)) == Counter(events, m, GrainOf(e)) + Weight(e)
    ensures EventIdsOf(Share(events + {e}, m, GrainOf(e))) == EventIdsOf(Share(events, m, GrainOf(e))) + {e.rowId}
    ensures GrainOf(e) !in Grains(OfType(events, m)) ==>
      Counter(events, m, GrainOf(e)) == 0 && EventIdsOf(Share(events, m, GrainOf(e))) == {}
  {
    var before := Share(events, m, GrainOf(e));
    assert Share(events + {e}, m, GrainOf(e)) == before + {e};
    SumPut(before, e, Weight);
    if GrainOf(e) !in Grains(OfType(events, m)) {
      forall o ensures o !in before { assert o in before ==> o in OfType(events, m) && GrainOf(o) in Grains(OfType(events, m)); }
      assert before == {};
    }
  }

  lemma ShareOther(events: set<Event>, m: Metric, e: Event, g: AggregateKey)
    requires e.eventType != TypeOf(m) || GrainOf(e) != g
    ensures Share(events + {e}, m, g) == Share(events, m, g)
    ensures Counter(events + {e}, m, g) == Counter(events, m, g)
  {
    assert Share(events + {e}, m, g) == Share(events, m, g);
  }

  lemma TalliedOther(events: set<Event>, m: Metric, values: map<AggregateKey, int>,
                     contributors: map<AggregateKey, set<string>>, e: Event)
    requires Tallied(events, m, values, contributors) && e.eventType != TypeOf(m)
    ensures Tallied(events + {e}, m, values, contributors) && OfType(events + {e}, m) == OfType(events, m)
  {
    assert OfType(events + {e}, m) == OfType(events, m);
    forall h ensures Share(events + {e}, m, h) == Share(events, m, h) && Counter(events + {e}, m, h) == Counter(events, m, h) {
      ShareOther(events, m, e, h);
    }
  }

  /** `calculate_inbound_volume`, `calculate_stockout_frequency` and `calculate_discrepancy_events`. */
  method Calculate(events: set<Event>, m: Metric) returns (c: Contribution)
    ensures Tallied(events, m, c.values, c.contributors)
    ensures c.accepted == OfType(events, m) && c.refused == {}
  {
    hide Tallied, Weight, OfType;
    var values: map<AggregateKey, int>, contributors: map<AggregateKey, set<string>> := map[], map[];
    var accepted: set<Event> := {};
    NothingTallied(m);
    var todo := events;
    assert events - todo == {};
    while todo != {}
      invariant todo <= events
      invariant Tallied(events - todo, m, values, contributors)
      invariant accepted == OfType(events - todo, m)
      decreases |todo|
    {
      var e :| e in todo;
      ghost var done := events - todo;
      assert events - (todo - {e}) == done + {e};
      if e.eventType == TypeOf(m) {
        TalliedNext(done, m, values, contributors, e);
        var g := GrainOf(e);
        values := values[g := (if g in values then values[g] else 0) + Weight(e)];
        contributors := contributors[g := (if g in contributors then contributors[g] else {}) + {e.rowId}];
        accepted := accepted + {e};
      } else {
        TalliedOther(done, m, values, contributors, e);
      }
      todo := todo - {e};
    }
    assert events - todo == events;
    c := Contribution(values, contributors, accepted, {});
  }

  lemma NothingTallied(m: Metric)
    ensures Tallied({}, m, map[], map[]) && OfType({}, m) == {}
  {
  }

  /** `calculate_outbound_throughput`: only orders that the dispatch evidence verifies are counted. */
  method CalculateOutbound(events: set<Event>, orders: OrderEvidence) returns (c: Contribution)
    ensures Tallied(Counted(events, orders), OutboundOrders, c.values, c.contributors)
    ensures c.accepted == OfType(Counted(events, orders), OutboundOrders) && c.refused == Uncounted(events, orders)
  {
    hide Judge, Tallied;
    var counted, refused := OrdersByVerdict(events, orders);
    c := Calculate(counted, OutboundOrders);
    TalliedOfType(Counted(events, orders), OutboundOrders, c.values, c.contributors);
    c := c.(refused := refused);
  }

  method OrdersByVerdict(events: set<Event>, orders: OrderEvidence) returns (counted: set<Event>, refused: set<Event>)
    ensures counted == OfType(Counted(events, orders), OutboundOrders) && refused == Uncounted(events, orders)
  {
    hide Judge;
    counted, refused := {}, {};
    var todo := events;
    while todo != {}
      invariant todo <= events
      invariant counted == set e | e in events - todo && e.eventType == OutboundOrderCreated && Counts(e, orders)
      invariant refused == set e | e in events - todo && !Counts(e, orders)
      decreases |todo|
    {
      var e :| e in todo;
      if e.eventType == OutboundOrderCreated {
        if Judge(e, orders) == Verified { counted := counted + {e}; } else { refused := refused + {e}; }
      }
      todo := todo - {e};
    }
  }

  lemma TalliedOfType(events: set<Event>, m: Metric, values: map<AggregateKey, int>,
                      contributors: map<AggregateKey, set<string>>)
    requires Tallied(OfType(events, m), m, values, contributors)
    ensures Tallied(events, m, values, contributors)
    ensures OfType(OfType(events, m), m) == OfType(events, m)
  {
    assert OfType(OfType(events, m), m) == OfType(events, m);
    forall g ensures Share(OfType(events, m), m, g) == Share(events, m, g) {}
  }

  // ----- composition -----

  /** The events of one counter of one grain, when that counter overflows. */
  ghost function OverflowAt(counted: set<Event>, m: Metric, g: AggregateKey): set<Event> {
    if Overflows(Counter(counted, m, g)) then Share(counted, m, g) else {}
  }

  lemma TallyAt(counted: set<Event>, m: Metric, g: AggregateKey)
    requires g !in Grains(OfType(counted, m))
    ensures Counter(counted, m, g) == 0 && Share(counted, m, g) == {}
  {
    forall e ensures e !in Share(counted, m, g) {
      assert e in Share(counted, m, g) ==> e in OfType(counted, m) && GrainOf(e) in Grains(OfType(counted, m));
    }
    assert Share(counted, m, g) == {};
  }

  /** One counter of one grain: its value, and what is withdrawn when it does not fit. */
  method CheckCounter(c: Contribution, m: Metric, g: AggregateKey, ghost counted: set<Event>)
    returns (value: int, withdrawn: set<string>, issues: set<Issue>)
    requires Tallied(counted, m, c.values, c.contributors)
    ensures value == Counter(counted, m, g)
    ensures withdrawn == EventIdsOf(OverflowAt(counted, m, g))
    ensures issues == OverflowIssues(OverflowAt(counted, m, g))
    ensures Overflows(value) <==> OverflowAt(counted, m, g) != {}
  {
    if g !in c.values { TallyAt(counted, m, g); return 0, {}, {}; }
    value := c.values[g];
    withdrawn, issues := {}, {};
    if Overflows(value) {
      ShareInhabited(counted, m, g);
      OverflowIssueOf(counted, m, g);
      withdrawn := c.contributors[g];
      issues := {Issue(IntegerOverflow, withdrawn, None)};
    }
  }

  lemma ShareInhabited(counted: set<Event>, m: Metric, g: AggregateKey)
    requires g in Grains(OfType(counted, m))
    ensures Share(counted, m, g) != {}
  {
    var e :| e in OfType(counted, m) && GrainOf(e) == g;
    assert e in Share(counted, m, g);
  }

  lemma OverflowIssueOf(counted: set<Event>, m: Metric, g: AggregateKey)
    requires Share(counted, m, g) != {}
    ensures OverflowIssues(Share(counted, m, g)) == {Issue(IntegerOverflow, EventIdsOf(Share(counted, m, g)), None)}
  {
    var share := Share(counted, m, g);
    forall e | e in share ensures (set o | o in share && o.eventType == e.eventType && GrainOf(o) == GrainOf(e)) == share {}
    var e :| e in share;
    assert Issue(IntegerOverflow, EventIdsOf(share), None) in OverflowIssues(share);
  }

  ghost predicate Apart(a: set<Event>, b: set<Event>) {
    forall x, y :: x in a && y in b ==> x.eventType != y.eventType || GrainOf(x) != GrainOf(y)
  }

  lemma IssuesUnion(a: set<Event>, b: set<Event>)
    requires Apart(a, b)
    ensures OverflowIssues(a + b) == OverflowIssues(a) + OverflowIssues(b)
    ensures EventIdsOf(a + b) == EventIdsOf(a) + EventIdsOf(b)
  {
    forall e | e in a ensures (set o | o in a + b && o.eventType == e.eventType && GrainOf(o) == GrainOf(e))
      == (set o | o in a && o.eventType == e.eventType && GrainOf(o) == GrainOf(e)) {}
    forall e | e in b ensures (set o | o in a + b && o.eventType == e.eventType && GrainOf(o) == GrainOf(e))
      == (set o | o in b && o.eventType == e.eventType && GrainOf(o) == GrainOf(e)) {}
    hide EventIdsOf;
    forall i | i in OverflowIssues(a) ensures i in OverflowIssues(a + b) {
      var e :| e in a && i == Issue(IntegerOverflow,
        EventIdsOf(set o | o in a && o.eventType == e.eventType && GrainOf(o) == GrainOf(e)), None);
      assert e in a + b;
    }
    forall i | i in OverflowIssues(b) ensures i in OverflowIssues(a + b) {
      var e :| e in b && i == Issue(IntegerOverflow,
        EventIdsOf(set o | o in b && o.eventType == e.eventType && GrainOf(o) == GrainOf(e)), None);
      assert e in a + b;
    }
    assert forall i :: i in OverflowIssues(a + b) ==> i in OverflowIssues(a) || i in OverflowIssues(b);
    IdsUnion(a, b);
  }

  lemma IdsUnion(a: set<Event>, b: set<Event>)
    ensures EventIdsOf(a + b) == EventIdsOf(a) + EventIdsOf(b)
  {
  }

  /** All withdrawn events of one grain. */
  ghost function WithdrawnAt(counted: set<Event>, g: AggregateKey): set<Event> {
    OverflowAt(counted, InboundUnits, g) + OverflowAt(counted, OutboundOrders, g) + OverflowAt(counted, StockoutEvents, g)
    + OverflowAt(counted, DiscrepancyEvents, g)
  }

  datatype Contributions = Contributions(inbound: Contribution, outbound: Contribution, stockouts: Contribution, discrepancies: Contribution)

  ghost predicate AllTallied(counted: set<Event>, c: Contributions) {
    && Tallied(counted, InboundUnits, c.inbound.values, c.inbound.contributors)
    && Tallied(counted, OutboundOrders, c.outbound.values, c.outbound.contributors)
    && Tallied(counted, StockoutEvents, c.stockouts.values, c.stockouts.contributors)
    && Tallied(counted, DiscrepancyEvents, c.discrepancies.values, c.discrepancies.contributors)
  }

  method CheckGrain(c: Contributions, g: AggregateKey, ghost counted: set<Event>)
    returns (aggregate: Option<Aggregate>, withdrawn: set<string>, issues: set<Issue>)
    requires AllTallied(counted, c)
    ensures withdrawn == EventIdsOf(WithdrawnAt(counted, g)) && issues == OverflowIssues(WithdrawnAt(counted, g))
    ensures aggregate == if WithdrawnAt(counted, g) == {} then Some(AggregateOf(counted, g)) else None
  {
    hide Tallied, Counter, OverflowIssues, EventIdsOf, Overflows;
    var inbound, w1, i1 := CheckCounter(c.inbound, InboundUnits, g, counted);
    var outbound, w2, i2 := CheckCounter(c.outbound, OutboundOrders, g, counted);
    var stockouts, w3, i3 := CheckCounter(c.stockouts, StockoutEvents, g, counted);
    var discrepancies, w4, i4 := CheckCounter(c.discrepancies, DiscrepancyEvents, g, counted);
    IssuesUnion(OverflowAt(counted, InboundUnits, g), OverflowAt(counted, OutboundOrders, g));
    IssuesUnion(OverflowAt(counted, InboundUnits, g) + OverflowAt(counted, OutboundOrders, g), OverflowAt(counted, StockoutEvents, g));
    IssuesUnion(OverflowAt(counted, InboundUnits, g) + OverflowAt(counted, OutboundOrders, g) + OverflowAt(counted, StockoutEvents, g),
      OverflowAt(counted, DiscrepancyEvents, g));
    withdrawn, issues := w1 + w2 + w3 + w4, i1 + i2 + i3 + i4;
    if Overflows(inbound) || Overflows(outbound) || Overflows(stockouts) || Overflows(discrepancies) {
      aggregate := None;
    } else {
      aggregate := Some(Aggregate(g, inbound, outbound, stockouts, discrepancies, Rate(discrepancies, outbound)));
    }
  }

  /** What is known of the grains already composed. */
  ghost predicate Checked(counted: set<Event>, done: set<AggregateKey>, withdrawn: set<Event>, aggregates: set<Aggregate>) {
    && withdrawn == (set e | e in Overflowing(counted) && GrainOf(e) in done)
    && aggregates == (set g | g in done && WithdrawnAt(counted, g) == {} :: AggregateOf(counted, g))
  }

  lemma WithdrawnExact(counted: set<Event>, g: AggregateKey)
    ensures WithdrawnAt(counted, g) == set e | e in Overflowing(counted) && GrainOf(e) == g
  {
    hide Counter;
    forall e | e in WithdrawnAt(counted, g) ensures e in Overflowing(counted) && GrainOf(e) == g {
      var m :| e in OverflowAt(counted, m, g);
      assert e.eventType == TypeOf(m) && Overflows(Counter(counted, m, GrainOf(e)));
    }
    forall e | e in Overflowing(counted) && GrainOf(e) == g ensures e in WithdrawnAt(counted, g) {
      var m: Metric :| e.eventType == TypeOf(m) && Overflows(Counter(counted, m, GrainOf(e)));
      assert e in OverflowAt(counted, m, g);
    }
  }

  lemma CheckedNext(counted: set<Event>, done: set<AggregateKey>, withdrawn: set<Event>, aggregates: set<Aggregate>,
                    g: AggregateKey)
    requires Checked(counted, done, withdrawn, aggregates) && g !in done
    ensures Checked(counted, done + {g}, withdrawn + WithdrawnAt(counted, g),
      if WithdrawnAt(counted, g) == {} then aggregates + {AggregateOf(counted, g)} else aggregates)
    ensures Apart(withdrawn, WithdrawnAt(counted, g))
  {
    WithdrawnExact(counted, g);
    hide WithdrawnAt, Overflowing, AggregateOf;
  }

  ghost predicate Collected(counted: set<Event>, done: set<AggregateKey>, events: set<Event>, aggregates: set<Aggregate>,
                            withdrawn: set<string>, issues: set<Issue>) {
    Checked(counted, done, events, aggregates) && withdrawn == EventIdsOf(events) && issues == OverflowIssues(events)
  }

  lemma CollectedNext(counted: set<Event>, done: set<AggregateKey>, events: set<Event>, aggregates: set<Aggregate>,
                      withdrawn: set<string>, issues: set<Issue>, g: AggregateKey)
    requires Collected(counted, done, events, aggregates, withdrawn, issues) && g !in done
    ensures var here := WithdrawnAt(counted, g);
      Collected(counted, done + {g}, events + here, if here == {} then aggregates + {AggregateOf(counted, g)} else aggregates,
        withdrawn + EventIdsOf(here), issues + OverflowIssues(here))
  {
    hide Checked, EventIdsOf, OverflowIssues, WithdrawnAt, AggregateOf, Apart;
    CheckedNext(counted, done, events, aggregates, g);
    IssuesUnion(events, WithdrawnAt(counted, g));
  }

  lemma AllCollected(counted: set<Event>, events: set<Event>, aggregates: set<Aggregate>, withdrawn: set<string>,
                     issues: set<Issue>)
    requires Collected(counted, Grains(counted), events, aggregates, withdrawn, issues)
    ensures events == Overflowing(counted)
    ensures events == {} ==> aggregates == set g | g in Grains(counted) :: AggregateOf(counted, g)
    ensures withdrawn == EventIdsOf(events) && issues == OverflowIssues(events)
  {
    hide Checked, EventIdsOf, OverflowIssues, AggregateOf, Overflowing, Grains;
    AllChecked(counted, events, aggregates);
  }

  lemma AllChecked(counted: set<Event>, withdrawn: set<Event>, aggregates: set<Aggregate>)
    requires Checked(counted, Grains(counted), withdrawn, aggregates)
    ensures withdrawn == Overflowing(counted)
    ensures withdrawn == {} ==> aggregates == set g | g in Grains(counted) :: AggregateOf(counted, g)
  {
    hide AggregateOf, Counter;
    OverflowingIsCounted(counted);
    forall g ensures WithdrawnAt(counted, g) == {} || Overflowing(counted) != {} { WithdrawnExact(counted, g); }
    hide WithdrawnAt, Overflowing;
  }

  /** The four counters of all grains; one that does not fit empties the whole result. */
  method Compose(c: Contributions, ghost counted: set<Event>)
    returns (aggregates: set<Aggregate>, withdrawn: set<string>, issues: set<Issue>)
    requires AllTallied(counted, c)
    requires c.inbound.values.Keys + c.outbound.values.Keys + c.stockouts.values.Keys + c.discrepancies.values.Keys
      == Grains(counted)
    ensures aggregates == if Overflowing(counted) == {} then set g | g in Grains(counted) :: AggregateOf(counted, g) else {}
    ensures withdrawn == EventIdsOf(Overflowing(counted)) && issues == OverflowIssues(Overflowing(counted))
  {
    hide *;
    aggregates, withdrawn, issues := {}, {}, {};
    var overflow := false;
    ghost var events: set<Event> := {};
    ghost var done: set<AggregateKey> := {};
    NothingCollected(counted);
    var todo := c.inbound.values.Keys + c.outbound.values.Keys + c.stockouts.values.Keys + c.discrepancies.values.Keys;
    while todo != {}
      invariant done == Grains(counted) - todo && todo <= Grains(counted)
      invariant Collected(counted, done, events, aggregates, withdrawn, issues)
      invariant overflow <==> events != {}
      decreases |todo|
    {
      var g :| g in todo;
      var aggregate, ids, found := CheckGrain(c, g, counted);
      CollectedNext(counted, done, events, aggregates, withdrawn, issues, g);
      withdrawn, issues := withdrawn + ids, issues + found;
      events := events + WithdrawnAt(counted, g);
      if aggregate.Some? { aggregates := aggregates + {aggregate.value}; } else { overflow := true; }
      todo, done := todo - {g}, done + {g};
    }
    assert done == Grains(counted);
    AllCollected(counted, events, aggregates, withdrawn, issues);
    if overflow { aggregates := {}; }
  }

  lemma NothingCollected(counted: set<Event>)
    ensures Collected(counted, {}, {}, {}, {}, {})
  {
  }

  lemma GrainsByType(counted: set<Event>)
    requires forall e :: e in counted ==> Official(e.eventType)
    ensures Grains(OfType(counted, InboundUnits)) + Grains(OfType(counted, OutboundOrders)) + Grains(OfType(counted, StockoutEvents))
      + Grains(OfType(counted, DiscrepancyEvents)) == Grains(counted)
    ensures OfType(counted, InboundUnits) + OfType(counted, OutboundOrders) + OfType(counted, StockoutEvents)
      + OfType(counted, DiscrepancyEvents) == counted
  {
    forall e | e in counted
      ensures e in OfType(counted, InboundUnits) || e in OfType(counted, OutboundOrders) || e in OfType(counted, StockoutEvents)
        || e in OfType(counted, DiscrepancyEvents)
    {
      match e.eventType
      case InboundOrderCreated => assert e in OfType(counted, InboundUnits);
      case OutboundOrderCreated => assert e in OfType(counted, OutboundOrders);
      case StockThresholdTriggered => assert e in OfType(counted, StockoutEvents);
      case InventoryDiscrepancyDetected => assert e in OfType(counted, DiscrepancyEvents);
    }
    var parts := [OfType(counted, InboundUnits), OfType(counted, OutboundOrders), OfType(counted, StockoutEvents), OfType(counted, DiscrepancyEvents)];
    assert counted == parts[0] + parts[1] + parts[2] + parts[3];
    GrainsUnion(parts[0], parts[1]);
    GrainsUnion(parts[0] + parts[1], parts[2]);
    GrainsUnion(parts[0] + parts[1] + parts[2], parts[3]);
  }

  lemma GrainsUnion(a: set<Event>, b: set<Event>)
    ensures Grains(a + b) == Grains(a) + Grains(b)
  {
  }

  /** The three counters that need no order evidence ignore the refused orders. */
  lemma TalliedCounted(events: set<Event>, orders: OrderEvidence, m: Metric, values: map<AggregateKey, int>,
                       contributors: map<AggregateKey, set<string>>)
    requires m != OutboundOrders && Tallied(events, m, values, contributors)
    ensures Tallied(Counted(events, orders), m, values, contributors)
    ensures OfType(Counted(events, orders), m) == OfType(events, m)
  {
    hide Judge;
    assert OfType(Counted(events, orders), m) == OfType(events, m);
    forall g ensures Share(Counted(events, orders), m, g) == Share(events, m, g) {}
  }

  lemma PreparedOfficial(rows: set<RawRow>, evidence: map<MoveKey, Evidence>)
    ensures forall e :: e in Consolidated(ValidEvents(rows), evidence) ==> Official(e.eventType)
  {
  }

  /** `transform_weekly_performance` computes the specified result. */
  method TransformWeeklyPerformance(rows: seq<RawRow>, evidence: map<MoveKey, Evidence>, orders: OrderEvidence)
    returns (r: Result)
    ensures r == Transformed(rows, evidence, orders)
  {
    hide ValidEvents, Consolidated, Counted, Uncounted, Tallied, OfType, Overflowing, AggregateOf, Grains,
      OverflowIssues, EventIdsOf, Judge, OrderIssue, RepeatedRows, RowIssues, ConflictIssues, BrokenIds, InvalidIds,
      InConflict, Repetitions, KeysOf, SetOf, Unverified;
    var p := PrepareWeeklyEvents(rows, evidence);
    PreparedOfficial(SetOf(rows), evidence);
    var inbound := Calculate(p.events, InboundUnits);
    var outbound := CalculateOutbound(p.events, orders);
    var stockouts := Calculate(p.events, StockoutEvents);
    var discrepancies := Calculate(p.events, DiscrepancyEvents);
    ghost var counted := Counted(p.events, orders);
    TalliedCounted(p.events, orders, InboundUnits, inbound.values, inbound.contributors);
    TalliedCounted(p.events, orders, StockoutEvents, stockouts.values, stockouts.contributors);
    TalliedCounted(p.events, orders, DiscrepancyEvents, discrepancies.values, discrepancies.contributors);
    CountedOfficial(p.events, orders);
    GrainsByType(counted);
    TalliedKeys(counted, inbound, outbound, stockouts, discrepancies);
    var aggregates, withdrawn, issues := Compose(Contributions(inbound, outbound, stockouts, discrepancies), counted);
    var accepted := inbound.accepted + outbound.accepted + stockouts.accepted + discrepancies.accepted;
    var refused := outbound.refused;
    r := Result(aggregates, EventIdsOf(accepted) - withdrawn, p.rejected + EventIdsOf(refused) + withdrawn,
      p.repeatedRows, p.repeatedKeys, p.repeatedIds,
      p.conflicts + (set e | e in refused && Judge(e, orders) == Contradicted :: KeyOf(e)),
      p.issues + (set e | e in refused :: OrderIssue(e, orders)) + issues, p.pending, false);
  }

  lemma CountedOfficial(events: set<Event>, orders: OrderEvidence)
    requires forall e :: e in events ==> Official(e.eventType)
    ensures forall e :: e in Counted(events, orders) ==> Official(e.eventType)
  {
  }

  lemma TalliedKeys(counted: set<Event>, a: Contribution, b: Contribution, c: Contribution, d: Contribution)
    requires AllTallied(counted, Contributions(a, b, c, d))
    ensures a.values.Keys == Grains(OfType(counted, InboundUnits)) && b.values.Keys == Grains(OfType(counted, OutboundOrders))
    ensures c.values.Keys == Grains(OfType(counted, StockoutEvents)) && d.values.Keys == Grains(OfType(counted, DiscrepancyEvents))
  {
  }
}
