/** The week lease: one control row per week, a fencing token, and a clock read inside each statement. */
module Lease {
  import opened Basics
  import opened Vocabulary

  type RunId = string

  /** The pointer to the last valid publication of a week. */
  datatype Publication = Publication(run: RunId, publishedAt: int, rowCount: nat, fingerprint: string, rules: string)

  datatype Control = Control(
    owner: Option<RunId>, acquiredAt: Option<int>, expiresAt: Option<int>, token: nat, pointer: Option<Publication>)

  /** `INSERT ... (week_start) ON CONFLICT DO NOTHING` */
  const NEW_CONTROL := Control(None, None, None, 0, None)

  type Controls = map<int, Control>

  function At(controls: Controls, week: int): Control { if week in controls then controls[week] else NEW_CONTROL }

  datatype Status =
    | Acquired | Recovered | Occupied | AlreadyHeld | Verified | Renewed | Released | Rejected
    | InvalidSeconds | InvalidWeek | RunNotFound | WeekMismatch | InvalidToken | Uncertain

  datatype Decision = Decision(status: Status, owner: Option<RunId>, token: Option<nat>, expiresAt: Option<int>)

  const SECOND := 1_000_000
  const MIN_SECONDS := 1
  const MAX_SECONDS := 86_400

  /** The four readings of `clock_timestamp()`: after the row lock, in the update's condition, and in the two values it sets. */
  datatype Clock = Clock(locked: int, checked: int, acquired: int, expiring: int)

  predicate Forward(c: Clock) { c.locked <= c.checked <= c.acquired <= c.expiring }

  // ----- one control row -----

  predicate Expired(c: Control, now: int) { c.expiresAt.Some? && c.expiresAt.value <= now }

  predicate Free(c: Control, now: int) { c.owner.None? || Expired(c, now) }

  /** The update of `acquire_week_lease`; the row is locked, so its token is the expected one. */
  function Grant(c: Control, run: RunId, seconds: int, clock: Clock): Option<Control> {
    if !Free(c, clock.checked) then None
    else Some(Control(Some(run), Some(clock.acquired), Some(clock.expiring + seconds * SECOND), c.token + 1, c.pointer))
  }

  /** Owner, token and expiry all still match. */
  predicate Holds(c: Control, run: RunId, token: nat, now: int) {
    c.owner == Some(run) && c.token == token && c.expiresAt.Some? && c.expiresAt.value > now
  }

  function Renew(c: Control, run: RunId, token: nat, seconds: int, clock: Clock): Option<Control> {
    if !Holds(c, run, token, clock.checked) then None
    else Some(c.(expiresAt := Some(clock.expiring + seconds * SECOND)))
  }

  /** Release needs the owner and the token, not an unexpired lease. */
  function Release(c: Control, run: RunId, token: nat): Option<Control> {
    if c.owner != Some(run) || c.token != token then None
    else Some(c.(owner := None, acquiredAt := None, expiresAt := None))
  }

  // ----- the operations -----

  class WeekLeases {
    var controls: Controls
    var runs: map<RunId, int>

    constructor (known: map<RunId, int>)
      ensures controls == map[] && runs == known
    {
      controls, runs := map[], known;
    }

    method AcquireWeekLease(week: int, run: RunId, seconds: int, clock: Clock) returns (d: Decision)
      modifies `controls
      ensures !IsMonday(week) ==> d.status == InvalidWeek
      ensures IsMonday(week) && !(1 <= seconds <= 86_400) ==> d.status == InvalidSeconds
      ensures IsMonday(week) && 1 <= seconds <= 86_400 && run !in runs ==> d.status == RunNotFound
      ensures IsMonday(week) && 1 <= seconds <= 86_400 && run in runs && runs[run] != week ==> d.status == WeekMismatch
      ensures !IsMonday(week) || !(1 <= seconds <= 86_400) || run !in runs || runs[run] != week ==>
        controls == old(controls)
      ensures IsMonday(week) && 1 <= seconds <= 86_400 && run in runs && runs[run] == week ==>
        var before := At(old(controls), week);
        if before.owner.Some? && (before.expiresAt.None? || before.expiresAt.value > clock.locked) then
          controls == old(controls)[week := before]
          && d == Decision(if before.owner == Some(run) then AlreadyHeld else Occupied, before.owner, Some(before.token),
               before.expiresAt)
        else if before.owner.Some? && before.expiresAt.value > clock.checked then
          controls == old(controls)[week := before] && d.status == Uncertain
        else
          controls == old(controls)[week := Control(Some(run), Some(clock.acquired),
            Some(clock.expiring + seconds * 1_000_000), before.token + 1, before.pointer)]
          && d == Decision(if before.owner.None? then Acquired else Recovered, Some(run), Some(before.token + 1),
               Some(clock.expiring + seconds * 1_000_000))
      ensures d.status.Uncertain? <==>
        (IsMonday(week) && 1 <= seconds <= 86_400 && run in runs && runs[run] == week
         && var before := At(old(controls), week);
            before.owner.Some? && before.expiresAt.Some? && clock.checked < before.expiresAt.value <= clock.locked)
    {
      d := Decision(Rejected, None, None, None);
      if !IsMonday(week) { return d.(status := InvalidWeek); }
      if !(MIN_SECONDS <= seconds <= MAX_SECONDS) { return d.(status := InvalidSeconds); }
      if run !in runs { return d.(status := RunNotFound); }
      if runs[run] != week { return d.(status := WeekMismatch); }
      if week !in controls { controls := controls[week := NEW_CONTROL]; }
      var row := controls[week];
      if row.owner.Some? && !Expired(row, clock.locked) {
        return Decision(if row.owner == Some(run) then AlreadyHeld else Occupied, row.owner, Some(row.token), row.expiresAt);
      }
      if row.owner.Some? && !Expired(row, clock.checked) { return d.(status := Uncertain); }
      controls := controls[week :=
        Control(Some(run), Some(clock.acquired), Some(clock.expiring + seconds * SECOND), row.token + 1, row.pointer)];
      d := Decision(if row.owner.None? then Acquired else Recovered, Some(run), Some(row.token + 1),
        Some(clock.expiring + seconds * SECOND));
    }

    /** Locks the row and compares; changes nothing. */
    method VerifyWeekLease(week: int, run: RunId, token: int, now: int) returns (d: Decision)
      ensures d.status.Verified? <==>
        (IsMonday(week) && token >= 0 && week in controls && controls[week].owner == Some(run)
         && controls[week].token == token && controls[week].expiresAt.Some? && controls[week].expiresAt.value > now)
      ensures d.status.InvalidWeek? <==> !IsMonday(week)
      ensures d.status.InvalidToken? <==> IsMonday(week) && token < 0
      ensures d.status in {Verified, Rejected, InvalidWeek, InvalidToken}
      ensures d.status in {Verified, Rejected} && week in controls ==>
        d.owner == controls[week].owner && d.token == Some(controls[week].token) && d.expiresAt == controls[week].expiresAt
    {
      d := Decision(Rejected, None, None, None);
      if !IsMonday(week) { return d.(status := InvalidWeek); }
      if token < 0 { return d.(status := InvalidToken); }
      if week !in controls { return; }
      var row := controls[week];
      var unexpired := row.expiresAt.Some? && row.expiresAt.value > now;
      var verified := row.owner == Some(run) && row.token == token && unexpired;
      d := Decision(if verified then Verified else Rejected, row.owner, Some(row.token), row.expiresAt);
    }

    method RenewWeekLease(week: int, run: RunId, token: int, seconds: int, clock: Clock) returns (d: Decision)
      modifies `controls
      ensures d.status.Renewed? <==>
        (IsMonday(week) && 1 <= seconds <= 86_400 && token >= 0 && week in old(controls)
         && old(controls)[week].owner == Some(run) && old(controls)[week].token == token
         && old(controls)[week].expiresAt.Some? && old(controls)[week].expiresAt.value > clock.checked)
      ensures d.status.Renewed? ==>
        && controls == old(controls)[week := old(controls)[week].(expiresAt := Some(clock.expiring + seconds * 1_000_000))]
        && d == Decision(Renewed, Some(run), Some(token), Some(clock.expiring + seconds * 1_000_000))
      ensures !d.status.Renewed? ==> controls == old(controls)
    {
      d := Decision(Rejected, None, None, None);
      if !IsMonday(week) { return d.(status := InvalidWeek); }
      if !(MIN_SECONDS <= seconds <= MAX_SECONDS) { return d.(status := InvalidSeconds); }
      if token < 0 { return d.(status := InvalidToken); }
      if week !in controls || !Holds(controls[week], run, token, clock.checked) { return; }
      var expires := clock.expiring + seconds * SECOND;
      controls := controls[week := controls[week].(expiresAt := Some(expires))];
      d := Decision(Renewed, Some(run), Some(token), Some(expires));
    }

    method ReleaseWeekLease(week: int, run: RunId, token: int) returns (d: Decision)
      modifies `controls
      ensures d.status.Released? <==>
        (IsMonday(week) && token >= 0 && week in old(controls) && old(controls)[week].owner == Some(run)
         && old(controls)[week].token == token)
      ensures d.status.Released? ==> controls == old(controls)[week := Control(None, None, None,
        old(controls)[week].token, old(controls)[week].pointer)]
      ensures !d.status.Released? ==> controls == old(controls)
    {
      d := Decision(Rejected, None, None, None);
      if !IsMonday(week) { return d.(status := InvalidWeek); }
      if token < 0 { return d.(status := InvalidToken); }
      if week !in controls { return; }
      var row := controls[week];
      if row.owner != Some(run) || row.token != token { return; }
      controls := controls[week := row.(owner := None, acquiredAt := None, expiresAt := None)];
      d := Decision(Released, None, Some(row.token), None);
    }
  }

  // ----- facts about single rows -----

  /** While the database clock never goes back, a row found free stays free until the update. */
  lemma LockedRowIsUpdated(c: Control, run: RunId, seconds: int, clock: Clock)
    requires Forward(clock) && Free(c, clock.locked)
    ensures Grant(c, run, seconds, clock).Some?
  {
  }

  /** If it can go back, the "locked but not updated" branch is reachable. */
  lemma ClockGoingBackIsUncertain(run: RunId, other: RunId)
    ensures exists c: Control, clock: Clock ::
      Free(c, clock.locked) && c.owner == Some(other) && Grant(c, run, 60, clock).None?
  {
    var c, clock := Control(Some(other), Some(0), Some(10), 1, None), Clock(10, 9, 9, 9);
    assert Free(c, clock.locked) && Grant(c, run, 60, clock).None?;
  }

  /** A granted lease is held at once, under a token that no earlier holder can present. */
  lemma GrantFences(c: Control, run: RunId, seconds: int, clock: Clock, other: RunId, token: nat, now: int)
    requires seconds >= MIN_SECONDS && Grant(c, run, seconds, clock).Some?
    ensures var c' := Grant(c, run, seconds, clock).value;
      && Holds(c', run, c.token + 1, clock.expiring) && c'.pointer == c.pointer
      && (token <= c.token ==> !Holds(c', other, token, now) && Release(c', other, token).None?)
  {
  }

  /** A granted lease holds, for its run and its new token alone, until exactly `seconds` after the reading that set
      the expiry. */
  lemma GrantLasts(c: Control, run: RunId, seconds: int, clock: Clock, other: RunId, token: nat, now: int)
    requires Grant(c, run, seconds, clock).Some?
    ensures Holds(Grant(c, run, seconds, clock).value, other, token, now) <==>
      other == run && token == c.token + 1 && now < clock.expiring + seconds * 1_000_000
  {
  }

  /** A renewal needs the holder of an unexpired lease, and the lease then lasts `seconds` from the new reading. */
  lemma RenewLasts(c: Control, run: RunId, token: nat, seconds: int, clock: Clock, other: RunId, presented: nat, now: int)
    ensures Renew(c, run, token, seconds, clock).Some? <==>
      c.owner == Some(run) && c.token == token && c.expiresAt.Some? && clock.checked < c.expiresAt.value
    ensures Renew(c, run, token, seconds, clock).Some? ==>
      (Holds(Renew(c, run, token, seconds, clock).value, other, presented, now) <==>
         other == run && presented == token && now < clock.expiring + seconds * 1_000_000)
  {
  }
}
