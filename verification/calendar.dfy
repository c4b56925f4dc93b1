/**
 * The calendar service's slot search. Times are whole minutes of local
 * (America/New_York) wall-clock time counted from a Monday midnight, so
 * that the day of a time is `t / 1440` and its weekday is that day modulo
 * seven, Monday being 0. The calendar API is an oracle that answers an
 * events listing over an interval.
 */
module Calendar {
  import opened Outcomes
  import opened Json

  const MinutesPerDay: int := 1440
  const MinutesPerHour: int := 60
  /** The search stops as soon as it has this many slots. */
  const MaxSlots: nat := 5

  /** What `events().list(...).execute()` does: the listed events, or an `HttpError`. */
  datatype Reply = Listed(items: seq<Json>) | HttpFailed

  /** The built Google Calendar client, reduced to its events listing over `[start, end]` of a calendar. */
  type EventsApi = (int, int, string) -> Reply

  /** A found slot: its start and end minute. */
  datatype Slot = Slot(start: int, end: int)

  /** The arguments of `find_available_slots`, with the clock reading `now`. */
  datatype Query = Query(now: int, duration: int, daysAhead: int, firstHour: int, lastHour: int, calendarId: string)

  function Day(t: int): int {
    t / MinutesPerDay
  }

  /** `datetime.weekday()`: Monday is 0, Saturday 5, Sunday 6. */
  function Weekday(t: int): (r: int)
    ensures 0 <= r < 7
  {
    Day(t) % 7
  }

  /** The hour of the day a time falls in. */
  function HourOf(t: int): (r: int)
    ensures 0 <= r < 24
  {
    (t % MinutesPerDay) / MinutesPerHour
  }

  /** `check_date.replace(hour=hour, minute=0, ...)` where `check_date` lies `offset` days after `now`. */
  function SlotStart(now: int, offset: int, hour: int): int {
    (Day(now) + offset) * MinutesPerDay + hour * MinutesPerHour
  }

  lemma SlotStartParts(now: int, offset: int, hour: int)
    requires 0 <= hour < 24
    ensures Day(SlotStart(now, offset, hour)) == Day(now) + offset
    ensures HourOf(SlotStart(now, offset, hour)) == hour
    ensures SlotStart(now, offset, hour) % MinutesPerHour == 0
  {
    var d := Day(now) + offset;
    var t := SlotStart(now, offset, hour);
    var m := hour * MinutesPerHour;
    assert 0 <= m < MinutesPerDay;
    assert t == d * MinutesPerDay + m;
    DivModUnique(t, MinutesPerDay, d, m);
    assert m == hour * MinutesPerHour + 0;
    DivModUnique(m, MinutesPerHour, hour, 0);
    DivModUnique(t, MinutesPerHour, d * 24 + hour, 0);
  }

  /** Euclidean division is determined by its quotient and remainder. */
  lemma DivModUnique(t: int, n: int, q: int, m: int)
    requires n > 0 && 0 <= m < n && t == q * n + m
    ensures t / n == q && t % n == m
  {
    var q' := t / n;
    var m' := t % n;
    assert (q' - q) * n == m - m';
    MultipleOfAtLeast(q' - q, n);
  }

  /** A non-zero multiple of `n` is at least `n` away from zero. */
  lemma MultipleOfAtLeast(k: int, n: int)
    requires n > 0
    ensures k >= 1 ==> k * n >= n
    ensures k <= -1 ==> k * n <= -n
  {
  }

  // ---------------------------------------------------------------------
  // Availability
  // ---------------------------------------------------------------------

  /**
   * `check_availability`: always free without a configured service;
   * otherwise free exactly when the listing over the slot is empty, and
   * busy when the API raises an `HttpError`.
   */
  function Free(service: Option<EventsApi>, start: int, end: int, calendarId: string): (r: bool)
    ensures service.None? ==> r
    ensures service.Some? && service.value(start, end, calendarId).HttpFailed? ==> !r
    ensures service.Some? && service.value(start, end, calendarId).Listed? ==>
      (r <==> service.value(start, end, calendarId).items == [])
  {
    match service
    case None => true
    case Some(api) =>
      match api(start, end, calendarId)
      case HttpFailed => false
      case Listed(items) => |items| == 0
  }

  // ---------------------------------------------------------------------
  // The search
  // ---------------------------------------------------------------------

  /**
   * The rest of the nested loop of `find_available_slots` from day
   * `offset` and hour `hour`, having found `found` so far: weekend days are
   * skipped, an hour outside 0..23 makes `replace` raise, past starts are
   * skipped, free slots are appended, and the search returns as soon as it
   * holds five.
   */
  function Scan(service: Option<EventsApi>, q: Query, offset: int, hour: int, found: seq<Slot>): (r: Result<seq<Slot>>)
    ensures r.Ok? ==> found <= r.value
    ensures r.Ok? && |found| < MaxSlots ==> |r.value| <= MaxSlots
    decreases q.daysAhead - offset, q.lastHour - hour
  {
    if offset >= q.daysAhead then Ok(found)
    else if Weekday(q.now + offset * MinutesPerDay) >= 5 || hour >= q.lastHour then
      Scan(service, q, offset + 1, q.firstHour, found)
    else if !(0 <= hour < 24) then Err(ValueError("hour must be in 0..23"))
    else
      var start := SlotStart(q.now, offset, hour);
      var slot := Slot(start, start + q.duration);
      if start < q.now || !Free(service, slot.start, slot.end, q.calendarId) then
        Scan(service, q, offset, hour + 1, found)
      else if |found + [slot]| >= MaxSlots then Ok(found + [slot])
      else Scan(service, q, offset, hour + 1, found + [slot])
  }

  /** What the search returns for a query. */
  function Slots(service: Option<EventsApi>, q: Query): (r: Result<seq<Slot>>)
    ensures r.Ok? ==> |r.value| <= MaxSlots
  {
    Scan(service, q, 0, q.firstHour, [])
  }

  /**
   * A slot the search may return: on a weekday within `daysAhead` days of
   * today, starting on the hour within the preferred hours and not before
   * `now`, lasting `duration` minutes, and free in the calendar.
   */
  predicate Acceptable(service: Option<EventsApi>, q: Query, s: Slot) {
    Weekday(s.start) < 5 &&
    Day(q.now) <= Day(s.start) < Day(q.now) + q.daysAhead &&
    s.start % MinutesPerHour == 0 && q.firstHour <= HourOf(s.start) < q.lastHour &&
    q.now <= s.start && s.end == s.start + q.duration &&
    Free(service, s.start, s.end, q.calendarId)
  }

  /** Strictly increasing start times. */
  predicate Chronological(slots: seq<Slot>) {
    forall i, j :: 0 <= i < j < |slots| ==> slots[i].start < slots[j].start
  }

  /** Hours clamped to 0..24, so that the position of the scan only moves forward. */
  function Clamp(hour: int): int {
    if hour < 0 then 0 else if hour > 24 then 24 else hour
  }

  /** Where the scan stands: every slot found so far starts before this minute. */
  function Mark(q: Query, offset: int, hour: int): int {
    (Day(q.now) + offset) * MinutesPerDay + Clamp(hour) * MinutesPerHour
  }

  lemma {:induction false} ScanSound(service: Option<EventsApi>, q: Query, offset: int, hour: int, found: seq<Slot>)
    requires 0 <= offset && q.firstHour <= hour && |found| < MaxSlots
    requires forall i :: 0 <= i < |found| ==> Acceptable(service, q, found[i]) && found[i].start < Mark(q, offset, hour)
    requires Chronological(found)
    ensures var r := Scan(service, q, offset, hour, found);
      r.Ok? ==> (|r.value| <= MaxSlots && Chronological(r.value) &&
                 forall i :: 0 <= i < |r.value| ==> Acceptable(service, q, r.value[i]))
    decreases q.daysAhead - offset, q.lastHour - hour
  {
    if offset >= q.daysAhead {
    } else if Weekday(q.now + offset * MinutesPerDay) >= 5 || hour >= q.lastHour {
      assert Mark(q, offset, hour) <= Mark(q, offset + 1, q.firstHour);
      assert Scan(service, q, offset, hour, found) == Scan(service, q, offset + 1, q.firstHour, found);
      ScanSound(service, q, offset + 1, q.firstHour, found);
    } else if !(0 <= hour < 24) {
    } else {
      var start := SlotStart(q.now, offset, hour);
      var slot := Slot(start, start + q.duration);
      assert Mark(q, offset, hour) == start < Mark(q, offset, hour + 1);
      if start < q.now || !Free(service, slot.start, slot.end, q.calendarId) {
        assert Scan(service, q, offset, hour, found) == Scan(service, q, offset, hour + 1, found);
        ScanSound(service, q, offset, hour + 1, found);
      } else {
        SlotStartParts(q.now, offset, hour);
        assert Day(q.now + offset * MinutesPerDay) == Day(q.now) + offset by {
          DivModUnique(q.now + offset * MinutesPerDay, MinutesPerDay, Day(q.now) + offset, q.now % MinutesPerDay);
        }
        assert Acceptable(service, q, slot);
        var more := found + [slot];
        assert Chronological(more);
        assert forall i :: 0 <= i < |more| ==> Acceptable(service, q, more[i]);
        if |more| < MaxSlots {
          assert Scan(service, q, offset, hour, found) == Scan(service, q, offset, hour + 1, more);
          ScanSound(service, q, offset, hour + 1, more);
        } else {
          assert Scan(service, q, offset, hour, found) == Ok(more);
        }
      }
    }
  }

  /**
   * The search returns at most five slots, in chronological order, each of
   * them acceptable.
   */
  lemma SlotsSound(service: Option<EventsApi>, q: Query)
    ensures var r := Slots(service, q);
      r.Ok? ==> (|r.value| <= MaxSlots && Chronological(r.value) &&
                 forall i :: 0 <= i < |r.value| ==> Acceptable(service, q, r.value[i]))
  {
    ScanSound(service, q, 0, q.firstHour, []);
  }

  lemma {:induction false} ScanFails(service: Option<EventsApi>, q: Query, offset: int, hour: int, found: seq<Slot>)
    requires q.firstHour <= hour
    ensures Scan(service, q, offset, hour, found).Err? ==>
      Scan(service, q, offset, hour, found).fault.ValueError? && (q.firstHour < 0 || q.lastHour > 24)
    decreases q.daysAhead - offset, q.lastHour - hour
  {
    if offset >= q.daysAhead {
    } else if Weekday(q.now + offset * MinutesPerDay) >= 5 || hour >= q.lastHour {
      ScanFails(service, q, offset + 1, q.firstHour, found);
    } else if !(0 <= hour < 24) {
    } else {
      var start := SlotStart(q.now, offset, hour);
      var slot := Slot(start, start + q.duration);
      if start < q.now || !Free(service, slot.start, slot.end, q.calendarId) {
        ScanFails(service, q, offset, hour + 1, found);
      } else if |found + [slot]| < MaxSlots {
        ScanFails(service, q, offset, hour + 1, found + [slot]);
      }
    }
  }

  /** The search raises only a `ValueError`, and only when the preferred hours leave 0..24. */
  lemma SlotsFail(service: Option<EventsApi>, q: Query)
    ensures Slots(service, q).Err? ==> Slots(service, q).fault.ValueError? && (q.firstHour < 0 || q.lastHour > 24)
  {
    ScanFails(service, q, 0, q.firstHour, []);
  }

  /** A time is its day, its hour and the minutes past that hour. */
  lemma TimeParts(t: int)
    ensures t == Day(t) * MinutesPerDay + HourOf(t) * MinutesPerHour + t % MinutesPerHour
  {
    var m := t % MinutesPerDay;
    assert t == Day(t) * MinutesPerDay + m;
    assert m == HourOf(m) * 0 + (m / MinutesPerHour) * MinutesPerHour + m % MinutesPerHour;
    DivModUnique(t, MinutesPerHour, Day(t) * 24 + m / MinutesPerHour, m % MinutesPerHour);
  }

  /** The weekday the loop tests for day `offset` is the weekday of every time on that day. */
  lemma SameDay(now: int, offset: int, t: int)
    requires Day(t) == Day(now) + offset
    ensures Weekday(t) == Weekday(now + offset * MinutesPerDay)
  {
    DivModUnique(now + offset * MinutesPerDay, MinutesPerDay, Day(now) + offset, now % MinutesPerDay);
  }

  /** Times on the hour past the scan's horizon lie before its mark. */
  lemma BeyondHorizon(q: Query, offset: int, hour: int, t: int)
    requires offset >= q.daysAhead && Day(t) < Day(q.now) + q.daysAhead
    ensures t < Mark(q, offset, hour)
  {
    TimeParts(t);
  }

  /** Leaving a day leaves no acceptable start behind on it. */
  lemma DayDone(q: Query, offset: int, hour: int, t: int)
    requires Weekday(q.now + offset * MinutesPerDay) >= 5 || hour >= q.lastHour
    requires Weekday(t) < 5 && t % MinutesPerHour == 0 && q.firstHour <= HourOf(t) < q.lastHour
    requires Mark(q, offset, hour) <= t
    ensures Mark(q, offset + 1, q.firstHour) <= t
  {
    TimeParts(t);
    if Day(t) == Day(q.now) + offset {
      SameDay(q.now, offset, t);
    }
  }

  /** Past the slot at `hour`, the next start on the hour is at least an hour later. */
  lemma HourDone(q: Query, offset: int, hour: int, t: int)
    requires 0 <= hour < 24 && t % MinutesPerHour == 0
    requires Mark(q, offset, hour) <= t && t != SlotStart(q.now, offset, hour)
    ensures Mark(q, offset, hour + 1) <= t
  {
    var m := (Day(q.now) + offset) * 24 + hour;
    assert Mark(q, offset, hour) == m * MinutesPerHour;
    assert Mark(q, offset, hour + 1) == (m + 1) * MinutesPerHour;
    var k := t / MinutesPerHour;
    assert t == k * MinutesPerHour;
    MultipleOfAtLeast(k - m, MinutesPerHour);
  }

  /** The scan only ever adds slots after those already found. */
  lemma {:induction false} ScanExtends(service: Option<EventsApi>, q: Query, offset: int, hour: int, found: seq<Slot>)
    ensures Scan(service, q, offset, hour, found).Ok? ==> found <= Scan(service, q, offset, hour, found).value
    decreases q.daysAhead - offset, q.lastHour - hour
  {
    if offset >= q.daysAhead {
    } else if Weekday(q.now + offset * MinutesPerDay) >= 5 || hour >= q.lastHour {
      ScanExtends(service, q, offset + 1, q.firstHour, found);
    } else if !(0 <= hour < 24) {
    } else {
      var start := SlotStart(q.now, offset, hour);
      var slot := Slot(start, start + q.duration);
      if start < q.now || !Free(service, slot.start, slot.end, q.calendarId) {
        ScanExtends(service, q, offset, hour + 1, found);
      } else {
        assert found <= found + [slot];
        if |found + [slot]| < MaxSlots {
          ScanExtends(service, q, offset, hour + 1, found + [slot]);
        }
      }
    }
  }

  /** `slots` can only end early by being full: it ends at five slots or runs past `s`. */
  predicate Reaches(slots: seq<Slot>, s: Slot) {
    |slots| < MaxSlots || s.start <= slots[|slots| - 1].start
  }

  /** Every acceptable slot from minute `from` on that `slots` reaches is in `slots`. */
  ghost predicate CompleteFrom(service: Option<EventsApi>, q: Query, from: int, slots: seq<Slot>) {
    forall s :: Acceptable(service, q, s) && from <= s.start && Reaches(slots, s) ==> s in slots
  }

  /** The fifth slot, found at the scan's own position, leaves nothing out up to itself. */
  lemma FullAtSlot(service: Option<EventsApi>, q: Query, found: seq<Slot>, slot: Slot)
    requires slot.end == slot.start + q.duration && |found + [slot]| >= MaxSlots
    ensures CompleteFrom(service, q, slot.start, found + [slot])
  {
    var r := found + [slot];
    assert r[|r| - 1] == slot;
  }

  /** Past the horizon no acceptable slot is left to find. */
  lemma CompleteBeyond(service: Option<EventsApi>, q: Query, offset: int, hour: int, slots: seq<Slot>)
    requires offset >= q.daysAhead
    ensures CompleteFrom(service, q, Mark(q, offset, hour), slots)
  {
    forall s | Acceptable(service, q, s)
      ensures s.start < Mark(q, offset, hour)
    {
      BeyondHorizon(q, offset, hour, s.start);
    }
  }

  /** A skipped day or a finished one hides no acceptable slot. */
  lemma CompleteNextDay(service: Option<EventsApi>, q: Query, offset: int, hour: int, slots: seq<Slot>)
    requires Weekday(q.now + offset * MinutesPerDay) >= 5 || hour >= q.lastHour
    requires CompleteFrom(service, q, Mark(q, offset + 1, q.firstHour), slots)
    ensures CompleteFrom(service, q, Mark(q, offset, hour), slots)
  {
    forall s | Acceptable(service, q, s) && Mark(q, offset, hour) <= s.start
      ensures Mark(q, offset + 1, q.firstHour) <= s.start
    {
      DayDone(q, offset, hour, s.start);
    }
  }

  /** The only acceptable slot starting in this hour is the one the scan looks at. */
  lemma CompleteNextHour(service: Option<EventsApi>, q: Query, offset: int, hour: int, slots: seq<Slot>)
    requires 0 <= hour < 24
    requires CompleteFrom(service, q, Mark(q, offset, hour + 1), slots)
    requires var start := SlotStart(q.now, offset, hour);
      Acceptable(service, q, Slot(start, start + q.duration)) ==> Slot(start, start + q.duration) in slots
    ensures CompleteFrom(service, q, Mark(q, offset, hour), slots)
  {
    var start := SlotStart(q.now, offset, hour);
    var slot := Slot(start, start + q.duration);
    forall s | Acceptable(service, q, s) && Mark(q, offset, hour) <= s.start && s != slot
      ensures Mark(q, offset, hour + 1) <= s.start
    {
      HourDone(q, offset, hour, s.start);
    }
  }

  lemma {:induction false} ScanComplete(service: Option<EventsApi>, q: Query, offset: int, hour: int, found: seq<Slot>)
    requires 0 <= offset
    ensures var r := Scan(service, q, offset, hour, found);
      r.Ok? ==> CompleteFrom(service, q, Mark(q, offset, hour), r.value)
    decreases q.daysAhead - offset, q.lastHour - hour, 1
  {
    var r := Scan(service, q, offset, hour, found);
    if offset >= q.daysAhead {
      CompleteBeyond(service, q, offset, hour, found);
    } else if Weekday(q.now + offset * MinutesPerDay) >= 5 || hour >= q.lastHour {
      assert r == Scan(service, q, offset + 1, q.firstHour, found);
      ScanComplete(service, q, offset + 1, q.firstHour, found);
      if r.Ok? {
        CompleteNextDay(service, q, offset, hour, r.value);
      }
    } else if 0 <= hour < 24 {
      ScanCompleteAt(service, q, offset, hour, found);
    }
  }

  /** The same, at an hour the loop tries: a weekday within the horizon and an hour in 0..23 before `lastHour`. */
  lemma {:induction false} ScanCompleteAt(service: Option<EventsApi>, q: Query, offset: int, hour: int, found: seq<Slot>)
    requires 0 <= offset < q.daysAhead && Weekday(q.now + offset * MinutesPerDay) < 5
    requires 0 <= hour < 24 && hour < q.lastHour
    ensures var r := Scan(service, q, offset, hour, found);
      r.Ok? ==> CompleteFrom(service, q, Mark(q, offset, hour), r.value)
    decreases q.daysAhead - offset, q.lastHour - hour, 0
  {
    var r := Scan(service, q, offset, hour, found);
    var start := SlotStart(q.now, offset, hour);
    var slot := Slot(start, start + q.duration);
    if start < q.now || !Free(service, slot.start, slot.end, q.calendarId) {
      assert r == Scan(service, q, offset, hour + 1, found);
      ScanComplete(service, q, offset, hour + 1, found);
      if r.Ok? {
        CompleteNextHour(service, q, offset, hour, r.value);
      }
    } else if |found + [slot]| < MaxSlots {
      assert r == Scan(service, q, offset, hour + 1, found + [slot]);
      ScanComplete(service, q, offset, hour + 1, found + [slot]);
      ScanExtends(service, q, offset, hour + 1, found + [slot]);
      if r.Ok? {
        assert (found + [slot])[|found|] == slot;
        CompleteNextHour(service, q, offset, hour, r.value);
      }
    } else {
      assert r == Ok(found + [slot]);
      assert Mark(q, offset, hour) == start;
      FullAtSlot(service, q, found, slot);
    }
  }

  /**
   * The search misses nothing: a search that returns fewer than five slots
   * returns every acceptable slot, and one that stops at five returns every
   * acceptable slot up to the fifth.
   */
  lemma SlotsComplete(service: Option<EventsApi>, q: Query, s: Slot)
    requires Slots(service, q).Ok? && Acceptable(service, q, s)
    requires Reaches(Slots(service, q).value, s)
    ensures s in Slots(service, q).value
  {
    ScanComplete(service, q, 0, q.firstHour, []);
    TimeParts(s.start);
  }

  // ---------------------------------------------------------------------
  // The service object
  // ---------------------------------------------------------------------

  class CalendarService {
    /** The built API client, or none when no credentials were found. */
    var service: Option<EventsApi>

    constructor()
      ensures service == None
    {
      service := None;
    }

    /**
     * `authenticate`: the outcome of the OAuth flow is a parameter; the
     * client is kept and true returned when there is one, and the service
     * is cleared and false returned otherwise.
     */
    method Authenticate(client: Option<EventsApi>) returns (ok: bool)
      modifies this
      ensures service == client && ok == client.Some?
    {
      service := client;
      ok := client.Some?;
    }

    /** `check_availability` against the current client. */
    method CheckAvailability(start: int, end: int, calendarId: string) returns (free: bool)
      ensures free == Free(service, start, end, calendarId)
    {
      if service.None? {
        return true;
      }
      var reply := service.value(start, end, calendarId);
      if reply.HttpFailed? {
        return false;
      }
      free := |reply.items| == 0;
    }

    /**
     * `find_available_slots`: walks the days ahead and the preferred hours
     * of each weekday, keeping free slots that have not started, and stops
     * at five.
     */
    method FindAvailableSlots(q: Query) returns (r: Result<seq<Slot>>)
      ensures r == Slots(service, q)
    {
      var slots: seq<Slot> := [];
      var offset := 0;
      while offset < q.daysAhead
        invariant 0 <= offset && |slots| < MaxSlots
        invariant Scan(service, q, offset, q.firstHour, slots) == Slots(service, q)
        decreases q.daysAhead - offset
      {
        if Weekday(q.now + offset * MinutesPerDay) >= 5 {
          offset := offset + 1;
          continue;
        }
        var hour := q.firstHour;
        while hour < q.lastHour
          invariant |slots| < MaxSlots
          invariant Scan(service, q, offset, hour, slots) == Slots(service, q)
          decreases q.lastHour - hour
        {
          if !(0 <= hour < 24) {
            return Err(ValueError("hour must be in 0..23"));
          }
          var start := SlotStart(q.now, offset, hour);
          var end := start + q.duration;
          if start < q.now {
            hour := hour + 1;
            continue;
          }
          var free := CheckAvailability(start, end, q.calendarId);
          if free {
            slots := slots + [Slot(start, end)];
          }
          if |slots| >= MaxSlots {
            return Ok(slots);
          }
          hour := hour + 1;
        }
        offset := offset + 1;
      }
      return Ok(slots);
    }
  }
}
