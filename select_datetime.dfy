/**
 * Step 2 of the booking wizard: pick a day on a calendar that refuses past
 * instants and Sundays, pick one of nine daily slots, then continue to the
 * technician step carrying the location from step 1 together with both.
 */
module SelectDateTime {
  import opened Common
  import opened SelectLocation

  const MsPerDay: int := 86400000

  /**
   * `getDay()` of the instant `t` (milliseconds since the epoch), in a time
   * zone `tzOffset` milliseconds ahead of UTC: 0 is Sunday. The epoch fell on
   * a Thursday (4). Dafny's division by a positive number rounds down, as the
   * day count of a JavaScript date does.
   */
  function Weekday(t: int, tzOffset: int): (d: int)
    ensures 0 <= d < 7
  {
    ((t + tzOffset) / MsPerDay + 4) % 7
  }

  /** The calendar's `disabled` predicate: before the current instant, or a Sunday. */
  predicate IsDisabled(date: int, now: int, tzOffset: int) {
    date < now || Weekday(date, tzOffset) == 0
  }

  /** A day later is the next weekday. */
  lemma NextDayWeekday(t: int, tzOffset: int)
    ensures Weekday(t + MsPerDay, tzOffset) == (Weekday(t, tzOffset) + 1) % 7
  {
  }

  /** A week later is the same weekday, so a disabled future Sunday recurs every week. */
  lemma WeekLaterDisabled(t: int, now: int, tzOffset: int)
    requires t >= now && IsDisabled(t, now, tzOffset)
    ensures Weekday(t, tzOffset) == 0
    ensures Weekday(t + 7 * MsPerDay, tzOffset) == Weekday(t, tzOffset)
    ensures IsDisabled(t + 7 * MsPerDay, now, tzOffset)
  {
    var d := (t + tzOffset) / MsPerDay;
    assert (t + 7 * MsPerDay + tzOffset) / MsPerDay == d + 7;
  }

  /** The day after a Sunday that has not passed can be chosen. */
  lemma MondayAfterSundayEnabled(t: int, now: int, tzOffset: int)
    requires t >= now && Weekday(t, tzOffset) == 0
    ensures IsDisabled(t, now, tzOffset)
    ensures !IsDisabled(t + MsPerDay, now, tzOffset) && Weekday(t + MsPerDay, tzOffset) == 1
  {
    NextDayWeekday(t, tzOffset);
  }

  /** The daily slots. */
  const TimeSlots: seq<string> :=
    ["08:00", "09:00", "10:00", "11:00", "13:00", "14:00", "15:00", "16:00", "17:00"]

  predicate IsDigit(c: char) { '0' <= c <= '9' }

  /** An "HH:MM" string. */
  predicate IsClock(s: string) {
    |s| == 5 && IsDigit(s[0]) && IsDigit(s[1]) && s[2] == ':' && IsDigit(s[3]) && IsDigit(s[4])
  }

  /** The minute of the day an "HH:MM" string names. */
  function MinuteOfDay(s: string): int
    requires IsClock(s)
  {
    ((s[0] as int - '0' as int) * 10 + (s[1] as int - '0' as int)) * 60
    + (s[3] as int - '0' as int) * 10 + (s[4] as int - '0' as int)
  }

  /** Nine "HH:MM" slots in strictly ascending order of time. */
  lemma TimeSlotsAscending()
    ensures |TimeSlots| == 9
    ensures forall s :: s in TimeSlots ==> IsClock(s)
    ensures forall i, j :: 0 <= i < j < |TimeSlots| ==> MinuteOfDay(TimeSlots[i]) < MinuteOfDay(TimeSlots[j])
  {
  }

  /** Hence the slots are pairwise distinct. */
  lemma TimeSlotsDistinct()
    ensures forall i, j :: 0 <= i < |TimeSlots| && 0 <= j < |TimeSlots| && i != j ==> TimeSlots[i] != TimeSlots[j]
  {
  }

  /** The state handed to the technician step: the location as received, plus date and time. */
  datatype DateTimeDraft = DateTimeDraft(city: Option<string>, neighborhood: Option<string>, date: int, time: string)

  class DateTimeStep {
    /** Read from the navigation state; absent when the page was reached without one. */
    const city: Option<string>
    const neighborhood: Option<string>
    /** The browser's local time-zone offset, in milliseconds ahead of UTC. */
    const tzOffset: int
    var selectedDate: Option<int>
    var selectedTime: string

    /** The selected date, if any, is not a Sunday; the selected time is empty or one of the slots. */
    ghost predicate Valid()
      reads this
    {
      (selectedDate.Some? ==> Weekday(selectedDate.value, tzOffset) != 0)
      && (selectedTime == "" || selectedTime in TimeSlots)
    }

    constructor (state: Option<LocationDraft>, tzOffset: int)
      ensures Valid() && selectedDate == None && selectedTime == ""
      ensures this.tzOffset == tzOffset
      ensures city == (if state.Some? then Some(state.value.city) else None)
      ensures neighborhood == (if state.Some? then Some(state.value.neighborhood) else None)
    {
      city := if state.Some? then Some(state.value.city) else None;
      neighborhood := if state.Some? then Some(state.value.neighborhood) else None;
      this.tzOffset := tzOffset;
      selectedDate := None;
      selectedTime := "";
    }

    /** The slot grid is rendered only once a date is chosen. */
    predicate ShowsTimeSlots()
      reads this
    {
      selectedDate.Some?
    }

    /** The summary and continue button are rendered only once both are chosen. */
    predicate ShowsSummary()
      reads this
    {
      selectedDate.Some? && selectedTime != ""
    }

    /** The calendar's `onSelect`: an enabled day, or nothing when the chosen day is clicked again. */
    method SelectDate(date: Option<int>, now: int)
      requires Valid()
      requires date.Some? ==> !IsDisabled(date.value, now, tzOffset)
      modifies this
      ensures Valid()
      ensures selectedDate == date && selectedTime == old(selectedTime)
    {
      selectedDate := date;
    }

    /** Clicking a slot of the grid, which is shown once a date is chosen. */
    method SelectTime(time: string)
      requires Valid() && ShowsTimeSlots() && time in TimeSlots
      modifies this
      ensures Valid()
      ensures selectedTime == time && selectedDate == old(selectedDate)
      ensures ShowsSummary()
    {
      selectedTime := time;
    }

    /** `handleContinue`: navigate only when both are chosen, forwarding the location unchanged. */
    method HandleContinue() returns (nav: Option<Navigation<DateTimeDraft>>)
      requires Valid()
      ensures nav.Some? <==> ShowsSummary()
      ensures nav.Some? ==>
        && nav.value.path == "/select-technician"
        && nav.value.state == DateTimeDraft(city, neighborhood, selectedDate.value, selectedTime)
        && nav.value.state.time in TimeSlots
        && Weekday(nav.value.state.date, tzOffset) != 0
    {
      if selectedDate.Some? && selectedTime != "" {
        nav := Some(Navigation("/select-technician",
                               DateTimeDraft(city, neighborhood, selectedDate.value, selectedTime)));
      } else {
        nav := None;
      }
    }
  }
}
