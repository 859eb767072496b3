/** The background (availability) events of a user's calendar: busy hours
    before and after work and the personal hours, day by day, then vacations. */
module Availability {
  import opened Common
  import opened Entities

  const BusyColor: string := "#1c1c1c"
  const PersonalColor: string := "#585858"
  const VacationColor: string := "#363636"

  /** An event drawn behind the tasks; every one of them renders as "background". */
  datatype BackgroundEvent = BackgroundEvent(start: Stamp, end: Stamp, color: string, userId: UserId)

  function BusyBefore(s: Schedule, day: int, u: UserId): BackgroundEvent
  {
    BackgroundEvent(DateTime(day, 0), DateTime(day, s.workStart), BusyColor, u)
  }

  function BusyAfter(s: Schedule, day: int, u: UserId): BackgroundEvent
  {
    BackgroundEvent(DateTime(day, s.workEnd), DateTime(day, DayEnd), BusyColor, u)
  }

  function Personal(s: Schedule, day: int, u: UserId): BackgroundEvent
  {
    BackgroundEvent(DateTime(day, s.personalStart), DateTime(day, s.personalEnd), PersonalColor, u)
  }

  /** The events of one day: busy from midnight to the start of work if work
      starts after midnight, busy from the end of work to 23:59:59 if work ends
      before then, and the personal hours, always and unchecked. */
  function DayEvents(s: Schedule, day: int, u: UserId): seq<BackgroundEvent>
  {
    (if 0 < s.workStart then [BusyBefore(s, day, u)] else [])
    + (if s.workEnd < DayEnd then [BusyAfter(s, day, u)] else [])
    + [Personal(s, day, u)]
  }

  /** The events of the days `first` to `last`, inclusive, in day order. */
  function DailyEvents(s: Schedule, u: UserId, first: int, last: int): seq<BackgroundEvent>
    decreases last - first
  {
    if last < first then [] else DailyEvents(s, u, first, last - 1) + DayEvents(s, last, u)
  }

  /** A day holds one to three events, in the order busy-before, busy-after,
      personal: busy-before exactly when work starts after 00:00, busy-after
      exactly when work ends before 23:59:59, the personal hours last and as
      the schedule gives them, even when they are empty or reversed. */
  lemma DayEventsShape(s: Schedule, day: int, u: UserId)
    ensures var es := DayEvents(s, day, u);
      && |es| == 1 + (if 0 < s.workStart then 1 else 0) + (if s.workEnd < DayEnd then 1 else 0)
      && (BusyBefore(s, day, u) in es <==> 0 < s.workStart)
      && (BusyAfter(s, day, u) in es <==> s.workEnd < DayEnd)
      && (0 < s.workStart ==> es[0] == BusyBefore(s, day, u))
      && (s.workEnd < DayEnd ==> es[|es| - 2] == BusyAfter(s, day, u))
      && es[|es| - 1] == Personal(s, day, u)
      && forall i :: 0 <= i < |es| ==> OnDay(es[i], day)
  {
  }

  /** An event that starts and ends on the given day. */
  predicate OnDay(e: BackgroundEvent, day: int)
  {
    e.start.DateTime? && e.end.DateTime? && e.start.day == day && e.end.day == day
  }

  /** Nothing for an empty range; otherwise one to three events per day. */
  lemma {:induction false} DailyEventsCount(s: Schedule, u: UserId, first: int, last: int)
    ensures last < first ==> DailyEvents(s, u, first, last) == []
    ensures first <= last ==> last - first + 1 <= |DailyEvents(s, u, first, last)| <= 3 * (last - first + 1)
    decreases last - first
  {
    if first <= last {
      DailyEventsCount(s, u, first, last - 1);
      DayEventsShape(s, last, u);
    }
  }

  /** Every event starts and ends on one day between `first` and `last`. */
  predicate WithinDays(es: seq<BackgroundEvent>, first: int, last: int)
  {
    forall i :: 0 <= i < |es| ==> OnDay(es[i], es[i].start.day) && first <= es[i].start.day <= last
  }

  /** The days of the events never go back. */
  predicate InDayOrder(es: seq<BackgroundEvent>)
    requires forall i :: 0 <= i < |es| ==> es[i].start.DateTime?
  {
    forall i, j :: 0 <= i < j < |es| ==> es[i].start.day <= es[j].start.day
  }

  /** Every event lies on one day of the range, and the days never go back. */
  lemma {:induction false} DailyEventsInDayOrder(s: Schedule, u: UserId, first: int, last: int)
    ensures WithinDays(DailyEvents(s, u, first, last), first, last)
    ensures InDayOrder(DailyEvents(s, u, first, last))
    decreases last - first
  {
    if first <= last {
      DailyEventsInDayOrder(s, u, first, last - 1);
      DayEventsShape(s, last, u);
      var prev := DailyEvents(s, u, first, last - 1);
      var day := DayEvents(s, last, u);
      var all := prev + day;
      assert DailyEvents(s, u, first, last) == all;
      forall i | 0 <= i < |all|
        ensures OnDay(all[i], all[i].start.day) && first <= all[i].start.day <= last
      {
        if i < |prev| {
          assert all[i] == prev[i];
        } else {
          assert all[i] == day[i - |prev|];
          assert OnDay(day[i - |prev|], last);
        }
      }
      forall i, j | 0 <= i < j < |all|
        ensures all[i].start.day <= all[j].start.day
      {
        if j < |prev| {
          assert all[i] == prev[i] && all[j] == prev[j];
        } else if i < |prev| {
          assert all[i] == prev[i] && all[j] == day[j - |prev|];
        } else {
          assert all[i] == day[i - |prev|] && all[j] == day[j - |prev|];
        }
      }
    }
  }

  /** Every day of the range gets its personal-hours event (that no other day
      does is `WithinDays` in `DailyEventsInDayOrder`). */
  lemma {:induction false} DailyEventsCoverEveryDay(s: Schedule, u: UserId, first: int, last: int, day: int)
    requires first <= day <= last
    ensures Personal(s, day, u) in DailyEvents(s, u, first, last)
    decreases last - first
  {
    DayEventsShape(s, last, u);
    if day < last {
      DailyEventsCoverEveryDay(s, u, first, last - 1, day);
    }
  }

  /** The method's day loop: `day` runs from the first date of the range to the last. */
  method BuildDailyEvents(s: Schedule, u: UserId, range: Range) returns (events: seq<BackgroundEvent>)
    ensures events == DailyEvents(s, u, range.startDay, range.endDay)
  {
    events := [];
    var day := range.startDay;
    while day <= range.endDay
      invariant range.startDay <= day && (day <= range.endDay + 1 || day == range.startDay)
      invariant events == DailyEvents(s, u, range.startDay, day - 1)
      decreases range.endDay - day
    {
      if 0 < s.workStart {
        events := events + [BackgroundEvent(DateTime(day, 0), DateTime(day, s.workStart), BusyColor, u)];
      }
      if s.workEnd < DayEnd {
        events := events + [BackgroundEvent(DateTime(day, s.workEnd), DateTime(day, DayEnd), BusyColor, u)];
      }
      events := events + [BackgroundEvent(DateTime(day, s.personalStart), DateTime(day, s.personalEnd), PersonalColor, u)];
      day := day + 1;
    }
  }

  /** The vacations the store's filter keeps: those ending on or after the
      first date and starting on or before the last date of the range. */
  predicate Overlaps(v: Vacation, range: Range)
  {
    v.dateEnd >= range.startDay && v.dateStart <= range.endDay
  }

  function Overlapping(vs: seq<Vacation>, range: Range): seq<Vacation>
  {
    if vs == [] then []
    else Overlapping(vs[..|vs| - 1], range) + (if Overlaps(vs[|vs| - 1], range) then [vs[|vs| - 1]] else [])
  }

  /** The filter keeps exactly the overlapping vacations. */
  lemma {:induction false} OverlappingKeepsOverlaps(vs: seq<Vacation>, range: Range)
    ensures |Overlapping(vs, range)| <= |vs|
    ensures forall v :: v in Overlapping(vs, range) <==> v in vs && Overlaps(v, range)
  {
    if vs != [] {
      OverlappingKeepsOverlaps(vs[..|vs| - 1], range);
      assert vs == vs[..|vs| - 1] + [vs[|vs| - 1]];
    }
  }

  /** A vacation's two events: the dates as days, ending at the day after the
      last date, and the same span from 00:00 of the first date to 23:59:59 of the last. */
  function VacationPair(v: Vacation, u: UserId): seq<BackgroundEvent>
  {
    [ BackgroundEvent(DateOnly(v.dateStart), DateOnly(v.dateEnd + 1), VacationColor, u),
      BackgroundEvent(DateTime(v.dateStart, 0), DateTime(v.dateEnd, DayEnd), VacationColor, u) ]
  }

  function VacationEvents(vs: seq<Vacation>, u: UserId): seq<BackgroundEvent>
  {
    if vs == [] then [] else VacationEvents(vs[..|vs| - 1], u) + VacationPair(vs[|vs| - 1], u)
  }

  /** Two events per vacation, in vacation order. */
  lemma {:induction false} VacationEventsPaired(vs: seq<Vacation>, u: UserId)
    ensures |VacationEvents(vs, u)| == 2 * |vs|
    ensures forall i :: 0 <= i < |vs| ==>
      VacationEvents(vs, u)[2 * i] == VacationPair(vs[i], u)[0]
      && VacationEvents(vs, u)[2 * i + 1] == VacationPair(vs[i], u)[1]
  {
    if vs != [] {
      var init := vs[..|vs| - 1];
      VacationEventsPaired(init, u);
      assert forall i :: 0 <= i < |init| ==> init[i] == vs[i];
    }
  }

  /** The loop over the filtered vacations, appending to the events built so far. */
  method AppendVacationEvents(events: seq<BackgroundEvent>, vacations: seq<Vacation>, u: UserId)
    returns (result: seq<BackgroundEvent>)
    ensures result == events + VacationEvents(vacations, u)
  {
    result := events;
    for i := 0 to |vacations|
      invariant result == events + VacationEvents(vacations[..i], u)
    {
      var v := vacations[i];
      assert vacations[..i + 1][..i] == vacations[..i];
      result := result + [BackgroundEvent(DateOnly(v.dateStart), DateOnly(v.dateEnd + 1), VacationColor, u)];
      result := result + [BackgroundEvent(DateTime(v.dateStart, 0), DateTime(v.dateEnd, DayEnd), VacationColor, u)];
    }
    assert vacations[..|vacations|] == vacations;
  }

  /** All background events of a user: none without a schedule (vacations
      included), otherwise the daily events followed by the vacation events. */
  function Background(schedule: Option<Schedule>, vacations: seq<Vacation>, u: UserId, range: Range): seq<BackgroundEvent>
  {
    match schedule
    case None => []
    case Some(s) => DailyEvents(s, u, range.startDay, range.endDay) + VacationEvents(Overlapping(vacations, range), u)
  }

  /** With a schedule, the daily events come first and the vacation events,
      two per overlapping vacation, after all of them; only the latter carry
      the vacation colour. */
  lemma BackgroundLayout(s: Schedule, vacations: seq<Vacation>, u: UserId, range: Range)
    ensures var bg, daily, ov := Background(Some(s), vacations, u, range),
                                 DailyEvents(s, u, range.startDay, range.endDay),
                                 Overlapping(vacations, range);
      && |bg| == |daily| + 2 * |ov|
      && bg[..|daily|] == daily
      && (forall i :: 0 <= i < |daily| ==> bg[i].color != VacationColor)
      && (forall i :: |daily| <= i < |bg| ==> bg[i].color == VacationColor)
  {
    var daily := DailyEvents(s, u, range.startDay, range.endDay);
    var ov := Overlapping(vacations, range);
    var vac := VacationEvents(ov, u);
    var bg := daily + vac;
    VacationEventsPaired(ov, u);
    DailyColours(s, u, range.startDay, range.endDay);
    VacationColours(ov, u);
    assert forall i :: 0 <= i < |daily| ==> bg[i] == daily[i];
    assert forall i :: |daily| <= i < |bg| ==> bg[i] == vac[i - |daily|];
  }

  /** Vacation events carry the vacation colour. */
  lemma {:induction false} VacationColours(vs: seq<Vacation>, u: UserId)
    ensures forall e :: e in VacationEvents(vs, u) ==> e.color == VacationColor
  {
    if vs != [] {
      VacationColours(vs[..|vs| - 1], u);
    }
  }

  /** Daily events carry the busy or the personal colour. */
  lemma {:induction false} DailyColours(s: Schedule, u: UserId, first: int, last: int)
    ensures forall e :: e in DailyEvents(s, u, first, last) ==> e.color == BusyColor || e.color == PersonalColor
    decreases last - first
  {
    if first <= last {
      DailyColours(s, u, first, last - 1);
    }
  }

  /** The schedule block: without a schedule nothing is emitted; with one,
      the day loop runs and then the filtered vacations are appended. */
  method BuildBackground(schedule: Option<Schedule>, vacations: seq<Vacation>, u: UserId, range: Range)
    returns (events: seq<BackgroundEvent>)
    ensures events == Background(schedule, vacations, u, range)
  {
    events := [];
    if schedule.Some? {
      events := BuildDailyEvents(schedule.value, u, range);
      var kept := Overlapping(vacations, range);
      events := AppendVacationEvents(events, kept, u);
    }
  }
}
