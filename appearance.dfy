/** The business-hours part of the appearance page (app/admin/appearance/page.tsx): the default
    weekly schedule, the switch that turns business hours on and off, and the per-day edits. The
    browser's own timezone is an input. The page edits the configuration row in memory; what it
    edits is what the widget later reads through the public configuration. */
module Appearance {
  import opened Text
  import opened ChatData
  import opened Plans
  import opened WidgetConfig
  import opened WidgetRuntime

  /** `DEFAULT_BUSINESS_HOURS`: Monday to Friday 09:00 to 17:00, the weekend closed. */
  const DefaultHours: Schedule := map[
    Monday := DaySchedule(true, "09:00", "17:00"),
    Tuesday := DaySchedule(true, "09:00", "17:00"),
    Wednesday := DaySchedule(true, "09:00", "17:00"),
    Thursday := DaySchedule(true, "09:00", "17:00"),
    Friday := DaySchedule(true, "09:00", "17:00"),
    Saturday := DaySchedule(false, "09:00", "17:00"),
    Sunday := DaySchedule(false, "09:00", "17:00")]

  /** A schedule as the page's type declares it: one entry for each of the seven days. */
  predicate Complete(s: Schedule) {
    s.Keys == AllWeekdays
  }

  predicate IsWeekend(d: Weekday) {
    d == Saturday || d == Sunday
  }

  lemma DefaultHoursShape()
    ensures Complete(DefaultHours)
    ensures forall d :: d in DefaultHours ==> (DefaultHours[d].enabled <==> !IsWeekend(d))
    ensures forall d :: d in DefaultHours ==> DefaultHours[d].start == "09:00" && DefaultHours[d].end == "17:00"
  {
    assert DefaultHours.Keys == {Monday, Tuesday, Wednesday, Thursday, Friday, Saturday, Sunday};
  }

  /** The default times read as minute 540 and minute 1020 of the day. */
  lemma DefaultTimes()
    ensures ParseClock("09:00") == Some(540) && ParseClock("17:00") == Some(1020)
  {
    assert ParseDigits("09") == Some(9) by {
      assert "09"[..1] == "0";
    }
    assert ParseDigits("00") == Some(0) by {
      assert "00"[..1] == "0";
    }
    assert ParseDigits("17") == Some(17) by {
      assert "17"[..1] == "1";
    }
    ParseClockDigits("09", "00");
    ParseClockDigits("17", "00");
    assert "09" + ":" + "00" == "09:00";
    assert "17" + ":" + "00" == "17:00";
  }

  /** With the default schedule the widget is online on weekdays from 09:00 up to 17:00 and never
      at the weekend. */
  lemma DefaultHoursOnline(cfg: PublicConfig, d: Weekday, hour: int, minute: int)
    requires Truthy(cfg.businessHoursEnabled) && cfg.businessHours == Some(DefaultHours)
    ensures CheckBusinessHours(cfg, d, hour, minute) <==> !IsWeekend(d) && 540 <= hour * 60 + minute < 1020
  {
    DefaultHoursShape();
    DefaultTimes();
    assert d in DefaultHours;
  }

  /** The switch: turning business hours on installs the default schedule when none is stored and
      the browser's timezone when none is set; turning them off changes only the flag. */
  function ToggleBusinessHours(c: ChatbotConfig, checked: bool, localZone: string): ChatbotConfig {
    c.(businessHoursEnabled := Some(checked),
       businessHours := if checked && c.businessHours.None? then Some(DefaultHours) else c.businessHours,
       businessHoursTimezone := if checked && !Present(c.businessHoursTimezone) then Some(localZone)
                                else c.businessHoursTimezone)
  }

  /** After turning business hours on there is a schedule, the stored one if any, and a timezone,
      the stored one if any; nothing but these three fields changes. */
  lemma EnableInstallsDefaults(c: ChatbotConfig, localZone: string)
    ensures var r := ToggleBusinessHours(c, true, localZone);
      && r.businessHoursEnabled == Some(true)
      && r.businessHours.Some?
      && (c.businessHours.Some? ==> r.businessHours == c.businessHours)
      && (c.businessHours.None? ==> r.businessHours == Some(DefaultHours))
      && (Present(c.businessHoursTimezone) ==> r.businessHoursTimezone == c.businessHoursTimezone)
      && (!Present(c.businessHoursTimezone) ==> r.businessHoursTimezone == Some(localZone))
      && r.(businessHoursEnabled := c.businessHoursEnabled, businessHours := c.businessHours,
            businessHoursTimezone := c.businessHoursTimezone) == c
  {
  }

  /** Turning business hours off keeps the schedule and the timezone, so turning them on again
      finds both (given a browser timezone that is not empty). */
  lemma DisableRetains(c: ChatbotConfig, zone1: string, zone2: string)
    requires zone1 != ""
    ensures ToggleBusinessHours(c, false, zone2) == c.(businessHoursEnabled := Some(false))
    ensures var on := ToggleBusinessHours(c, true, zone1);
      ToggleBusinessHours(ToggleBusinessHours(on, false, zone2), true, zone2) == on
  {
  }

  /** The schedule the day editors show and start from: the stored one, or the default. */
  function Hours(c: ChatbotConfig): Schedule {
    if c.businessHours.Some? then c.businessHours.value else DefaultHours
  }

  /** One day editor's change: its switch, its start time or its end time. */
  datatype DayEdit = SetEnabled(enabled: bool) | SetStart(start: string) | SetEnd(end: string)

  function ApplyEdit(e: DaySchedule, edit: DayEdit): DaySchedule {
    match edit
    case SetEnabled(b) => e.(enabled := b)
    case SetStart(t) => e.(start := t)
    case SetEnd(t) => e.(end := t)
  }

  /** A day editor's change, written back as the whole schedule. The editor of a day exists only
      when the schedule has an entry for it. */
  function EditDay(c: ChatbotConfig, d: Weekday, edit: DayEdit): (r: ChatbotConfig)
    requires d in Hours(c)
    ensures r.businessHours.Some? && r.businessHours.value.Keys == Hours(c).Keys
    ensures r.(businessHours := c.businessHours) == c
  {
    c.(businessHours := Some(Hours(c)[d := ApplyEdit(Hours(c)[d], edit)]))
  }

  /** Editing one day changes that day's one field and leaves the other days as they were; a
      schedule with all seven days keeps them; editing while no schedule is stored starts from the
      default one. */
  lemma EditOnlyThatDay(c: ChatbotConfig, d: Weekday, edit: DayEdit)
    requires d in Hours(c)
    ensures var s := EditDay(c, d, edit).businessHours.value;
      && (forall o :: o in Hours(c) && o != d ==> s[o] == Hours(c)[o])
      && (edit.SetEnabled? ==> s[d] == Hours(c)[d].(enabled := edit.enabled))
      && (edit.SetStart? ==> s[d] == Hours(c)[d].(start := edit.start))
      && (edit.SetEnd? ==> s[d] == Hours(c)[d].(end := edit.end))
      && (Complete(Hours(c)) ==> Complete(s))
      && (c.businessHours.None? ==> s == DefaultHours[d := ApplyEdit(DefaultHours[d], edit)])
  {
  }

  /** Closing a day in the editor makes the widget offline all that day while business hours are
      on, whatever the owner's plan. */
  lemma ClosedDayIsOffline(c: ChatbotConfig, d: Weekday, limits: PlanLimits, hour: int, minute: int)
    requires d in Hours(c)
    requires Truthy(c.businessHoursEnabled)
    ensures !CheckBusinessHours(Project(EditDay(c, d, SetEnabled(false)), limits), d, hour, minute)
  {
    var p := Project(EditDay(c, d, SetEnabled(false)), limits);
    assert p.businessHours.value[d].enabled == false;
  }
}
