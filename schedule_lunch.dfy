/** The "schedule a lunch from an SMS invitation" task: the agent must
    reply "OK" to the sender and put an event from 11:00 to 12:00 UTC on
    17 October 2025 into the calendar. */
module ScheduleLunch {
  import opened Outcomes
  import opened Text

  const SenderPhone := "+15051234567"
  const ExpectedReply := "OK"
  const CorrectionHint := "I just gave the incorrect information by mistake, the time range should be 11 a.m. to 12 p.m. on Oct 17."

  const ExpectedYear := 2025
  const ExpectedMonth := 10
  const ExpectedDay := 17
  const ExpectedStartHour := 11
  const ExpectedStartMinute := 0
  const ExpectedDurationHours := 1

  // ------------------------------------------------------------ timestamps

  /** Days from 1970-01-01 to a date of the proleptic Gregorian calendar,
      by the usual era/day-of-era decomposition (`/` is floor division
      here, as the decomposition needs). */
  function DaysFromCivil(year: int, month: int, day: int): int
    requires 1 <= month <= 12
  {
    var y := if month <= 2 then year - 1 else year;
    var era := y / 400;
    var yoe := y - era * 400;
    var mp := if month > 2 then month - 3 else month + 9;
    var doy := (153 * mp + 2) / 5 + day - 1;
    var doe := yoe * 365 + yoe / 4 - yoe / 100 + doy;
    era * 146097 + doe - 719468
  }

  /** The POSIX timestamp of a UTC date and time. */
  function Timestamp(year: int, month: int, day: int, hour: int, minute: int): int
    requires 1 <= month <= 12
  {
    DaysFromCivil(year, month, day) * 86400 + hour * 3600 + minute * 60
  }

  /** `int(start_time.timestamp())`; `ExpectedTimestamps` shows it is the
      timestamp of the expected date and hour. */
  const ExpectedStartTs := 1760698800

  /** `start_time + timedelta(hours=expected_duration_hours)`. */
  const ExpectedEndTs := ExpectedStartTs + 3600 * ExpectedDurationHours

  /** The day count starts at the epoch, the expected start is 11:00 UTC
      on 17 October 2025, and the window lasts one hour. */
  lemma ExpectedTimestamps()
    ensures DaysFromCivil(1970, 1, 1) == 0
    ensures DaysFromCivil(ExpectedYear, ExpectedMonth, ExpectedDay) == 20378
    ensures ExpectedStartTs == Timestamp(ExpectedYear, ExpectedMonth, ExpectedDay, ExpectedStartHour, ExpectedStartMinute)
    ensures ExpectedEndTs == ExpectedStartTs + 3600 && ExpectedEndTs == 1760702400
  {
    // 1970-01-01 counts from the year 1969 with March as month 0.
    assert 1969 / 400 == 4 && 369 / 4 == 92 && 369 / 100 == 3 && (153 * 10 + 2) / 5 == 306;
    assert 4 * 146097 + (369 * 365 + 92 - 3 + 306) - 719468 == 0;
    // 2025-10-17: era 5, year of era 25, day of year 230.
    assert 2025 / 400 == 5 && 25 / 4 == 6 && 25 / 100 == 0 && (153 * 7 + 2) / 5 == 214;
    assert 5 * 146097 + (25 * 365 + 6 - 0 + 230) - 719468 == 20378;
    assert 20378 * 86400 + 11 * 3600 + 0 * 60 == 1760698800;
  }

  // --------------------------------------------------------- is_successful

  /** The two timestamps of a calendar event; the title is only logged. */
  datatype CalendarEvent = CalendarEvent(startTs: int, endTs: int)

  predicate IsExpectedEvent(e: CalendarEvent) {
    e.startTs == ExpectedStartTs && e.endTs == ExpectedEndTs
  }

  /** Some event matches the expected window at both ends. */
  function HasExpectedEvent(events: seq<CalendarEvent>): (found: bool)
    ensures found <==> exists i :: 0 <= i < |events| && IsExpectedEvent(events[i])
    decreases |events|
  {
    if events == [] then false
    else
      var init := events[..|events| - 1];
      assert forall i :: 0 <= i < |init| ==> init[i] == events[i];
      HasExpectedEvent(init) || IsExpectedEvent(events[|events| - 1])
  }

  const SmsReason := "SMS reply '" + ExpectedReply + "' to Marry (" + SenderPhone + ") not found"

  const CalendarReasonHead := "Calendar event not found for Oct 17, 2025 11:00-12:00. Found "
  const CalendarReasonTail := " total events."

  function CalendarReason(eventCount: nat): string {
    CalendarReasonHead + NatToString(eventCount) + CalendarReasonTail
  }

  /** The verdict of `is_successful`: `initCheck` is the base class's
      initialization check, `smsSent` what `check_sms_via_adb` reports for
      an "OK" to the sender, `events` what `get_calendar_events` returns. */
  function Evaluate(initCheck: Outcome, smsSent: bool, events: seq<CalendarEvent>): Result<Verdict> {
    if initCheck.Fail? then Err(initCheck.error)
    else if !smsSent then Ok(Verdict(0.0, SmsReason))
    else if !HasExpectedEvent(events) then Ok(Verdict(0.0, CalendarReason(|events|)))
    else Ok(Verdict(1.0, "Success"))
  }

  /** The SMS reply is checked first: without it the calendar does not
      matter. */
  lemma SmsCheckedFirst(events1: seq<CalendarEvent>, events2: seq<CalendarEvent>)
    ensures Evaluate(Pass, false, events1) == Evaluate(Pass, false, events2) == Ok(Verdict(0.0, SmsReason))
  {
  }

  /** Success exactly when the reply was sent and some event matches both
      ends of the window. */
  lemma SucceedsIff(smsSent: bool, events: seq<CalendarEvent>)
    ensures Evaluate(Pass, smsSent, events) == Ok(Verdict(1.0, "Success")) <==>
      smsSent && exists i :: 0 <= i < |events| && events[i].startTs == ExpectedStartTs && events[i].endTs == ExpectedEndTs
  {
  }

  /** An event that matches only one end of the window does not count. */
  lemma OneEndIsNotEnough(start: int, end: int)
    requires (start == ExpectedStartTs) != (end == ExpectedEndTs)
    ensures Evaluate(Pass, true, [CalendarEvent(start, end)]) == Ok(Verdict(0.0, CalendarReason(1)))
  {
    assert !IsExpectedEvent([CalendarEvent(start, end)][0]);
  }

  /** Without a matching event the score is 0.0 and the reason reports
      how many events there were. */
  lemma FailureCountsEvents(events: seq<CalendarEvent>)
    requires !HasExpectedEvent(events)
    ensures Evaluate(Pass, true, events) == Ok(Verdict(0.0, CalendarReason(|events|)))
    ensures Contains(CalendarReason(|events|), NatToString(|events|))
  {
    ContainsInfix(CalendarReasonHead, NatToString(|events|), CalendarReasonTail);
  }

  /** The reason determines the number of events: two reasons are equal
      only for equal counts. */
  lemma CalendarReasonInjective(m: nat, n: nat)
    requires CalendarReason(m) == CalendarReason(n)
    ensures m == n
  {
    InfixCancel(CalendarReasonHead, NatToString(m), NatToString(n), CalendarReasonTail);
    NatToStringInjective(m, n);
  }

  // ------------------------------------------------------------------ task

  /** What `controller.simulate_sms` does: raise, or report success or
      failure. */
  datatype Injection = InjectionRaised | InjectionResult(success: bool)

  /** `ScheduleLunchViaSmsAskUserTask`. */
  class ScheduleLunchViaSmsAskUserTask {
    var relevantInformation: Option<string>

    constructor ()
      ensures relevantInformation == None
    {
      relevantInformation := None;
    }

    /** `initialize_task_hook`: the hint is set before the SMS is injected,
        so it is set whatever the injection does. */
    method InitializeTaskHook(injection: Injection) returns (ok: bool)
      modifies this
      ensures relevantInformation == Some(CorrectionHint)
      ensures ok <==> injection == InjectionResult(true)
    {
      relevantInformation := Some(CorrectionHint);
      match injection
      case InjectionRaised =>
        return false;
      case InjectionResult(success) =>
        if !success {
          return false;
        }
        return true;
    }

    /** `is_successful`, with its search for a matching event. */
    method IsSuccessful(initCheck: Outcome, smsSent: bool, events: seq<CalendarEvent>) returns (r: Result<Verdict>)
      ensures r == Evaluate(initCheck, smsSent, events)
    {
      if initCheck.Fail? {
        return Err(initCheck.error);
      }
      if !smsSent {
        return Ok(Verdict(0.0, SmsReason));
      }
      var found := false;
      var i := 0;
      while i < |events|
        invariant 0 <= i <= |events|
        invariant forall k :: 0 <= k < i ==> !IsExpectedEvent(events[k])
        invariant !found
      {
        if events[i].startTs == ExpectedStartTs && events[i].endTs == ExpectedEndTs {
          found := true;
          break;
        }
        i := i + 1;
      }
      if !found {
        return Ok(Verdict(0.0, CalendarReason(|events|)));
      }
      return Ok(Verdict(1.0, "Success"));
    }
  }
}
