/** The demo conditional sensor: on each tick it reads the local clock and,
    during business hours, requests a run of the hourly metrics job under an
    idempotency key scoped to the current hour; otherwise it skips. */
module Sensors {
  import opened Wrappers
  import opened Text

  /** A reading of the local wall clock, to the second. */
  datatype Instant = Instant(year: int, month: int, day: int, hour: int, minute: int, second: int)

  predicate IsLeapYear(year: int) {
    year % 4 == 0 && (year % 100 != 0 || year % 400 == 0)
  }

  function DaysInMonth(year: int, month: int): int
    requires 1 <= month <= 12
  {
    if month == 2 then (if IsLeapYear(year) then 29 else 28)
    else if month == 4 || month == 6 || month == 9 || month == 11 then 30
    else 31
  }

  /** A calendar instant whose year has four digits, as `%Y` prints it. */
  predicate ValidInstant(t: Instant) {
    && 1000 <= t.year <= 9999
    && 1 <= t.month <= 12
    && 1 <= t.day <= DaysInMonth(t.year, t.month)
    && 0 <= t.hour <= 23
    && 0 <= t.minute <= 59
    && 0 <= t.second <= 59
  }

  /** The calendar hour an instant falls in. */
  datatype HourStamp = HourStamp(year: nat, month: nat, day: nat, hour: nat)

  function HourOf(t: Instant): HourStamp
    requires ValidInstant(t)
  {
    HourStamp(t.year, t.month, t.day, t.hour)
  }

  datatype SensorStatus = Running | Stopped

  datatype SensorDefinition = SensorDefinition(name: string, job: string, defaultStatus: SensorStatus)

  /** The sensor is registered for `hourly_metrics_job` and starts out stopped. */
  const DemoConditionalSensorDefinition :=
    SensorDefinition("demo_conditional_sensor", "hourly_metrics_job", Stopped)

  /** The registration names the sensor, targets `hourly_metrics_job` and
      leaves the sensor stopped until an operator starts it. */
  lemma DemoConditionalSensorRegistration()
    ensures DemoConditionalSensorDefinition.name == "demo_conditional_sensor"
    ensures DemoConditionalSensorDefinition.job == "hourly_metrics_job"
    ensures DemoConditionalSensorDefinition.defaultStatus == Stopped
  {
  }

  /** What one evaluation returns: a run request under an idempotency key,
      with tags, or a skip with a reason. */
  datatype SensorResult = RunRequest(runKey: string, tags: map<string, string>) | Skip(reason: string)

  /** The business hours, both ends included. */
  const FirstActiveHour := 9
  const LastActiveHour := 18

  predicate InActiveWindow(hour: int) {
    FirstActiveHour <= hour <= LastActiveHour
  }

  const RunKeyPrefix := "demo_conditional_"
  const TriggerTagValue := "demo_conditional"
  const NoteTagValue := "This should be a schedule, not a sensor!"
  const SkipReasonPrefix := "Demo condition not met (hour: "

  /** The key text around four field strings: prefix, then the fields
      separated by '-'. */
  function AssembleRunKey(year: string, month: string, day: string, hour: string): string {
    RunKeyPrefix + year + "-" + month + "-" + day + "-" + hour
  }

  /** `"demo_conditional_" + strftime('%Y-%m-%d-%H')`. */
  function RunKey(t: Instant): (key: string)
    requires ValidInstant(t)
    ensures var n := |RunKeyPrefix|;
      && |key| == n + 13 && key[..n] == RunKeyPrefix
      && key[n + 4] == '-' && key[n + 7] == '-' && key[n + 10] == '-'
      && AllDigits(key[n..n + 4]) && DigitsValue(key[n..n + 4]) == t.year
      && AllDigits(key[n + 5..n + 7]) && DigitsValue(key[n + 5..n + 7]) == t.month
      && AllDigits(key[n + 8..n + 10]) && DigitsValue(key[n + 8..n + 10]) == t.day
      && AllDigits(key[n + 11..]) && DigitsValue(key[n + 11..]) == t.hour
  {
    ZeroPaddedRoundTrip(t.year, 4);
    ZeroPaddedRoundTrip(t.month, 2);
    ZeroPaddedRoundTrip(t.day, 2);
    ZeroPaddedRoundTrip(t.hour, 2);
    AssembledFieldPositions(ZeroPadded(t.year, 4), ZeroPadded(t.month, 2), ZeroPadded(t.day, 2), ZeroPadded(t.hour, 2));
    AssembleRunKey(ZeroPadded(t.year, 4), ZeroPadded(t.month, 2), ZeroPadded(t.day, 2), ZeroPadded(t.hour, 2))
  }

  /** Reads the hour a run key names, or `None` for text that is not a run key. */
  function ParseRunKey(key: string): Option<HourStamp> {
    var n := |RunKeyPrefix|;
    if && |key| == n + 13
       && key[..n] == RunKeyPrefix
       && AllDigits(key[n..n + 4]) && key[n + 4] == '-'
       && AllDigits(key[n + 5..n + 7]) && key[n + 7] == '-'
       && AllDigits(key[n + 8..n + 10]) && key[n + 10] == '-'
       && AllDigits(key[n + 11..])
    then
      Some(HourStamp(DigitsValue(key[n..n + 4]), DigitsValue(key[n + 5..n + 7]),
                     DigitsValue(key[n + 8..n + 10]), DigitsValue(key[n + 11..])))
    else
      None
  }

  /** With a four-character year and two-character month, day and hour, each
      field sits at a fixed position of the key. */
  lemma AssembledFieldPositions(year: string, month: string, day: string, hour: string)
    requires |year| == 4 && |month| == 2 && |day| == 2 && |hour| == 2
    ensures var key, n := AssembleRunKey(year, month, day, hour), |RunKeyPrefix|;
      && |key| == n + 13
      && key[..n] == RunKeyPrefix
      && key[n..n + 4] == year && key[n + 4] == '-'
      && key[n + 5..n + 7] == month && key[n + 7] == '-'
      && key[n + 8..n + 10] == day && key[n + 10] == '-'
      && key[n + 11..] == hour
  {
    var n := |RunKeyPrefix|;
    var upToYear := RunKeyPrefix + year;
    var upToMonth := upToYear + "-" + month;
    var upToDay := upToMonth + "-" + day;
    var key := upToDay + "-" + hour;
    assert key == AssembleRunKey(year, month, day, hour);
    assert key[..n + 10] == upToDay;
    assert upToDay[..n + 7] == upToMonth;
    assert upToMonth[..n + 4] == upToYear;
    assert upToYear[..n] == RunKeyPrefix;
    assert upToYear[n..] == year;
    assert upToMonth[n + 5..] == month;
    assert upToDay[n + 8..] == day;
    assert key[n + 11..] == hour;
  }

  /** The run key spells out the calendar hour of its instant, and nothing else. */
  lemma RunKeyRoundTrip(t: Instant)
    requires ValidInstant(t)
    ensures |RunKey(t)| == |RunKeyPrefix| + 13
    ensures ParseRunKey(RunKey(t)) == Some(HourOf(t))
  {
  }

  /** Deduplication: two instants get the same run key exactly when they
      fall in the same calendar hour. */
  lemma RunKeySameExactlyWithinHour(t1: Instant, t2: Instant)
    requires ValidInstant(t1) && ValidInstant(t2)
    ensures RunKey(t1) == RunKey(t2) <==> HourOf(t1) == HourOf(t2)
  {
    RunKeyRoundTrip(t1);
    RunKeyRoundTrip(t2);
  }

  /** The tags of a run request: the trigger, the hour in plain decimal and
      a fixed note. */
  function RunTags(hour: nat): map<string, string> {
    map["trigger" := TriggerTagValue, "hour" := NatToString(hour), "note" := NoteTagValue]
  }

  function SkipReason(hour: nat): string {
    SkipReasonPrefix + NatToString(hour) + ")"
  }

  /** One tick as the source evaluates it: the window test reads the clock
      (`hourClock`), and the run key reads it a second time (`keyClock`). */
  function SensorTickAsWritten(hourClock: Instant, keyClock: Instant): (r: SensorResult)
    requires ValidInstant(hourClock) && ValidInstant(keyClock)
    ensures r.RunRequest? <==> InActiveWindow(hourClock.hour)
    ensures r.RunRequest? ==> ParseRunKey(r.runKey) == Some(HourOf(keyClock))
    ensures r.RunRequest? ==> && r.tags.Keys == {"trigger", "hour", "note"}
                              && r.tags["trigger"] == TriggerTagValue
                              && r.tags["hour"] == NatToString(hourClock.hour)
                              && r.tags["note"] == NoteTagValue
    ensures r.Skip? ==> r.reason == SkipReason(hourClock.hour)
  {
    RunKeyRoundTrip(keyClock);
    if InActiveWindow(hourClock.hour) then
      RunRequest(RunKey(keyClock), RunTags(hourClock.hour))
    else
      Skip(SkipReason(hourClock.hour))
  }

  /** Two clock readings on either side of 19:00 give a run request whose
      key names hour 19, outside the business hours, while its `hour` tag
      says 18. */
  lemma HourBoundaryRace()
    ensures var r := SensorTickAsWritten(Instant(2026, 10, 17, 18, 59, 59), Instant(2026, 10, 17, 19, 0, 0));
      && r.RunRequest?
      && ParseRunKey(r.runKey) == Some(HourStamp(2026, 10, 17, 19))
      && !InActiveWindow(ParseRunKey(r.runKey).value.hour)
      && DigitsValue(r.tags["hour"]) == 18
  {
  }

  /** One tick evaluated against a single clock reading `now`. */
  function DemoConditionalSensor(now: Instant): (r: SensorResult)
    requires ValidInstant(now)
    ensures r.RunRequest? <==> 9 <= now.hour <= 18
    ensures r.RunRequest? ==> ParseRunKey(r.runKey) == Some(HourOf(now))
    ensures r.RunRequest? ==> && r.tags.Keys == {"trigger", "hour", "note"}
                              && r.tags["trigger"] == TriggerTagValue
                              && r.tags["hour"] == NatToString(now.hour)
                              && r.tags["note"] == NoteTagValue
    ensures r.Skip? ==> r.reason == SkipReason(now.hour)
  {
    SensorTickAsWritten(now, now)
  }

  /** With one clock reading, the last two characters of the run key and
      the `hour` tag read back as the same hour, inside the business hours. */
  lemma RunKeyHourMatchesTag(now: Instant)
    requires ValidInstant(now)
    requires DemoConditionalSensor(now).RunRequest?
    ensures var r := DemoConditionalSensor(now);
      && AllDigits(r.runKey[|r.runKey| - 2..]) && AllDigits(r.tags["hour"])
      && DigitsValue(r.runKey[|r.runKey| - 2..]) == DigitsValue(r.tags["hour"]) == now.hour
      && InActiveWindow(DigitsValue(r.runKey[|r.runKey| - 2..]))
  {
  }

  /** A skip names the hour it skipped: the text between the fixed prefix and
      the closing parenthesis reads back as the hour. */
  lemma SkipReasonNamesHour(now: Instant)
    requires ValidInstant(now)
    ensures var r := DemoConditionalSensor(now);
      r.Skip? ==> && r.reason[..|SkipReasonPrefix|] == SkipReasonPrefix
                  && r.reason[|r.reason| - 1] == ')'
                  && AllDigits(r.reason[|SkipReasonPrefix|..|r.reason| - 1])
                  && DigitsValue(r.reason[|SkipReasonPrefix|..|r.reason| - 1]) == now.hour
  {
    var r := DemoConditionalSensor(now);
    if r.Skip? {
      var digits := NatToString(now.hour);
      assert r.reason == SkipReasonPrefix + digits + ")";
      assert r.reason[|SkipReasonPrefix|..|r.reason| - 1] == digits;
      NatToStringRoundTrip(now.hour);
    }
  }

  /** Deduplication at the sensor: two run requests carry the same key
      exactly when their ticks fall in the same calendar hour. */
  lemma RunRequestsDeduplicateByHour(t1: Instant, t2: Instant)
    requires ValidInstant(t1) && ValidInstant(t2)
    ensures var r1, r2 := DemoConditionalSensor(t1), DemoConditionalSensor(t2);
      r1.RunRequest? && r2.RunRequest? ==> (r1.runKey == r2.runKey <==> HourOf(t1) == HourOf(t2))
  {
    RunKeySameExactlyWithinHour(t1, t2);
  }
}
