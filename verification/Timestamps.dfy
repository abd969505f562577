/**
  Timestamps as text, section 5.6 of RFC 3339: how a report time is printed into the stored
  payload, and how the dispatcher reads it back.
 */
module Timestamps {
  import opened Wrappers
  import opened Domain
  import opened Text
  import Calendar
  import Decimal

  const SecondsPerDay := 86400

  /** Day number of 1970-01-01. */
  const EpochDay: nat := 719528

  lemma EpochIsUnixEpoch(date: Calendar.Date)
    requires date.year == 1970 && date.month == 1 && date.day == 1
    ensures Calendar.Valid(date) && Calendar.DayNumber(date) == EpochDay
  {
    Calendar.YearsInClosedForm(date.year);
  }

  /** The days that have a four-digit year. */
  predicate DayInRange(day: Day) {
    0 <= day && Calendar.DateOf(day).year < 10000
  }

  /** Years 0000 to 9999. */
  predicate InRange(time: Seconds) {
    DayInRange(time / SecondsPerDay + EpochDay)
  }

  function DateText(day: Day): string
    requires DayInRange(day)
  {
    var date := Calendar.DateOf(day);
    Decimal.Fixed(date.year, 4) + "-" + Decimal.Fixed(date.month, 2) + "-" + Decimal.Fixed(date.day, 2)
  }

  function ClockText(second: nat): string {
    Decimal.Fixed(second / 3600, 2) + ":" + Decimal.Fixed(second / 60 % 60, 2) + ":" + Decimal.Fixed(second % 60, 2)
  }

  /** Date and time of day in UTC, without fraction and zone. */
  function StampText(time: Seconds): string
    requires InRange(time)
  {
    DateText(time / SecondsPerDay + EpochDay) + "T" + ClockText(time % SecondsPerDay)
  }

  function Format(time: Seconds): string
    requires InRange(time)
  {
    StampText(time) + "Z"
  }

  // ----- parsing -----

  /** The number written by the digits `text[from..to]`. */
  function Field(text: string, from: nat, to: nat): Option<nat>
    requires from <= to <= |text|
  {
    if Decimal.AllDigits(text[from..to]) then Some(Decimal.Value(text[from..to])) else None
  }

  function ParseDate(text: string): Option<nat>
    requires |text| == 10
  {
    if text[4] != '-' || text[7] != '-' then None
    else
      match (Field(text, 0, 4), Field(text, 5, 7), Field(text, 8, 10))
      case (Some(year), Some(month), Some(day)) =>
        var date := Calendar.Date(year, month, day);
        if Calendar.Valid(date) then Some(Calendar.DayNumber(date)) else None
      case _ => None
  }

  function ParseClock(text: string): Option<nat>
    requires |text| == 8
  {
    if text[2] != ':' || text[5] != ':' then None
    else
      match (Field(text, 0, 2), Field(text, 3, 5), Field(text, 6, 8))
      case (Some(hour), Some(minute), Some(second)) =>
        if hour < 24 && minute < 60 && second < 60 then Some(hour * 3600 + minute * 60 + second) else None
      case _ => None
  }

  function DigitsAt(text: string, from: nat): (n: nat)
    requires from <= |text|
    ensures from + n <= |text|
    decreases |text| - from
  {
    if from < |text| && Decimal.IsDigit(text[from]) then 1 + DigitsAt(text, from + 1) else 0
  }

  /** The text behind an optional fraction; a point without digits is an error. */
  function SkipFraction(text: string): Option<string> {
    if text == "" || text[0] != '.' then Some(text)
    else if DigitsAt(text, 1) == 0 then None
    else Some(text[1 + DigitsAt(text, 1)..])
  }

  /** The offset of a zone in seconds east of UTC. */
  function ParseZone(text: string): Option<int> {
    if text == "Z" then Some(0)
    else if |text| != 6 || text[0] !in {'+', '-'} || text[3] != ':' then None
    else
      match (Field(text, 1, 3), Field(text, 4, 6))
      case (Some(hour), Some(minute)) =>
        if hour >= 24 || minute >= 60 then None
        else
          var seconds: int := hour * 3600 + minute * 60;
          Some(if text[0] == '-' then -seconds else seconds)
      case _ => None
  }

  /** The Unix second of a timestamp; a fraction is cut off. */
  function Parse(text: string): Option<Seconds> {
    if |text| < 20 || text[10] != 'T' then None
    else
      match (ParseDate(text[..10]), ParseClock(text[11..19]), SkipFraction(text[19..]))
      case (Some(day), Some(second), Some(rest)) =>
        (match ParseZone(rest)
         case Some(offset) => Some((day - EpochDay) * SecondsPerDay + second - offset)
         case None => None)
      case _ => None
  }

  // ----- the stored payload -----

  /** The two fields of the stored payload that decide what the dispatcher does. */
  datatype PayloadText = PayloadText(action: string, timestamp: Option<string>)

  datatype TextError = TimestampRequired | InvalidTimestamp

  function UnixSeconds(timestamp: Option<string>): Result<Seconds, TextError> {
    if timestamp.None? || TrimSpace(timestamp.value) == "" then Failure(TimestampRequired)
    else
      match Parse(timestamp.value)
      case None => Failure(InvalidTimestamp)
      case Some(time) => Success(time)
  }

  /** The check_time that is sent when a flow is created. */
  function UnixSecondsString(timestamp: Option<string>): Result<string, TextError> {
    match UnixSeconds(timestamp)
    case Success(time) => Success(Decimal.SignedText(time))
    case Failure(error) => Failure(error)
  }

  function EncodeTime(time: Seconds): PayloadText
    requires InRange(time)
  {
    PayloadText("", Some(Format(time)))
  }

  const EncodedClear := PayloadText("clear", None)

  /** The branch that the dispatcher takes for a payload. */
  function Decode(payload: PayloadText): Body {
    if payload.action == "clear" then Clear
    else
      match UnixSeconds(payload.timestamp)
      case Success(time) => At(time)
      case Failure(_) => BadTimestamp
  }

  // ----- the notification -----

  datatype Notice = Notice(name: string, rtype: ReportType, localTime: Seconds, location: string)

  /** What the notification says; `offset` is the zone of the configured location. */
  function NotificationText(
    name: string, rtype: ReportType, timestamp: Option<string>, location: string, offset: Seconds -> int)
    : Result<Notice, TextError>
  {
    if timestamp.None? || TrimSpace(timestamp.value) == "" then Failure(TimestampRequired)
    else
      match Parse(timestamp.value)
      case None => Failure(InvalidTimestamp)
      case Some(time) => Success(Notice(name, rtype, time + offset(time), location))
  }

  // ----- round trips -----

  lemma ParseDateParts(year: string, month: string, day: string, date: Calendar.Date)
    requires |year| == 4 && |month| == 2 && |day| == 2 && Calendar.Valid(date)
    requires Decimal.AllDigits(year) && Decimal.AllDigits(month) && Decimal.AllDigits(day)
    requires Decimal.Value(year) == date.year && Decimal.Value(month) == date.month && Decimal.Value(day) == date.day
    ensures var text := year + "-" + month + "-" + day;
            |text| == 10 && ParseDate(text) == Some(Calendar.DayNumber(date))
  {
    var text := year + "-" + month + "-" + day;
    assert text[0..4] == year && text[5..7] == month && text[8..10] == day;
  }

  /** A two-digit text of the given number. */
  ghost predicate TwoDigits(text: string, n: nat) {
    |text| == 2 && Decimal.AllDigits(text) && Decimal.Value(text) == n
  }

  lemma ParseClockParts(h: string, m: string, s: string, hour: nat, minute: nat, second: nat)
    requires TwoDigits(h, hour) && TwoDigits(m, minute) && TwoDigits(s, second)
    requires hour < 24 && minute < 60 && second < 60
    ensures var text := h + ":" + m + ":" + s;
            |text| == 8 && ParseClock(text) == Some(hour * 3600 + minute * 60 + second)
  {
    var text := h + ":" + m + ":" + s;
    assert text[0..2] == h;
    assert text[3..5] == m;
    assert text[6..8] == s;
  }

  /** A text whose date and clock parts read as the given time. */
  ghost predicate Reads(text: string, date: string, clock: string, time: Seconds) {
    && text == date + "T" + clock + "Z" && |date| == 10 && |clock| == 8
    && ParseDate(date).Some? && ParseClock(clock).Some?
    && (ParseDate(date).value - EpochDay) * SecondsPerDay + ParseClock(clock).value == time
  }

  lemma ParseParts(text: string, date: string, clock: string, time: Seconds)
    requires Reads(text, date, clock, time)
    ensures |text| == 20 && text[10] == 'T' && Parse(text) == Some(time)
  {
    assert text[..10] == date && text[11..19] == clock && text[19..] == "Z";
  }

  lemma Powers()
    ensures Decimal.Pow10(2) == 100 && Decimal.Pow10(4) == 10000
  {
    assert Decimal.Pow10(3) == 1000;
  }

  /** The three fixed-width fields of a date, four and two digits wide, can be read back. */
  lemma DateFields(date: Calendar.Date, four: nat, two: nat)
    requires Calendar.Valid(date) && date.year < 10000 && four == 4 && two == 2
    ensures var year, month := Decimal.Fixed(date.year, four), Decimal.Fixed(date.month, two);
            var text := year + "-" + month + "-" + Decimal.Fixed(date.day, two);
            |text| == 10 && ParseDate(text) == Some(Calendar.DayNumber(date))
  {
    Powers();
    Decimal.FixedValue(date.year, four);
    Decimal.FixedValue(date.month, two);
    Decimal.FixedValue(date.day, two);
    ParseDateParts(Decimal.Fixed(date.year, four), Decimal.Fixed(date.month, two), Decimal.Fixed(date.day, two), date);
  }

  lemma DateRoundTrip(day: Day)
    requires DayInRange(day)
    ensures |DateText(day)| == 10 && ParseDate(DateText(day)) == Some(day)
  {
    DateFields(Calendar.DateOf(day), 4, 2);
  }

  lemma ClockFields(second: nat)
    requires second < 86400
    ensures second / 3600 < 24 && second / 60 % 60 < 60 && second % 60 < 60
    ensures second / 3600 * 3600 + second / 60 % 60 * 60 + second % 60 == second
  {
    var minutes := second / 60;
    Calendar.QuotientIs(second, 3600, minutes / 60, minutes % 60 * 60 + second % 60);
  }

  /** The three fields of a time of day, each two digits wide, can be read back. */
  lemma ClockDigits(h: nat, m: nat, s: nat, two: nat)
    requires h < 24 && m < 60 && s < 60 && two == 2
    ensures var text := Decimal.Fixed(h, two) + ":" + Decimal.Fixed(m, two) + ":" + Decimal.Fixed(s, two);
            |text| == 8 && ParseClock(text) == Some(h * 3600 + m * 60 + s)
  {
    Powers();
    Decimal.FixedValue(h, two);
    Decimal.FixedValue(m, two);
    Decimal.FixedValue(s, two);
    ParseClockParts(Decimal.Fixed(h, two), Decimal.Fixed(m, two), Decimal.Fixed(s, two), h, m, s);
  }

  lemma ClockRoundTrip(second: nat)
    requires second < SecondsPerDay
    ensures |ClockText(second)| == 8 && ParseClock(ClockText(second)) == Some(second)
  {
    ClockFields(second);
    ClockDigits(second / 3600, second / 60 % 60, second % 60, 2);
  }

  lemma DaysAndSeconds(time: Seconds)
    ensures 0 <= time % SecondsPerDay < SecondsPerDay
    ensures (time / SecondsPerDay + EpochDay - EpochDay) * SecondsPerDay + time % SecondsPerDay == time
  {
  }

  lemma FormatParts(time: Seconds) returns (date: string, clock: string)
    requires InRange(time)
    ensures Reads(Format(time), date, clock, time)
  {
    DaysAndSeconds(time);
    var day, second := time / SecondsPerDay + EpochDay, time % SecondsPerDay;
    date, clock := DateText(day), ClockText(second);
    DateRoundTrip(day);
    ClockRoundTrip(second);
  }

  /** Printing a time and parsing the text gives the time back. */
  lemma TimestampRoundTrip(time: Seconds)
    requires InRange(time)
    ensures Parse(Format(time)) == Some(time)
  {
    var date, clock := FormatParts(time);
    ParseParts(Format(time), date, clock, time);
  }

  /** `text[from..to]` writes the number in decimal digits. */
  ghost predicate WritesAt(text: string, from: nat, to: nat, n: nat) {
    from <= to <= |text| && Decimal.AllDigits(text[from..to]) && Decimal.Value(text[from..to]) == n
  }

  lemma DateLayout(year: string, month: string, day: string)
    requires |year| == 4 && |month| == 2 && |day| == 2
    ensures var text := year + "-" + month + "-" + day;
            text[0..4] == year && text[4] == '-' && text[5..7] == month && text[7] == '-' && text[8..10] == day
  {
  }

  /** A date is printed as year, month and day, four and two digits wide. */
  lemma DateTextIs(date: Calendar.Date)
    requires Calendar.Valid(date) && date.year < 10000
    ensures DayInRange(Calendar.DayNumber(date))
    ensures var text := DateText(Calendar.DayNumber(date));
            && |text| == 10 && text[4] == '-' && text[7] == '-'
            && WritesAt(text, 0, 4, date.year) && WritesAt(text, 5, 7, date.month) && WritesAt(text, 8, 10, date.day)
  {
    Calendar.DateIsUnique(Calendar.DateOf(Calendar.DayNumber(date)), date);
    Powers();
    Decimal.FixedValue(date.year, 4);
    Decimal.FixedValue(date.month, 2);
    Decimal.FixedValue(date.day, 2);
    DateLayout(Decimal.Fixed(date.year, 4), Decimal.Fixed(date.month, 2), Decimal.Fixed(date.day, 2));
  }

  lemma ClockLayout(h: string, m: string, s: string)
    requires |h| == 2 && |m| == 2 && |s| == 2
    ensures var text := h + ":" + m + ":" + s;
            text[0..2] == h && text[2] == ':' && text[3..5] == m && text[5] == ':' && text[6..8] == s
  {
  }

  lemma ClockParts(hour: nat, minute: nat, second: nat)
    requires hour < 24 && minute < 60 && second < 60
    ensures var total := hour * 3600 + minute * 60 + second;
            total / 3600 == hour && total / 60 % 60 == minute && total % 60 == second
  {
    var total := hour * 3600 + minute * 60 + second;
    assert total / 60 == hour * 60 + minute;
    Calendar.QuotientIs(total, 3600, hour, minute * 60 + second);
  }

  /** Three fields, two digits wide, between colons. */
  lemma ThreeFields(hour: nat, minute: nat, second: nat, two: nat)
    requires hour < 24 && minute < 60 && second < 60 && two == 2
    ensures var text := Decimal.Fixed(hour, two) + ":" + Decimal.Fixed(minute, two) + ":" + Decimal.Fixed(second, two);
            && |text| == 8 && text[2] == ':' && text[5] == ':'
            && WritesAt(text, 0, 2, hour) && WritesAt(text, 3, 5, minute) && WritesAt(text, 6, 8, second)
  {
    Powers();
    Decimal.FixedValue(hour, two);
    Decimal.FixedValue(minute, two);
    Decimal.FixedValue(second, two);
    ClockLayout(Decimal.Fixed(hour, two), Decimal.Fixed(minute, two), Decimal.Fixed(second, two));
  }

  /** A time of day is printed as hour, minute and second, two digits wide. */
  lemma ClockTextIs(hour: nat, minute: nat, second: nat)
    requires hour < 24 && minute < 60 && second < 60
    ensures var text := ClockText(hour * 3600 + minute * 60 + second);
            && |text| == 8 && text[2] == ':' && text[5] == ':'
            && WritesAt(text, 0, 2, hour) && WritesAt(text, 3, 5, minute) && WritesAt(text, 6, 8, second)
  {
    ClockParts(hour, minute, second);
    ThreeFields(hour, minute, second, 2);
  }

  lemma DigitsUpTo(text: string, from: nat, to: nat)
    requires from <= to <= |text| && forall i :: from <= i < to ==> Decimal.IsDigit(text[i])
    requires to < |text| ==> !Decimal.IsDigit(text[to])
    ensures DigitsAt(text, from) == to - from
    decreases |text| - from
  {
    if from < to {
      DigitsUpTo(text, from + 1, to);
    }
  }

  /** A zone east or west of UTC. */
  ghost predicate IsZone(zone: string, offset: int) {
    || (zone == "Z" && offset == 0)
    || (|zone| == 6 && zone[0] in {'+', '-'} && zone[3] == ':'
        && exists hour: nat, minute: nat :: hour < 24 && minute < 60 && TwoDigits(zone[1..3], hour) && TwoDigits(zone[4..6], minute)
                             && offset == (if zone[0] == '+' then 1 else -1) * (hour * 3600 + minute * 60))
  }

  lemma ZoneIsRead(zone: string, offset: int)
    requires IsZone(zone, offset)
    ensures ParseZone(zone) == Some(offset)
  {
  }

  lemma FractionIsSkipped(fraction: string, zone: string, offset: int)
    requires IsZone(zone, offset) && Decimal.AllDigits(fraction) && fraction != ""
    ensures SkipFraction("." + fraction + zone) == Some(zone)
  {
    var text := "." + fraction + zone;
    assert text[1 + |fraction|] == zone[0];
    DigitsUpTo(text, 1, 1 + |fraction|);
    assert text[1 + |fraction|..] == zone;
  }

  /** What may follow the seconds: an optional fraction, and the zone. */
  ghost predicate IsEnding(rest: string, offset: int) {
    || IsZone(rest, offset)
    || exists fraction: string, zone: string ::
         rest == "." + fraction + zone && fraction != "" && Decimal.AllDigits(fraction) && IsZone(zone, offset)
  }

  lemma EndingIsRead(rest: string, offset: int)
    requires IsEnding(rest, offset)
    ensures |rest| >= 1 && SkipFraction(rest).Some? && ParseZone(SkipFraction(rest).value) == Some(offset)
  {
    if IsZone(rest, offset) {
      ZoneIsRead(rest, offset);
    } else {
      var fraction: string, zone: string :|
        rest == "." + fraction + zone && fraction != "" && Decimal.AllDigits(fraction) && IsZone(zone, offset);
      FractionIsSkipped(fraction, zone, offset);
      ZoneIsRead(zone, offset);
    }
  }

  lemma ParseWithEnding(text: string, date: string, clock: string, rest: string, time: Seconds, offset: int)
    requires Reads(date + "T" + clock + "Z", date, clock, time) && IsEnding(rest, offset)
    requires text == date + "T" + clock + rest
    ensures Parse(text) == Some(time - offset)
  {
    EndingIsRead(rest, offset);
    assert text[..10] == date && text[10] == 'T' && text[11..19] == clock && text[19..] == rest;
  }

  /** A date and time of day with any fraction of a second and any zone reads as that local time, less the offset. */
  lemma ZonedTimestampIsRead(time: Seconds, rest: string, offset: int)
    requires InRange(time) && IsEnding(rest, offset)
    ensures Parse(StampText(time) + rest) == Some(time - offset)
  {
    var date, clock := FormatParts(time);
    var stamp := StampText(time);
    assert stamp == Format(time)[..|stamp|] && |Format(time)| == 20;
    assert stamp == date + "T" + clock;
    ParseWithEnding(stamp + rest, date, clock, rest, time, offset);
  }

  /** The check_time sent for a queued report is the decimal Unix second of the report time. */
  lemma CheckTimeRoundTrip(time: Seconds)
    requires InRange(time)
    ensures UnixSecondsString(EncodeTime(time).timestamp).Success?
    ensures Decimal.Writes(UnixSecondsString(EncodeTime(time).timestamp).value, time)
    ensures Decode(EncodeTime(time)) == At(time)
    ensures Decode(EncodedClear) == Clear
  {
    TimestampRoundTrip(time);
    assert !IsSpace(Format(time)[10]);
    Decimal.SignedTextWrites(time);
  }

  lemma NoticeOfText(
    name: string, rtype: ReportType, text: string, time: Seconds, location: string, offset: Seconds -> int)
    requires !IsBlank(text) && Parse(text) == Some(time)
    ensures NotificationText(name, rtype, Some(text), location, offset)
            == Success(Notice(name, rtype, time + offset(time), location))
  {
  }

  /** The notification of a queued report names its employee, its type and its time in the configured zone. */
  lemma NoticeIsExact(name: string, rtype: ReportType, time: Seconds, location: string, offset: Seconds -> int)
    requires InRange(time)
    ensures NotificationText(name, rtype, EncodeTime(time).timestamp, location, offset)
            == Success(Notice(name, rtype, time + offset(time), location))
  {
    TimestampRoundTrip(time);
    PrintedIsNotBlank(time);
    NoticeOfText(name, rtype, Format(time), time, location, offset);
  }

  lemma PrintedIsNotBlank(time: Seconds)
    requires InRange(time)
    ensures !IsBlank(Format(time))
  {
    var date, clock := FormatParts(time);
    assert !IsSpace(Format(time)[10]);
  }

  /** The notification text can be built from exactly the payloads whose check_time was accepted. */
  lemma NoticeIffCheckTime(
    name: string, rtype: ReportType, payload: PayloadText, location: string, offset: Seconds -> int)
    ensures NotificationText(name, rtype, payload.timestamp, location, offset).Success?
            <==> UnixSecondsString(payload.timestamp).Success?
    ensures Decode(payload) == Clear <==> payload.action == "clear"
    ensures Decode(payload).At? <==> payload.action != "clear" && UnixSecondsString(payload.timestamp).Success?
    ensures Decode(payload).At? ==> Decimal.Writes(UnixSecondsString(payload.timestamp).value, Decode(payload).time)
  {
    if Decode(payload).At? {
      Decimal.SignedTextWrites(Decode(payload).time);
    }
  }
}
