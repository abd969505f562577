/** The text of an idempotency key, and that no two keys share a text. */
module ReportKeys {
  import opened Domain
  import opened Tables
  import opened Timestamps
  import Calendar
  import Decimal

  const NanosPerSecond := 1_000_000_000

  function TypeText(rtype: ReportType): string {
    match rtype
    case ClockIn => "clock_in"
    case ClockOut => "clock_out"
  }

  function Identity(employee: nat, date: Day): string
    requires DayInRange(date)
  {
    "employee-" + Decimal.Text(employee) + "-" + DateText(date)
  }

  function TrimZeros(s: string): string {
    if s != "" && s[|s| - 1] == '0' then TrimZeros(s[..|s| - 1]) else s
  }

  function FractionText(nanos: nat): string {
    if nanos == 0 then "" else "." + TrimZeros(Decimal.Fixed(nanos, 9))
  }

  /** A timestamp with as many digits of the nanoseconds as are needed. */
  function NanoText(instant: Nanos): string
    requires InRange(instant / NanosPerSecond)
  {
    StampText(instant / NanosPerSecond) + FractionText(instant % NanosPerSecond) + "Z"
  }

  /** Dates and times have four-digit years. */
  predicate Printable(key: Key) {
    && DayInRange(key.date)
    && (!key.ClearKey? ==> InRange(key.time))
    && (key.ManualKey? ==> InRange(key.requestedAt / NanosPerSecond))
  }

  function TimedText(employee: nat, date: Day, rtype: ReportType, time: Seconds, version: nat): string
    requires DayInRange(date) && InRange(time)
  {
    "attendance-report/" + Identity(employee, date) + "/" + TypeText(rtype) + "/" + Format(time) + "/v" + Decimal.Text(version)
  }

  function KeyText(key: Key): string
    requires Printable(key)
  {
    match key
    case TimedKey(employee, date, rtype, time, version) => TimedText(employee, date, rtype, time, version)
    case ClearKey(employee, date, rtype, version) =>
      "attendance-report/" + Identity(employee, date) + "/" + TypeText(rtype) + "/clear/v" + Decimal.Text(version)
    case ManualKey(employee, date, rtype, time, version, requestedAt) =>
      TimedText(employee, date, rtype, time, version) + "/manual/" + NanoText(requestedAt)
  }

  // ----- texts between slashes -----

  predicate NoSlash(s: string) {
    forall i :: 0 <= i < |s| ==> s[i] != '/'
  }

  lemma SplitAtSlash(a: string, x: string, b: string, y: string)
    requires NoSlash(a) && NoSlash(b) && a + "/" + x == b + "/" + y
    ensures a == b && x == y
  {
    var s, t := a + "/" + x, b + "/" + y;
    assert s[|a|] == '/' && t[|b|] == '/';
    assert forall i :: 0 <= i < |a| ==> s[i] != '/';
    assert forall i :: 0 <= i < |b| ==> t[i] != '/';
    assert |a| == |b|;
    assert a == s[..|a|] && b == t[..|b|];
    assert x == s[|a| + 1..] && y == t[|b| + 1..];
  }

  lemma SplitAtEnd(a: string, x: string, b: string, y: string)
    requires |x| == |y| && a + x == b + y
    ensures a == b && x == y
  {
    assert a == (a + x)[..|a|] && b == (b + y)[..|b|];
    assert x == (a + x)[|a|..] && y == (b + y)[|b|..];
  }

  lemma SplitAtStart(a: string, x: string, b: string, y: string)
    requires |a| == |b| && a + x == b + y
    ensures a == b && x == y
  {
    assert a == (a + x)[..|a|] && b == (b + y)[..|b|];
    assert x == (a + x)[|a|..] && y == (b + y)[|b|..];
  }

  lemma FixedHasNoSlash(n: nat, width: nat)
    ensures Decimal.AllDigits(Decimal.Fixed(n, width)) && |Decimal.Fixed(n, width)| == width
    ensures NoSlash(Decimal.Fixed(n, width))
  {
    if width > 0 {
      FixedHasNoSlash(n / 10, width - 1);
    }
  }

  lemma DateHasNoSlash(day: Day)
    requires DayInRange(day)
    ensures NoSlash(DateText(day)) && |DateText(day)| == 10
  {
    var date := Calendar.DateOf(day);
    FixedHasNoSlash(date.year, 4);
    FixedHasNoSlash(date.month, 2);
    FixedHasNoSlash(date.day, 2);
  }

  lemma StampHasNoSlash(time: Seconds)
    requires InRange(time)
    ensures NoSlash(StampText(time)) && |StampText(time)| == 19
  {
    var second := time % SecondsPerDay;
    DateHasNoSlash(time / SecondsPerDay + EpochDay);
    FixedHasNoSlash(second / 3600, 2);
    FixedHasNoSlash(second / 60 % 60, 2);
    FixedHasNoSlash(second % 60, 2);
  }

  lemma TextHasNoSlash(n: nat)
    ensures NoSlash(Decimal.Text(n)) && Decimal.Text(n) != ""
  {
    Decimal.TextValue(n);
  }

  // ----- the parts are injective -----

  lemma StampTextInjective(a: Seconds, b: Seconds)
    requires InRange(a) && InRange(b)
    ensures StampText(a) == StampText(b) ==> a == b
  {
    if StampText(a) == StampText(b) {
      TimestampRoundTrip(a);
      TimestampRoundTrip(b);
    }
  }

  lemma IdentityInjective(a: nat, dateA: Day, b: nat, dateB: Day)
    requires DayInRange(dateA) && DayInRange(dateB)
    ensures Identity(a, dateA) == Identity(b, dateB) ==> a == b && dateA == dateB
  {
    if Identity(a, dateA) == Identity(b, dateB) {
      DateHasNoSlash(dateA);
      DateHasNoSlash(dateB);
      SplitAtEnd("employee-" + Decimal.Text(a) + "-", DateText(dateA), "employee-" + Decimal.Text(b) + "-", DateText(dateB));
      DateRoundTrip(dateA);
      DateRoundTrip(dateB);
      SplitAtEnd("employee-" + Decimal.Text(a), "-", "employee-" + Decimal.Text(b), "-");
      SplitAtStart("employee-", Decimal.Text(a), "employee-", Decimal.Text(b));
      Decimal.TextInjective(a, b);
    }
  }

  function PadZeros(s: string, width: nat): string
    decreases width - |s|
  {
    if |s| >= width then s else PadZeros(s + "0", width)
  }

  lemma {:induction false} PadUndoesTrim(s: string)
    ensures |TrimZeros(s)| <= |s| && PadZeros(TrimZeros(s), |s|) == s
    ensures NoSlash(s) ==> NoSlash(TrimZeros(s))
  {
    if s != "" && s[|s| - 1] == '0' {
      var init := s[..|s| - 1];
      PadUndoesTrim(init);
      assert init + "0" == s;
      PadOneMore(TrimZeros(init), |init|);
    }
  }

  lemma {:induction false} PadOneMore(s: string, width: nat)
    requires |s| <= width
    ensures PadZeros(s, width + 1) == PadZeros(s, width) + "0"
    decreases width - |s|
  {
    if |s| < width {
      PadOneMore(s + "0", width);
    }
  }

  lemma Pow9()
    ensures Decimal.Pow10(9) == NanosPerSecond
  {
    assert Decimal.Pow10(3) == 1000;
    assert Decimal.Pow10(6) == 1000 * Decimal.Pow10(3);
    assert Decimal.Pow10(9) == 1000 * Decimal.Pow10(6);
  }

  lemma FractionTextInjective(a: nat, b: nat)
    requires a < NanosPerSecond && b < NanosPerSecond
    ensures FractionText(a) == FractionText(b) ==> a == b
  {
    if FractionText(a) == FractionText(b) {
      if a != 0 && b != 0 {
        var s, t := Decimal.Fixed(a, 9), Decimal.Fixed(b, 9);
        SplitAtStart(".", TrimZeros(s), ".", TrimZeros(t));
        Pow9();
        Decimal.FixedValue(a, 9);
        Decimal.FixedValue(b, 9);
        PadUndoesTrim(s);
        PadUndoesTrim(t);
      }
    }
  }

  lemma NanoTextInjective(a: Nanos, b: Nanos)
    requires InRange(a / NanosPerSecond) && InRange(b / NanosPerSecond)
    ensures NanoText(a) == NanoText(b) ==> a == b
  {
    if NanoText(a) == NanoText(b) {
      var stampA, stampB := StampText(a / NanosPerSecond), StampText(b / NanosPerSecond);
      var fractionA, fractionB := FractionText(a % NanosPerSecond), FractionText(b % NanosPerSecond);
      StampHasNoSlash(a / NanosPerSecond);
      StampHasNoSlash(b / NanosPerSecond);
      SplitAtEnd(stampA + fractionA, "Z", stampB + fractionB, "Z");
      SplitAtStart(stampA, fractionA, stampB, fractionB);
      StampTextInjective(a / NanosPerSecond, b / NanosPerSecond);
      FractionTextInjective(a % NanosPerSecond, b % NanosPerSecond);
    }
  }

  // ----- keys -----

  function VersionPart(version: nat): string {
    "v" + Decimal.Text(version)
  }

  function TimePart(key: Key): string
    requires Printable(key)
  {
    if key.ClearKey? then "clear" else Format(key.time)
  }

  /** What follows the time: the version, and for a manual key the request. */
  function Tail(key: Key): string
    requires Printable(key)
  {
    match key
    case ManualKey(_, _, _, _, version, requestedAt) =>
      VersionPart(version) + "/" + ("manual" + "/" + NanoText(requestedAt))
    case _ => VersionPart(key.version)
  }

  function Joined(id: string, rtype: string, time: string, tail: string): string {
    "attendance-report" + "/" + (id + "/" + (rtype + "/" + (time + "/" + tail)))
  }

  lemma JoinTimed(id: string, rtype: string, time: string, v: string)
    ensures "attendance-report/" + id + "/" + rtype + "/" + time + "/v" + v == Joined(id, rtype, time, "v" + v)
  {
  }

  lemma JoinClear(id: string, rtype: string, v: string)
    ensures "attendance-report/" + id + "/" + rtype + "/clear/v" + v == Joined(id, rtype, "clear", "v" + v)
  {
    assert "/clear/v" == "/" + "clear" + "/v";
    JoinTimed(id, rtype, "clear", v);
  }

  lemma JoinManual(id: string, rtype: string, time: string, tail: string, nano: string)
    ensures Joined(id, rtype, time, tail) + "/manual/" + nano
            == Joined(id, rtype, time, tail + "/" + ("manual" + "/" + nano))
  {
  }

  lemma KeyTextParts(key: Key)
    requires Printable(key)
    ensures KeyText(key) == Joined(Identity(key.employee, key.date), TypeText(key.rtype), TimePart(key), Tail(key))
  {
    var id, rtype, v := Identity(key.employee, key.date), TypeText(key.rtype), Decimal.Text(key.version);
    if key.ClearKey? {
      JoinClear(id, rtype, v);
    } else {
      var time := Format(key.time);
      JoinTimed(id, rtype, time, v);
      if key.ManualKey? {
        JoinManual(id, rtype, time, VersionPart(key.version), NanoText(key.requestedAt));
      }
    }
  }

  lemma TypeHasNoSlash(rtype: ReportType)
    ensures NoSlash(TypeText(rtype))
  {
  }

  lemma VersionHasNoSlash(version: nat)
    ensures NoSlash(VersionPart(version))
  {
    TextHasNoSlash(version);
  }

  lemma PartsHaveNoSlash(key: Key)
    requires Printable(key)
    ensures NoSlash(Identity(key.employee, key.date)) && NoSlash(TypeText(key.rtype))
    ensures NoSlash(TimePart(key)) && NoSlash(VersionPart(key.version))
    ensures |TimePart(key)| == 5 <==> key.ClearKey?
  {
    DateHasNoSlash(key.date);
    TextHasNoSlash(key.employee);
    TypeHasNoSlash(key.rtype);
    if key.ClearKey? {
      assert NoSlash("clear");
    } else {
      StampHasNoSlash(key.time);
    }
    VersionHasNoSlash(key.version);
  }

  lemma TailSlash(key: Key)
    requires Printable(key)
    ensures NoSlash(Tail(key)) <==> !key.ManualKey?
  {
    PartsHaveNoSlash(key);
    if key.ManualKey? {
      assert Tail(key)[|VersionPart(key.version)|] == '/';
    }
  }

  lemma TailInjective(a: Key, b: Key)
    requires Printable(a) && Printable(b)
    ensures Tail(a) == Tail(b) ==>
              && a.version == b.version && (a.ManualKey? <==> b.ManualKey?)
              && (a.ManualKey? && b.ManualKey? ==> a.requestedAt == b.requestedAt)
  {
    if Tail(a) == Tail(b) {
      PartsHaveNoSlash(a);
      PartsHaveNoSlash(b);
      TailSlash(a);
      TailSlash(b);
      if a.ManualKey? {
        SplitAtSlash(VersionPart(a.version), "manual" + "/" + NanoText(a.requestedAt),
                     VersionPart(b.version), "manual" + "/" + NanoText(b.requestedAt));
        SplitAtStart("manual" + "/", NanoText(a.requestedAt), "manual" + "/", NanoText(b.requestedAt));
        NanoTextInjective(a.requestedAt, b.requestedAt);
      }
      SplitAtStart("v", Decimal.Text(a.version), "v", Decimal.Text(b.version));
      Decimal.TextInjective(a.version, b.version);
    }
  }

  lemma JoinedInjective(
    id: string, rtype: string, time: string, tail: string, id': string, rtype': string, time': string, tail': string)
    requires NoSlash(id) && NoSlash(rtype) && NoSlash(time) && NoSlash(id') && NoSlash(rtype') && NoSlash(time')
    requires Joined(id, rtype, time, tail) == Joined(id', rtype', time', tail')
    ensures id == id' && rtype == rtype' && time == time' && tail == tail'
  {
    SplitAtStart("attendance-report" + "/", id + "/" + (rtype + "/" + (time + "/" + tail)),
                 "attendance-report" + "/", id' + "/" + (rtype' + "/" + (time' + "/" + tail')));
    SplitAtSlash(id, rtype + "/" + (time + "/" + tail), id', rtype' + "/" + (time' + "/" + tail'));
    SplitAtSlash(rtype, time + "/" + tail, rtype', time' + "/" + tail');
    SplitAtSlash(time, tail, time', tail');
  }

  lemma TypeTextInjective(a: ReportType, b: ReportType)
    ensures TypeText(a) == TypeText(b) ==> a == b
  {
    assert |"clock_in"| != |"clock_out"|;
  }

  lemma TimePartInjective(a: Key, b: Key)
    requires Printable(a) && Printable(b)
    ensures TimePart(a) == TimePart(b) ==> (a.ClearKey? <==> b.ClearKey?) && (!a.ClearKey? ==> a.time == b.time)
  {
    if TimePart(a) == TimePart(b) {
      PartsHaveNoSlash(a);
      PartsHaveNoSlash(b);
      if !a.ClearKey? {
        SplitAtEnd(StampText(a.time), "Z", StampText(b.time), "Z");
        StampTextInjective(a.time, b.time);
      }
    }
  }

  /** Timed, clear and manual keys never collide, and equal texts come from equal keys. */
  lemma KeyTextInjective(a: Key, b: Key)
    requires Printable(a) && Printable(b)
    ensures KeyText(a) == KeyText(b) <==> a == b
  {
    if KeyText(a) == KeyText(b) {
      KeyTextParts(a);
      KeyTextParts(b);
      PartsHaveNoSlash(a);
      PartsHaveNoSlash(b);
      JoinedInjective(Identity(a.employee, a.date), TypeText(a.rtype), TimePart(a), Tail(a),
                      Identity(b.employee, b.date), TypeText(b.rtype), TimePart(b), Tail(b));
      IdentityInjective(a.employee, a.date, b.employee, b.date);
      TypeTextInjective(a.rtype, b.rtype);
      TimePartInjective(a, b);
      TailInjective(a, b);
    }
  }

  // ----- the unique column -----

  ghost predicate AllPrintable(rows: seq<Report>) {
    forall i :: 0 <= i < |rows| ==> Printable(rows[i].key)
  }

  /** Looking a report up by the parts of its key finds what looking up the stored text finds. */
  lemma LookupByText(rows: seq<Report>, key: Key)
    requires AllPrintable(rows) && Printable(key)
    ensures match FindKey(rows, key)
            case Some(i) => KeyText(rows[i].key) == KeyText(key)
            case None => forall i :: 0 <= i < |rows| ==> KeyText(rows[i].key) != KeyText(key)
  {
    if FindKey(rows, key).None? {
      forall i | 0 <= i < |rows| ensures KeyText(rows[i].key) != KeyText(key) {
        if KeyText(rows[i].key) == KeyText(key) {
          KeyTextInjective(rows[i].key, key);
        }
      }
    }
  }

  /** The key column is unique as text, too. */
  lemma StoredTextsDiffer(rows: seq<Report>, i: nat, j: nat)
    requires AllPrintable(rows) && UniqueKeys(rows) && i < j < |rows|
    ensures KeyText(rows[i].key) != KeyText(rows[j].key)
  {
    if KeyText(rows[i].key) == KeyText(rows[j].key) {
      KeyTextInjective(rows[i].key, rows[j].key);
    }
  }

  // ----- the width of the column -----

  const KeyColumnWidth := 191

  lemma IdentityLength(employee: nat, date: Day, digits: nat)
    requires DayInRange(date) && 1 <= digits && employee < Decimal.Pow10(digits)
    ensures |Identity(employee, date)| <= 20 + digits
  {
    DateHasNoSlash(date);
    Decimal.TextLength(employee, digits);
  }

  lemma TailLength(key: Key, digits: nat)
    requires Printable(key) && 1 <= digits && key.version < Decimal.Pow10(digits)
    ensures |Tail(key)| <= 39 + digits
  {
    Decimal.TextLength(key.version, digits);
    if key.ManualKey? {
      var instant := key.requestedAt;
      StampHasNoSlash(instant / NanosPerSecond);
      FixedHasNoSlash(instant % NanosPerSecond, 9);
      PadUndoesTrim(Decimal.Fixed(instant % NanosPerSecond, 9));
    }
  }

  /** Ids of up to 20 digits and versions of up to 10, as 64 and 32 bits hold them, never overflow the column. */
  lemma KeyFitsColumn(key: Key, idDigits: nat, versionDigits: nat)
    requires Printable(key) && idDigits == 20 && versionDigits == 10
    requires key.employee < Decimal.Pow10(idDigits) && key.version < Decimal.Pow10(versionDigits)
    ensures |KeyText(key)| <= KeyColumnWidth
  {
    KeyTextParts(key);
    IdentityLength(key.employee, key.date, idDigits);
    if !key.ClearKey? {
      StampHasNoSlash(key.time);
    }
    TailLength(key, versionDigits);
  }
}
