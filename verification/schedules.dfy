/** The activity and birthday admin: bulk retyping of activities, the
    duration column and the age column. */
module Schedules {
  import opened Wrappers
  import opened Dates
  import opened Text
  import Players

  datatype ActivityType = Entrenamiento | Otro

  /** The strings stored in `Activity.type`. */
  function ActivityTypeCode(t: ActivityType): (code: string)
    ensures code == "entrenamiento" || code == "otro"
  {
    match t
    case Entrenamiento => "entrenamiento"
    case Otro => "otro"
  }

  /** Reading a stored `type` back: only the two choices are accepted. */
  function ActivityTypeFromCode(code: string): (r: Option<ActivityType>)
    ensures r.Some? <==> code == "entrenamiento" || code == "otro"
    ensures r.Some? ==> ActivityTypeCode(r.value) == code
  {
    if code == "entrenamiento" then Some(Entrenamiento)
    else if code == "otro" then Some(Otro)
    else None
  }

  /** Each type is stored as its own choice: `entrenamiento` as
      "entrenamiento" and `otro` as "otro", and reads back unchanged. */
  lemma ActivityTypeCodeRoundTrip(t: ActivityType)
    ensures ActivityTypeFromCode(ActivityTypeCode(t)) == Some(t)
    ensures ActivityTypeCode(t) == if t == Entrenamiento then "entrenamiento" else "otro"
  {
  }

  /** An `Activity`; the two instants are whole seconds. */
  datatype Activity = Activity(
    title: string,
    location: string,
    startsAt: int,
    endsAt: int,
    kind: ActivityType,
    description: Option<string>)

  const SecondsPerDay: int := 86400

  /** A `datetime.timedelta` of whole seconds, normalised as Python does:
      a (possibly negative) day count and a time of day. */
  datatype Clock = Clock(days: int, hours: nat, minutes: nat, seconds: nat)

  predicate Normalised(c: Clock) {
    c.hours < 24 && c.minutes < 60 && c.seconds < 60
  }

  function TotalSeconds(c: Clock): int {
    c.days * SecondsPerDay + c.hours * 3600 + c.minutes * 60 + c.seconds
  }

  /** Splits a duration into days and a time of day; the days round towards
      minus infinity, so the time of day is never negative. */
  function ClockOf(total: int): (c: Clock)
    ensures Normalised(c) && TotalSeconds(c) == total
  {
    var rem := total % SecondsPerDay;
    Clock(total / SecondsPerDay, rem / 3600, rem % 3600 / 60, rem % 60)
  }

  /** Every normalised clock is the split of its own total. */
  lemma ClockOfTotal(c: Clock)
    requires Normalised(c)
    ensures ClockOf(TotalSeconds(c)) == c
  {
    var rem := c.hours * 3600 + c.minutes * 60 + c.seconds;
    assert 0 <= rem < SecondsPerDay;
    assert TotalSeconds(c) == c.days * SecondsPerDay + rem;
    assert TotalSeconds(c) / SecondsPerDay == c.days;
    assert TotalSeconds(c) % SecondsPerDay == rem;
    assert rem / 3600 == c.hours;
    assert rem % 3600 == c.minutes * 60 + c.seconds;
  }

  /** The `"D day[s], "` part of `str(timedelta)`: absent when the day
      count is zero, singular for 1 and -1, and always ending in a space. */
  function DayPart(days: int): (r: string)
    ensures r == [] <==> days == 0
    ensures r != [] ==> r[|r| - 1] == ' '
  {
    if days == 0 then []
    else IntToString(days) + (if days == 1 || days == -1 then " day, " else " days, ")
  }

  /** The `":MM:SS"` end of `str(timedelta)`. */
  function ClockTail(minutes: nat, seconds: nat): (s: string)
    requires minutes < 60 && seconds < 60
    ensures |s| == 6 && IsDigit(s[5])
  {
    ":" + TwoDigits(minutes) + ":" + TwoDigits(seconds)
  }

  /** A normalised clock written out as `"[D day[s], ]H:MM:SS"`. */
  function ClockText(c: Clock): (s: string)
    requires Normalised(c)
    ensures s != [] && IsDigit(s[|s| - 1])
  {
    DayPart(c.days) + NatToString(c.hours) + ClockTail(c.minutes, c.seconds)
  }

  /** `str(timedelta)`. */
  function TimedeltaStr(total: int): (s: string)
    ensures s != [] && IsDigit(s[|s| - 1])
    ensures total == 0 ==> s == "0:00:00"
  {
    ClockText(ClockOf(total))
  }

  /** Where the run of digits that ends `s` starts. */
  function DigitRunStart(s: string): (k: nat)
    ensures k <= |s|
    decreases |s|
  {
    if s == [] || !IsDigit(s[|s| - 1]) then |s| else DigitRunStart(s[..|s| - 1])
  }

  lemma {:induction false} DigitRunStartOf(p: string, digits: string)
    requires p == [] || !IsDigit(p[|p| - 1])
    requires forall i :: 0 <= i < |digits| ==> IsDigit(digits[i])
    ensures DigitRunStart(p + digits) == |p|
    decreases |digits|
  {
    if digits == [] {
      assert p + digits == p;
    } else {
      DigitRunStartOf(p, digits[..|digits| - 1]);
      assert (p + digits)[..|p + digits| - 1] == p + digits[..|digits| - 1];
    }
  }

  /** The position of the first space in `s`, or `|s|` when there is none. */
  function SpaceIndex(s: string): (k: nat)
    ensures k <= |s|
  {
    if s == [] || s[0] == ' ' then 0 else 1 + SpaceIndex(s[1..])
  }

  lemma {:induction false} SpaceIndexOf(a: string, w: string)
    requires forall i :: 0 <= i < |a| ==> a[i] != ' '
    requires w != [] && w[0] == ' '
    ensures SpaceIndex(a + w) == |a|
    decreases |a|
  {
    if a != [] {
      SpaceIndexOf(a[1..], w);
      assert (a + w)[1..] == a[1..] + w;
    }
  }

  /** Different day counts give different day parts. */
  lemma DayPartInjective(d1: int, d2: int)
    requires DayPart(d1) == DayPart(d2)
    ensures d1 == d2
  {
    if d1 != 0 {
      var a1, a2 := IntToString(d1), IntToString(d2);
      var w1 := if d1 == 1 || d1 == -1 then " day, " else " days, ";
      var w2 := if d2 == 1 || d2 == -1 then " day, " else " days, ";
      SpaceIndexOf(a1, w1);
      SpaceIndexOf(a2, w2);
      assert a1 == (a1 + w1)[..|a1|];
      assert a2 == (a2 + w2)[..|a2|];
      IntToStringInjective(d1, d2);
    }
  }

  /** Two texts made of a day part, the hours and a `":MM:SS"` tail agree
      piece by piece when they agree as a whole: the tail is the last six
      characters, and the hours are the run of digits before it. */
  lemma ClockTextSplit(p1: string, n1: string, t1: string, p2: string, n2: string, t2: string)
    requires p1 == [] || p1[|p1| - 1] == ' '
    requires p2 == [] || p2[|p2| - 1] == ' '
    requires forall i :: 0 <= i < |n1| ==> IsDigit(n1[i])
    requires forall i :: 0 <= i < |n2| ==> IsDigit(n2[i])
    requires |t1| == 6 && |t2| == 6
    requires p1 + n1 + t1 == p2 + n2 + t2
    ensures p1 == p2 && n1 == n2 && t1 == t2
  {
    var full := p1 + n1 + t1;
    var x1, x2 := p1 + n1, p2 + n2;
    assert x1 == full[..|full| - 6] == x2;
    assert t1 == full[|full| - 6..] == t2;
    DigitRunStartOf(p1, n1);
    DigitRunStartOf(p2, n2);
    assert p1 == x1[..|p1|] && p2 == x2[..|p2|];
    assert n1 == x1[|p1|..] && n2 == x2[|p2|..];
  }

  /** The `":MM:SS"` tail determines the minutes and the seconds. */
  lemma ClockTailInjective(m1: nat, s1: nat, m2: nat, s2: nat)
    requires m1 < 60 && s1 < 60 && m2 < 60 && s2 < 60
    requires ClockTail(m1, s1) == ClockTail(m2, s2)
    ensures m1 == m2 && s1 == s2
  {
    var t := ClockTail(m1, s1);
    assert TwoDigits(m1) == t[1..3] == TwoDigits(m2);
    assert TwoDigits(s1) == t[4..6] == TwoDigits(s2);
    TwoDigitsInjective(m1, m2);
    TwoDigitsInjective(s1, s2);
  }

  /** Different normalised clocks are written differently. */
  lemma ClockTextInjective(c1: Clock, c2: Clock)
    requires Normalised(c1) && Normalised(c2) && ClockText(c1) == ClockText(c2)
    ensures c1 == c2
  {
    var t1, t2 := ClockTail(c1.minutes, c1.seconds), ClockTail(c2.minutes, c2.seconds);
    ClockTextSplit(DayPart(c1.days), NatToString(c1.hours), t1, DayPart(c2.days), NatToString(c2.hours), t2);
    ClockTailInjective(c1.minutes, c1.seconds, c2.minutes, c2.seconds);
    NatToStringInjective(c1.hours, c2.hours);
    DayPartInjective(c1.days, c2.days);
  }

  /** `str(timedelta)` writes different durations differently, so the text
      determines the duration. */
  lemma TimedeltaStrInjective(a: int, b: int)
    requires TimedeltaStr(a) == TimedeltaStr(b)
    ensures a == b
  {
    ClockTextInjective(ClockOf(a), ClockOf(b));
  }

  /** `ActivityAdmin.duration_display`: the duration `ends_at - starts_at`,
      or `N/A` exactly when it is zero. */
  function DurationDisplay(a: Activity): (s: string)
    ensures s == "N/A" <==> a.endsAt == a.startsAt
    ensures a.endsAt != a.startsAt ==> s == TimedeltaStr(a.endsAt - a.startsAt)
  {
    var d := a.endsAt - a.startsAt;
    if d != 0 then
      var shown := TimedeltaStr(d);
      assert shown[|shown| - 1] != "N/A"[2];
      shown
    else "N/A"
  }

  const AgeSuffix: string := " años"

  /** `BirthdayAdmin.age_display`: the birthday-adjusted year difference, the
      same number as `Player.age`, followed by ` años`. */
  function AgeDisplay(birth: Date, today: Date): (s: string)
    ensures |s| > |AgeSuffix| && s[|s| - |AgeSuffix|..] == AgeSuffix
    ensures s[..|s| - |AgeSuffix|] == IntToString(Players.Age(birth, today))
    ensures s[..|s| - |AgeSuffix|] == IntToString(today.year - birth.year)
         || s[..|s| - |AgeSuffix|] == IntToString(today.year - birth.year - 1)
  {
    var age := today.year - birth.year - (if PairLess(today.month, today.day, birth.month, birth.day) then 1 else 0);
    var s := IntToString(age) + AgeSuffix;
    assert s[..|s| - |AgeSuffix|] == IntToString(age);
    s
  }

  /** The `schedules` activity table. Primary keys are positions. */
  class Calendar {
    var activities: seq<Activity>

    constructor ()
      ensures activities == []
    {
      activities := [];
    }

    /** `queryset.update(type=kind)`: returns the number of rows updated. */
    method UpdateKind(selected: set<nat>, kind: ActivityType) returns (updated: nat)
      requires forall i :: i in selected ==> i < |activities|
      modifies this
      ensures updated == |selected|
      ensures |activities| == |old(activities)|
      ensures forall i :: 0 <= i < |activities| ==>
        activities[i] == if i in selected then old(activities[i]).(kind := kind) else old(activities[i])
    {
      activities := seq(|activities|, i requires 0 <= i < |activities| reads this =>
        if i in selected then activities[i].(kind := kind) else activities[i]);
      updated := |selected|;
    }
  }

  /** `ActivityAdmin.mark_as_training`. */
  method MarkAsTraining(calendar: Calendar, selected: set<nat>) returns (updated: nat)
    requires forall i :: i in selected ==> i < |calendar.activities|
    modifies calendar
    ensures updated == |selected|
    ensures |calendar.activities| == |old(calendar.activities)|
    ensures forall i :: 0 <= i < |calendar.activities| ==>
      calendar.activities[i] == if i in selected then old(calendar.activities[i]).(kind := Entrenamiento)
                                else old(calendar.activities[i])
  {
    updated := calendar.UpdateKind(selected, Entrenamiento);
  }

  /** `ActivityAdmin.mark_as_other`. */
  method MarkAsOther(calendar: Calendar, selected: set<nat>) returns (updated: nat)
    requires forall i :: i in selected ==> i < |calendar.activities|
    modifies calendar
    ensures updated == |selected|
    ensures |calendar.activities| == |old(calendar.activities)|
    ensures forall i :: 0 <= i < |calendar.activities| ==>
      calendar.activities[i] == if i in selected then old(calendar.activities[i]).(kind := Otro)
                                else old(calendar.activities[i])
  {
    updated := calendar.UpdateKind(selected, Otro);
  }
}
