/**
 * `transform_attendance` of utils.py: it turns the raw per-course counts
 * scraped from the portal, and the user's attendance goal (a percentage),
 * into one projection per course: classes missed, the percentage, a status
 * and a message saying how many further classes may be missed or must be
 * attended.
 *
 * Percentages are exact: the goal test "attended / total * 100 >= goal" is
 * `100 * attended >= goal * total`, and the rounded percentage the record
 * carries is kept in hundredths of a percent.
 */
module Attendance {

  /** One row of the attendance summary table, with the two counts already read as integers. */
  datatype RawCourse = RawCourse(code: string, title: string, attended: nat, delivered: nat)

  datatype Status = Safe | Warning | Critical

  /**
   * One record of the transformed list.  `percentage` is in hundredths of a
   * percent: 7692 stands for 76.92.
   */
  datatype Projection = Projection(
    name: string,
    code: string,
    attended: nat,
    total: nat,
    missed: int,
    percentage: nat,
    message: string,
    status: Status)

  /** attended / total * 100 >= goal, for total > 0, without division. */
  predicate AtOrAboveGoal(attended: int, total: int, goal: int) {
    100 * attended >= goal * total
  }

  /**
   * `round(attended / total * 100, 2)`, in hundredths, and 0 when nothing was
   * delivered: the whole number nearest to 10000 * attended / total, halves
   * rounded up.
   */
  function RoundedPercent(attended: nat, total: nat): (h: nat)
    ensures total == 0 ==> h == 0
    ensures total > 0 ==> 2 * total * h <= 20000 * attended + total < 2 * total * (h + 1)
  {
    if total == 0 then 0
    else
      var q := (20000 * attended + total) / (2 * total);
      assert (2 * total) * q + (20000 * attended + total) % (2 * total) == 20000 * attended + total;
      assert 2 * total * (q + 1) == 2 * total * q + 2 * total;
      q
  }

  /** A rounded percentage above the goal means the exact one is above it too. */
  lemma RoundedAboveGoal(attended: nat, total: nat, goal: int)
    requires total > 0 && RoundedPercent(attended, total) > 100 * goal
    ensures 100 * attended > goal * total
  {
    var h := RoundedPercent(attended, total);
    assert 2 * total * h >= 2 * total * (100 * goal + 1) by {
      MulMonotonic(2 * total, 100 * goal + 1, h);
    }
    assert 2 * total * (100 * goal + 1) == 200 * (goal * total) + 2 * total;
  }

  /** A rounded percentage below the goal means the exact one is below it too. */
  lemma RoundedBelowGoal(attended: nat, total: nat, goal: int)
    requires total > 0 && RoundedPercent(attended, total) < 100 * goal
    ensures 100 * attended < goal * total
  {
    var h := RoundedPercent(attended, total);
    assert 2 * total * (h + 1) <= 2 * total * (100 * goal) by {
      MulMonotonic(2 * total, h + 1, 100 * goal);
    }
    assert 2 * total * (100 * goal) == 200 * (goal * total);
  }

  /** When the exact percentage equals the goal, the rounded one does too. */
  lemma ExactGoalRoundsToGoal(attended: nat, total: nat, goal: int)
    requires total > 0 && 100 * attended == goal * total
    ensures RoundedPercent(attended, total) == 100 * goal
  {
    var h := RoundedPercent(attended, total);
    if h > 100 * goal {
      RoundedAboveGoal(attended, total, goal);
    } else if h < 100 * goal {
      RoundedBelowGoal(attended, total, goal);
    }
  }

  /** For a fixed number of delivered classes, attending more never lowers the percentage. */
  lemma RoundedPercentMonotonic(attended: nat, more: nat, total: nat)
    requires attended <= more
    ensures RoundedPercent(attended, total) <= RoundedPercent(more, total)
  {
    if total > 0 {
      var h, h' := RoundedPercent(attended, total), RoundedPercent(more, total);
      if h' < h {
        MulMonotonic(2 * total, h' + 1, h);
      }
    }
  }

  lemma MulMonotonic(k: nat, x: int, y: int)
    requires x <= y
    ensures k * x <= k * y
  {
    assert k * y - k * x == k * (y - x);
  }

  /**
   * The number of further classes that can be missed: the largest x with
   * attended / (total + x) still at or above the goal.
   */
  function CanMissCount(attended: nat, total: nat, goal: int): (n: nat)
    requires goal > 0 && AtOrAboveGoal(attended, total, goal)
    ensures AtOrAboveGoal(attended, total + n, goal)
    ensures !AtOrAboveGoal(attended, total + n + 1, goal)
  {
    var slack := 100 * attended - goal * total;
    var n := slack / goal;
    assert goal * n + slack % goal == slack;
    assert goal * (total + n) == goal * total + goal * n;
    assert goal * (total + n + 1) == goal * total + goal * n + goal;
    n
  }

  /** No larger number of misses keeps the goal: `CanMissCount` is the largest. */
  lemma CanMissIsLargest(attended: nat, total: nat, goal: int, x: nat)
    requires goal > 0 && AtOrAboveGoal(attended, total, goal)
    requires AtOrAboveGoal(attended, total + x, goal)
    ensures x <= CanMissCount(attended, total, goal)
  {
    var n := CanMissCount(attended, total, goal);
    if x > n {
      MulMonotonic(goal, total + n + 1, total + x);
    }
  }

  /** Every number of misses up to `CanMissCount` keeps the goal. */
  lemma CanMissKeepsGoal(attended: nat, total: nat, goal: int, x: nat)
    requires goal > 0 && AtOrAboveGoal(attended, total, goal)
    requires x <= CanMissCount(attended, total, goal)
    ensures AtOrAboveGoal(attended, total + x, goal)
  {
    MulMonotonic(goal, total + x, total + CanMissCount(attended, total, goal));
  }

  /**
   * The number of consecutive classes that must be attended: the smallest
   * x >= 1 with (attended + x) / (total + x) at or above the goal.
   */
  function MustAttendCount(attended: nat, total: nat, goal: int): (n: nat)
    requires goal < 100 && !AtOrAboveGoal(attended, total, goal)
    ensures n >= 1
    ensures AtOrAboveGoal(attended + n, total + n, goal)
    ensures !AtOrAboveGoal(attended + n - 1, total + n - 1, goal)
  {
    var gap := goal * total - 100 * attended;
    var step := 100 - goal;
    var n := (gap + step - 1) / step;
    assert step * n + (gap + step - 1) % step == gap + step - 1;
    assert 100 * (attended + n) - goal * (total + n) == step * n - gap;
    assert 100 * (attended + n - 1) - goal * (total + n - 1) == step * n - step - gap;
    n
  }

  /** No smaller positive number of attended classes reaches the goal: `MustAttendCount` is the smallest. */
  lemma MustAttendIsSmallest(attended: nat, total: nat, goal: int, x: nat)
    requires goal < 100 && !AtOrAboveGoal(attended, total, goal)
    requires AtOrAboveGoal(attended + x, total + x, goal)
    ensures x >= MustAttendCount(attended, total, goal)
  {
    var n := MustAttendCount(attended, total, goal);
    assert 100 * (attended + x) - goal * (total + x) == (100 - goal) * x - (goal * total - 100 * attended);
    if x < n {
      MulMonotonic(100 - goal, x, n - 1);
    }
  }

  /** With a goal of 0 or less, missing classes never drops below it: the "can miss" search never stops. */
  lemma SafeSearchNeverStops(attended: nat, total: nat, goal: int, x: nat)
    requires goal <= 0
    ensures AtOrAboveGoal(attended, total + x, goal)
  {
    assert goal * (total + x) == -((-goal) * (total + x));
  }

  /** With a goal of 100 or more, a course below it never reaches it: the "attend more" search never stops. */
  lemma AttendSearchNeverStops(attended: nat, total: nat, goal: int, x: nat)
    requires goal >= 100 && !AtOrAboveGoal(attended, total, goal)
    ensures !AtOrAboveGoal(attended + x, total + x, goal)
  {
    MulMonotonic(x, 100, goal);
    assert goal * (total + x) == goal * total + x * goal;
  }

  /**
   * The inputs on which both search loops of `transform_attendance` end:
   * the "can miss" loop runs when the rounded percentage is above the goal
   * and ends only for a positive goal; the "attend more" loop runs when it
   * is below and ends only for a goal under 100.
   */
  predicate SearchesEnd(c: RawCourse, goal: int): (ends: bool)
    ensures c.delivered == 0 ==> ends
    ensures 0 < goal < 100 ==> ends
    ensures c.delivered > 0 && RoundedPercent(c.attended, c.delivered) == 100 * goal ==> ends
  {
    var p := RoundedPercent(c.attended, c.delivered);
    c.delivered == 0 || ((p > 100 * goal ==> goal > 0) && (p < 100 * goal ==> goal < 100))
  }

  /** Lines 69-79: x counts up from 0 until attended / (total + x) drops below the goal; x - 1 is reported. */
  method SearchCanMiss(attended: nat, total: nat, goal: int) returns (canMiss: int)
    requires goal > 0 && 100 * attended > goal * total
    ensures canMiss == CanMissCount(attended, total, goal)
  {
    var x := 0;
    while true
      invariant 0 <= x <= CanMissCount(attended, total, goal) + 1
      decreases CanMissCount(attended, total, goal) + 1 - x
    {
      if 100 * attended < goal * (total + x) {
        break;
      }
      CanMissIsLargest(attended, total, goal, x);
      x := x + 1;
    }
    if x <= CanMissCount(attended, total, goal) {
      CanMissKeepsGoal(attended, total, goal, x);
    }
    canMiss := x - 1;
  }

  /** Lines 85-94: x counts up from 1 until (attended + x) / (total + x) reaches the goal. */
  method SearchMustAttend(attended: nat, total: nat, goal: int) returns (x: int)
    requires goal < 100 && 100 * attended < goal * total
    ensures x == MustAttendCount(attended, total, goal)
  {
    x := 1;
    while true
      invariant 1 <= x <= MustAttendCount(attended, total, goal)
      decreases MustAttendCount(attended, total, goal) - x
    {
      if 100 * (attended + x) >= goal * (total + x) {
        break;
      }
      x := x + 1;
    }
    MustAttendIsSmallest(attended, total, goal, x);
  }
  /** Python's `str(n)` for a non-negative integer: its decimal digits. */
  function NatToString(n: nat): (s: string)
    ensures |s| >= 1 && (forall i :: 0 <= i < |s| ==> '0' <= s[i] <= '9')
    ensures DecimalValue(s) == n
    ensures n < 10 <==> |s| == 1
    ensures |s| > 1 ==> s[0] != '0'
  {
    var last := [(48 + n % 10) as char];
    if n < 10 then last
    else
      var prefix := NatToString(n / 10);
      var s := prefix + last;
      assert s[..|s| - 1] == prefix;
      s
  }

  /** The number a string of decimal digits denotes. */
  function DecimalValue(s: string): nat
    requires forall i :: 0 <= i < |s| ==> '0' <= s[i] <= '9'
  {
    if s == [] then 0 else 10 * DecimalValue(s[..|s| - 1]) + (s[|s| - 1] as int - 48)
  }

  /** A digit string that does not start with '0' denotes a positive number. */
  lemma {:induction false} DecimalValuePositive(s: string)
    requires |s| >= 1 && s[0] != '0'
    requires forall i :: 0 <= i < |s| ==> '0' <= s[i] <= '9'
    ensures DecimalValue(s) >= 1
    decreases |s|
  {
    if |s| > 1 {
      var p := s[..|s| - 1];
      DecimalValuePositive(p);
    }
  }

  /** `str(n)` is the only digit string without a leading zero that denotes `n`. */
  lemma {:induction false} NatToStringUnique(s: string, n: nat)
    requires |s| >= 1 && (forall i :: 0 <= i < |s| ==> '0' <= s[i] <= '9')
    requires |s| > 1 ==> s[0] != '0'
    requires DecimalValue(s) == n
    ensures s == NatToString(n)
    decreases |s|
  {
    if |s| == 1 {
      assert s[..0] == [];
    } else {
      var p := s[..|s| - 1];
      var q, d := DecimalValue(p), s[|s| - 1] as int - 48;
      assert n == 10 * q + d;
      DecimalValuePositive(p);
      LastDigit(n, q, d);
      NatToStringUnique(p, q);
      assert (48 + n % 10) as char == s[|s| - 1];
      assert NatToString(n) == NatToString(q) + [s[|s| - 1]];
      assert s == p + [s[|s| - 1]];
    }
  }

  lemma LastDigit(n: nat, q: nat, d: nat)
    requires d < 10 && n == 10 * q + d
    ensures n / 10 == q && n % 10 == d
  {
  }

  /** "class", or "classes" when the count is not exactly 1. */
  function Classes(n: nat): string {
    "class" + (if n != 1 then "es" else "")
  }

  function CanMissMessage(n: nat): string {
    "\U{2705} You can miss " + NatToString(n) + " more " + Classes(n)
  }

  const AtLimitMessage: string := "\U{26a0}\U{fe0f} You're exactly at the limit!"

  function MustAttendMessage(n: nat): string {
    "\U{274c} You have to attend " + NatToString(n) + " more " + Classes(n)
  }

  const NoClassesMessage: string := "\U{274c} No classes delivered yet"

  /** A message ends in "classes" exactly when its count is not 1. */
  lemma MessagesPlural(n: nat)
    ensures var m := CanMissMessage(n); m[|m| - 2..] == "es" <==> n != 1
    ensures var m := MustAttendMessage(n); m[|m| - 2..] == "es" <==> n != 1
  {
    EndsInEs("\U{2705} You can miss " + NatToString(n), n);
    EndsInEs("\U{274c} You have to attend " + NatToString(n), n);
  }

  lemma EndsInEs(prefix: string, n: nat)
    ensures var m := prefix + " more " + Classes(n); m[|m| - 2..] == "es" <==> n != 1
  {
    var tail := " more " + Classes(n);
    assert tail[|tail| - 2..] == if n != 1 then "es" else "ss";
    var m := prefix + tail;
    assert m == prefix + " more " + Classes(n);
    assert m[|m| - 2..] == tail[|tail| - 2..];
  }

  /**
   * The record `transform_attendance` appends for one course (lines 50-110).
   * It is defined through the closed forms `CanMissCount` and
   * `MustAttendCount`, whose contracts say which counts the loops find.
   */
  function ProjectCourse(c: RawCourse, goal: int): (p: Projection)
    requires SearchesEnd(c, goal)
    ensures p.name == c.title && p.code == c.code
    ensures p.attended == c.attended && p.total == c.delivered
    ensures p.missed == c.delivered - c.attended
    ensures p.percentage == RoundedPercent(c.attended, c.delivered)
    ensures c.delivered == 0 ==> p.status == Critical && p.message == NoClassesMessage
    ensures c.delivered > 0 ==>
              && (p.status == Safe <==> p.percentage > 100 * goal)
              && (p.status == Warning <==> p.percentage == 100 * goal)
              && (p.status == Critical <==> p.percentage < 100 * goal)
    ensures p.status == Safe ==>
              && goal > 0 && 100 * c.attended > goal * c.delivered
              && p.message == CanMissMessage(CanMissCount(c.attended, c.delivered, goal))
    ensures p.status == Warning ==> p.message == AtLimitMessage
    ensures p.status == Critical && c.delivered > 0 ==>
              && goal < 100 && 100 * c.attended < goal * c.delivered
              && p.message == MustAttendMessage(MustAttendCount(c.attended, c.delivered, goal))
  {
    var a, t := c.attended, c.delivered;
    var pct := RoundedPercent(a, t);
    var record := Projection(c.title, c.code, a, t, t - a, pct, "", Critical);
    if t == 0 then
      record.(message := NoClassesMessage)
    else if pct > 100 * goal then
      RoundedAboveGoal(a, t, goal);
      record.(status := Safe, message := CanMissMessage(CanMissCount(a, t, goal)))
    else if pct == 100 * goal then
      record.(status := Warning, message := AtLimitMessage)
    else
      RoundedBelowGoal(a, t, goal);
      record.(message := MustAttendMessage(MustAttendCount(a, t, goal)))
  }

  predicate AllSearchesEnd(subjects: seq<RawCourse>, goal: int) {
    forall i :: 0 <= i < |subjects| ==> SearchesEnd(subjects[i], goal)
  }

  /** The list `transform_attendance` returns: one projection per course, in order. */
  function ProjectAll(subjects: seq<RawCourse>, goal: int): (r: seq<Projection>)
    requires AllSearchesEnd(subjects, goal)
    ensures |r| == |subjects|
    ensures forall i :: 0 <= i < |r| ==> r[i] == ProjectCourse(subjects[i], goal)
  {
    seq(|subjects|, i requires 0 <= i < |subjects| => ProjectCourse(subjects[i], goal))
  }

  /**
   * `transform_attendance` (lines 47-112): the for loop over the courses,
   * with the two search loops run in place.  It ends exactly on the inputs of
   * `AllSearchesEnd`: see `SafeSearchNeverStops` and `AttendSearchNeverStops`.
   */
  method TransformAttendance(subjects: seq<RawCourse>, goal: int) returns (transformed: seq<Projection>)
    requires AllSearchesEnd(subjects, goal)
    ensures |transformed| == |subjects|
    ensures forall i :: 0 <= i < |subjects| ==> transformed[i] == ProjectCourse(subjects[i], goal)
  {
    transformed := [];
    for k := 0 to |subjects|
      invariant |transformed| == k
      invariant forall i :: 0 <= i < k ==> transformed[i] == ProjectCourse(subjects[i], goal)
    {
      var subject := subjects[k];
      var attended, total := subject.attended, subject.delivered;
      var missed := total as int - attended as int;
      var percentage := RoundedPercent(attended, total);
      var status, message;
      if total > 0 {
        if percentage > 100 * goal {
          RoundedAboveGoal(attended, total, goal);
          var canMiss := SearchCanMiss(attended, total, goal);
          status := Safe;
          message := CanMissMessage(canMiss);
        } else if percentage == 100 * goal {
          status := Warning;
          message := AtLimitMessage;
        } else {
          RoundedBelowGoal(attended, total, goal);
          var x := SearchMustAttend(attended, total, goal);
          status := Critical;
          message := MustAttendMessage(x);
        }
      } else {
        status := Critical;
        message := NoClassesMessage;
      }
      transformed := transformed + [Projection(subject.title, subject.code, attended, total, missed, percentage, message, status)];
    }
  }

  /** 20 of 20 attended with goal 75: 100.00%, safe, and 6 more classes can be missed (20/26 >= 75% > 20/27). */
  lemma FullAttendanceExample()
    ensures SearchesEnd(RawCourse("C", "T", 20, 20), 75)
    ensures var p := ProjectCourse(RawCourse("C", "T", 20, 20), 75);
            p.percentage == 10000 && p.status == Safe && p.message == CanMissMessage(6)
  {
    assert RoundedPercent(20, 20) == 10000;
    var n := CanMissCount(20, 20, 75);
    CanMissIsLargest(20, 20, 75, 6);
  }

  /** 5 of 10 attended with goal 75: 50.00%, critical, and 10 classes must be attended (15/20 = 75%). */
  lemma HalfAttendanceExample()
    ensures SearchesEnd(RawCourse("C", "T", 5, 10), 75)
    ensures var p := ProjectCourse(RawCourse("C", "T", 5, 10), 75);
            p.percentage == 5000 && p.status == Critical && p.message == MustAttendMessage(10)
  {
    assert RoundedPercent(5, 10) == 5000;
    MustAttendIsSmallest(5, 10, 75, 10);
  }
}
