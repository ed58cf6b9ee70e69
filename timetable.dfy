/**
 * The logic of `_scrape_timetable` in cuims_scrapper.py that is not page
 * markup: grouping the timetable grid's cells into seven day lists
 * (lines 294-311) and splitting each period string into subject, teacher,
 * location and time (lines 313-339).  The grid arrives as the stripped
 * text of each table row's cells, header row included; reading the page is
 * left out.
 */
module Timetable {
  import opened Wrappers

  /** One entry of a day list: the dictionary built at lines 329-333. */
  datatype Period = Period(subjectCode: string, teacher: string, location: string, time: string, dayNumber: nat)

  // ---------------------------------------------------------------------------
  // Python's `str.split(sep)` for a non-empty separator.

  predicate OccursAt(s: string, sep: string, i: int) {
    0 <= i && i + |sep| <= |s| && s[i..i + |sep|] == sep
  }

  /** A string in which the separator does not occur. */
  predicate Free(s: string, sep: string) {
    forall j :: 0 <= j <= |s| ==> !OccursAt(s, sep, j)
  }

  lemma OccursShift(s: string, sep: string, j: int)
    requires |s| > 0 && 1 <= j
    ensures OccursAt(s[1..], sep, j - 1) <==> OccursAt(s, sep, j)
  {
    if j + |sep| <= |s| {
      assert s[1..][j - 1..j - 1 + |sep|] == s[j..j + |sep|];
    }
  }

  /** The first position where `sep` occurs in `s`, if any (`str.find`). */
  function IndexOf(s: string, sep: string): (r: Option<nat>)
    requires |sep| > 0
    ensures r.Some? ==> OccursAt(s, sep, r.value) && forall j :: 0 <= j < r.value ==> !OccursAt(s, sep, j)
    ensures r.None? ==> Free(s, sep)
    decreases |s|
  {
    if |s| < |sep| then None
    else if s[..|sep|] == sep then Some(0)
    else
      assert !OccursAt(s, sep, 0);
      var rest := IndexOf(s[1..], sep);
      forall j | 1 <= j
        ensures OccursAt(s[1..], sep, j - 1) <==> OccursAt(s, sep, j)
      {
        OccursShift(s, sep, j);
      }
      match rest
      case None => None
      case Some(k) => Some(k + 1)
  }

  /** `s.split(sep)`: the pieces between the occurrences of `sep`, left to right. */
  function Split(s: string, sep: string): (parts: seq<string>)
    requires |sep| > 0
    ensures |parts| >= 1
    decreases |s|
  {
    match IndexOf(s, sep)
    case None => [s]
    case Some(i) => [s[..i]] + Split(s[i + |sep|..], sep)
  }

  /** `sep.join(parts)`. */
  function Join(parts: seq<string>, sep: string): string
    requires |parts| >= 1
  {
    if |parts| == 1 then parts[0] else parts[0] + sep + Join(parts[1..], sep)
  }

  /** Joining the pieces back with the separator gives the original string. */
  lemma {:induction false} SplitJoin(s: string, sep: string)
    requires |sep| > 0
    ensures Join(Split(s, sep), sep) == s
    decreases |s|
  {
    var at := IndexOf(s, sep);
    if at.Some? {
      var i := at.value;
      var rest := s[i + |sep|..];
      var parts := Split(s, sep);
      assert parts == [s[..i]] + Split(rest, sep);
      assert parts[1..] == Split(rest, sep);
      SplitJoin(rest, sep);
      assert Join(parts, sep) == s[..i] + sep + Join(Split(rest, sep), sep);
      assert s[i..i + |sep|] == sep;
      assert s == s[..i] + s[i..i + |sep|] + rest;
    }
  }

  lemma PrefixOccurrence(s: string, i: nat, sep: string, j: int)
    requires i <= |s| && |sep| > 0
    ensures OccursAt(s[..i], sep, j) ==> OccursAt(s, sep, j) && j < i
  {
    if OccursAt(s[..i], sep, j) {
      assert s[..i][j..j + |sep|] == s[j..j + |sep|];
    }
  }

  /** The text before the first occurrence holds none. */
  lemma PrefixFree(s: string, sep: string, i: nat)
    requires |sep| > 0 && IndexOf(s, sep) == Some(i)
    ensures Free(s[..i], sep)
  {
    forall j | 0 <= j <= i
      ensures !OccursAt(s[..i], sep, j)
    {
      PrefixOccurrence(s, i, sep, j);
    }
  }

  /**
   * No piece contains the separator.  For a separator that overlaps itself,
   * such as "::", this and `SplitJoin` do not fix the pieces on their own;
   * `SplitLeftmost` does.
   */
  lemma {:induction false} SplitPiecesFree(s: string, sep: string)
    requires |sep| > 0
    ensures forall k :: 0 <= k < |Split(s, sep)| ==> Free(Split(s, sep)[k], sep)
    decreases |s|
  {
    var at := IndexOf(s, sep);
    if at.Some? {
      var i := at.value;
      var rest := s[i + |sep|..];
      var parts := Split(s, sep);
      assert parts == [s[..i]] + Split(rest, sep);
      SplitPiecesFree(rest, sep);
      PrefixFree(s, sep, i);
      forall k | 0 <= k < |parts|
        ensures Free(parts[k], sep)
      {
        if k > 0 {
          assert parts[k] == Split(rest, sep)[k - 1];
        }
      }
    }
  }

  /**
   * The first piece ends at the leftmost occurrence of the separator, and
   * the string is left whole exactly when the separator does not occur.
   */
  lemma SplitLeftmost(s: string, sep: string)
    requires |sep| > 0
    ensures |Split(s, sep)| == 1 <==> Free(s, sep)
    ensures |Split(s, sep)| == 1 ==> Split(s, sep) == [s]
    ensures |Split(s, sep)| > 1 ==> IndexOf(s, sep) == Some(|Split(s, sep)[0]|)
  {
    match IndexOf(s, sep)
    case None =>
    case Some(i) =>
      assert OccursAt(s, sep, i);
  }

  /** A string free of the separator is not split. */
  lemma SplitNone(a: string, sep: string)
    requires |sep| > 0 && Free(a, sep)
    ensures Split(a, sep) == [a]
  {
    SplitLeftmost(a, sep);
  }

  /** `IndexOf` finds an occurrence with none before it. */
  lemma IndexOfFirst(s: string, sep: string, i: nat)
    requires |sep| > 0 && OccursAt(s, sep, i)
    requires forall j :: 0 <= j < i ==> !OccursAt(s, sep, j)
    ensures IndexOf(s, sep) == Some(i)
  {
    assert !Free(s, sep);
  }

  /** No occurrence starts inside `a` when `a` and the separator's own prefix hold none. */
  lemma NoOccurrenceBefore(a: string, sep: string, b: string, j: nat)
    requires |sep| > 0 && Free(a + sep[..|sep| - 1], sep) && j < |a|
    ensures !OccursAt(a + (sep + b), sep, j)
  {
    var s := a + (sep + b);
    var w := a + sep[..|sep| - 1];
    forall k | 0 <= k < |w|
      ensures s[k] == w[k]
    {
      if k >= |a| {
        assert s[k] == sep[k - |a|] == w[k];
      }
    }
    assert s[..|w|] == w;
    assert !OccursAt(w, sep, j);
    assert s[j..j + |sep|] == s[..|w|][j..j + |sep|];
  }

  /** The three slices of `a + sep + b`. */
  lemma JoinSlices(a: string, sep: string, b: string)
    ensures var s := a + (sep + b);
            && s[..|a|] == a && s[|a|..|a| + |sep|] == sep && s[|a| + |sep|..] == b
  {
  }

  /**
   * Splitting at a separator that is the first occurrence: `a` and the
   * separator's own prefix hold no occurrence, so the first piece is `a`.
   */
  lemma SplitFirst(a: string, sep: string, b: string)
    requires |sep| > 0 && Free(a + sep[..|sep| - 1], sep)
    ensures Split(a + (sep + b), sep) == [a] + Split(b, sep)
  {
    var s := a + (sep + b);
    JoinSlices(a, sep, b);
    forall j | 0 <= j < |a|
      ensures !OccursAt(s, sep, j)
    {
      NoOccurrenceBefore(a, sep, b, j);
    }
    IndexOfFirst(s, sep, |a|);
  }

  // ---------------------------------------------------------------------------
  // Lines 313-337: one period string to one entry, or nothing.

  /**
   * The entry for one period string, or None where one of the splits has
   * too few pieces (the IndexError the `try` swallows).
   */
  function ParsePeriod(period: string, dayNumber: nat): (r: Option<Period>)
    ensures r.Some? ==> r.value.dayNumber == dayNumber
    ensures r.Some? ==> Free(r.value.subjectCode, ":")
    ensures r.Some? ==> |Split(period, "::")| >= 2
  {
    var parts := Split(period, "::");
    var subject := Split(parts[0], ":")[0];
    SplitPiecesFree(parts[0], ":");
    if |parts| < 2 then None
    else
      var byParts := Split(parts[1], "By ");
      if |byParts| < 2 then None
      else
        var teacherData := Split(byParts[1], " at ");
        var teacherAndPlace: Option<(string, seq<string>)> :=
          if |teacherData| > 1 then Some((teacherData[0], Split(teacherData[1], "on")))
          else
            var atParts := Split(teacherData[0], "at ");
            if |atParts| < 2 then None else Some(("", Split(atParts[1], " on ")));
        match teacherAndPlace
        case None => None
        case Some((teacher, classLoc)) =>
          if |classLoc| < 2 then None
          else Some(Period(subject, teacher, classLoc[0], classLoc[1], dayNumber))
  }

  /** `a + sep + b` with the separator only at the join splits into `[a, b]`. */
  lemma SplitTwo(a: string, sep: string, b: string)
    requires |sep| > 0 && Free(a + sep[..|sep| - 1], sep) && Free(b, sep)
    ensures Split(a + (sep + b), sep) == [a, b]
  {
    SplitFirst(a, sep, b);
    SplitNone(b, sep);
  }

  /** The with-teacher branch of lines 320-323 read off its split pieces. */
  lemma ParsePeriodTeacherPieces(period: string, subject: string, r: string, p: string, b: string,
                                 teacher: string, c: string, location: string, time: string, dayNumber: nat)
    requires Split(period, "::") == [subject, r]
    requires Split(r, "By ") == [p, b]
    requires Split(b, " at ") == [teacher, c]
    requires Split(c, "on") == [location, time]
    ensures ParsePeriod(period, dayNumber) == Some(Period(Split(subject, ":")[0], teacher, location, time, dayNumber))
  {
  }

  /** The without-teacher branch of lines 324-326 read off its split pieces. */
  lemma ParsePeriodNoTeacherPieces(period: string, subject: string, r: string, p: string, b: string,
                                   m: string, c: string, location: string, time: string, dayNumber: nat)
    requires Split(period, "::") == [subject, r]
    requires Split(r, "By ") == [p, b]
    requires Split(b, " at ") == [b]
    requires Split(b, "at ") == [m, c]
    requires Split(c, " on ") == [location, time]
    ensures ParsePeriod(period, dayNumber) == Some(Period(Split(subject, ":")[0], "", location, time, dayNumber))
  {
  }

  /**
   * A period with a teacher, "<subject>::<p>By <teacher> at <location>on<time>",
   * parses to exactly those pieces.  The conditions say that each separator
   * the code splits on occurs where the layout puts it and nowhere before.
   */
  lemma ParsePeriodWithTeacher(subject: string, p: string, teacher: string, location: string, time: string, dayNumber: nat)
    requires Free(subject + ":", "::")
    requires Free(p + ("By " + (teacher + (" at " + (location + ("on" + time))))), "::")
    requires Free(p + "By", "By ") && Free(teacher + (" at " + (location + ("on" + time))), "By ")
    requires Free(teacher + " at", " at ") && Free(location + ("on" + time), " at ")
    requires Free(location + "o", "on") && Free(time, "on")
    ensures ParsePeriod(subject + ("::" + (p + ("By " + (teacher + (" at " + (location + ("on" + time))))))), dayNumber)
            == Some(Period(Split(subject, ":")[0], teacher, location, time, dayNumber))
  {
    var c := location + ("on" + time);
    var b := teacher + (" at " + c);
    var r := p + ("By " + b);
    assert "::"[..1] == ":" && "By "[..2] == "By" && " at "[..3] == " at" && "on"[..1] == "o";
    SplitTwo(subject, "::", r);
    SplitTwo(p, "By ", b);
    SplitTwo(teacher, " at ", c);
    SplitTwo(location, "on", time);
    ParsePeriodTeacherPieces(subject + ("::" + r), subject, r, p, b, teacher, c, location, time, dayNumber);
  }

  /**
   * A period without " at " after "By ", "<subject>::<p>By <m>at <location> on <time>",
   * parses with an empty teacher.
   */
  lemma ParsePeriodWithoutTeacher(subject: string, p: string, m: string, location: string, time: string, dayNumber: nat)
    requires Free(subject + ":", "::")
    requires Free(p + ("By " + (m + ("at " + (location + (" on " + time))))), "::")
    requires Free(p + "By", "By ") && Free(m + ("at " + (location + (" on " + time))), "By ")
    requires Free(m + ("at " + (location + (" on " + time))), " at ")
    requires Free(m + "at", "at ") && Free(location + (" on " + time), "at ")
    requires Free(location + " on", " on ") && Free(time, " on ")
    ensures ParsePeriod(subject + ("::" + (p + ("By " + (m + ("at " + (location + (" on " + time))))))), dayNumber)
            == Some(Period(Split(subject, ":")[0], "", location, time, dayNumber))
  {
    var c := location + (" on " + time);
    var b := m + ("at " + c);
    var r := p + ("By " + b);
    assert "::"[..1] == ":" && "By "[..2] == "By" && "at "[..2] == "at" && " on "[..3] == " on";
    SplitTwo(subject, "::", r);
    SplitTwo(p, "By ", b);
    SplitNone(b, " at ");
    SplitTwo(m, "at ", c);
    SplitTwo(location, " on ", time);
    ParsePeriodNoTeacherPieces(subject + ("::" + r), subject, r, p, b, m, c, location, time, dayNumber);
  }

  /** Each split that finds no separator raises the IndexError that drops the period. */
  lemma ParsePeriodDrops(period: string, dayNumber: nat)
    ensures Free(period, "::") ==> ParsePeriod(period, dayNumber).None?
    ensures var parts := Split(period, "::");
            |parts| >= 2 && Free(parts[1], "By ") ==> ParsePeriod(period, dayNumber).None?
    ensures var parts := Split(period, "::");
            |parts| >= 2 && |Split(parts[1], "By ")| >= 2 ==>
              var rest := Split(parts[1], "By ")[1];
              && (Free(rest, " at ") && Free(rest, "at ") ==> ParsePeriod(period, dayNumber).None?)
              && (Free(rest, " at ") && !Free(rest, "at ") && Free(Split(rest, "at ")[1], " on ") ==> ParsePeriod(period, dayNumber).None?)
              && (!Free(rest, " at ") && Free(Split(rest, " at ")[1], "on") ==> ParsePeriod(period, dayNumber).None?)
  {
    var parts := Split(period, "::");
    SplitLeftmost(period, "::");
    if |parts| >= 2 {
      SplitLeftmost(parts[1], "By ");
      var byParts := Split(parts[1], "By ");
      if |byParts| >= 2 {
        var rest := byParts[1];
        SplitLeftmost(rest, " at ");
        SplitLeftmost(rest, "at ");
        var teacherData := Split(rest, " at ");
        if |teacherData| > 1 {
          SplitLeftmost(teacherData[1], "on");
        } else {
          var atParts := Split(rest, "at ");
          if |atParts| >= 2 {
            SplitLeftmost(atParts[1], " on ");
          }
        }
      }
    }
  }

  /** One day list of lines 314-339: the entries of the periods that parse, in order. */
  function ParseDay(periods: seq<string>, dayNumber: nat): (r: seq<Period>)
    ensures |r| <= |periods|
    ensures forall k :: 0 <= k < |r| ==> r[k].dayNumber == dayNumber
  {
    if periods == [] then []
    else
      var last := ParsePeriod(periods[|periods| - 1], dayNumber);
      ParseDay(periods[..|periods| - 1], dayNumber) + if last.Some? then [last.value] else []
  }

  /** Every entry of a day list comes from one of the period strings. */
  lemma {:induction false} ParseDayFromPeriods(periods: seq<string>, dayNumber: nat)
    ensures forall k :: 0 <= k < |ParseDay(periods, dayNumber)| ==>
              exists j :: 0 <= j < |periods| && ParsePeriod(periods[j], dayNumber) == Some(ParseDay(periods, dayNumber)[k])
  {
    if periods == [] {
      assert ParseDay(periods, dayNumber) == [];
    } else {
      var prefix := periods[..|periods| - 1];
      var r, rp := ParseDay(periods, dayNumber), ParseDay(prefix, dayNumber);
      var last := ParsePeriod(periods[|periods| - 1], dayNumber);
      assert r == rp + if last.Some? then [last.value] else [];
      ParseDayFromPeriods(prefix, dayNumber);
      forall k | 0 <= k < |r|
        ensures exists j :: 0 <= j < |periods| && ParsePeriod(periods[j], dayNumber) == Some(r[k])
      {
        if k < |rp| {
          var j :| 0 <= j < |prefix| && ParsePeriod(prefix[j], dayNumber) == Some(rp[k]);
          assert periods[j] == prefix[j] && r[k] == rp[k];
        } else {
          assert ParsePeriod(periods[|periods| - 1], dayNumber) == Some(r[k]);
        }
      }
    }
  }

  /** No period string that parses is dropped from its day list. */
  lemma {:induction false} ParseDayKeepsParsed(periods: seq<string>, dayNumber: nat)
    ensures forall j :: 0 <= j < |periods| && ParsePeriod(periods[j], dayNumber).Some? ==>
              ParsePeriod(periods[j], dayNumber).value in ParseDay(periods, dayNumber)
  {
    if periods != [] {
      var prefix := periods[..|periods| - 1];
      var r, rp := ParseDay(periods, dayNumber), ParseDay(prefix, dayNumber);
      var last := ParsePeriod(periods[|periods| - 1], dayNumber);
      assert r == rp + if last.Some? then [last.value] else [];
      ParseDayKeepsParsed(prefix, dayNumber);
      forall j | 0 <= j < |periods| && ParsePeriod(periods[j], dayNumber).Some?
        ensures ParsePeriod(periods[j], dayNumber).value in r
      {
        if j < |prefix| {
          assert periods[j] == prefix[j];
        } else {
          assert r[|rp|] == last.value;
        }
      }
    }
  }

  // ---------------------------------------------------------------------------
  // Lines 294-311: the grid of cells to seven day lists.

  /** What a row adds to day `d` (column d + 1): "<cell> on <time>" when the stripped cell is not empty. */
  function CellEntry(row: seq<string>, d: nat): seq<string> {
    if d + 1 < |row| && (row[d + 1]) != "" then
      [(row[d + 1]) + " on " + (row[0])]
    else []
  }

  /** Day `d`'s list after the given rows. */
  function DayColumn(rows: seq<seq<string>>, d: nat): (column: seq<string>)
    ensures |column| <= |rows|
  {
    if rows == [] then [] else DayColumn(rows[..|rows| - 1], d) + CellEntry(rows[|rows| - 1], d)
  }

  /**
   * Day `d`'s list is made of the non-empty cells of column d + 1 and
   * nothing else: each entry is one row's cell with the row's time, and no
   * non-empty cell is missing.
   */
  lemma {:induction false} DayColumnCells(rows: seq<seq<string>>, d: nat)
    ensures forall k :: 0 <= k < |DayColumn(rows, d)| ==>
              exists r :: 0 <= r < |rows| && CellEntry(rows[r], d) == [DayColumn(rows, d)[k]]
    ensures forall r :: 0 <= r < |rows| && d + 1 < |rows[r]| && (rows[r][d + 1]) != "" ==>
              (rows[r][d + 1]) + " on " + (rows[r][0]) in DayColumn(rows, d)
  {
    if rows != [] {
      var prefix := rows[..|rows| - 1];
      var last := rows[|rows| - 1];
      DayColumnCells(prefix, d);
      assert forall r :: 0 <= r < |prefix| ==> prefix[r] == rows[r];
      var column := DayColumn(rows, d);
      assert column == DayColumn(prefix, d) + CellEntry(last, d);
      forall k | 0 <= k < |column|
        ensures exists r :: 0 <= r < |rows| && CellEntry(rows[r], d) == [column[k]]
      {
        if k < |DayColumn(prefix, d)| {
          assert column[k] == DayColumn(prefix, d)[k];
          var r :| 0 <= r < |prefix| && CellEntry(prefix[r], d) == [DayColumn(prefix, d)[k]];
          assert rows[r] == prefix[r];
        } else {
          assert CellEntry(rows[|rows| - 1], d) == [column[k]];
        }
      }
    } else {
      assert DayColumn(rows, d) == [];
    }
  }

  /** A non-empty cell past the seventh day column: `timetable[col_index]` raises KeyError. */
  predicate RowOverflows(row: seq<string>) {
    exists c :: 8 <= c < |row| && (row[c]) != ""
  }

  predicate Overflows(rows: seq<seq<string>>) {
    exists r :: 0 <= r < |rows| && RowOverflows(rows[r])
  }

  /** The rows after the header (`rows[1:]`). */
  function Body(rows: seq<seq<string>>): seq<seq<string>> {
    if rows == [] then [] else rows[1..]
  }

  /** The seven day lists of lines 294-311, or None when the grid has a cell past the last day. */
  function GroupedDays(rows: seq<seq<string>>): (r: Option<seq<seq<string>>>)
    ensures r.Some? ==> |r.value| == 7
  {
    if Overflows(Body(rows)) then None
    else Some(seq(7, d requires 0 <= d < 7 => DayColumn(Body(rows), d)))
  }

  lemma DayColumnStep(rows: seq<seq<string>>, r: nat, d: nat)
    requires r < |rows|
    ensures DayColumn(rows[..r + 1], d) == DayColumn(rows[..r], d) + CellEntry(rows[r], d)
  {
    assert rows[..r + 1][..r] == rows[..r];
  }

  /** The seven day lists with one more row's cells appended. */
  function AddRow(table: seq<seq<string>>, row: seq<string>): (r: seq<seq<string>>)
    requires |table| == 7
    ensures |r| == 7
  {
    seq(7, d requires 0 <= d < 7 => table[d] + CellEntry(row, d))
  }

  /** Lines 305-311: the inner loop over one row's cells; false where it would raise KeyError. */
  method AppendRow(table: seq<seq<string>>, cols: seq<string>) returns (ok: bool, table': seq<seq<string>>)
    requires |table| == 7
    ensures ok <==> !RowOverflows(cols)
    ensures ok ==> table' == AddRow(table, cols)
  {
    table' := table;
    var n := if |cols| == 0 then 0 else |cols| - 1;
    for ci := 0 to n
      invariant |table'| == 7
      invariant forall d :: 0 <= d < 7 ==> table'[d] == table[d] + (if d < ci then CellEntry(cols, d) else [])
      invariant forall c :: 8 <= c < ci + 1 ==> (cols[c]) == ""
    {
      var cellText := (cols[ci + 1]);
      if cellText != "" {
        if ci >= 7 {
          assert RowOverflows(cols);
          return false, table';
        }
        var periodTime := (cols[0]);
        table' := table'[ci := table'[ci] + [cellText + " on " + periodTime]];
      }
    }
    ok := true;
    assert table' == AddRow(table, cols);
  }

  lemma GroupStep(body: seq<seq<string>>, r: nat, table: seq<seq<string>>)
    requires r < |body| && |table| == 7
    requires forall d :: 0 <= d < 7 ==> table[d] == DayColumn(body[..r], d)
    ensures forall d :: 0 <= d < 7 ==> AddRow(table, body[r])[d] == DayColumn(body[..r + 1], d)
  {
    forall d | 0 <= d < 7
      ensures AddRow(table, body[r])[d] == DayColumn(body[..r + 1], d)
    {
      DayColumnStep(body, r, d);
    }
  }

  /** Lines 294-311: the outer loop over the rows after the header. */
  method GroupByDay(rows: seq<seq<string>>) returns (days: Option<seq<seq<string>>>)
    ensures days == GroupedDays(rows)
  {
    var body := Body(rows);
    var table: seq<seq<string>> := [[], [], [], [], [], [], []];
    for r := 0 to |body|
      invariant |table| == 7
      invariant forall d :: 0 <= d < 7 ==> table[d] == DayColumn(body[..r], d)
      invariant !Overflows(body[..r])
    {
      var ok, table' := AppendRow(table, body[r]);
      if !ok {
        assert Overflows(body);
        return None;
      }
      GroupStep(body, r, table);
      table := table';
      assert forall k :: 0 <= k < r + 1 ==> body[..r + 1][k] == body[k];
    }
    assert body[..|body|] == body;
    assert table == seq(7, d requires 0 <= d < 7 => DayColumn(body, d));
    days := Some(table);
  }

  /** Lines 315-337: the inner loop over one day's period strings. */
  method ParseDayList(periods: seq<string>, dayNumber: nat) returns (dayData: seq<Period>)
    ensures dayData == ParseDay(periods, dayNumber)
  {
    dayData := [];
    for k := 0 to |periods|
      invariant dayData == ParseDay(periods[..k], dayNumber)
    {
      assert periods[..k + 1][..k] == periods[..k];
      var entry := ParsePeriod(periods[k], dayNumber);
      if entry.Some? {
        dayData := dayData + [entry.value];
      }
    }
    assert periods[..|periods|] == periods;
  }

  /** Lines 313-339: the seven day lists of period strings to seven day lists of entries. */
  method ParseWeek(days: seq<seq<string>>) returns (week: seq<seq<Period>>)
    requires |days| == 7
    ensures |week| == 7
    ensures forall d :: 0 <= d < 7 ==> week[d] == ParseDay(days[d], d + 1)
  {
    week := [];
    for day := 0 to 7
      invariant |week| == day
      invariant forall d :: 0 <= d < day ==> week[d] == ParseDay(days[d], d + 1)
    {
      var dayData := ParseDayList(days[day], day + 1);
      week := week + [dayData];
    }
  }

  /** What `_scrape_timetable` returns, given the grid's cell texts (None: the table never appeared). */
  function TimetableOf(grid: Option<seq<seq<string>>>): (r: Option<seq<seq<Period>>>)
    ensures r.Some? ==> |r.value| == 7
    ensures r.Some? ==> forall d, k :: 0 <= d < 7 && 0 <= k < |r.value[d]| ==> r.value[d][k].dayNumber == d + 1
  {
    match grid
    case None => None
    case Some(rows) =>
      match GroupedDays(rows)
      case None => None
      case Some(days) => Some(seq(7, d requires 0 <= d < 7 => ParseDay(days[d], d + 1)))
  }

  /** `_scrape_timetable` (lines 289-346) after the page has been read. */
  method ScrapeTimetable(grid: Option<seq<seq<string>>>) returns (timetable: Option<seq<seq<Period>>>)
    ensures timetable == TimetableOf(grid)
  {
    if grid.None? {
      return None;
    }
    var days := GroupByDay(grid.value);
    if days.None? {
      return None;
    }
    var week := ParseWeek(days.value);
    assert week == seq(7, d requires 0 <= d < 7 => ParseDay(days.value[d], d + 1));
    timetable := Some(week);
  }
}
