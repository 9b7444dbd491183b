/** The monthly checks: each employee's monthly training drill (its date
    must fall on a Monday to Thursday of a week the employee was present,
    its result must be `P`) and the operation name of the log. */
module MonthCheck {
  import opened Wrappers
  import opened Text
  import opened Patterns
  import opened Grid
  import opened SaltRecords
  import opened Week
  import opened ValidatorRules

  /** Monday to Thursday of the week ending on the Saturday `ending`. */
  function DrillDays(ending: int): (r: seq<int>)
    ensures |r| == 4
    ensures forall d :: d in r <==> ending - 5 <= d <= ending - 2
  {
    [ending - 5, ending - 4, ending - 3, ending - 2]
  }

  /** The employee's category in the week is not one of the no-result
      categories (a cell without text counts as present). */
  predicate PresentIn(w: SaltWeek, row: int) {
    !IsNoResultCategory(w.EntryValues(row).category)
  }

  /** Whether the employee was present in one week, and the day that
      week ends on. */
  datatype Attendance = Attendance(present: bool, ending: int)

  /** The employee's attendance, week by week. */
  function AttendanceOf(weeks: seq<SaltWeek>, row: int): (r: seq<Attendance>)
    ensures |r| == |weeks|
    ensures forall i :: 0 <= i < |weeks| ==> r[i] == Attendance(PresentIn(weeks[i], row), weeks[i].endingDate)
  {
    seq(|weeks|, i requires 0 <= i < |weeks| => Attendance(PresentIn(weeks[i], row), weeks[i].endingDate))
  }

  /** The drill days of the weeks present, in week order. */
  function DatesOf(att: seq<Attendance>): seq<int>
    decreases |att|
  {
    if att == [] then []
    else
      var last := att[|att| - 1];
      DatesOf(att[..|att| - 1]) + (if last.present then DrillDays(last.ending) else [])
  }

  /** The days `set_valid_employee_dates` collects. */
  function EligibleDates(weeks: seq<SaltWeek>, row: int): seq<int> {
    DatesOf(AttendanceOf(weeks, row))
  }

  /** The first `i + 1` weeks add the drill days of week `i` if present. */
  lemma DatesOfStep(att: seq<Attendance>, i: nat)
    requires i < |att|
    ensures DatesOf(att[..i + 1]) == DatesOf(att[..i]) + (if att[i].present then DrillDays(att[i].ending) else [])
  {
    assert att[..i + 1][..i] == att[..i];
  }

  /** `d` is one of the drill days of a week present. */
  predicate DrillDayOf(a: Attendance, d: int) {
    a.present && a.ending - 5 <= d <= a.ending - 2
  }

  /** The days collected from the first weeks and the last one. */
  lemma DatesOfLast(att: seq<Attendance>, d: int)
    requires att != []
    ensures d in DatesOf(att) <==> d in DatesOf(att[..|att| - 1]) || DrillDayOf(att[|att| - 1], d)
  {
  }

  /** Every day collected is a drill day of some week present. */
  lemma {:induction false} DatesOfSound(att: seq<Attendance>, d: int)
    requires d in DatesOf(att)
    ensures exists i :: 0 <= i < |att| && DrillDayOf(att[i], d)
    decreases |att|
  {
    var n := |att| - 1;
    DatesOfLast(att, d);
    if DrillDayOf(att[n], d) {
      assert 0 <= n < |att| && DrillDayOf(att[n], d);
    } else {
      var init := att[..n];
      DatesOfSound(init, d);
      var i :| 0 <= i < |init| && DrillDayOf(init[i], d);
      assert att[i] == init[i];
    }
  }

  /** Every drill day of a week present is collected. */
  lemma {:induction false} DatesOfComplete(att: seq<Attendance>, d: int, i: int)
    requires 0 <= i < |att| && DrillDayOf(att[i], d)
    ensures d in DatesOf(att)
    decreases |att|
  {
    var n := |att| - 1;
    DatesOfLast(att, d);
    if i < n {
      var init := att[..n];
      assert init[i] == att[i];
      DatesOfComplete(init, d, i);
    }
  }

  /** A day is collected exactly when it is a drill day of a week
      present. */
  lemma DatesOfMembership(att: seq<Attendance>, d: int)
    ensures d in DatesOf(att) <==> exists i :: 0 <= i < |att| && DrillDayOf(att[i], d)
  {
    if d in DatesOf(att) {
      DatesOfSound(att, d);
    }
    if exists i :: 0 <= i < |att| && DrillDayOf(att[i], d) {
      var i :| 0 <= i < |att| && DrillDayOf(att[i], d);
      DatesOfComplete(att, d, i);
    }
  }

  /** Four days per week present. */
  lemma {:induction false} DatesOfCount(att: seq<Attendance>)
    ensures |DatesOf(att)| == 4 * |set i | 0 <= i < |att| && att[i].present|
    decreases |att|
  {
    var present := set i | 0 <= i < |att| && att[i].present;
    if att == [] {
      assert present == {};
    } else {
      var n := |att| - 1;
      var init := att[..n];
      DatesOfCount(init);
      var before := set i | 0 <= i < |init| && init[i].present;
      assert before == set i | 0 <= i < n && att[i].present;
      if att[n].present {
        assert present == before + {n};
      } else {
        assert present == before;
      }
    }
  }

  /** No day is collected exactly when no week is present. */
  lemma DatesOfEmpty(att: seq<Attendance>)
    ensures DatesOf(att) == [] <==> forall i :: 0 <= i < |att| ==> !att[i].present
  {
    DatesOfCount(att);
    var present := set i | 0 <= i < |att| && att[i].present;
    if exists i :: 0 <= i < |att| && att[i].present {
      var i :| 0 <= i < |att| && att[i].present;
      assert i in present;
    } else {
      assert present == {};
    }
  }

  /** A day is eligible exactly when it is a drill day of a week the
      employee was present. */
  lemma EligibleDatesMembership(weeks: seq<SaltWeek>, row: int, d: int)
    ensures d in EligibleDates(weeks, row)
            <==> exists i :: 0 <= i < |weeks| && PresentIn(weeks[i], row)
                             && weeks[i].endingDate - 5 <= d <= weeks[i].endingDate - 2
  {
    var att := AttendanceOf(weeks, row);
    DatesOfMembership(att, d);
    assert forall i :: 0 <= i < |weeks| ==>
             (DrillDayOf(att[i], d) <==> PresentIn(weeks[i], row)
                                         && weeks[i].endingDate - 5 <= d <= weeks[i].endingDate - 2);
  }

  /** Four eligible days per week present. */
  lemma EligibleDatesCount(weeks: seq<SaltWeek>, row: int)
    ensures |EligibleDates(weeks, row)| == 4 * |set i | 0 <= i < |weeks| && PresentIn(weeks[i], row)|
  {
    var att := AttendanceOf(weeks, row);
    DatesOfCount(att);
    assert (set i | 0 <= i < |att| && att[i].present) == set i | 0 <= i < |weeks| && PresentIn(weeks[i], row);
  }

  /** The eligible days are none exactly when the employee was absent the
      whole month, the case in which the drill check raises. */
  lemma EligibleDatesEmpty(weeks: seq<SaltWeek>, row: int)
    ensures EligibleDates(weeks, row) == [] <==> forall i :: 0 <= i < |weeks| ==> !PresentIn(weeks[i], row)
  {
    DatesOfEmpty(AttendanceOf(weeks, row));
  }

  /** One step after another: the second runs only if the first did not
      raise. */
  function Then(first: Report, second: Report): (r: Report)
    ensures r.raised <==> first.raised || second.raised
    ensures first.raised ==> r == first
    ensures !first.raised ==> r.findings == first.findings + second.findings
  {
    if first.raised then first else Report(first.findings + second.findings, second.raised)
  }

  /** A sequence of steps, each run only while none before it raised. */
  function Chain(steps: seq<Report>): (r: Report)
    ensures r.raised <==> exists i :: 0 <= i < |steps| && steps[i].raised
    decreases |steps|
  {
    if steps == [] then Report([], false) else Then(Chain(steps[..|steps| - 1]), steps[|steps| - 1])
  }

  /** Once a step raises, the later steps do not matter. */
  lemma {:induction false} ChainStops(steps: seq<Report>, k: nat)
    requires k <= |steps| && Chain(steps[..k]).raised
    ensures Chain(steps) == Chain(steps[..k])
    decreases |steps| - k
  {
    if k < |steps| {
      assert steps[..|steps| - 1][..k] == steps[..k];
      ChainStops(steps[..|steps| - 1], k);
    } else {
      assert steps[..k] == steps;
    }
  }

  /** Steps of at most `n` findings each give at most `n` per step. */
  lemma {:induction false} ChainBound(steps: seq<Report>, n: nat)
    requires forall i :: 0 <= i < |steps| ==> |steps[i].findings| <= n
    ensures |Chain(steps).findings| <= n * |steps|
    decreases |steps|
  {
    if steps != [] {
      var init := steps[..|steps| - 1];
      assert forall i :: 0 <= i < |init| ==> init[i] == steps[i];
      ChainBound(init, n);
      assert n * |init| + n == n * |steps|;
    }
  }

  /** The first `i + 1` steps are the first `i` and then step `i`. */
  lemma ChainStep(steps: seq<Report>, i: nat)
    requires i < |steps|
    ensures Chain(steps[..i + 1]) == Then(Chain(steps[..i]), steps[i])
  {
    assert steps[..i + 1][..i] == steps[..i];
  }

  /** Recording step `i` after the steps before it records the first
      `i + 1` steps. */
  lemma ChainAppend(base: seq<SaltError>, steps: seq<Report>, i: nat)
    requires i < |steps| && !Chain(steps[..i]).raised
    ensures Chain(steps[..i + 1]).raised == steps[i].raised
    ensures base + Chain(steps[..i]).findings + steps[i].findings == base + Chain(steps[..i + 1]).findings
  {
    ChainStep(steps, i);
  }

  /** The date part of the drill check raises: on a filled-in date when
      there are no eligible days, and on a date cell holding text. */
  predicate DrillDateRaises(date: Option<Value>, dates: seq<int>) {
    date.Some? && (dates == [] || date.value.Text?)
  }

  /** The date part of `check_training_drill`, once the eligible days
      `dates` are known. */
  function DrillDatePart(e: Employee, dateCell: Coord, date: Option<Value>, dates: seq<int>): (r: Report)
    ensures r.raised <==> DrillDateRaises(date, dates)
  {
    match date
    case None => Report([Finding(e, dateCell, DrillDateEmpty)], false)
    case Some(v) =>
      if dates == [] then Report([], true)
      else
        match v
        case Text(_) => Report([], true)
        case Date(d) => Report(if d in dates then [] else [Finding(e, dateCell, NotPresentOn(d))], false)
  }

  /** The result part of `check_training_drill`: the result must be `P`
      but for case. */
  function DrillResultPart(e: Employee, resultCell: Coord, result: Option<Value>): (r: Report)
    ensures r.raised <==> result.Some? && result.value.Date?
  {
    match result
    case None => Report([Finding(e, resultCell, DrillResultEmpty)], false)
    case Some(Text(s)) => Report(if Lower(s) != "p" then [Finding(e, resultCell, DrillResultNotP)] else [], false)
    case Some(Date(_)) => Report([], true)
  }

  /** Both `P` and `p` pass the result part; `X` does not. */
  lemma DrillResultEitherCase(e: Employee, resultCell: Coord)
    ensures DrillResultPart(e, resultCell, Some(Text("P"))).findings == []
    ensures DrillResultPart(e, resultCell, Some(Text("p"))).findings == []
    ensures DrillResultPart(e, resultCell, Some(Text("X"))).findings == [Finding(e, resultCell, DrillResultNotP)]
  {
    assert Lower("P") == "p";
    assert Lower("X") == "x";
  }

  /** `check_training_drill` once the eligible days `dates` are known. */
  function DrillReport(e: Employee, dateCell: Coord, resultCell: Coord, date: Option<Value>, result: Option<Value>,
                       dates: seq<int>): Report
  {
    Then(DrillDatePart(e, dateCell, date, dates), DrillResultPart(e, resultCell, result))
  }

  /** What the drill check finds: at most one finding per cell, the date
      and result findings exactly when their conditions hold, and a raise
      exactly in the source's exception cases. */
  lemma DrillReportMeaning(e: Employee, dateCell: Coord, resultCell: Coord, date: Option<Value>, result: Option<Value>,
                           dates: seq<int>)
    ensures var r := DrillReport(e, dateCell, resultCell, date, result, dates);
            && |r.findings| <= 2
            && (forall f :: f in r.findings ==> f.employee == Some(e) && (f.cell == dateCell || f.cell == resultCell))
            && (r.raised <==> DrillDateRaises(date, dates) || (result.Some? && result.value.Date?))
            && (DrillDateRaises(date, dates) ==> r.findings == [])
            && (Finding(e, dateCell, DrillDateEmpty) in r.findings <==> date.None?)
    ensures var r := DrillReport(e, dateCell, resultCell, date, result, dates);
            forall d :: date == Some(Date(d)) && dates != [] ==>
                        (Finding(e, dateCell, NotPresentOn(d)) in r.findings <==> d !in dates)
    ensures var r := DrillReport(e, dateCell, resultCell, date, result, dates);
            !DrillDateRaises(date, dates) ==> (Finding(e, resultCell, DrillResultEmpty) in r.findings <==> result.None?)
    ensures var r := DrillReport(e, dateCell, resultCell, date, result, dates);
            forall s :: result == Some(Text(s)) && !DrillDateRaises(date, dates) ==>
                        (Finding(e, resultCell, DrillResultNotP) in r.findings <==> Lower(s) != "p")
  {
  }

  /** An empty date cell never looks at the eligible days. */
  lemma DrillReportWithoutDate(e: Employee, dateCell: Coord, resultCell: Coord, result: Option<Value>,
                               dates: seq<int>, others: seq<int>)
    ensures DrillReport(e, dateCell, resultCell, None, result, dates)
            == DrillReport(e, dateCell, resultCell, None, result, others)
  {
  }

  /** A finding about the log rather than an employee. */
  function LogFinding(cell: Coord, m: Message): SaltError {
    SaltError(None, cell, m)
  }

  /** `re.search(r'(?:[Pp]osi ?)?[1-7] ?(?:[Nn]orth|[Nn]|[Ss]outh|[Ss])', name)`. */
  predicate HasPosiCode(name: string) {
    Found(PosiCode, name)
  }

  /** `check_operation_name`: an empty name gives one finding and ends the
      check; otherwise the sort code, the building and the position code
      are each looked for on their own.  A name that is not text raises in
      `re.search`. */
  function OperationNameReport(name: Option<Value>, cell: Coord): Report
  {
    match name
    case None => Report([LogFinding(cell, OperationNameEmpty)], false)
    case Some(Date(_)) => Report([], true)
    case Some(Text(s)) =>
      Report((if Contains(s, "2DA") then [] else [LogFinding(cell, SortCodeMissing)])
             + (if Contains(s, "Wing C") then [] else [LogFinding(cell, BuildingCodeMissing)])
             + (if HasPosiCode(s) then [] else [LogFinding(cell, PosiCodeMissing)]), false)
  }

  /** An empty name gives one finding, a date raises, and a text name gives
      a finding for each of the three codes it lacks and no other. */
  lemma OperationNameMeaning(name: Option<Value>, cell: Coord)
    ensures var r := OperationNameReport(name, cell);
            && (name.None? ==> r == Report([LogFinding(cell, OperationNameEmpty)], false))
            && (name.Some? && name.value.Date? ==> r == Report([], true))
    ensures var r := OperationNameReport(name, cell);
            forall s :: name == Some(Text(s)) ==>
              && !r.raised
              && (LogFinding(cell, SortCodeMissing) in r.findings <==> !Contains(s, "2DA"))
              && (LogFinding(cell, BuildingCodeMissing) in r.findings <==> !Contains(s, "Wing C"))
              && (LogFinding(cell, PosiCodeMissing) in r.findings <==> !HasPosiCode(s))
              && |r.findings| == (if Contains(s, "2DA") then 0 else 1) + (if Contains(s, "Wing C") then 0 else 1)
                                 + (if HasPosiCode(s) then 0 else 1)
  {
  }

  /** The position-code finding appears exactly when no digit 1-7 is
      followed, after at most one space, by an `N`, `n`, `S` or `s`. */
  lemma OperationNamePosi(s: string, cell: Coord)
    ensures LogFinding(cell, PosiCodeMissing) in OperationNameReport(Some(Text(s)), cell).findings
            <==> !exists j: nat :: j < |s| && ShortPosiAt(s, j)
  {
    FoundPosiIff(s);
  }

  /** The sort-code finding appears exactly when `2DA` occurs nowhere. */
  lemma OperationNameSortCode(s: string, cell: Coord)
    ensures LogFinding(cell, SortCodeMissing) in OperationNameReport(Some(Text(s)), cell).findings
            <==> !exists i: nat :: OccursAt(s, "2DA", i)
  {
    ContainsIff(s, "2DA");
  }

  class MonthValidator {
    const sheet: Sheet
    const employees: seq<Employee>
    const weeks: seq<SaltWeek>
    const drillDateCol: int
    const drillResultCol: int
    const operationName: Option<Value>
    const operationNameCell: Coord
    var saltErrors: seq<SaltError>

    /** Takes the parts of the log the checks read. */
    constructor (sheet: Sheet, employees: seq<Employee>, weeks: seq<SaltWeek>, drillDateCol: int, drillResultCol: int,
                 operationName: Option<Value>, operationNameCell: Coord)
      ensures this.sheet == sheet && this.employees == employees && this.weeks == weeks
      ensures this.drillDateCol == drillDateCol && this.drillResultCol == drillResultCol
      ensures this.operationName == operationName && this.operationNameCell == operationNameCell
      ensures saltErrors == []
    {
      this.sheet := sheet;
      this.employees := employees;
      this.weeks := weeks;
      this.drillDateCol := drillDateCol;
      this.drillResultCol := drillResultCol;
      this.operationName := operationName;
      this.operationNameCell := operationNameCell;
      saltErrors := [];
    }

    /** Every roster cache is either still empty or holds the employee's
        eligible days: the cache is filled once, from the same weeks. */
    predicate CachesSound()
      reads employees
    {
      forall i :: 0 <= i < |employees| ==>
        employees[i].validDrillDates == [] || employees[i].validDrillDates == EligibleDates(weeks, employees[i].row)
    }

    /** The outcome of the drill check of `e` with a sound cache. */
    function DrillOutcome(e: Employee): Report {
      DrillReport(e, Coord(e.row, drillDateCol), Coord(e.row, drillResultCol),
                  sheet.ValueAt(Coord(e.row, drillDateCol)), sheet.ValueAt(Coord(e.row, drillResultCol)),
                  EligibleDates(weeks, e.row))
    }

    /** The outcomes of the drill checks of `es`, in order. */
    function DrillOutcomes(es: seq<Employee>): (r: seq<Report>)
      ensures |r| == |es|
      ensures forall i :: 0 <= i < |es| ==> r[i] == DrillOutcome(es[i])
    {
      seq(|es|, i requires 0 <= i < |es| => DrillOutcome(es[i]))
    }

    /** `run_checks` as a whole: the drill checks of the roster, stopping at
        the first that raises, and then the operation-name check. */
    function MonthReport(): (r: Report)
    {
      Then(Chain(DrillOutcomes(employees)), OperationNameReport(operationName, operationNameCell))
    }

    /** At most two findings per employee and three about the log. */
    lemma MonthReportBound()
      ensures |MonthReport().findings| <= 2 * |employees| + 3
    {
      ChainBound(DrillOutcomes(employees), 2);
    }

    /** `set_valid_employee_dates`: appends the drill days of each week in
        which the employee was present. */
    method SetValidEmployeeDates(e: Employee)
      modifies e
      ensures e.validDrillDates == old(e.validDrillDates) + EligibleDates(weeks, e.row)
    {
      ghost var att := AttendanceOf(weeks, e.row);
      for i := 0 to |weeks|
        invariant e.validDrillDates == old(e.validDrillDates) + DatesOf(att[..i])
      {
        var week := weeks[i];
        var values := week.EntryValues(e.row);
        var present := !IsNoResultCategory(values.category);
        assert att[i] == Attendance(present, week.endingDate);
        if present {
          e.validDrillDates := e.validDrillDates + [week.endingDate - 5, week.endingDate - 4,
                                                    week.endingDate - 3, week.endingDate - 2];
        }
        DatesOfStep(att, i);
      }
      assert att[..|weeks|] == att;
    }

    /** `check_training_drill`: fills the employee's cache on the first
        filled-in drill date, then checks the date and the result;
        `raised` stands for the exceptions of the source. */
    method CheckTrainingDrill(e: Employee) returns (raised: bool)
      modifies this, e
      ensures var date := sheet.ValueAt(Coord(e.row, drillDateCol));
              e.validDrillDates == if date.Some? && old(e.validDrillDates) == [] then EligibleDates(weeks, e.row)
                                   else old(e.validDrillDates)
      ensures var r := DrillReport(e, Coord(e.row, drillDateCol), Coord(e.row, drillResultCol),
                                   sheet.ValueAt(Coord(e.row, drillDateCol)), sheet.ValueAt(Coord(e.row, drillResultCol)),
                                   e.validDrillDates);
              saltErrors == old(saltErrors) + r.findings && raised == r.raised
    {
      raised := CheckDrillDate(e);
      if !raised {
        raised := CheckDrillResult(e);
      }
    }

    /** The date part of `check_training_drill`. */
    method CheckDrillDate(e: Employee) returns (raised: bool)
      modifies this, e
      ensures var date := sheet.ValueAt(Coord(e.row, drillDateCol));
              e.validDrillDates == if date.Some? && old(e.validDrillDates) == [] then EligibleDates(weeks, e.row)
                                   else old(e.validDrillDates)
      ensures var r := DrillDatePart(e, Coord(e.row, drillDateCol), sheet.ValueAt(Coord(e.row, drillDateCol)),
                                     e.validDrillDates);
              saltErrors == old(saltErrors) + r.findings && raised == r.raised
    {
      var dateCell := Coord(e.row, drillDateCol);
      var date := sheet.ValueAt(dateCell);
      if date.None? {
        saltErrors := saltErrors + [Finding(e, dateCell, DrillDateEmpty)];
        return false;
      }
      if |e.validDrillDates| == 0 {
        SetValidEmployeeDates(e);
      }
      if |e.validDrillDates| == 0 {
        return true;
      }
      match date.value
      case Text(_) =>
        return true;
      case Date(d) =>
        if d !in e.validDrillDates {
          saltErrors := saltErrors + [Finding(e, dateCell, NotPresentOn(d))];
        }
        return false;
    }

    /** The result part of `check_training_drill`. */
    method CheckDrillResult(e: Employee) returns (raised: bool)
      modifies this
      ensures var r := DrillResultPart(e, Coord(e.row, drillResultCol), sheet.ValueAt(Coord(e.row, drillResultCol)));
              saltErrors == old(saltErrors) + r.findings && raised == r.raised
    {
      var resultCell := Coord(e.row, drillResultCol);
      match sheet.ValueAt(resultCell)
      case None =>
        saltErrors := saltErrors + [Finding(e, resultCell, DrillResultEmpty)];
        return false;
      case Some(Text(s)) =>
        if Lower(s) != "p" {
          saltErrors := saltErrors + [Finding(e, resultCell, DrillResultNotP)];
        }
        return false;
      case Some(Date(_)) =>
        return true;
    }

    /** `check_operation_name`. */
    method CheckOperationName() returns (raised: bool)
      modifies this
      ensures var r := OperationNameReport(operationName, operationNameCell);
              saltErrors == old(saltErrors) + r.findings && raised == r.raised
    {
      match operationName
      case None =>
        saltErrors := saltErrors + [LogFinding(operationNameCell, OperationNameEmpty)];
        return false;
      case Some(Date(_)) =>
        return true;
      case Some(Text(name)) =>
        if !Contains(name, "2DA") {
          saltErrors := saltErrors + [LogFinding(operationNameCell, SortCodeMissing)];
        }
        if !Contains(name, "Wing C") {
          saltErrors := saltErrors + [LogFinding(operationNameCell, BuildingCodeMissing)];
        }
        if !HasPosiCode(name) {
          saltErrors := saltErrors + [LogFinding(operationNameCell, PosiCodeMissing)];
        }
        return false;
    }

    /** `run_checks`: the drill check of every employee of the roster in
        order, then the operation-name check; returns the findings. */
    method RunChecks() returns (errors: seq<SaltError>, raised: bool)
      requires CachesSound()
      modifies this, employees
      ensures saltErrors == old(saltErrors) + MonthReport().findings && raised == MonthReport().raised
      ensures errors == saltErrors
    {
      raised := CheckDrills();
      if !raised {
        raised := CheckOperationName();
      }
      errors := saltErrors;
    }

    /** The loop of `run_checks` over the roster. */
    method CheckDrills() returns (raised: bool)
      requires CachesSound()
      modifies this, employees
      ensures CachesSound()
      ensures var r := Chain(DrillOutcomes(employees));
              saltErrors == old(saltErrors) + r.findings && raised == r.raised
    {
      ghost var drills := DrillOutcomes(employees);
      for i := 0 to |employees|
        invariant CachesSound()
        invariant !Chain(drills[..i]).raised
        invariant saltErrors == old(saltErrors) + Chain(drills[..i]).findings
      {
        var r := CheckRosterDrill(i);
        ChainAppend(old(saltErrors), drills, i);
        if r {
          ChainStops(drills, i + 1);
          return true;
        }
      }
      assert drills[..|employees|] == drills;
      return false;
    }

    /** The drill check of the `i`th employee of the roster, whose outcome
        with sound caches is `DrillOutcome`. */
    method CheckRosterDrill(i: nat) returns (raised: bool)
      requires i < |employees| && CachesSound()
      modifies this, employees[i]
      ensures CachesSound()
      ensures saltErrors == old(saltErrors) + DrillOutcome(employees[i]).findings
      ensures raised == DrillOutcome(employees[i]).raised
    {
      var e := employees[i];
      ghost var cache := e.validDrillDates;
      raised := CheckTrainingDrill(e);
      DrillStep(e, cache);
    }

    /** After the drill check of an employee of the roster whose cache was
        sound, the cache is still sound and the check's outcome is
        `DrillOutcome`. */
    lemma DrillStep(e: Employee, cache: seq<int>)
      requires cache == [] || cache == EligibleDates(weeks, e.row)
      requires e.validDrillDates == if sheet.ValueAt(Coord(e.row, drillDateCol)).Some? && cache == []
                                    then EligibleDates(weeks, e.row) else cache
      ensures e.validDrillDates == [] || e.validDrillDates == EligibleDates(weeks, e.row)
      ensures DrillReport(e, Coord(e.row, drillDateCol), Coord(e.row, drillResultCol),
                          sheet.ValueAt(Coord(e.row, drillDateCol)), sheet.ValueAt(Coord(e.row, drillResultCol)),
                          e.validDrillDates) == DrillOutcome(e)
    {
      if sheet.ValueAt(Coord(e.row, drillDateCol)).None? {
        DrillReportWithoutDate(e, Coord(e.row, drillDateCol), Coord(e.row, drillResultCol),
                               sheet.ValueAt(Coord(e.row, drillResultCol)), e.validDrillDates, EligibleDates(weeks, e.row));
      }
    }
  }
}
