/** The per-employee, per-week rules of the validator, each as the list of
    findings it produces from the employee's three cells and their values.
    The class `Validator` (module Validation) appends these lists. */
module ValidatorRules {
  import opened Wrappers
  import opened Text
  import opened Patterns
  import opened Grid
  import opened SaltRecords
  import opened Week

  /** What one check does: the findings it appends, in order, and whether
      it then raises (the source's AttributeError on a cell that holds no
      text, or on a missing match). */
  datatype Report = Report(findings: seq<SaltError>, raised: bool)

  /** The categories that require the result to be left blank. */
  const NoResults: seq<string> := ["vacation", "disability", "not in area", "off", "not employed"]

  /** The raw category value is, exactly and case-sensitively, one of the
      no-result categories. */
  predicate IsNoResultCategory(v: Option<Value>) {
    v.Some? && v.value.Text? && v.value.s in NoResults
  }

  /** The comments accepted for each no-result category. */
  function NotPresentComments(category: string): (r: seq<string>)
    requires category in NoResults
    ensures |r| >= 1
  {
    if category == "vacation" then ["vacation", "vacation week"]
    else if category == "disability" then ["disability"]
    else if category == "not in area" then ["not in area", "did not double shift", "training week"]
    else if category == "off" then ["absent", "option week"]
    else ["not employed", "cleared"]
  }

  /** The stripped, lowered comment is one the category accepts. */
  predicate CommentWhitelisted(comment: string, category: string)
    requires category in NoResults
  {
    Lower(Strip(comment)) in NotPresentComments(category)
  }

  function Finding(e: Employee, cell: Coord, m: Message): SaltError {
    SaltError(Some(e), cell, m)
  }

  /** `check_for_blanks`: three findings, one per cell, exactly when all
      three cells are empty. */
  function BlanksFindings(e: Employee, cells: Entry<Coord>, values: Entry<Option<Value>>): (r: seq<SaltError>)
    ensures values.category.None? && values.result.None? && values.comment.None?
            ==> r == [Finding(e, cells.category, CellBlank), Finding(e, cells.result, CellBlank),
                      Finding(e, cells.comment, CellBlank)]
    ensures !(values.category.None? && values.result.None? && values.comment.None?) ==> r == []
  {
    if values.category.None? && values.result.None? && values.comment.None? then
      [Finding(e, cells.category, CellBlank), Finding(e, cells.result, CellBlank), Finding(e, cells.comment, CellBlank)]
    else
      []
  }

  /** `check_for_blank_result`. */
  function BlankResultFindings(e: Employee, cells: Entry<Coord>, values: Entry<Option<Value>>): (r: seq<SaltError>)
    ensures |r| <= 1
    ensures r != [] ==> r == [Finding(e, cells.result, ResultBlank)]
    ensures r != [] <==> values.result.None? && !IsNoResultCategory(values.category)
                         && !(values.category.None? && values.comment.None?)
  {
    if values.result.None? then
      if IsNoResultCategory(values.category) then []
      else if !(values.category.None? && values.comment.None?) then [Finding(e, cells.result, ResultBlank)]
      else []
    else
      []
  }

  /** `check_for_blank_category`: a finding on the category cell exactly when
      it is empty. */
  function BlankCategoryFinding(e: Employee, cells: Entry<Coord>, values: Entry<Option<Value>>): (r: Option<SaltError>)
    ensures r.Some? <==> values.category.None?
    ensures r.Some? ==> r.value.cell == cells.category && r.value.employee == Some(e)
  {
    if values.category.None? then Some(Finding(e, cells.category, CategoryBlank)) else None
  }

  /** `check_category_no_result`: for a no-result category, one finding on
      the result cell if it is filled in and, independently, one on the
      comment cell if the comment is not whitelisted for the category.  A
      comment cell holding no text raises on `strip()`, after the result
      finding. */
  function NoResultReport(e: Employee, cells: Entry<Coord>, values: Entry<Option<Value>>): (r: Report)
    ensures !IsNoResultCategory(values.category) ==> r == Report([], false)
    ensures IsNoResultCategory(values.category) ==>
              var cat := values.category.value.s;
              && (Finding(e, cells.result, ResultMustBeBlank(cat)) in r.findings <==> values.result.Some?)
              && (r.raised <==> !(values.comment.Some? && values.comment.value.Text?))
    ensures IsNoResultCategory(values.category) && values.comment.Some? && values.comment.value.Text? ==>
              var cat := values.category.value.s;
              var c := values.comment.value.s;
              && (Finding(e, cells.comment, InvalidNoResultComment(c, cat)) in r.findings
                  <==> !CommentWhitelisted(c, cat))
              && |r.findings| == (if values.result.Some? then 1 else 0) + (if CommentWhitelisted(c, cat) then 0 else 1)
    ensures IsNoResultCategory(values.category) && r.raised ==> |r.findings| == if values.result.Some? then 1 else 0
  {
    if !IsNoResultCategory(values.category) then Report([], false)
    else
      var cat := values.category.value.s;
      var onResult := if values.result.Some? then [Finding(e, cells.result, ResultMustBeBlank(cat))] else [];
      match values.comment
      case Some(Text(c)) =>
        Report(onResult + (if CommentWhitelisted(c, cat) then []
                           else [Finding(e, cells.comment, InvalidNoResultComment(c, cat))]), false)
      case _ => Report(onResult, true)
  }

  /** The count checks of an observation comment `good/total`. */
  function CountFindings(e: Employee, cell: Coord, good: nat, total: nat): (r: seq<SaltError>)
    ensures forall f :: f in r ==> f.cell == cell
    ensures Finding(e, cell, TooFewObservations) in r <==> total < 10
    ensures Finding(e, cell, TooManyObservations(total)) in r <==> total > 19
    ensures Finding(e, cell, MoreCorrectThanObserved) in r <==> good > total
    ensures |r| == (if total < 10 then 1 else 0) + (if total > 19 then 1 else 0) + (if good > total then 1 else 0)
  {
    (if total < 10 then [Finding(e, cell, TooFewObservations)] else [])
    + (if total > 19 then [Finding(e, cell, TooManyObservations(total))] else [])
    + (if good > total then [Finding(e, cell, MoreCorrectThanObserved)] else [])
  }

  /** The result check of an observation: at most one finding, on the result
      cell; `A` stands exactly for all good, `U/R` exactly for some not good.
      A result cell holding a date raises on `strip()`. */
  function ObservationResultReport(e: Employee, cell: Coord, result: Option<Value>, good: nat, total: nat): (r: Report)
    ensures |r.findings| <= 1 && forall f :: f in r.findings ==> f.cell == cell
    ensures r.raised <==> result.Some? && result.value.Date?
  {
    match result
    case None => Report([Finding(e, cell, ObservationResultBlank)], false)
    case Some(Date(_)) => Report([], true)
    case Some(Text(s)) =>
      if Strip(s) == [] then Report([Finding(e, cell, ObservationResultBlank)], false)
      else if s == "A" then
        Report(if good != total then [Finding(e, cell, AcceptableNotPerfect)] else [], false)
      else if s == "U/R" then
        Report(if !(good < total) then [Finding(e, cell, UnacceptableButPerfect)] else [], false)
      else
        Report([Finding(e, cell, InvalidObservationResult(s))], false)
  }

  /** The category, stripped and lowered, is the given label. */
  predicate CategoryIs(category: Option<Value>, name: string) {
    category.Some? && category.value.Text? && Lower(Strip(category.value.s)) == name
  }

  /** The counts an observation-comment pattern reads from the stripped
      comment, if it matches (the comment patterns have two groups). */
  function CommentCounts(p: Pattern, comment: string): Option<(nat, nat)> {
    match Search(p, Strip(comment), 0)
    case Some(m) => if |m.groups| >= 2 then Some((m.groups[0], m.groups[1])) else None
    case None => None
  }

  /** `check_observation` once the comment has been read: a comment that does
      not parse gives one finding when the category is `observation` but for
      case, and then the check either stops or raises; a parsed comment gives
      the count findings followed by the result check. */
  function ObservationOfCounts(e: Employee, cells: Entry<Coord>, cat: string, result: Option<Value>,
                               counts: Option<(nat, nat)>, raiseOnMiss: bool): Report
  {
    match counts
    case None =>
      Report(if Lower(cat) == "observation" then [Finding(e, cells.comment, InvalidObservationComment)] else [],
             raiseOnMiss)
    case Some((good, total)) =>
      var res := ObservationResultReport(e, cells.result, result, good, total);
      Report(CountFindings(e, cells.comment, good, total) + res.findings, res.raised)
  }

  /** `check_observation` with a given comment pattern and behaviour on a
      comment that does not parse.  Only a category that is `observation`
      once stripped and lowered is checked; a category or comment that holds
      no text raises before anything is appended. */
  function ObservationCheck(e: Employee, cells: Entry<Coord>, values: Entry<Option<Value>>, p: Pattern,
                            raiseOnMiss: bool): (r: Report)
    ensures values.category.Some? && values.category.value.Text? && !CategoryIs(values.category, "observation")
            ==> r == Report([], false)
    ensures values.category.None? || values.category.value.Date? ==> r == Report([], true)
  {
    match values.category
    case Some(Text(cat)) =>
      if !CategoryIs(values.category, "observation") then Report([], false)
      else
        (match values.comment
         case Some(Text(c)) => ObservationOfCounts(e, cells, cat, values.result, CommentCounts(p, c), raiseOnMiss)
         case _ => Report([], true))
    case _ => Report([], true)
  }

  /** `check_observation`, with the comment pattern as evidently meant: the
      first `[Oo]bservation ?good/total` in the stripped comment (`good` one
      or two digits, `total` two or more); a comment that does not parse
      gives its finding and ends the check. */
  function ObservationReport(e: Employee, cells: Entry<Coord>, values: Entry<Option<Value>>): (r: Report)
    ensures (values.category.Some? && values.category.value.Text? && values.comment.Some? && values.comment.value.Text?
             && !(values.result.Some? && values.result.value.Date?)) ==> !r.raised
  {
    ObservationCheck(e, cells, values, ObservationComment, false)
  }

  /** `check_observation` as the source writes it: the pattern literal has a
      stray leading `i` and trailing `]`, and a comment that does not parse
      gives its finding and then raises on the missing match. */
  function ObservationReportAsWritten(e: Employee, cells: Entry<Coord>, values: Entry<Option<Value>>): (r: Report)
    ensures (CategoryIs(values.category, "observation") && values.comment.Some? && values.comment.value.Text?
             && CommentCounts(ObservationCommentAsWritten, values.comment.value.s).None?) ==> r.raised
  {
    ObservationCheck(e, cells, values, ObservationCommentAsWritten, true)
  }

  /** The result check of a live SALT: `U` is taken for a mistyped `U/A`,
      `A` and `U/A` pass, anything else is invalid. */
  function LiveResultFindings(e: Employee, cell: Coord, result: string): (r: seq<SaltError>)
    ensures Strip(result) == "U" ==> r == [Finding(e, cell, LiveResultU)]
    ensures r == [] <==> Strip(result) in ["A", "U/A"]
    ensures Strip(result) !in ["U", "A", "U/A"] ==> r == [Finding(e, cell, InvalidLiveResult(Strip(result)))]
  {
    var s := Strip(result);
    if s == "U" then [Finding(e, cell, LiveResultU)]
    else if s in ["A", "U/A"] then []
    else [Finding(e, cell, InvalidLiveResult(s))]
  }

  /** `check_live_salt`, with the comment rule as evidently meant: a listed
      SALT type or `Other` and a description.  A category, comment or result
      cell that holds no text raises on `strip()`. */
  function LiveSaltReport(e: Employee, cells: Entry<Coord>, values: Entry<Option<Value>>): (r: Report)
    ensures values.category.Some? && values.category.value.Text? && !CategoryIs(values.category, "live salt")
            ==> r == Report([], false)
    ensures CategoryIs(values.category, "live salt") && values.comment.Some? && values.comment.value.Text?
            && values.result.Some? && values.result.value.Text?
            ==> !r.raised
                && r.findings == (if LiveCommentValid(values.comment.value.s) then []
                                  else [Finding(e, cells.comment, InvalidSaltType(Strip(values.comment.value.s)))])
                                 + LiveResultFindings(e, cells.result, values.result.value.s)
  {
    match values.category
    case Some(Text(cat)) =>
      if Lower(Strip(cat)) != "live salt" then Report([], false)
      else
        (match values.comment
         case Some(Text(c)) =>
           var typeFindings := if LiveCommentValid(c) then [] else [Finding(e, cells.comment, InvalidSaltType(Strip(c)))];
           (match values.result
            case Some(Text(res)) => Report(typeFindings + LiveResultFindings(e, cells.result, res), false)
            case _ => Report(typeFindings, true))
         case _ => Report([], true))
    case _ => Report([], true)
  }

  /** The comment test of `check_live_salt` as the source writes it: it
      lowers the comment before comparing it with the mixed-case list, and
      its pattern test has no subject, so it flags the comment when the first
      test holds and would raise otherwise. */
  function LiveCommentFlaggedAsWritten(comment: string): (v: Verdict)
    ensures v == Returns(true) || v == Raises
  {
    if Lower(Strip(comment)) !in LiveSaltTypes then Returns(true) else Raises
  }

  /** A fully blank row is flagged once per cell by `check_for_blanks` and
      on its category by `check_for_blank_category`; the guard of
      `check_for_blank_result` keeps the result cell from a second finding. */
  lemma FullyBlankRow(e: Employee, cells: Entry<Coord>)
    ensures var values := Entry(None, None, None);
            && |BlanksFindings(e, cells, values)| == 3
            && BlankResultFindings(e, cells, values) == []
            && BlankCategoryFinding(e, cells, values).Some?
            && NoResultReport(e, cells, values) == Report([], false)
  {
  }

  /** The two result checks complement each other on a row with a category:
      the result cell draws exactly one finding when it is blank for an
      ordinary category or filled in for a no-result one, and none
      otherwise. */
  lemma ResultChecksComplement(e: Employee, cells: Entry<Coord>, values: Entry<Option<Value>>)
    requires values.category.Some?
    ensures var onResult := BlankResultFindings(e, cells, values) + NoResultReport(e, cells, values).findings[..
              if IsNoResultCategory(values.category) && values.result.Some? then 1 else 0];
            |onResult| == (if IsNoResultCategory(values.category) then (if values.result.Some? then 1 else 0)
                           else (if values.result.None? then 1 else 0))
            && forall f :: f in onResult ==> f.cell == cells.result
  {
  }
}
