/** The weekly validator: an object over one week that runs the
    per-employee checks and collects their findings in `saltErrors`. */
module Validation {
  import opened Wrappers
  import opened Text
  import opened Patterns
  import opened Grid
  import opened SaltRecords
  import opened Week
  import opened ValidatorRules

  class Validator {
    const week: SaltWeek
    var saltErrors: seq<SaltError>

    /** Starts with no findings. */
    constructor (week: SaltWeek)
      ensures this.week == week && saltErrors == []
    {
      this.week := week;
      saltErrors := [];
    }

    /** `check_for_blanks`: when all three of the employee's cells are
        empty, a finding for each, in the order category, result, comment. */
    method CheckForBlanks(e: Employee)
      modifies this
      ensures saltErrors == old(saltErrors) + BlanksFindings(e, week.EntryCells(e.row), week.EntryValues(e.row))
    {
      var cells := week.EntryCells(e.row);
      var values := week.EntryValues(e.row);
      if values.category.None? && values.result.None? && values.comment.None? {
        var data := [cells.category, cells.result, cells.comment];
        for i := 0 to |data|
          invariant saltErrors == old(saltErrors) + seq(i, k requires 0 <= k < i => Finding(e, data[k], CellBlank))
        {
          saltErrors := saltErrors + [Finding(e, data[i], CellBlank)];
        }
      }
    }

    /** `check_for_blank_result`. */
    method CheckForBlankResult(e: Employee)
      modifies this
      ensures saltErrors == old(saltErrors) + BlankResultFindings(e, week.EntryCells(e.row), week.EntryValues(e.row))
    {
      var cells := week.EntryCells(e.row);
      var values := week.EntryValues(e.row);
      if values.result.None? {
        if values.category.Some? && values.category.value.Text? && values.category.value.s in NoResults {
          return;
        }
        if !(values.category.None? && values.comment.None?) {
          saltErrors := saltErrors + [Finding(e, cells.result, ResultBlank)];
        }
      }
    }

    /** `check_for_blank_category`: returns the finding rather than
        recording it. */
    method CheckForBlankCategory(e: Employee) returns (r: Option<SaltError>)
      ensures r == BlankCategoryFinding(e, week.EntryCells(e.row), week.EntryValues(e.row))
    {
      var cells := week.EntryCells(e.row);
      var values := week.EntryValues(e.row);
      if values.category.None? {
        return Some(Finding(e, cells.category, CategoryBlank));
      }
      return None;
    }

    /** `check_category_no_result`; `raised` stands for the exception the
        source raises on a comment cell without text. */
    method CheckCategoryNoResult(e: Employee) returns (raised: bool)
      modifies this
      ensures var r := NoResultReport(e, week.EntryCells(e.row), week.EntryValues(e.row));
              saltErrors == old(saltErrors) + r.findings && raised == r.raised
    {
      var cells := week.EntryCells(e.row);
      var values := week.EntryValues(e.row);
      if !IsNoResultCategory(values.category) {
        return false;
      }
      var category := values.category.value.s;
      if values.result.Some? {
        saltErrors := saltErrors + [Finding(e, cells.result, ResultMustBeBlank(category))];
      }
      match values.comment
      case Some(Text(c)) =>
        if Lower(Strip(c)) !in NotPresentComments(category) {
          saltErrors := saltErrors + [Finding(e, cells.comment, InvalidNoResultComment(c, category))];
        }
        return false;
      case _ =>
        return true;
    }

    /** `check_observation` with comment pattern `p`; a comment that does
        not parse ends the check, or raises when `raiseOnMiss`. */
    method CheckObservationWith(e: Employee, p: Pattern, raiseOnMiss: bool) returns (raised: bool)
      modifies this
      ensures var r := ObservationCheck(e, week.EntryCells(e.row), week.EntryValues(e.row), p, raiseOnMiss);
              saltErrors == old(saltErrors) + r.findings && raised == r.raised
    {
      var r := ObservationCheck(e, week.EntryCells(e.row), week.EntryValues(e.row), p, raiseOnMiss);
      saltErrors := saltErrors + r.findings;
      raised := r.raised;
    }

    /** `check_observation`, with the comment pattern as evidently meant. */
    method CheckObservation(e: Employee) returns (raised: bool)
      modifies this
      ensures var r := ObservationReport(e, week.EntryCells(e.row), week.EntryValues(e.row));
              saltErrors == old(saltErrors) + r.findings && raised == r.raised
    {
      raised := CheckObservationWith(e, ObservationComment, false);
    }

    /** `check_live_salt`, with the comment rule as evidently meant. */
    method CheckLiveSalt(e: Employee) returns (raised: bool)
      modifies this
      ensures var r := LiveSaltReport(e, week.EntryCells(e.row), week.EntryValues(e.row));
              saltErrors == old(saltErrors) + r.findings && raised == r.raised
    {
      var r := LiveSaltReport(e, week.EntryCells(e.row), week.EntryValues(e.row));
      saltErrors := saltErrors + r.findings;
      raised := r.raised;
    }
  }
}
