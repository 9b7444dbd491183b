/** What the observation check of the validator does on well-formed and on
    malformed comments, for the pattern as meant and as written. */
module ObservationFacts {
  import opened Wrappers
  import opened Text
  import opened TextFacts
  import opened Patterns
  import opened Grid
  import opened SaltRecords
  import opened Week
  import opened ValidatorRules

  /** The result check's cases: a blank result is flagged as blank, `A`
      passes exactly when all were good, `U/R` exactly when some were not,
      and any other text is invalid. */
  lemma ObservationResultCases(e: Employee, cell: Coord, result: Option<Value>, good: nat, total: nat)
    ensures var r := ObservationResultReport(e, cell, result, good, total);
            && (result.None? || (result.value.Text? && Strip(result.value.s) == [])
                ==> r.findings == [Finding(e, cell, ObservationResultBlank)])
            && (result == Some(Text("A")) ==> (r.findings == [] <==> good == total))
            && (result == Some(Text("U/R")) ==> (r.findings == [] <==> good < total))
            && (result.Some? && result.value.Text? && Strip(result.value.s) != [] && result.value.s !in ["A", "U/R"]
                ==> r.findings == [Finding(e, cell, InvalidObservationResult(result.value.s))])
  {
    if result.None? || (result.value.Text? && Strip(result.value.s) == []) {
      ResultBlank(e, cell, result, good, total);
    }
    ResultA(e, cell, good, total);
    ResultUR(e, cell, good, total);
    if result.Some? && result.value.Text? && Strip(result.value.s) != [] && result.value.s !in ["A", "U/R"] {
      ResultOther(e, cell, result, good, total);
    }
  }

  lemma ResultBlank(e: Employee, cell: Coord, result: Option<Value>, good: nat, total: nat)
    requires result.None? || (result.value.Text? && Strip(result.value.s) == [])
    ensures ObservationResultReport(e, cell, result, good, total).findings == [Finding(e, cell, ObservationResultBlank)]
  {
  }

  lemma ResultA(e: Employee, cell: Coord, good: nat, total: nat)
    ensures ObservationResultReport(e, cell, Some(Text("A")), good, total).findings == [] <==> good == total
  {
    StripA();
  }

  lemma ResultUR(e: Employee, cell: Coord, good: nat, total: nat)
    ensures ObservationResultReport(e, cell, Some(Text("U/R")), good, total).findings == [] <==> good < total
  {
    StripUR();
  }

  lemma ResultOther(e: Employee, cell: Coord, result: Option<Value>, good: nat, total: nat)
    requires result.Some? && result.value.Text? && Strip(result.value.s) != [] && result.value.s !in ["A", "U/R"]
    ensures ObservationResultReport(e, cell, result, good, total).findings
            == [Finding(e, cell, InvalidObservationResult(result.value.s))]
  {
  }

  /** The category texts the observation check treats as `observation` and
      as exactly `observation`: any casing of the word, with no space. */
  lemma ObservationCategoryText(cat: string)
    requires Lower(cat) == "observation"
    ensures CategoryIs(Some(Text(cat)), "observation")
  {
    var l := Lower(cat);
    assert |cat| == 11;
    assert l[0] == 'o' && LowerChar(cat[0]) == 'o';
    assert !IsSpace(cat[0]);
    assert l[10] == 'n' && LowerChar(cat[10]) == 'n';
    assert !IsSpace(cat[10]);
    StripUnchanged(cat);
  }

  /** The validator's comment pattern reads the counts back from a
      well-formed observation comment. */
  lemma ShownObservationComment(text: string, head: string, good: nat, total: nat)
    requires IsObservationHead(head) && good <= 99 && 10 <= total <= 99
    requires ShownObservationLayout(text, head, good, total)
    ensures CommentCounts(ObservationComment, text) == Some((good, total))
  {
    ShownObservationCommentMatch(text, head, good, total);
    CountsOfMatchAtStart(ObservationComment, text, good, total);
  }

  /** On a comment with no surrounding space that the pattern matches from
      its first character, the counts are the groups of that match. */
  lemma CountsOfMatchAtStart(p: Pattern, comment: string, good: nat, total: nat)
    requires Strip(comment) == comment && MatchAt(p, comment, 0) == Some(Match(0, |comment|, [good, total]))
    ensures CommentCounts(p, comment) == Some((good, total))
  {
    SearchAtStart(p, comment);
  }

  lemma ShownObservationCommentMatch(text: string, head: string, good: nat, total: nat)
    requires IsObservationHead(head) && good <= 99 && 10 <= total <= 99
    requires ShownObservationLayout(text, head, good, total)
    ensures Strip(text) == text && MatchAt(ObservationComment, text, 0) == Some(Match(0, |text|, [good, total]))
  {
    ShownObservationStrip(text, head, good, total);
    ShownObservationHead(text, head, good, total);
    ShowTwoDigits(total);
    FractionShown(text, 0, |head|, good, total, true);
  }

  /** `check_observation` on a well-formed comment `good/total`: the count
      findings on the comment cell followed by the result check. */
  lemma {:induction false} ObservationOfShown(e: Employee, cells: Entry<Coord>, cat: string, text: string, head: string,
                                              good: nat, total: nat, result: Option<Value>)
    requires Lower(cat) == "observation" && IsObservationHead(head) && good <= 99 && 10 <= total <= 99
    requires ShownObservationLayout(text, head, good, total)
    ensures var values := Entry(Some(Text(cat)), result, Some(Text(text)));
            var res := ObservationResultReport(e, cells.result, result, good, total);
            ObservationReport(e, cells, values) == Report(CountFindings(e, cells.comment, good, total) + res.findings, res.raised)
  {
    ObservationCategoryText(cat);
    ShownObservationComment(text, head, good, total);
    ObservationCheckOfCategory(e, cells, cat, text, result, ObservationComment, false);
  }

  /** Once the category is known to be an observation, the check is decided
      by the counts the pattern reads from the comment. */
  lemma ObservationCheckOfCategory(e: Employee, cells: Entry<Coord>, cat: string, text: string, result: Option<Value>,
                                   p: Pattern, raiseOnMiss: bool)
    requires CategoryIs(Some(Text(cat)), "observation")
    ensures ObservationCheck(e, cells, Entry(Some(Text(cat)), result, Some(Text(text))), p, raiseOnMiss)
            == ObservationOfCounts(e, cells, cat, result, CommentCounts(p, text), raiseOnMiss)
  {
  }

  /** A comment the rule's pattern does not read gives the comment finding
      when the category is `observation` but for case, and nothing else. */
  lemma UnreadCommentStops(e: Employee, cells: Entry<Coord>, cat: string, c: string, result: Option<Value>)
    requires CategoryIs(Some(Text(cat)), "observation") && CommentCounts(ObservationComment, c).None?
    ensures ObservationReport(e, cells, Entry(Some(Text(cat)), result, Some(Text(c))))
            == Report(if Lower(cat) == "observation" then [Finding(e, cells.comment, InvalidObservationComment)] else [],
                      false)
  {
    ObservationCheckOfCategory(e, cells, cat, c, result, ObservationComment, false);
  }

  /** On a perfect score, `A` draws no finding and `U/R` exactly one. */
  lemma ResultOfPerfect(e: Employee, cell: Coord, result: Option<Value>, n: nat)
    requires result == Some(Text("A")) || result == Some(Text("U/R"))
    ensures ObservationResultReport(e, cell, result, n, n)
            == Report(if result == Some(Text("A")) then [] else [Finding(e, cell, UnacceptableButPerfect)], false)
  {
    StripA();
    StripUR();
  }

  /** A well-formed comment with a perfect score of `n` out of `n`, for a
      count the validator accepts: `A` draws no finding at all and `U/R`
      exactly one, on the result cell. */
  lemma {:induction false} PerfectScore(e: Employee, cells: Entry<Coord>, cat: string, text: string, head: string,
                                        n: nat, result: Option<Value>)
    requires Lower(cat) == "observation" && IsObservationHead(head) && 10 <= n <= 19
    requires ShownObservationLayout(text, head, n, n)
    requires result == Some(Text("A")) || result == Some(Text("U/R"))
    ensures var values := Entry(Some(Text(cat)), result, Some(Text(text)));
            ObservationReport(e, cells, values)
            == Report(if result == Some(Text("A")) then [] else [Finding(e, cells.result, UnacceptableButPerfect)], false)
  {
    ObservationOfShown(e, cells, cat, text, head, n, n, result);
    var res := ObservationResultReport(e, cells.result, result, n, n);
    NoCountFindings(e, cells.comment, n, res);
    ResultOfPerfect(e, cells.result, result, n);
  }

  /** An accepted count with no more good than observed adds no finding
      before the result check's. */
  lemma NoCountFindings(e: Employee, cell: Coord, n: nat, res: Report)
    requires 10 <= n <= 19
    ensures Report(CountFindings(e, cell, n, n) + res.findings, res.raised) == res
  {
    assert CountFindings(e, cell, n, n) == [];
  }

  lemma TenOfTenLayout()
    ensures IsObservationHead("Observation ") && ShownObservationLayout("Observation 10/10", "Observation ", 10, 10)
  {
    assert Show(1) == "1";
    assert Show(10) == "10";
  }

  /** `Observation 10/10`: `A` draws no finding, `U/R` exactly one. */
  lemma {:induction false} PerfectTen(e: Employee, cells: Entry<Coord>)
    ensures var values := Entry(Some(Text("Observation")), Some(Text("A")), Some(Text("Observation 10/10")));
            ObservationReport(e, cells, values) == Report([], false)
    ensures var values := Entry(Some(Text("Observation")), Some(Text("U/R")), Some(Text("Observation 10/10")));
            ObservationReport(e, cells, values) == Report([Finding(e, cells.result, UnacceptableButPerfect)], false)
  {
    TenOfTenLayout();
    assert Lower("Observation") == "observation";
    PerfectScore(e, cells, "Observation", "Observation 10/10", "Observation ", 10, Some(Text("A")));
    PerfectScore(e, cells, "Observation", "Observation 10/10", "Observation ", 10, Some(Text("U/R")));
  }

  /** A comment without `]` keeps none once stripped, so the pattern as
      written reads no counts from it. */
  lemma AsWrittenReadsNoCounts(c: string)
    requires forall i :: 0 <= i < |c| ==> c[i] != ']'
    ensures CommentCounts(ObservationCommentAsWritten, c).None?
  {
    var t := Strip(c);
    TrimStartSuffix(c);
    TrimEndPrefix(TrimStart(c));
    forall i | 0 <= i < |t|
      ensures t[i] != ']'
    {
      assert TrimStart(c)[i] == t[i];
      assert c[|c| - |TrimStart(c)| + i] == t[i];
    }
    ObservationCommentAsWrittenNeedsBracket(t);
  }

  /** As written, the validator's pattern needs a `]` that real comments do
      not have, so an observation comment without one is always flagged as
      invalid, and the check then raises on the missing match. */
  lemma ObservationAsWrittenRejectsPlainComments(e: Employee, cells: Entry<Coord>, cat: string, c: string,
                                                 result: Option<Value>)
    requires Lower(cat) == "observation"
    requires forall i :: 0 <= i < |c| ==> c[i] != ']'
    ensures var values := Entry(Some(Text(cat)), result, Some(Text(c)));
            ObservationReportAsWritten(e, cells, values) == Report([Finding(e, cells.comment, InvalidObservationComment)], true)
  {
    ObservationCategoryText(cat);
    AsWrittenReadsNoCounts(c);
    ObservationCheckOfCategory(e, cells, cat, c, result, ObservationCommentAsWritten, true);
  }
}
