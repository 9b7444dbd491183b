/** The week-level comment and result rules on the example comments and
    results the repository's tests name. */
module WeekExamples {
  import opened Wrappers
  import opened Text
  import opened Patterns
  import opened Week

  /** `Observation 8/11` is accepted: at most as many good as observed, and
      not more than 19 observed. */
  lemma EightOfEleven()
    ensures ObservationCommentVerdict("Observation 8/11")
  {
    assert Show(1) == "1";
    assert Show(8) == "8" && Show(11) == "11";
    assert "Observation " + Show(8) + "/" + Show(11) == "Observation 8/11";
    ObservationCommentOfShown("Observation ", 8, 11);
  }

  /** `observation10/10`: the space after the word is optional and the
      first letter may be lower case. */
  lemma TenOfTenUnspaced()
    ensures ObservationCommentVerdict("observation10/10")
  {
    assert Show(1) == "1";
    assert Show(10) == "10";
    assert "observation" + Show(10) + "/" + Show(10) == "observation10/10";
    ObservationCommentOfShown("observation", 10, 10);
  }

  /** `Observation 10/8` is rejected; the total has a single digit, so the
      rule's pattern already fails before the counts are compared. */
  lemma TenOfEight()
    ensures !ObservationCommentVerdict("Observation 10/8")
  {
    ObservationCommentsWithShortTotal("Observation 10/8", 10, 15);
  }

  /** `Observation 20/20` is rejected: more than 19 observed. */
  lemma TwentyOfTwenty()
    ensures !ObservationCommentVerdict("Observation 20/20")
  {
    assert Show(2) == "2";
    assert Show(20) == "20";
    assert "Observation " + Show(20) + "/" + Show(20) == "Observation 20/20";
    ObservationCommentOfShown("Observation ", 20, 20);
  }

  /** `Observation 5/6` is rejected: the total has one digit where the rule
      asks for two. */
  lemma FiveOfSix()
    ensures !ObservationCommentVerdict("Observation 5/6")
  {
    ObservationCommentsWithShortTotal("Observation 5/6", 5, 14);
  }

  /** A comment that opens with `Observation `, then a count and `/`, and
      ends one digit later has no two-digit total and is rejected. */
  lemma ObservationCommentsWithShortTotal(s: string, good: nat, t: nat)
    requires 12 <= |s| && s[..12] == "Observation "
    requires ShortNumberThen(s, 12, "/") == Some((good, t)) && |s| == t + 1 && IsDigit(s[t])
    ensures !ObservationCommentVerdict(s)
  {
    assert MatchAt(WeekObservation, s, 0).None? by {
      ShortTotalUnmatched(s, good, t);
    }
    StripUnchanged(s);
  }

  /** Such a comment does not match the week's observation pattern. */
  lemma ShortTotalUnmatched(s: string, good: nat, t: nat)
    requires 12 <= |s| && s[..12] == "Observation "
    requires ShortNumberThen(s, 12, "/") == Some((good, t)) && |s| == t + 1
    ensures MatchAt(WeekObservation, s, 0).None?
  {
    assert s[1..11] == s[..12][1..11];
    assert s[0] == s[..12][0] && s[11] == s[..12][11];
    assert ObservationHead(s, 0) == Some(12);
    MatchAtWeekObservation(s, 0);
  }

  /** `A` with `Observation 10/10` passes; `U/R` with `Observation 10/10`
      fails; `U/R` with `Observation 5/10` passes; `A` with
      `Observation 5/10` fails. */
  lemma ResultExamples()
    ensures ObservationResultVerdict("A", Some("Observation 10/10")) == Returns(true)
    ensures ObservationResultVerdict("U/R", Some("Observation 10/10")) == Returns(false)
    ensures ObservationResultVerdict("A", Some("Observation 5/10")) == Returns(false)
    ensures ObservationResultVerdict("U/R", Some("Observation 5/10")) == Returns(true)
  {
    assert Show(1) == "1";
    assert Show(10) == "10";
    assert Show(5) == "5";
    assert "Observation " + Show(10) + "/" + Show(10) == "Observation 10/10";
    assert "Observation " + Show(5) + "/" + Show(10) == "Observation 5/10";
    ObservationResultOfShown("A", "Observation ", 10, 10);
    ObservationResultOfShown("U/R", "Observation ", 10, 10);
    ObservationResultOfShown("A", "Observation ", 5, 10);
    ObservationResultOfShown("U/R", "Observation ", 5, 10);
  }

  /** `UR` is not a result code, whatever the comment. */
  lemma ResultCodeUR(comment: Option<string>)
    ensures ObservationResultVerdict("UR", comment) == Returns(false)
  {
    StripUnchanged("UR");
    assert Upper("UR") == "UR";
    ResultVerdictCodes("UR", FractionNumbers(comment));
  }
}
