/** One weekly block of the SALT log: its coordinate frame, the lookups of an
    employee's category/result/comment, the searches down its columns that
    locate it, and the week-level result and comment predicates. */
module Week {
  import opened Wrappers
  import opened Text
  import opened TextFacts
  import opened Patterns
  import opened Calendar
  import opened Grid
  import opened SaltRecords

  /** The three logical cells of one employee in one week, or their values. */
  datatype Entry<T> = Entry(category: T, result: T, comment: T)

  /** What `get_entry` is given: a raw row number or an employee. */
  datatype RowSource = ByRow(row: int) | ByEmployee(employee: Employee)

  /** An entry slot in reference mode (the cell) or value mode (its value). */
  datatype Lookup = Ref(cell: Coord) | Val(value: Option<Value>)

  /** What a Python predicate of the source does: return a boolean, return
      `None` (fall off its end), or raise. */
  datatype Verdict = Returns(ok: bool) | ReturnsNone | Raises

  /** Why building a week fails; the source raises in each case. */
  datatype WeekFailure =
    | MissingRow(key: string)    // no heading-column cell mentions the key
    | HeadingNotText             // the heading cell does not hold text
    | NoDateInHeading            // the heading text holds no date
    | UnparsableDate(text: string) // the date text is not month/day/four-digit year
    | NoSaltCategory             // no comment-column cell names a SALT type

  /** The keywords that identify the week's SALT-type cell. */
  const SaltTypeKeywords: seq<string> := ["observation", "live", "supplemental drill"]

  /** The valid live SALT types, as the source lists them. */
  const LiveSaltTypes: seq<string> :=
    ["Partial Li Batt Mark/Label", "Un-audited HazMat Package ",
     "ORM-D Air Mark (US, SJU & Canada Only)", "ORM-D Mark (US, SJU & Canada  Only)",
     "Ground LTD QTY Mark/Label", "Air LTD QTY Mark/Label", "Partial Diamond Marl/Label",
     "Acceptable Diamond Label", "Cargo Aircraft Only Label",
     "Ground Small Quantities Mark", "Lithium Battery Mark/Label",
     "Prohibited Diamond Label"]

  /** The same list with the trailing space of the second label removed:
      the list is only ever compared with stripped text. */
  const AcceptedLiveSaltTypes: seq<string> :=
    ["Partial Li Batt Mark/Label", "Un-audited HazMat Package",
     "ORM-D Air Mark (US, SJU & Canada Only)", "ORM-D Mark (US, SJU & Canada  Only)",
     "Ground LTD QTY Mark/Label", "Air LTD QTY Mark/Label", "Partial Diamond Marl/Label",
     "Acceptable Diamond Label", "Cargo Aircraft Only Label",
     "Ground Small Quantities Mark", "Lithium Battery Mark/Label",
     "Prohibited Diamond Label"]

  /** What a search down a column looks for in a cell's text. */
  datatype Probe = KeyText(key: string) | SaltTypeText

  /** Whether the cell at `row`, `col` holds text the probe looks for;
      cells without text never do. */
  predicate Hit(log: Sheet, row: int, col: int, probe: Probe) {
    match log.ValueAt(Coord(row, col))
    case Some(Text(s)) =>
      (match probe
       case KeyText(key) => Contains(Lower(s), Lower(key))
       case SaltTypeText => MentionsSaltType(Lower(s)))
    case _ => false
  }

  /** Whether lowered text contains one of the SALT-type keywords. */
  predicate MentionsSaltType(lowered: string) {
    MentionsOneOf(lowered, SaltTypeKeywords)
  }

  /** `any(_type in text for _type in keywords)`. */
  predicate MentionsOneOf(text: string, keywords: seq<string>) {
    exists k | 0 <= k < |keywords| :: Contains(text, keywords[k])
  }

  /** The first row from `from` down to the last row whose cell in `col` the
      probe hits. */
  function FirstHit(log: Sheet, from: int, col: int, probe: Probe): (r: Option<int>)
    ensures r.Some? ==> from <= r.value <= log.maxRow && Hit(log, r.value, col, probe)
    decreases log.maxRow - from
  {
    if from > log.maxRow then None
    else if Hit(log, from, col, probe) then Some(from)
    else FirstHit(log, from + 1, col, probe)
  }

  /** No row the scan passes over is hit. */
  lemma {:induction false} FirstHitIsFirst(log: Sheet, from: int, col: int, probe: Probe)
    ensures var r := FirstHit(log, from, col, probe);
            forall k :: from <= k <= log.maxRow && (r.None? || k < r.value) ==> !Hit(log, k, col, probe)
    decreases log.maxRow - from
  {
    if from <= log.maxRow && !Hit(log, from, col, probe) {
      FirstHitNext(log, from, col, probe);
      FirstHitIsFirst(log, from + 1, col, probe);
    }
  }

  /** A hit at `row` is the first hit from `row` on. */
  lemma FirstHitHere(log: Sheet, row: int, col: int, probe: Probe)
    requires row <= log.maxRow && Hit(log, row, col, probe)
    ensures FirstHit(log, row, col, probe) == Some(row)
  {
  }

  /** A row without a hit is passed over. */
  lemma FirstHitNext(log: Sheet, row: int, col: int, probe: Probe)
    requires row <= log.maxRow && !Hit(log, row, col, probe)
    ensures FirstHit(log, row, col, probe) == FirstHit(log, row + 1, col, probe)
  {
  }

  /** Decides `MentionsOneOf` by trying the keywords in order. */
  method MentionsAny(lowered: string, keywords: seq<string>) returns (found: bool)
    ensures found <==> MentionsOneOf(lowered, keywords)
  {
    var k := 0;
    while k < |keywords|
      invariant 0 <= k <= |keywords|
      invariant forall j :: 0 <= j < k ==> !Contains(lowered, keywords[j])
    {
      if Contains(lowered, keywords[k]) {
        return true;
      }
      k := k + 1;
    }
    return false;
  }

  /** Tests one cell against a probe. */
  method ProbeCell(log: Sheet, row: int, col: int, probe: Probe) returns (hit: bool)
    ensures hit == Hit(log, row, col, probe)
  {
    var v := log.ValueAt(Coord(row, col));
    hit := false;
    if v.Some? && v.value.Text? {
      match probe
      case KeyText(key) =>
        hit := Contains(Lower(v.value.s), Lower(key));
      case SaltTypeText =>
        hit := MentionsAny(Lower(v.value.s), SaltTypeKeywords);
    }
  }

  /** The scan down a column that both searches of the constructor make:
      the first row from `from` on whose cell the probe hits. */
  method ScanColumn(log: Sheet, from: int, col: int, probe: Probe) returns (r: Option<int>)
    ensures r == FirstHit(log, from, col, probe)
  {
    var row := from;
    while row <= log.maxRow
      invariant FirstHit(log, row, col, probe) == FirstHit(log, from, col, probe)
      decreases log.maxRow - row
    {
      var hit := ProbeCell(log, row, col, probe);
      if hit {
        FirstHitHere(log, row, col, probe);
        return Some(row);
      }
      FirstHitNext(log, row, col, probe);
      row := row + 1;
    }
    return None;
  }

  /** `_find_in_col`: the row of the first heading-column cell, at or below
      the heading row, whose lowered text contains the lowered key. */
  method FindInCol(log: Sheet, headingRow: int, headingCol: int, key: string) returns (r: Option<int>)
    ensures r == FirstHit(log, headingRow, headingCol, KeyText(key))
    ensures r.Some? ==> headingRow <= r.value <= log.maxRow
  {
    r := ScanColumn(log, headingRow, headingCol, KeyText(key));
  }

  /** `_find_salt_cell`: the first comment-column cell, at or below the
      heading row, whose lowered text contains a SALT-type keyword. */
  method FindSaltCell(log: Sheet, headingRow: int, commentCol: int) returns (r: Option<Coord>)
    ensures r.Some? <==> FirstHit(log, headingRow, commentCol, SaltTypeText).Some?
    ensures r.Some? ==> r.value == Coord(FirstHit(log, headingRow, commentCol, SaltTypeText).value, commentCol)
  {
    var row := ScanColumn(log, headingRow, commentCol, SaltTypeText);
    if row.Some? {
      return Some(Coord(row.value, commentCol));
    }
    return None;
  }

  /** `_parse_date`: `strptime` with `%m/%d/%Y`, a one- or two-digit month and
      day, a four-digit year, and a date that exists. */
  function ParseDate(text: string): (r: Option<int>)
    ensures r.Some? ==> r.value >= 1
  {
    match ShortNumberThen(text, 0, "/")
    case None => None
    case Some((m, j)) =>
      match ShortNumberThen(text, j, "/")
      case None => None
      case Some((d, l)) =>
        if DigitRun(text, l) == 4 && l + 4 == |text| then
          assert text[l..] == text[l..l + 4];
          var y := NumberValue(text[l..]);
          if IsDate(y, m, d) then Some(Ordinal(y, m, d)) else None
        else
          None
  }

  /** A date as month/day/year without leading zeros. */
  function FormatDate(y: nat, m: nat, d: nat): string {
    Show(m) + "/" + Show(d) + "/" + Show(y)
  }

  /** A shown four-digit year that ends the text is read back. */
  lemma YearShow(text: string, i: nat, y: nat)
    requires 1000 <= y <= 9999 && i + |Show(y)| == |text| && text[i..] == Show(y)
    ensures DigitRun(text, i) == 4 && i + 4 == |text|
    ensures AllDigits(text[i..]) && NumberValue(text[i..]) == y
  {
    assert Pow10(3) == 1000 && Pow10(4) == 10000;
    ShowLength(y, 4);
    NumberValueShow(y);
    assert text[i..i + |Show(y)|] == text[i..];
    ShowRunAt(text, i, y);
  }

  /** The three fields of a date text determine what it parses to. */
  lemma ParseDateOfFields(text: string, m: nat, d: nat, y: nat, j: nat, l: nat)
    requires ShortNumberThen(text, 0, "/") == Some((m, j))
    requires j <= |text| && ShortNumberThen(text, j, "/") == Some((d, l))
    requires l <= |text| && DigitRun(text, l) == 4 && l + 4 == |text|
    requires NumberValue(text[l..]) == y && IsDate(y, m, d)
    ensures ParseDate(text) == Some(Ordinal(y, m, d))
  {
  }

  /** The layout of a formatted date: month, `/`, day, `/`, year. */
  predicate DateLayout(text: string, y: nat, m: nat, d: nat) {
    var a, b, c := Show(m), Show(d), Show(y);
    && |a| + |b| + |c| + 2 == |text|
    && text[..|a|] == a && text[|a|] == '/'
    && text[|a| + 1..|a| + 1 + |b|] == b && text[|a| + 1 + |b|] == '/'
    && text[|a| + |b| + 2..] == c
  }

  lemma FormatDateLayout(y: nat, m: nat, d: nat)
    ensures DateLayout(FormatDate(y, m, d), y, m, d)
  {
    var text := FormatDate(y, m, d);
    var a, b, c := Show(m), Show(d), Show(y);
    assert text[..|a|] == a;
    assert text[|a| + 1..|a| + 1 + |b|] == b;
    assert text[|a| + |b| + 2..] == c;
  }

  /** A date text laid out as a formatted date parses to its day number. */
  lemma {:induction false} ParseDateOfLayout(text: string, y: nat, m: nat, d: nat)
    requires IsDate(y, m, d) && 1000 <= y <= 9999 && DateLayout(text, y, m, d)
    ensures ParseDate(text) == Some(Ordinal(y, m, d))
  {
    var a, b, c := Show(m), Show(d), Show(y);
    var j, l := |a| + 1, |a| + |b| + 2;
    assert ShortNumberThen(text, 0, "/") == Some((m, j)) by {
      assert text[0..|a|] == a;
      ShortNumberShow(text, 0, m, "/");
    }
    assert ShortNumberThen(text, j, "/") == Some((d, l)) by {
      ShortNumberShow(text, j, d, "/");
    }
    YearShow(text, l, y);
    ParseDateOfFields(text, m, d, y, j, l);
  }

  /** Parsing a formatted date gives back its day number. */
  lemma ParseFormatDate(y: nat, m: nat, d: nat)
    requires IsDate(y, m, d) && 1000 <= y <= 9999
    ensures ParseDate(FormatDate(y, m, d)) == Some(Ordinal(y, m, d))
  {
    FormatDateLayout(y, m, d);
    ParseDateOfLayout(FormatDate(y, m, d), y, m, d);
  }

  /** The week-ending date of a heading: the leftmost date-like text, parsed. */
  function HeadingDate(heading: Option<Value>): (r: Result<(string, int), WeekFailure>)
    ensures r.Ok? ==> ParseDate(r.value.0) == Some(r.value.1)
  {
    match heading
    case Some(Text(h)) =>
      (match Search(EndingDate, h, 0)
       case None => Err(NoDateInHeading)
       case Some(m) =>
         var text := h[m.start..m.end];
         match ParseDate(text)
         case None => Err(UnparsableDate(text))
         case Some(day) => Ok((text, day)))
    case _ => Err(HeadingNotText)
  }

  /** The first failure, in the order the constructor meets them, of building
      the week whose heading is at `startRow`, `startCol`. */
  function BuildFailure(log: Sheet, startRow: int, startCol: int): (r: Option<WeekFailure>)
    ensures r.Some? && r.value.MissingRow? ==> FirstHit(log, startRow, startCol, KeyText(r.value.key)).None?
    ensures r == Some(NoSaltCategory) ==> HeadingDate(log.ValueAt(Coord(startRow, startCol))).Ok?
    ensures r.None? <==> FirstHit(log, startRow, startCol, KeyText("topic")).Some?
                         && FirstHit(log, startRow, startCol, KeyText("date")).Some?
                         && FirstHit(log, startRow, startCol, KeyText("signature")).Some?
                         && HeadingDate(log.ValueAt(Coord(startRow, startCol))).Ok?
                         && FirstHit(log, startRow, startCol + 2, SaltTypeText).Some?
  {
    if FirstHit(log, startRow, startCol, KeyText("topic")).None? then Some(MissingRow("topic"))
    else if FirstHit(log, startRow, startCol, KeyText("date")).None? then Some(MissingRow("date"))
    else if FirstHit(log, startRow, startCol, KeyText("signature")).None? then Some(MissingRow("signature"))
    else if HeadingDate(log.ValueAt(Coord(startRow, startCol))).Err? then
      Some(HeadingDate(log.ValueAt(Coord(startRow, startCol))).error)
    else if FirstHit(log, startRow, startCol + 2, SaltTypeText).None? then Some(NoSaltCategory)
    else None
  }

  /** The expected, or week type, rule for an observation comment. */
  predicate ObservationCommentVerdict(comment: string) {
    match MatchAt(WeekObservation, Strip(comment), 0)
    case None => false
    case Some(m) => !(m.groups[0] > m.groups[1] || m.groups[1] > 19)
  }

  /** The good and total counts of the first `good/total` fraction of a
      comment, if it has one. */
  function FractionNumbers(comment: Option<string>): (r: Option<(nat, nat)>)
    ensures r.Some? <==> comment.Some? && Search(Fraction, comment.value, 0).Some?
  {
    match comment
    case None => None
    case Some(c) =>
      match Search(Fraction, c, 0)
      case None => None
      case Some(m) => Some((m.groups[0], m.groups[1]))
  }

  /** The observation result rule on a result code and the counts read from
      the comment: the code, stripped and upper-cased, must be `A` or `U/R`,
      and the counts must be there (the source raises without them); an `A`
      as written needs every observation good, a `U/R` as written some not
      good. */
  function ResultVerdictOf(result: string, numbers: Option<(nat, nat)>): Verdict {
    if Upper(Strip(result)) !in ["A", "U/R"] then Returns(false)
    else
      match numbers
      case None => Raises
      case Some((good, total)) =>
        if good < total && result == "A" then Returns(false)
        else if good == total && result == "U/R" then Returns(false)
        else Returns(true)
  }

  /** The observation result rule of a week (`validate_result`). */
  function ObservationResultVerdict(result: string, comment: Option<string>): (v: Verdict)
    ensures v == Raises <==> Upper(Strip(result)) in ["A", "U/R"] && (comment.None? || Search(Fraction, comment.value, 0).None?)
    ensures v != ReturnsNone
  {
    ResultVerdictOf(result, FractionNumbers(comment))
  }

  /** The live SALT comment rule as meant: a listed type, or `Other` and a
      description. */
  predicate LiveCommentValid(comment: string) {
    Strip(comment) in AcceptedLiveSaltTypes || MatchAt(OtherSaltType, Strip(comment), 0).Some?
  }

  /** The live SALT comment rule as the source writes it: the pattern test
      has no subject, so it raises whenever the first test fails. */
  function LiveCommentVerdictAsWritten(comment: string): (v: Verdict)
    ensures v == Returns(true) || v == Raises
  {
    if Strip(comment) in LiveSaltTypes then Returns(true) else Raises
  }

  /** Only `A` and `U/R`, in any case and with any surrounding space, can
      be accepted; they raise exactly when there are no counts. */
  lemma ResultVerdictCodes(result: string, numbers: Option<(nat, nat)>)
    ensures Upper(Strip(result)) !in ["A", "U/R"] ==> ResultVerdictOf(result, numbers) == Returns(false)
    ensures Upper(Strip(result)) in ["A", "U/R"] ==> (ResultVerdictOf(result, numbers) == Raises <==> numbers.None?)
  {
  }

  /** An accepted `A` agrees with its fraction: it stands exactly when every
      observation was good. */
  lemma AcceptableAgreesWithFraction(good: nat, total: nat)
    ensures ResultVerdictOf("A", Some((good, total))) == Returns(good >= total)
  {
    UpperStripA();
  }

  /** An accepted `U/R` agrees with its fraction: it stands exactly when some
      observation was not good. */
  lemma UnacceptableAgreesWithFraction(good: nat, total: nat)
    ensures ResultVerdictOf("U/R", Some((good, total))) == Returns(good != total)
  {
    UpperStripUR();
  }

  /** An accepted code with no fraction to check it against raises, as the
      source's own note warns. */
  lemma ObservationResultWithoutFraction(result: string, comment: Option<string>)
    requires Upper(Strip(result)) in ["A", "U/R"]
    requires comment.None? || Search(Fraction, comment.value, 0).None?
    ensures ObservationResultVerdict(result, comment) == Raises
  {
  }

  /** The spellings of the observation keyword the week-level rule accepts:
      `Observation` or `observation`, with or without one space after it. */
  predicate IsObservationHead(head: string) {
    (|head| == 11 || |head| == 12) && head[0] in "Oo" && head[1..11] == "bservation"
    && (|head| == 12 ==> head[11] == ' ')
  }

  lemma HeadsHaveNoDigit(head: string)
    requires IsObservationHead(head)
    ensures forall i :: 0 <= i < |head| ==> !IsDigit(head[i])
  {
    forall i | 1 <= i < 11
      ensures !IsDigit(head[i])
    {
      assert head[i] == head[1..11][i - 1];
    }
  }

  /** The layout of a well-formed observation comment. */
  predicate ShownObservationLayout(text: string, head: string, good: nat, total: nat) {
    var q := |head|;
    var g := Show(good);
    && q + |g| + 3 == |text| && text[..q] == head
    && text[q..q + |g|] == g && text[q + |g|] == '/' && text[q + |g| + 1..q + |g| + 3] == Show(total)
  }

  lemma ShownObservationLayoutHolds(head: string, good: nat, total: nat)
    requires 10 <= total <= 99
    ensures ShownObservationLayout(head + Show(good) + "/" + Show(total), head, good, total)
  {
    assert Pow10(1) == 10 && Pow10(2) == 100;
    ShowLength(total, 2);
    ConcatSlices(head, Show(good), "/", Show(total));
  }

  /** The four parts of a concatenation sit where their lengths say. */
  lemma ConcatSlices(a: string, b: string, c: string, d: string)
    requires |c| == 1
    ensures var t := a + b + c + d;
            && t[..|a|] == a && t[|a|..|a| + |b|] == b && t[|a| + |b|] == c[0]
            && t[|a| + |b| + 1..] == d
  {
    var t := a + b + c + d;
    assert t[..|a|] == a;
    assert t[|a|..|a| + |b|] == b;
    assert t[|a| + |b| + 1..] == d;
  }

  lemma ShownObservationHead(text: string, head: string, good: nat, total: nat)
    requires IsObservationHead(head) && ShownObservationLayout(text, head, good, total)
    ensures ObservationHead(text, 0) == Some(|head|)
  {
    assert text[0] == head[0] && text[1..11] == head[1..11];
    if |head| == 12 {
      assert text[11] == ' ';
    } else {
      assert text[11] == Show(good)[0];
    }
  }

  lemma ShownObservationStrip(text: string, head: string, good: nat, total: nat)
    requires IsObservationHead(head) && ShownObservationLayout(text, head, good, total)
    ensures Strip(text) == text
  {
    var q, g := |head|, Show(good);
    assert text[0] == head[0];
    assert text[|text| - 1] == text[q + |g| + 1..q + |g| + 3][1];
    StripUnchanged(text);
  }

  lemma ShownObservationFraction(text: string, head: string, good: nat, total: nat)
    requires forall i :: 0 <= i < |head| ==> !IsDigit(head[i])
    requires good <= 99 && 10 <= total <= 99
    requires ShownObservationLayout(text, head, good, total)
    ensures Search(Fraction, text, 0) == Some(Match(|head|, |text|, [good, total]))
  {
    var q := |head|;
    ShownFractionAt(text, head, good, total);
    ShownHeadNoDigit(text, head, good, total);
    FractionAfterPrefix(text, q);
  }

  lemma ShownFractionAt(text: string, head: string, good: nat, total: nat)
    requires good <= 99 && 10 <= total <= 99
    requires ShownObservationLayout(text, head, good, total)
    ensures MatchAt(Fraction, text, |head|) == Some(Match(|head|, |text|, [good, total]))
  {
    var q, t := |head|, |head| + |Show(good)| + 1;
    ShowTwoDigits(total);
    ShortNumberShow(text, q, good, "/");
    TwoDigitsAt(text, t, total);
    FractionOfParts(text, q, q, good, t, total, false);
    MatchAtFraction(text, q);
  }

  lemma ShownHeadNoDigit(text: string, head: string, good: nat, total: nat)
    requires forall i :: 0 <= i < |head| ==> !IsDigit(head[i])
    requires ShownObservationLayout(text, head, good, total)
    ensures forall i :: 0 <= i < |head| ==> !IsDigit(text[i])
  {
    forall i | 0 <= i < |head|
      ensures !IsDigit(text[i])
    {
      assert text[i] == text[..|head|][i];
    }
  }

  lemma ShownObservationMatch(text: string, head: string, good: nat, total: nat)
    requires IsObservationHead(head) && good <= 99 && 10 <= total <= 99
    requires ShownObservationLayout(text, head, good, total)
    ensures MatchAt(WeekObservation, text, 0) == Some(Match(0, |text|, [good, total]))
  {
    ShownObservationHead(text, head, good, total);
    assert Pow10(1) == 10 && Pow10(2) == 100;
    ShowLength(total, 2);
    FractionShown(text, 0, |head|, good, total, false);
  }

  lemma ObservationCommentUnstripped(comment: string)
    requires Strip(comment) == comment
    ensures var r := MatchAt(WeekObservation, comment, 0);
            ObservationCommentVerdict(comment) <==> r.Some? && r.value.groups[0] <= r.value.groups[1] <= 19
  {
  }

  lemma ShownObservationVerdict(text: string, head: string, good: nat, total: nat)
    requires IsObservationHead(head) && ShownObservationLayout(text, head, good, total)
    ensures var r := MatchAt(WeekObservation, text, 0);
            ObservationCommentVerdict(text) <==> r.Some? && r.value.groups[0] <= r.value.groups[1] <= 19
  {
    ShownObservationStrip(text, head, good, total);
    ObservationCommentUnstripped(text);
  }

  lemma ObservationCommentOfLayout(text: string, head: string, good: nat, total: nat)
    requires IsObservationHead(head) && good <= 99 && 10 <= total <= 99
    requires ShownObservationLayout(text, head, good, total)
    ensures ObservationCommentVerdict(text) <==> good <= total <= 19
  {
    ShownObservationVerdict(text, head, good, total);
    ShownObservationMatch(text, head, good, total);
  }

  /** The week-level comment rule on a well-formed observation comment:
      accepted exactly when no more were good than observed and at most 19
      were observed. */
  lemma {:induction false} ObservationCommentOfShown(head: string, good: nat, total: nat)
    requires IsObservationHead(head) && good <= 99 && 10 <= total <= 99
    ensures ObservationCommentVerdict(head + Show(good) + "/" + Show(total)) <==> good <= total <= 19
  {
    ShownObservationLayoutHolds(head, good, total);
    ObservationCommentOfLayout(head + Show(good) + "/" + Show(total), head, good, total);
  }

  /** The counts read from a well-formed observation comment. */
  lemma ShownFractionNumbers(head: string, good: nat, total: nat)
    requires IsObservationHead(head) && good <= 99 && 10 <= total <= 99
    ensures FractionNumbers(Some(head + Show(good) + "/" + Show(total))) == Some((good, total))
  {
    var text := head + Show(good) + "/" + Show(total);
    ShownObservationLayoutHolds(head, good, total);
    HeadsHaveNoDigit(head);
    ShownObservationFraction(text, head, good, total);
  }

  /** The week-level result rule on a well-formed observation comment:
      `A` is accepted exactly when all were good, `U/R` exactly when not. */
  lemma {:induction false} ObservationResultOfShown(result: string, head: string, good: nat, total: nat)
    requires (result == "A" || result == "U/R") && IsObservationHead(head) && good <= 99 && 10 <= total <= 99
    ensures var v := ObservationResultVerdict(result, Some(head + Show(good) + "/" + Show(total)));
            v.Returns? && (v.ok <==> if result == "A" then good >= total else good != total)
  {
    ShownFractionNumbers(head, good, total);
    if result == "A" {
      AcceptableAgreesWithFraction(good, total);
    } else {
      UnacceptableAgreesWithFraction(good, total);
    }
  }

  class SaltWeek {
    const log: Sheet
    const colHeading: int
    const colCategory: int
    const colResult: int
    const colComment: int
    const rowHeading: int
    const rowPcmTopic: int
    const rowPcmDate: int
    const rowSignature: int
    const pcmTopicCell: Coord
    const pcmDateCell: Coord
    const signatureCell: Coord
    const pcmTopic: Option<Value>
    const pcmDate: Option<Value>
    const signature: Option<Value>
    const endingDateText: string
    const endingDate: int
    const saltTypeCell: Coord
    const saltType: string

    /** The coordinate frame: category (also the heading column), result and
        comment columns are contiguous, and the cells read at construction
        sit where the frame says. */
    ghost predicate Valid() {
      && colCategory == colHeading && colResult == colHeading + 1 && colComment == colHeading + 2
      && pcmTopicCell == Coord(rowPcmTopic, colComment) && pcmTopic == log.ValueAt(pcmTopicCell)
      && pcmDateCell == Coord(rowPcmDate, colComment) && pcmDate == log.ValueAt(pcmDateCell)
      && signatureCell == Coord(rowSignature, colComment) && signature == log.ValueAt(signatureCell)
      && ParseDate(endingDateText) == Some(endingDate)
      && saltTypeCell.col == colComment && log.ValueAt(saltTypeCell) == Some(Text(saltType))
    }

    /** Sets the coordinate fields from the heading position, then the cells
        found by the searches. */
    constructor (log: Sheet, startRow: int, startCol: int, topicRow: int, dateRow: int,
                 signatureRow: int, endingDateText: string, endingDate: int, saltTypeRow: int)
      requires ParseDate(endingDateText) == Some(endingDate)
      requires log.ValueAt(Coord(saltTypeRow, startCol + 2)).Some?
      requires log.ValueAt(Coord(saltTypeRow, startCol + 2)).value.Text?
      ensures Valid()
      ensures this.log == log && rowHeading == startRow && colHeading == startCol
      ensures rowPcmTopic == topicRow && rowPcmDate == dateRow && rowSignature == signatureRow
      ensures this.endingDateText == endingDateText && this.endingDate == endingDate
      ensures saltTypeCell == Coord(saltTypeRow, startCol + 2)
    {
      this.log := log;
      var commentCol := startCol + 2;
      colHeading := startCol;
      colCategory := startCol;
      colResult := startCol + 1;
      colComment := commentCol;
      rowHeading := startRow;
      rowPcmTopic := topicRow;
      rowPcmDate := dateRow;
      rowSignature := signatureRow;
      pcmTopicCell := Coord(topicRow, commentCol);
      pcmDateCell := Coord(dateRow, commentCol);
      pcmTopic := log.ValueAt(Coord(topicRow, commentCol));
      pcmDate := log.ValueAt(Coord(dateRow, commentCol));
      signatureCell := Coord(signatureRow, commentCol);
      signature := log.ValueAt(Coord(signatureRow, commentCol));
      this.endingDateText := endingDateText;
      this.endingDate := endingDate;
      saltTypeCell := Coord(saltTypeRow, commentCol);
      saltType := log.ValueAt(Coord(saltTypeRow, commentCol)).value.s;
    }

    /** `__init__`: builds the week whose heading cell is at `startRow`,
        `startCol`, or reports the first failure the source raises on. */
    static method Build(log: Sheet, startRow: int, startCol: int) returns (r: Result<SaltWeek, WeekFailure>)
      ensures r.Err? <==> BuildFailure(log, startRow, startCol).Some?
      ensures r.Err? ==> r.error == BuildFailure(log, startRow, startCol).value
      ensures r.Ok? ==> r.value.Valid() && r.value.log == log
                        && r.value.rowHeading == startRow && r.value.colHeading == startCol
      ensures r.Ok? ==> FirstHit(log, startRow, startCol, KeyText("topic")) == Some(r.value.rowPcmTopic)
                        && FirstHit(log, startRow, startCol, KeyText("date")) == Some(r.value.rowPcmDate)
                        && FirstHit(log, startRow, startCol, KeyText("signature")) == Some(r.value.rowSignature)
      ensures r.Ok? ==> HeadingDate(log.ValueAt(Coord(startRow, startCol)))
                        == Ok((r.value.endingDateText, r.value.endingDate))
      ensures r.Ok? ==> FirstHit(log, startRow, startCol + 2, SaltTypeText) == Some(r.value.saltTypeCell.row)
    {
      var topicRow := FindInCol(log, startRow, startCol, "topic");
      var dateRow := FindInCol(log, startRow, startCol, "date");
      var signatureRow := FindInCol(log, startRow, startCol, "signature");
      if topicRow.None? { return Err(MissingRow("topic")); }
      if dateRow.None? { return Err(MissingRow("date")); }
      if signatureRow.None? { return Err(MissingRow("signature")); }
      var date := HeadingDate(log.ValueAt(Coord(startRow, startCol)));
      if date.Err? { return Err(date.error); }
      var saltCell := FindSaltCell(log, startRow, startCol + 2);
      if saltCell.None? { return Err(NoSaltCategory); }
      var w := new SaltWeek(log, startRow, startCol, topicRow.value, dateRow.value, signatureRow.value,
                            date.value.0, date.value.1, saltCell.value.row);
      return Ok(w);
    }

    /** `_get_entry_int` in reference mode: the employee's three cells. */
    function EntryCells(row: int): (r: Entry<Coord>)
      ensures Valid() ==> r == Entry(Coord(row, colHeading), Coord(row, colHeading + 1), Coord(row, colHeading + 2))
      ensures Valid() ==> r.category != r.result && r.result != r.comment && r.category != r.comment
    {
      Entry(Coord(row, colCategory), Coord(row, colResult), Coord(row, colComment))
    }

    /** `_get_entry_int` in value mode: the values of those cells. */
    function EntryValues(row: int): (r: Entry<Option<Value>>)
      ensures Valid() ==> r == Entry(log.ValueAt(Coord(row, colHeading)), log.ValueAt(Coord(row, colHeading + 1)),
                                     log.ValueAt(Coord(row, colHeading + 2)))
    {
      var cells := EntryCells(row);
      Entry(log.ValueAt(cells.category), log.ValueAt(cells.result), log.ValueAt(cells.comment))
    }

    /** `get_entry`: dispatches on the kind of row source; an employee stands
        for their row. */
    function GetEntry(src: RowSource, values: bool): (r: Entry<Lookup>)
      ensures values ==> r.category.Val? && r.result.Val? && r.comment.Val?
      ensures Valid() && !values ==>
                var n := if src.ByRow? then src.row else src.employee.row;
                r == Entry(Ref(Coord(n, colHeading)), Ref(Coord(n, colHeading + 1)), Ref(Coord(n, colHeading + 2)))
    {
      var row := match src case ByRow(n) => n case ByEmployee(e) => e.row;
      if values then
        var v := EntryValues(row);
        Entry(Val(v.category), Val(v.result), Val(v.comment))
      else
        var c := EntryCells(row);
        Entry(Ref(c.category), Ref(c.result), Ref(c.comment))
    }

    /** An employee's entry is the entry of their row, in both modes. */
    lemma GetEntryOfEmployee(e: Employee, values: bool)
      ensures GetEntry(ByEmployee(e), values) == GetEntry(ByRow(e.row), values)
    {
    }

    /** Value mode reads exactly the cells reference mode returns. */
    lemma GetEntryModesAgree(src: RowSource)
      ensures var c := GetEntry(src, false); var v := GetEntry(src, true);
              c.category.Ref? && c.result.Ref? && c.comment.Ref?
              && v == Entry(Val(log.ValueAt(c.category.cell)), Val(log.ValueAt(c.result.cell)),
                            Val(log.ValueAt(c.comment.cell)))
    {
    }

    /** `validate_result`: dispatches on the week's SALT type. */
    function ValidateResult(result: string, comment: Option<string>): (v: Verdict)
      ensures saltType == "Observation" ==> v == ObservationResultVerdict(result, comment)
      ensures saltType == "Live" ==> v == Returns(Upper(Strip(result)) in ["A", "U/A"])
      ensures saltType == "Supplemental Drill" ==> v == Returns(Upper(Strip(result)) == "A")
      ensures saltType !in ["Observation", "Live", "Supplemental Drill"] ==> v == ReturnsNone
    {
      if saltType == "Observation" then ObservationResultVerdict(result, comment)
      else if saltType == "Live" then Returns(Upper(Strip(result)) in ["A", "U/A"])
      else if saltType == "Supplemental Drill" then Returns(Upper(Strip(result)) == "A")
      else ReturnsNone
    }

    /** `validate_comment`: dispatches on the week's SALT type; the
        supplemental-drill rule is not written and raises. */
    function ValidateComment(comment: string): (v: Verdict)
      ensures saltType == "Observation" ==> v == Returns(ObservationCommentVerdict(comment))
      ensures saltType == "Live" ==> v == Returns(LiveCommentValid(comment))
      ensures saltType == "Supplemental Drill" ==> v == Raises
      ensures saltType !in ["Observation", "Live", "Supplemental Drill"] ==> v == ReturnsNone
    {
      if saltType == "Observation" then Returns(ObservationCommentVerdict(comment))
      else if saltType == "Live" then Returns(LiveCommentValid(comment))
      else if saltType == "Supplemental Drill" then Raises
      else ReturnsNone
    }
  }
}
