/** The fixed regular expressions of the auditor, each written out as a
    matcher that behaves as Python's `re` does on that expression (greedy
    quantifiers with backtracking), and `re.search` as the leftmost position
    where the matcher succeeds.  `re.match` is the matcher at position 0.
    A digit (`\d`) is an ASCII digit `0`-`9` here: Python's `\d` and `int()`
    also accept the other Unicode decimal digits.

    Apart from a `Literal` of empty text, which the auditor never searches
    for, none of the patterns can match the empty string, and each
    quantifier is followed by something its characters cannot be, so
    backtracking never finds a second way to match at the same position;
    each matcher below is the one way that remains. */
module Patterns {
  import opened Wrappers
  import opened Text

  datatype Pattern =
    /** A pattern without special characters: `2DA`, `Wing C`, and the
        substring test `key in text`. */
    | Literal(text: string)
    /** `\d{1,2}[/-]\d{1,2}[/-]\d{2,4}`, the week-ending date in a heading. */
    | EndingDate
    /** `(\d{1,2})/(\d{2})`, the numbers of an observation comment. */
    | Fraction
    /** `[Oo]bservation ?(\d{1,2})/(\d{2})`, the week-level comment rule. */
    | WeekObservation
    /** `[Oo]bservation ?(\d{1,2})/(\d{2,})`, the validator's comment rule
        with the stray characters of the source removed. */
    | ObservationComment
    /** `i[Oo]bservation ?(\d{1,2})/(\d{2,})]`, the validator's comment rule
        as the source writes it. */
    | ObservationCommentAsWritten
    /** `[Oo]ther [a-zA-Z0-9_/-][\sa-zA-Z0-9_/-]+`, a free-form live SALT type. */
    | OtherSaltType
    /** `(?:[Pp]osi ?)?[1-7] ?(?:[Nn]orth|[Nn]|[Ss]outh|[Ss])`, a position code. */
    | PosiCode

  /** A match: where it starts and ends, and the integer value of each group. */
  datatype Match = Match(start: nat, end: nat, groups: seq<nat>)

  function GroupCount(p: Pattern): nat {
    match p
    case Fraction | WeekObservation | ObservationComment | ObservationCommentAsWritten => 2
    case _ => 0
  }

  predicate IsNameChar(c: char) {
    ('a' <= c <= 'z') || ('A' <= c <= 'Z') || IsDigit(c) || c == '_' || c == '/' || c == '-'
  }

  predicate IsNameOrSpace(c: char) {
    IsNameChar(c) || IsSpace(c)
  }

  function DigitRun(s: string, i: nat): (k: nat)
    requires i <= |s|
    ensures i + k <= |s| && AllDigits(s[i..i + k])
    ensures i + k == |s| || !IsDigit(s[i + k])
  {
    Run(s, i, IsDigit)
  }

  /** `(\d{1,2})` followed by one of the characters `seps` (never digits):
      the number and the position after the separator. */
  function ShortNumberThen(s: string, i: nat, seps: string): (r: Option<(nat, nat)>)
    requires i <= |s|
    ensures r.Some? ==> i + 2 <= r.value.1 <= i + 3 && r.value.1 <= |s| && r.value.0 <= 99
    ensures r.Some? ==> s[r.value.1 - 1] in seps
  {
    var k := DigitRun(s, i);
    if 1 <= k <= 2 && i + k < |s| && s[i + k] in seps then
      Some((NumberValue(s[i..i + k]), i + k + 1))
    else
      None
  }

  lemma AllDigitsSlice(s: string, t: nat, k: nat, n: nat)
    requires n <= k && t + k <= |s| && AllDigits(s[t..t + k])
    ensures AllDigits(s[t..t + n])
  {
    assert s[t..t + n] == s[t..t + k][..n];
  }

  /** `[Oo]bservation ?`: the position after it. */
  function ObservationHead(s: string, i: nat): (r: Option<nat>)
    requires i <= |s|
    ensures r.Some? ==> i + 11 <= r.value <= i + 12 && r.value <= |s|
  {
    if i + 11 <= |s| && (s[i] == 'O' || s[i] == 'o') && s[i + 1..i + 11] == "bservation" then
      var p := i + 11;
      Some(if p < |s| && s[p] == ' ' then p + 1 else p)
    else
      None
  }

  /** `(\d{1,2})/` then `(\d{2,})` when `wide`, `(\d{2})` otherwise, from
      position `q` of a match that started at `start`. */
  function FractionFrom(s: string, start: nat, q: nat, wide: bool): (r: Option<Match>)
    requires start <= q <= |s|
    ensures r.Some? ==> r.value.start == start && q + 4 <= r.value.end <= |s| && |r.value.groups| == 2
    ensures r.Some? ==> r.value.groups[0] <= 99 && (!wide ==> r.value.groups[1] <= 99)
  {
    match ShortNumberThen(s, q, "/")
    case None => None
    case Some((good, t)) =>
      var k := DigitRun(s, t);
      if k < 2 then None
      else
        var n := if wide then k else 2;
        assert AllDigits(s[t..t + n]) by {
          AllDigitsSlice(s, t, k, n);
        }
        Some(Match(start, t + n, [good, NumberValue(s[t..t + n])]))
  }

  /** `[Nn]orth|[Nn]|[Ss]outh|[Ss]`, in that order: the position after it. */
  function Direction(s: string, k: nat): (r: Option<nat>)
    requires k <= |s|
    ensures r.Some? ==> k < r.value <= |s| && (s[k] == 'N' || s[k] == 'n' || s[k] == 'S' || s[k] == 's')
  {
    if k + 5 <= |s| && (s[k] == 'N' || s[k] == 'n') && s[k + 1..k + 5] == "orth" then Some(k + 5)
    else if k < |s| && (s[k] == 'N' || s[k] == 'n') then Some(k + 1)
    else if k + 5 <= |s| && (s[k] == 'S' || s[k] == 's') && s[k + 1..k + 5] == "outh" then Some(k + 5)
    else if k < |s| && (s[k] == 'S' || s[k] == 's') then Some(k + 1)
    else None
  }

  /** `[1-7] ?` and a direction, from position `j` of a match that started at `start`. */
  function PosiTail(s: string, start: nat, j: nat): (r: Option<Match>)
    requires start <= j <= |s|
    ensures r.Some? ==> r.value.start == start && j < r.value.end <= |s|
  {
    if j < |s| && '1' <= s[j] <= '7' then
      var k := if j + 1 < |s| && s[j + 1] == ' ' then j + 2 else j + 1;
      match Direction(s, k)
      case None => None
      case Some(e) => Some(Match(start, e, []))
    else
      None
  }

  /** Whether `t` occurs in `s` at position `i`. */
  predicate OccursAt(s: string, t: string, i: nat) {
    i + |t| <= |s| && s[i..i + |t|] == t
  }

  function LiteralAt(s: string, t: string, i: nat): (r: Option<Match>)
    requires i <= |s|
    ensures r.Some? <==> OccursAt(s, t, i)
    ensures r.Some? ==> r.value == Match(i, i + |t|, [])
  {
    if OccursAt(s, t, i) then Some(Match(i, i + |t|, [])) else None
  }

  function EndingDateAt(s: string, i: nat): (r: Option<Match>)
    requires i <= |s|
    ensures r.Some? ==> r.value.start == i && i + 6 <= r.value.end <= |s| && r.value.groups == []
  {
    match ShortNumberThen(s, i, "/-")
    case None => None
    case Some((_, j)) =>
      match ShortNumberThen(s, j, "/-")
      case None => None
      case Some((_, l)) =>
        var k := DigitRun(s, l);
        if k >= 2 then Some(Match(i, l + (if k < 4 then k else 4), [])) else None
  }

  /** `[Oo]bservation ?` and a fraction, with the wide or narrow total. */
  function ObservationAt(s: string, i: nat, wide: bool): (r: Option<Match>)
    requires i <= |s|
    ensures r.Some? ==> r.value.start == i && i + 15 <= r.value.end <= |s| && |r.value.groups| == 2
  {
    match ObservationHead(s, i)
    case None => None
    case Some(q) => FractionFrom(s, i, q, wide)
  }

  function ObservationAsWrittenAt(s: string, i: nat): (r: Option<Match>)
    requires i <= |s|
    ensures r.Some? ==> r.value.start == i && i < r.value.end <= |s| && |r.value.groups| == 2
    ensures r.Some? ==> s[r.value.end - 1] == ']'
  {
    if i < |s| && s[i] == 'i' then
      match ObservationHead(s, i + 1)
      case None => None
      case Some(q) =>
        match FractionFrom(s, i, q, true)
        case None => None
        case Some(m) =>
          if m.end < |s| && s[m.end] == ']' then Some(m.(end := m.end + 1)) else None
    else
      None
  }

  function OtherSaltTypeAt(s: string, i: nat): (r: Option<Match>)
    requires i <= |s|
    ensures r.Some? ==> r.value.start == i && i + 8 <= r.value.end <= |s| && r.value.groups == []
  {
    if i + 6 < |s| && (s[i] == 'O' || s[i] == 'o') && s[i + 1..i + 6] == "ther " && IsNameChar(s[i + 6]) then
      var k := Run(s, i + 7, IsNameOrSpace);
      if k >= 1 then Some(Match(i, i + 7 + k, [])) else None
    else
      None
  }

  /** The optional `[Pp]osi ?` prefix is tried first, as the greedy `?` does. */
  function PosiCodeAt(s: string, i: nat): (r: Option<Match>)
    requires i <= |s|
    ensures r.Some? ==> r.value.start == i && i < r.value.end <= |s| && r.value.groups == []
  {
    if i + 4 <= |s| && (s[i] == 'P' || s[i] == 'p') && s[i + 1..i + 4] == "osi" then
      PosiTail(s, i, if i + 4 < |s| && s[i + 4] == ' ' then i + 5 else i + 4)
    else
      PosiTail(s, i, i)
  }

  /** The match of `p` that starts exactly at position `i`, if any. */
  function MatchAt(p: Pattern, s: string, i: nat): (r: Option<Match>)
    requires i <= |s|
    ensures r.Some? ==> r.value.start == i && i <= r.value.end <= |s|
    ensures r.Some? ==> |r.value.groups| == GroupCount(p)
    ensures r.Some? && p.ObservationCommentAsWritten? ==> i < r.value.end && s[r.value.end - 1] == ']'
  {
    match p
    case Literal(t) => LiteralAt(s, t, i)
    case EndingDate => EndingDateAt(s, i)
    case Fraction => FractionFrom(s, i, i, false)
    case WeekObservation => ObservationAt(s, i, false)
    case ObservationComment => ObservationAt(s, i, true)
    case ObservationCommentAsWritten => ObservationAsWrittenAt(s, i)
    case OtherSaltType => OtherSaltTypeAt(s, i)
    case PosiCode => PosiCodeAt(s, i)
  }

  lemma MatchAtFraction(s: string, i: nat)
    requires i <= |s|
    ensures MatchAt(Fraction, s, i) == FractionFrom(s, i, i, false)
  {
  }

  lemma MatchAtWeekObservation(s: string, i: nat)
    requires i <= |s|
    ensures MatchAt(WeekObservation, s, i) == ObservationAt(s, i, false)
  {
  }

  /** The match of `p` at each position of `s`, the end included. */
  function MatchesOf(p: Pattern, s: string): (ms: seq<Option<Match>>)
    ensures |ms| == |s| + 1
    ensures forall i :: 0 <= i <= |s| ==> ms[i] == MatchAt(p, s, i)
  {
    seq(|s| + 1, i requires 0 <= i <= |s| => MatchAt(p, s, i))
  }

  /** The first index from `from` on at which `ms` holds a match, or `|ms|`. */
  function FirstIndex(ms: seq<Option<Match>>, from: nat): (k: nat)
    requires from <= |ms|
    ensures from <= k <= |ms| && (k < |ms| ==> ms[k].Some?)
    ensures forall i :: from <= i < k ==> ms[i].None?
    decreases |ms| - from
  {
    if from == |ms| || ms[from].Some? then from else FirstIndex(ms, from + 1)
  }

  /** The first index is the only one with its two properties. */
  lemma FirstIndexIs(ms: seq<Option<Match>>, from: nat, k: nat)
    requires from <= k <= |ms| && (k < |ms| ==> ms[k].Some?)
    requires forall i :: from <= i < k ==> ms[i].None?
    ensures FirstIndex(ms, from) == k
  {
    var f := FirstIndex(ms, from);
    if f < k {
      assert ms[f].None?;
    } else if k < f {
      assert ms[k].None?;
    }
  }

  /** `re.search(p, s)` restricted to positions from `from` on: the leftmost match. */
  function Search(p: Pattern, s: string, from: nat): (r: Option<Match>)
    requires from <= |s|
    ensures r.Some? ==> from <= r.value.start <= |s| && MatchAt(p, s, r.value.start) == r
  {
    var ms := MatchesOf(p, s);
    var k := FirstIndex(ms, from);
    if k < |ms| then ms[k] else None
  }

  /** The search finds the leftmost match: no position before the one it
      reports, or no position at all when it reports none, matches. */
  lemma SearchIsLeftmost(p: Pattern, s: string, from: nat)
    requires from <= |s|
    ensures forall i: nat :: from <= i <= |s| && (Search(p, s, from).None? || i < Search(p, s, from).value.start)
                             ==> MatchAt(p, s, i).None?
  {
    var ms := MatchesOf(p, s);
    var k := FirstIndex(ms, from);
    forall i: nat | from <= i <= |s| && (Search(p, s, from).None? || i < Search(p, s, from).value.start)
      ensures MatchAt(p, s, i).None?
    {
      assert i < k;
    }
  }

  /** Positions where `p` does not match are skipped by the search. */
  lemma SearchSkips(p: Pattern, s: string, from: nat, to: nat)
    requires from <= to <= |s|
    requires forall i: nat :: from <= i < to ==> MatchAt(p, s, i).None?
    ensures Search(p, s, from) == Search(p, s, to)
  {
    var ms := MatchesOf(p, s);
    var k := FirstIndex(ms, to);
    forall i | from <= i < k
      ensures ms[i].None?
    {
      if i < to {
        assert MatchAt(p, s, i).None?;
      }
    }
    FirstIndexIs(ms, from, k);
  }

  /** A match at the first position is the one the search reports. */
  lemma SearchAtStart(p: Pattern, s: string)
    requires MatchAt(p, s, 0).Some?
    ensures Search(p, s, 0) == MatchAt(p, s, 0)
  {
    FirstIndexIs(MatchesOf(p, s), 0, 0);
  }

  lemma SearchStep(p: Pattern, s: string, from: nat)
    requires from < |s| && MatchAt(p, s, from).None?
    ensures Search(p, s, from) == Search(p, s, from + 1)
  {
    SearchSkips(p, s, from, from + 1);
  }

  /** A digit pattern never matches at a position that holds no digit. */
  lemma FractionNeedsDigit(s: string, i: nat)
    requires i < |s| && !IsDigit(s[i])
    ensures MatchAt(Fraction, s, i).None?
  {
    RunIs(s, i, IsDigit, 0);
  }

  lemma NoFractionBefore(s: string, q: nat)
    requires q <= |s| && forall i :: 0 <= i < q ==> !IsDigit(s[i])
    ensures forall i: nat :: i < q ==> MatchAt(Fraction, s, i).None?
  {
    forall i: nat | i < q
      ensures MatchAt(Fraction, s, i).None?
    {
      FractionNeedsDigit(s, i);
    }
  }

  /** Behind a prefix without digits, the search for a fraction finds the
      one that starts right after the prefix. */
  lemma FractionAfterPrefix(s: string, q: nat)
    requires q <= |s| && forall i :: 0 <= i < q ==> !IsDigit(s[i])
    requires MatchAt(Fraction, s, q).Some?
    ensures Search(Fraction, s, 0) == MatchAt(Fraction, s, q)
  {
    NoFractionBefore(s, q);
    SearchSkips(Fraction, s, 0, q);
  }

  /** A shown number sitting at `i` and not followed by a digit is the digit
      run at `i`. */
  lemma ShowRunAt(text: string, i: nat, n: nat)
    requires i + |Show(n)| <= |text| && text[i..i + |Show(n)|] == Show(n)
    requires i + |Show(n)| == |text| || !IsDigit(text[i + |Show(n)|])
    ensures DigitRun(text, i) == |Show(n)|
  {
    var k := |Show(n)|;
    forall j | i <= j < i + k
      ensures IsDigit(text[j])
    {
      assert text[j] == text[i..i + k][j - i];
    }
    RunIs(text, i, IsDigit, k);
  }

  /** A shown number of at most two digits followed by a separator is read
      back. */
  lemma ShortNumberShow(text: string, i: nat, n: nat, seps: string)
    requires n <= 99 && i + |Show(n)| < |text| && text[i..i + |Show(n)|] == Show(n)
    requires text[i + |Show(n)|] in seps && !IsDigit(text[i + |Show(n)|])
    ensures ShortNumberThen(text, i, seps) == Some((n, i + |Show(n)| + 1))
  {
    assert Pow10(2) == 100;
    ShowLength(n, 2);
    NumberValueShow(n);
    ShowRunAt(text, i, n);
  }

  /** A shown fraction `good/total` with a two-digit total and no digit after
      it is read back by both the narrow and the wide fraction. */
  lemma FractionShown(text: string, start: nat, q: nat, good: nat, total: nat, wide: bool)
    requires start <= q && good <= 99 && 10 <= total <= 99
    requires var t := q + |Show(good)| + 1;
             && t + |Show(total)| <= |text| && text[q..q + |Show(good)|] == Show(good)
             && text[q + |Show(good)|] == '/' && text[t..t + |Show(total)|] == Show(total)
             && (t + |Show(total)| == |text| || !IsDigit(text[t + |Show(total)|]))
    ensures FractionFrom(text, start, q, wide) == Some(Match(start, q + |Show(good)| + 3, [good, total]))
  {
    var t := q + |Show(good)| + 1;
    ShortNumberShow(text, q, good, "/");
    TwoDigitsAt(text, t, total);
    FractionOfParts(text, start, q, good, t, total, wide);
  }

  /** A shown two-digit number is a digit run of two with that value. */
  lemma TwoDigitsAt(text: string, t: nat, n: nat)
    requires 10 <= n <= 99 && t + |Show(n)| <= |text| && text[t..t + |Show(n)|] == Show(n)
    requires t + |Show(n)| == |text| || !IsDigit(text[t + |Show(n)|])
    ensures t + 2 <= |text| && DigitRun(text, t) == 2 && NumberValue(text[t..t + 2]) == n
  {
    assert Pow10(1) == 10 && Pow10(2) == 100;
    ShowLength(n, 2);
    NumberValueShow(n);
    ShowRunAt(text, t, n);
  }

  /** A fraction is determined by its number, its separator and a two-digit
      run after it. */
  lemma FractionOfParts(s: string, start: nat, q: nat, good: nat, t: nat, total: nat, wide: bool)
    requires start <= q <= |s| && ShortNumberThen(s, q, "/") == Some((good, t))
    requires t + 2 <= |s| && DigitRun(s, t) == 2 && NumberValue(s[t..t + 2]) == total
    ensures FractionFrom(s, start, q, wide) == Some(Match(start, t + 2, [good, total]))
  {
  }

  /** `re.search(p, s) is not None`. */
  predicate Found(p: Pattern, s: string) {
    Search(p, s, 0).Some?
  }

  lemma FoundIff(p: Pattern, s: string)
    ensures Found(p, s) <==> exists i: nat :: i <= |s| && MatchAt(p, s, i).Some?
  {
    SearchIsLeftmost(p, s, 0);
    if Found(p, s) {
      var i := Search(p, s, 0).value.start;
      assert MatchAt(p, s, i).Some?;
    }
  }

  /** Python's `t in s` for strings. */
  predicate Contains(s: string, t: string) {
    Found(Literal(t), s)
  }

  lemma ContainsIff(s: string, t: string)
    ensures Contains(s, t) <==> exists i: nat :: OccursAt(s, t, i)
  {
    FoundIff(Literal(t), s);
    if exists i: nat :: OccursAt(s, t, i) {
      var i: nat :| OccursAt(s, t, i);
      assert MatchAt(Literal(t), s, i).Some?;
    }
    if Contains(s, t) {
      var i: nat :| i <= |s| && MatchAt(Literal(t), s, i).Some?;
      assert OccursAt(s, t, i);
    }
  }

  /** A position code is, in effect, a digit 1-7, an optional space and one of
      N, n, S, s: the optional `Posi` prefix and the long forms `North` and
      `South` do not change which texts contain one. */
  predicate ShortPosiAt(s: string, j: nat) {
    j < |s| && '1' <= s[j] <= '7'
    && ((j + 1 < |s| && (s[j + 1] == 'N' || s[j + 1] == 'n' || s[j + 1] == 'S' || s[j + 1] == 's'))
        || (j + 2 < |s| && s[j + 1] == ' ' && (s[j + 2] == 'N' || s[j + 2] == 'n' || s[j + 2] == 'S' || s[j + 2] == 's')))
  }

  lemma {:induction false} PosiTailIff(s: string, start: nat, j: nat)
    requires start <= j <= |s|
    ensures PosiTail(s, start, j).Some? <==> ShortPosiAt(s, j)
  {
    if j < |s| && '1' <= s[j] <= '7' {
      var k := if j + 1 < |s| && s[j + 1] == ' ' then j + 2 else j + 1;
      if k < |s| && (s[k] == 'N' || s[k] == 'n' || s[k] == 'S' || s[k] == 's') {
        assert Direction(s, k).Some?;
      }
    }
  }

  lemma {:induction false} FoundPosiIff(s: string)
    ensures Found(PosiCode, s) <==> exists j: nat :: j < |s| && ShortPosiAt(s, j)
  {
    if Found(PosiCode, s) {
      var i := Search(PosiCode, s, 0).value.start;
      if i + 4 <= |s| && (s[i] == 'P' || s[i] == 'p') && s[i + 1..i + 4] == "osi" {
        var q := if i + 4 < |s| && s[i + 4] == ' ' then i + 5 else i + 4;
        PosiTailIff(s, i, q);
      } else {
        PosiTailIff(s, i, i);
      }
    }
    if exists j: nat :: j < |s| && ShortPosiAt(s, j) {
      var j: nat :| j < |s| && ShortPosiAt(s, j);
      PosiTailIff(s, j, j);
      assert !((s[j] == 'P' || s[j] == 'p'));
      assert MatchAt(PosiCode, s, j).Some?;
      FoundIff(PosiCode, s);
    }
  }

  /** The source's literal for the validator's comment rule accepts only
      comments that contain a `]`, so ordinary comments never parse. */
  lemma ObservationCommentAsWrittenNeedsBracket(s: string)
    requires forall i :: 0 <= i < |s| ==> s[i] != ']'
    ensures Search(ObservationCommentAsWritten, s, 0).None?
  {
  }
}
