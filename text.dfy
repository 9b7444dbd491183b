/** The string operations the auditor applies to cell text: Python's
    `str.strip`, `str.lower`, `str.upper`, runs of characters of one class,
    and decimal numerals. */
module Text {

  /** The characters Python's `str.isspace` accepts, which `str.strip()` and
      the regular-expression class `\s` remove or match. */
  predicate IsSpace(c: char) {
    c == ' ' || ('\t' <= c <= '\r') || ('\U{1c}' <= c <= '\U{1f}')
    || c == '\U{85}' || c == '\U{a0}' || c == '\U{1680}'
    || ('\U{2000}' <= c <= '\U{200a}') || c == '\U{2028}' || c == '\U{2029}'
    || c == '\U{202f}' || c == '\U{205f}' || c == '\U{3000}'
  }

  predicate IsDigit(c: char) {
    '0' <= c <= '9'
  }

  predicate IsUpperAscii(c: char) {
    'A' <= c <= 'Z'
  }

  /** Removes leading whitespace. */
  function TrimStart(s: string): (r: string)
    ensures |r| <= |s|
    ensures r == [] || !IsSpace(r[0])
    ensures forall i :: 0 <= i < |s| - |r| ==> IsSpace(s[i])
  {
    if s != [] && IsSpace(s[0]) then TrimStart(s[1..]) else s
  }

  /** What `TrimStart` keeps is a suffix of its input. */
  lemma {:induction false} TrimStartSuffix(s: string)
    ensures TrimStart(s) == s[|s| - |TrimStart(s)|..]
    decreases |s|
  {
    if s != [] && IsSpace(s[0]) {
      TrimStartSuffix(s[1..]);
    }
  }

  /** Removes trailing whitespace. */
  function TrimEnd(s: string): (r: string)
    ensures |r| <= |s|
    ensures r == [] || !IsSpace(r[|r| - 1])
    ensures forall i :: |r| <= i < |s| ==> IsSpace(s[i])
  {
    if s != [] && IsSpace(s[|s| - 1]) then TrimEnd(s[..|s| - 1]) else s
  }

  /** What `TrimEnd` keeps is a prefix of its input. */
  lemma {:induction false} TrimEndPrefix(s: string)
    ensures TrimEnd(s) == s[..|TrimEnd(s)|]
    decreases |s|
  {
    if s != [] && IsSpace(s[|s| - 1]) {
      TrimEndPrefix(s[..|s| - 1]);
    }
  }

  /** Python's `str.strip()` with no argument. */
  function Strip(s: string): (r: string)
    ensures |r| <= |s|
    ensures r == [] || (!IsSpace(r[0]) && !IsSpace(r[|r| - 1]))
  {
    TrimEndPrefix(TrimStart(s));
    TrimEnd(TrimStart(s))
  }

  /** Text with no whitespace at either end is left as it is. */
  lemma StripUnchanged(s: string)
    requires s == [] || (!IsSpace(s[0]) && !IsSpace(s[|s| - 1]))
    ensures Strip(s) == s
  {
  }

  /** One trailing whitespace character after stripped text is removed. */
  lemma StripTrailingSpace(t: string, c: char)
    requires t != [] && !IsSpace(t[0]) && !IsSpace(t[|t| - 1]) && IsSpace(c)
    ensures Strip(t + [c]) == t
  {
    assert TrimStart(t + [c]) == t + [c];
    assert (t + [c])[..|t + [c]| - 1] == t;
    assert TrimEnd(t + [c]) == TrimEnd(t);
  }

  /** Case mapping is modelled on ASCII letters only. */
  function LowerChar(c: char): (r: char)
    ensures !IsUpperAscii(r)
  {
    if IsUpperAscii(c) then (c as int + 32) as char else c
  }

  function UpperChar(c: char): char {
    if 'a' <= c <= 'z' then (c as int - 32) as char else c
  }

  /** Python's `str.lower()`. */
  function Lower(s: string): (r: string)
    ensures |r| == |s|
    ensures forall i :: 0 <= i < |s| ==> r[i] == LowerChar(s[i])
  {
    seq(|s|, i requires 0 <= i < |s| => LowerChar(s[i]))
  }

  /** Python's `str.upper()`. */
  function Upper(s: string): (r: string)
    ensures |r| == |s|
    ensures forall i :: 0 <= i < |s| ==> r[i] == UpperChar(s[i])
  {
    seq(|s|, i requires 0 <= i < |s| => UpperChar(s[i]))
  }

  /** Text without surrounding whitespace or lower-case letters is its own
      stripped upper-case form. */
  lemma UpperStripUnchanged(s: string)
    requires s == [] || (!IsSpace(s[0]) && !IsSpace(s[|s| - 1]))
    requires forall i :: 0 <= i < |s| ==> !('a' <= s[i] <= 'z')
    ensures Upper(Strip(s)) == s
  {
    StripUnchanged(s);
    assert Upper(s) == s;
  }

  /** A lowered string contains no upper-case letter, so it is never equal to
      a string that does. */
  lemma LowerDiffersFromUpperCased(s: string, t: string, k: nat)
    requires k < |t| && IsUpperAscii(t[k])
    ensures Lower(s) != t
  {
  }

  /** The length of the run of characters of class `inClass` starting at `i`. */
  function Run(s: string, i: nat, inClass: char -> bool): (k: nat)
    requires i <= |s|
    ensures i + k <= |s|
    ensures forall j :: i <= j < i + k ==> inClass(s[j])
    ensures i + k == |s| || !inClass(s[i + k])
    decreases |s| - i
  {
    if i < |s| && inClass(s[i]) then 1 + Run(s, i + 1, inClass) else 0
  }

  /** A run is determined by where it stops. */
  lemma {:induction false} RunIs(s: string, i: nat, inClass: char -> bool, k: nat)
    requires i + k <= |s|
    requires forall j :: i <= j < i + k ==> inClass(s[j])
    requires i + k == |s| || !inClass(s[i + k])
    ensures Run(s, i, inClass) == k
    decreases k
  {
    if k > 0 {
      RunIs(s, i + 1, inClass, k - 1);
    }
  }

  predicate AllDigits(s: string) {
    forall i :: 0 <= i < |s| ==> IsDigit(s[i])
  }

  function DigitValue(c: char): (r: nat)
    requires IsDigit(c)
    ensures r <= 9
  {
    c as int - '0' as int
  }

  function DigitChar(d: nat): (c: char)
    requires d <= 9
    ensures IsDigit(c) && DigitValue(c) == d
  {
    (d + '0' as int) as char
  }

  function Pow10(n: nat): (r: nat)
    ensures r >= 1
  {
    if n == 0 then 1 else 10 * Pow10(n - 1)
  }

  /** Python's `int()` applied to a string of decimal digits. */
  function NumberValue(s: string): (r: nat)
    requires AllDigits(s)
    ensures r < Pow10(|s|)
  {
    if s == [] then 0 else 10 * NumberValue(s[..|s| - 1]) + DigitValue(s[|s| - 1])
  }

  /** Python's `str()` of a natural number: decimal, no leading zeros. */
  function Show(n: nat): (r: string)
    ensures r != [] && AllDigits(r)
  {
    if n < 10 then [DigitChar(n)] else Show(n / 10) + [DigitChar(n % 10)]
  }

  /** Reading back a shown number gives the number. */
  lemma {:induction false} NumberValueShow(n: nat)
    ensures NumberValue(Show(n)) == n
  {
    if n >= 10 {
      var s := Show(n);
      assert s[..|s| - 1] == Show(n / 10);
      NumberValueShow(n / 10);
    }
  }

  lemma ShowTwoDigits(n: nat)
    requires 10 <= n <= 99
    ensures |Show(n)| == 2
  {
    assert Pow10(1) == 10 && Pow10(2) == 100;
    ShowLength(n, 2);
  }

  /** A number below 10^k is shown with at most k digits, one of at least 10^(k-1) with at least k. */
  lemma {:induction false} ShowLength(n: nat, k: nat)
    ensures n < Pow10(k) ==> |Show(n)| <= k || k == 0
    ensures k >= 1 && n >= Pow10(k - 1) ==> |Show(n)| >= k
  {
    if n >= 10 && k >= 1 {
      ShowLength(n / 10, k - 1);
    }
  }
}
