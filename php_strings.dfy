/** The few PHP string built-ins the SDK relies on, on ASCII text. */
module PhpStrings {

  /** The character of one decimal digit. */
  function DigitChar(d: nat): (c: char)
    requires d < 10
    ensures '0' <= c <= '9'
    ensures c as int - '0' as int == d
  {
    (d + '0' as int) as char
  }

  /** PHP's conversion of a non-negative integer to its decimal text (string interpolation, `.`). */
  function NatToString(n: nat): (s: string)
    ensures |s| > 0
    ensures forall i :: 0 <= i < |s| ==> '0' <= s[i] <= '9'
    ensures |s| > 1 ==> s[0] != '0'
  {
    if n < 10 then [DigitChar(n)] else NatToString(n / 10) + [DigitChar(n % 10)]
  }

  /** The value of a string of decimal digits; the reading side of `NatToString`. */
  function ParseDecimal(s: string): nat
    requires forall i :: 0 <= i < |s| ==> '0' <= s[i] <= '9'
  {
    if |s| == 0 then 0
    else ParseDecimal(s[..|s| - 1]) * 10 + (s[|s| - 1] as int - '0' as int)
  }

  /** Reading back the decimal text of `n` gives `n`. */
  lemma {:induction false} ParseNatToString(n: nat)
    ensures ParseDecimal(NatToString(n)) == n
  {
    if n >= 10 {
      var s := NatToString(n);
      assert s[..|s| - 1] == NatToString(n / 10);
      ParseNatToString(n / 10);
    }
  }

  /** Two numbers with the same decimal text are equal. */
  lemma NatToStringInjective(m: nat, n: nat)
    requires NatToString(m) == NatToString(n)
    ensures m == n
  {
    ParseNatToString(m);
    ParseNatToString(n);
  }

  predicate IsUpper(c: char) { 'A' <= c <= 'Z' }
  predicate IsLower(c: char) { 'a' <= c <= 'z' }

  /** `strtolower` on one character: only A-Z change. */
  function LowerChar(c: char): (d: char)
    ensures !IsUpper(d)
    ensures IsUpper(c) ==> d as int == c as int + 32
    ensures !IsUpper(c) ==> d == c
  {
    if IsUpper(c) then (c as int + 32) as char else c
  }

  /** `ucfirst` on one character: only a-z change. */
  function UpperChar(c: char): (d: char)
    ensures !IsLower(d)
    ensures IsLower(c) ==> d as int == c as int - 32
    ensures !IsLower(c) ==> d == c
  {
    if IsLower(c) then (c as int - 32) as char else c
  }

  /** PHP's `strtolower`. */
  function ToLower(s: string): (r: string)
    ensures |r| == |s|
    ensures forall i :: 0 <= i < |s| ==> r[i] == LowerChar(s[i])
  {
    seq(|s|, i requires 0 <= i < |s| => LowerChar(s[i]))
  }

  /** PHP's `ucfirst`: the first character upper-cased, the rest left alone. */
  function UcFirst(s: string): (r: string)
    ensures |r| == |s|
    ensures |s| > 0 ==> r[0] == UpperChar(s[0]) && r[1..] == s[1..]
  {
    if |s| == 0 then s else [UpperChar(s[0])] + s[1..]
  }

  /** `ucfirst` of a concatenation touches only the first non-empty part. */
  lemma UcFirstConcat(a: string, b: string)
    ensures UcFirst(a + b) == if |a| > 0 then UcFirst(a) + b else UcFirst(b)
  {
    if |a| > 0 {
      assert (a + b)[1..] == a[1..] + b;
    } else {
      assert a + b == b;
    }
  }

  /** `ucfirst` of two words joined by a space capitalises only the first word. */
  lemma UcFirstSpaceJoin(a: string, b: string)
    ensures UcFirst(a + " " + b) == UcFirst(a) + " " + b
  {
    UcFirstConcat(a, " " + b);
    assert a + " " + b == a + (" " + b);
    if |a| == 0 {
      assert UcFirst(" " + b) == " " + b;
    }
  }

  /**
   * PHP's `str_replace(search, replace, subject)` for one search string: every
   * occurrence, scanned left to right without overlap, is replaced; an empty
   * search string leaves the subject alone.
   */
  function StrReplace(search: string, replace: string, subject: string): string
    decreases |subject|
  {
    if |search| == 0 || |subject| < |search| then subject
    else if subject[..|search|] == search then
      replace + StrReplace(search, replace, subject[|search|..])
    else
      [subject[0]] + StrReplace(search, replace, subject[1..])
  }

  /** Replacing a string by itself changes nothing. */
  lemma {:induction false} StrReplaceSelf(search: string, subject: string)
    ensures StrReplace(search, search, subject) == subject
    decreases |subject|
  {
    if |search| == 0 || |subject| < |search| {
    } else if subject[..|search|] == search {
      StrReplaceSelf(search, subject[|search|..]);
      assert subject == search + subject[|search|..];
    } else {
      StrReplaceSelf(search, subject[1..]);
      assert subject == [subject[0]] + subject[1..];
    }
  }
}
