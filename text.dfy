/** The string operations the planner applies to user messages: case folding, substring
    tests, `strip`, `title` and decimal digit runs. Character classes are the ASCII ones. */
module Text {
  import opened Basics

  /** `str.isspace` on ASCII: tab to carriage return, the separators 0x1C-0x1F and space. */
  predicate IsSpace(c: char)
  {
    c == ' ' || 9 <= c as int <= 13 || 28 <= c as int <= 31
  }

  predicate IsDigit(c: char)
  {
    '0' <= c <= '9'
  }

  predicate IsLetter(c: char)
  {
    'a' <= c <= 'z' || 'A' <= c <= 'Z'
  }

  /** The characters of the regex class `\w`. */
  predicate IsWordChar(c: char)
  {
    IsLetter(c) || IsDigit(c) || c == '_'
  }

  function LowerChar(c: char): char
  {
    if 'A' <= c <= 'Z' then (c as int + 32) as char else c
  }

  function UpperChar(c: char): char
  {
    if 'a' <= c <= 'z' then (c as int - 32) as char else c
  }

  /** `s.lower()`. */
  function Lower(s: string): (r: string)
    ensures |r| == |s|
    ensures forall i :: 0 <= i < |s| ==> r[i] == LowerChar(s[i])
  {
    if s == [] then [] else [LowerChar(s[0])] + Lower(s[1..])
  }

  /** A value is truthy in Python when it is present and not the empty string. */
  predicate Truthy(s: Option<string>)
  {
    s.Some? && s.value != ""
  }

  /** `p` occurs in `s` starting at index `i`. */
  predicate OccursAt(s: string, p: string, i: nat)
  {
    i + |p| <= |s| && s[i..i + |p|] == p
  }

  function ContainsFrom(s: string, p: string, i: nat): bool
    decreases |s| - i
  {
    if i + |p| > |s| then false
    else OccursAt(s, p, i) || ContainsFrom(s, p, i + 1)
  }

  /** Python's `p in s` on strings, scanning start indexes left to right. */
  function Contains(s: string, p: string): bool
  {
    ContainsFrom(s, p, 0)
  }

  lemma {:induction false} ContainsFromMeans(s: string, p: string, i: nat)
    ensures ContainsFrom(s, p, i) <==> exists j: nat :: i <= j && OccursAt(s, p, j)
    decreases |s| - i
  {
    if i + |p| <= |s| {
      ContainsFromMeans(s, p, i + 1);
      if !ContainsFrom(s, p, i) {
        forall j: nat | i <= j
          ensures !OccursAt(s, p, j)
        {
          if j == i {
          } else {
            assert i + 1 <= j;
          }
        }
      }
    }
  }

  /** The scan finds `p` exactly when `p` occurs somewhere in `s`. */
  lemma ContainsMeans(s: string, p: string)
    ensures Contains(s, p) <==> exists j: nat :: OccursAt(s, p, j)
  {
    ContainsFromMeans(s, p, 0);
  }

  /** `s.lstrip()`. */
  function StripLeft(s: string): (r: string)
    ensures |r| <= |s| && r == s[|s| - |r|..]
    ensures forall j :: 0 <= j < |s| - |r| ==> IsSpace(s[j])
    ensures r != [] ==> !IsSpace(r[0])
  {
    if s != [] && IsSpace(s[0]) then StripLeft(s[1..]) else s
  }

  /** `s.rstrip()`. */
  function StripRight(s: string): (r: string)
    ensures |r| <= |s| && r == s[..|r|]
    ensures forall j :: |r| <= j < |s| ==> IsSpace(s[j])
    ensures r != [] ==> !IsSpace(r[|r| - 1])
  {
    if s != [] && IsSpace(s[|s| - 1]) then StripRight(s[..|s| - 1]) else s
  }

  /** `s.strip()`. */
  function Strip(s: string): string
  {
    StripRight(StripLeft(s))
  }

  /** One character of `str.title`: a letter is upper-cased at the start of a word and
      lower-cased inside one; anything else is left as it is. */
  function TitleChar(c: char, afterLetter: bool): char
  {
    if afterLetter then LowerChar(c) else UpperChar(c)
  }

  function TitleFrom(s: string, afterLetter: bool): (r: string)
    ensures |r| == |s|
    ensures forall i :: 0 <= i < |s| ==>
              r[i] == TitleChar(s[i], if i == 0 then afterLetter else IsLetter(s[i - 1]))
  {
    if s == [] then []
    else
      var rest := TitleFrom(s[1..], IsLetter(s[0]));
      assert forall i :: 1 <= i < |s| ==> s[1..][i - 1] == s[i];
      [TitleChar(s[0], afterLetter)] + rest
  }

  /** `s.title()`: a letter is capitalised exactly when the character before it is not a letter. */
  function Title(s: string): (r: string)
    ensures |r| == |s|
    ensures forall i :: 0 <= i < |s| ==> r[i] == TitleChar(s[i], i > 0 && IsLetter(s[i - 1]))
  {
    TitleFrom(s, false)
  }

  /** The length of the run of digits that starts at index `i`. */
  function DigitRun(s: string, i: nat): (n: nat)
    requires i <= |s|
    ensures i + n <= |s|
    ensures forall j :: i <= j < i + n ==> IsDigit(s[j])
    ensures i + n < |s| ==> !IsDigit(s[i + n])
    decreases |s| - i
  {
    if i < |s| && IsDigit(s[i]) then 1 + DigitRun(s, i + 1) else 0
  }

  function DigitValue(c: char): nat
  {
    if IsDigit(c) then c as int - '0' as int else 0
  }

  /** `int(ds)` for a string of decimal digits. */
  function DigitsValue(ds: string): nat
  {
    if ds == [] then 0 else 10 * DigitsValue(ds[..|ds| - 1]) + DigitValue(ds[|ds| - 1])
  }

  /** The number whose first digit is at index `p`: `int` of the maximal run of digits there. */
  function NumberAt(s: string, p: nat): Option<nat>
  {
    if p < |s| && IsDigit(s[p]) then Some(DigitsValue(s[p..p + DigitRun(s, p)])) else None
  }

  function DigitChar(d: nat): char
    requires d < 10
  {
    ('0' as int + d) as char
  }

  /** `str(n)`: the decimal numeral of `n`, most significant digit first. */
  function Decimal(n: nat): (r: string)
    ensures r != [] && forall i :: 0 <= i < |r| ==> IsDigit(r[i])
  {
    if n < 10 then [DigitChar(n)] else Decimal(n / 10) + [DigitChar(n % 10)]
  }

  /** `int(str(n)) == n`. */
  lemma {:induction false} DigitsValueDecimal(n: nat)
    ensures DigitsValue(Decimal(n)) == n
  {
    if n >= 10 {
      var ds := Decimal(n);
      assert ds[..|ds| - 1] == Decimal(n / 10);
      DigitsValueDecimal(n / 10);
    }
  }

  /** A decimal numeral that stands at index `p` and is not followed by another digit is
      read back there, as a digit run of its own length. */
  lemma DecimalAt(s: string, p: nat, n: nat)
    requires p + |Decimal(n)| <= |s| && s[p..p + |Decimal(n)|] == Decimal(n)
    requires p + |Decimal(n)| < |s| ==> !IsDigit(s[p + |Decimal(n)|])
    ensures DigitRun(s, p) == |Decimal(n)| && NumberAt(s, p) == Some(n)
  {
    var ds := Decimal(n);
    assert forall j :: p <= j < p + |ds| ==> s[j] == ds[j - p];
    assert DigitRun(s, p) == |ds|;
    DigitsValueDecimal(n);
  }

  /** A decimal numeral that is not followed by another digit is read back as its value,
      wherever it stands in the text. */
  lemma NumberAtDecimal(pre: string, n: nat, post: string)
    requires post == [] || !IsDigit(post[0])
    ensures NumberAt(pre + Decimal(n) + post, |pre|) == Some(n)
  {
    var s := pre + Decimal(n) + post;
    assert s[|pre|..|pre| + |Decimal(n)|] == Decimal(n);
    assert |pre| + |Decimal(n)| < |s| ==> s[|pre| + |Decimal(n)|] == post[0];
    DecimalAt(s, |pre|, n);
  }
}
