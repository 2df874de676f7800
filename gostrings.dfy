/** The pieces of Go's standard library that the stack renderer relies on:
    strings.Index, strings.Replace with a count of one, and the decimal
    rendering of an int by fmt.Sprint.  Go strings are byte strings; here a
    string is a sequence of characters, which finds the same first occurrence
    of the ASCII tokens the renderer looks for. */
module GoStrings {

  datatype Option<T> = None | Some(value: T)

  function Min(a: nat, b: nat): nat {
    if a <= b then a else b
  }

  /** `pat` occurs in `s` starting at index `i`. */
  predicate OccursAt(s: string, pat: string, i: nat) {
    i + |pat| <= |s| && s[i..i + |pat|] == pat
  }

  predicate Contains(s: string, pat: string) {
    exists i: nat :: i <= |s| && OccursAt(s, pat, i)
  }

  /** The first index at or after `from` where `pat` occurs in `s`. */
  function IndexFrom(s: string, pat: string, from: nat): (r: Option<nat>)
    requires from <= |s|
    decreases |s| - from
    ensures r.Some? ==> from <= r.value && OccursAt(s, pat, r.value)
    ensures r.Some? ==> forall j: nat :: from <= j < r.value ==> !OccursAt(s, pat, j)
    ensures r.None? ==> forall j: nat :: from <= j ==> !OccursAt(s, pat, j)
  {
    if |s| < from + |pat| then None
    else if s[from..from + |pat|] == pat then Some(from)
    else if from == |s| then None
    else IndexFrom(s, pat, from + 1)
  }

  /** strings.Index: the first occurrence of `pat` in `s`, if any. */
  function Index(s: string, pat: string): (r: Option<nat>)
    ensures r.None? <==> !Contains(s, pat)
    ensures r.Some? ==> OccursAt(s, pat, r.value)
    ensures r.Some? ==> forall j: nat :: j < r.value ==> !OccursAt(s, pat, j)
  {
    IndexFrom(s, pat, 0)
  }

  /** strings.Replace(s, pat, rep, 1): replace the first occurrence only. */
  function ReplaceFirst(s: string, pat: string, rep: string): (r: string)
    ensures !Contains(s, pat) ==> r == s
  {
    match Index(s, pat)
    case None => s
    case Some(k) => s[..k] + rep + s[k + |pat|..]
  }

  /** Replacing the first occurrence of `pat` in `s == a + pat + b`, when
      none starts inside `a`, yields `a + rep + b`: the replacement lands
      exactly on the first occurrence and leaves the text around it alone. */
  lemma ReplaceFirstAt(s: string, a: string, pat: string, b: string, rep: string)
    requires s == a + pat + b
    requires forall j: nat :: j < |a| ==> !OccursAt(s, pat, j)
    ensures ReplaceFirst(s, pat, rep) == a + rep + b
  {
    assert s[|a|..|a| + |pat|] == pat;
    assert OccursAt(s, pat, |a|);
    assert Index(s, pat) == Some(|a|);
    assert s[..|a|] == a;
    assert s[|a| + |pat|..] == b;
  }

  /** A window that covers a mismatching character is not an occurrence. */
  lemma MismatchBlocks(s: string, pat: string, j: nat, q: nat)
    requires j <= q < j + |pat| && q < |s| && s[q] != pat[q - j]
    ensures !OccursAt(s, pat, j)
  {
    if j + |pat| <= |s| {
      assert s[j..j + |pat|][q - j] == s[q];
    }
  }

  /** No occurrence of `pat` starts inside the middle part `a` of `p + a + b`
      when `a` holds none and the first character of `b` is not in `pat`. */
  lemma NoOccurrenceInside(p: string, a: string, b: string, pat: string, k: nat)
    requires k < |a| && !Contains(a, pat)
    requires b != [] && b[0] !in pat
    ensures !OccursAt(p + a + b, pat, |p| + k)
  {
    var s := p + a + b;
    var j := |p| + k;
    if k + |pat| <= |a| {
      assert s[j..j + |pat|] == a[k..k + |pat|];
      assert !OccursAt(a, pat, k);
    } else {
      var q := |p| + |a|;
      assert s[q] == b[0];
      assert pat[q - j] in pat;
      MismatchBlocks(s, pat, j, q);
    }
  }

  // ---------------------------------------------------------------------
  // fmt.Sprint of an int: optional minus sign, then decimal digits.

  predicate IsDigit(c: char) {
    '0' <= c <= '9'
  }

  predicate IsDigits(s: string) {
    forall i :: 0 <= i < |s| ==> IsDigit(s[i])
  }

  function DigitChar(d: nat): (c: char)
    requires d < 10
    ensures IsDigit(c)
  {
    (('0' as int) + d) as char
  }

  /** The decimal digits of `n`, most significant first, without leading zeros. */
  function Digits(n: nat): (r: string)
    ensures |r| > 0 && IsDigits(r)
    ensures (|r| > 1 ==> r[0] != '0')
  {
    if n < 10 then [DigitChar(n)] else Digits(n / 10) + [DigitChar(n % 10)]
  }


  /** The value of a string of decimal digits. */
  function DigitsValue(s: string): nat
    requires IsDigits(s)
  {
    if s == [] then 0 else DigitsValue(s[..|s| - 1]) * 10 + (s[|s| - 1] as int - '0' as int)
  }

  /** Parses what Itoa prints: an optional minus sign and decimal digits. */
  function Atoi(s: string): Option<int> {
    if s != [] && s[0] == '-' && s[1..] != [] && IsDigits(s[1..]) then Some(0 - DigitsValue(s[1..]) as int)
    else if s != [] && IsDigits(s) then Some(DigitsValue(s))
    else None
  }

  lemma {:induction false} DigitsRoundTrip(n: nat)
    ensures DigitsValue(Digits(n)) == n
  {
    if n >= 10 {
      DigitsRoundTrip(n / 10);
      var r := Digits(n);
      assert r[..|r| - 1] == Digits(n / 10);
    }
  }

  /** fmt.Sprint of an int: a minus sign exactly for negative numbers, then
      decimal digits. */
  function Itoa(n: int): (r: string)
    ensures r != [] && (r[0] == '-' <==> n < 0)
  {
    if n < 0 then "-" + Digits(-n) else Digits(n)
  }

  /** Parsing the decimal rendering of a line number gives the number back. */
  lemma ItoaRoundTrip(n: int)
    ensures Atoi(Itoa(n)) == Some(n)
  {
    if n < 0 {
      DigitsRoundTrip(-n);
      assert Itoa(n)[1..] == Digits(-n);
    } else {
      DigitsRoundTrip(n);
    }
  }
}
