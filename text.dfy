/** String helpers with the meaning JavaScript gives them. */
module Text {

  /**
   * The characters `String.prototype.trim` strips: the ECMAScript WhiteSpace
   * and LineTerminator code points.
   */
  predicate IsSpace(c: char) {
    var n := c as int;
    || n == 0x09 || n == 0x0A || n == 0x0B || n == 0x0C || n == 0x0D || n == 0x20
    || n == 0xA0 || n == 0x1680 || (0x2000 <= n <= 0x200A) || n == 0x2028 || n == 0x2029
    || n == 0x202F || n == 0x205F || n == 0x3000 || n == 0xFEFF
  }

  predicate AllSpace(s: string) {
    forall i :: 0 <= i < |s| ==> IsSpace(s[i])
  }

  /** `String.prototype.trim`: white space is dropped from both ends. */
  function Trim(s: string): (r: string)
    ensures |r| <= |s|
    ensures r == [] || (!IsSpace(r[0]) && !IsSpace(r[|r| - 1]))
    decreases |s|
  {
    if s != [] && IsSpace(s[0]) then Trim(s[1..])
    else if s != [] && IsSpace(s[|s| - 1]) then Trim(s[..|s| - 1])
    else s
  }

  /** Where the text `trim` keeps starts and ends in `s`. */
  ghost function TrimBounds(s: string): (b: (nat, nat))
    ensures b.0 <= b.1 <= |s|
    decreases |s|
  {
    if s != [] && IsSpace(s[0]) then
      var b := TrimBounds(s[1..]); (b.0 + 1, b.1 + 1)
    else if s != [] && IsSpace(s[|s| - 1]) then TrimBounds(s[..|s| - 1])
    else (0, |s|)
  }

  /** What `trim` keeps is a slice of the input with only white space around it. */
  lemma {:induction false} TrimIsInfix(s: string)
    ensures var (i, j) := TrimBounds(s);
      Trim(s) == s[i..j] && AllSpace(s[..i]) && AllSpace(s[j..])
    decreases |s|, 1
  {
    if s != [] && IsSpace(s[0]) {
      TrimIsInfixHead(s);
    } else if s != [] && IsSpace(s[|s| - 1]) {
      TrimIsInfixLast(s);
    } else {
      assert s[0..|s|] == s;
    }
  }

  lemma {:induction false} TrimIsInfixHead(s: string)
    requires s != [] && IsSpace(s[0])
    ensures var (i, j) := TrimBounds(s);
      Trim(s) == s[i..j] && AllSpace(s[..i]) && AllSpace(s[j..])
    decreases |s|, 0
  {
    var t := s[1..];
    TrimIsInfix(t);
    var (i, j) := TrimBounds(t);
    assert TrimBounds(s) == (i + 1, j + 1) && Trim(s) == Trim(t);
    TailSlice(s, i, j);
    AllSpaceCons(s[0], t[..i]);
    assert [s[0]] + t[..i] == s[..i + 1];
  }

  lemma {:induction false} TrimIsInfixLast(s: string)
    requires s != [] && !IsSpace(s[0]) && IsSpace(s[|s| - 1])
    ensures var (i, j) := TrimBounds(s);
      Trim(s) == s[i..j] && AllSpace(s[..i]) && AllSpace(s[j..])
    decreases |s|, 0
  {
    var t := s[..|s| - 1];
    TrimIsInfix(t);
    var (i, j) := TrimBounds(t);
    assert t[i..j] == s[i..j] && t[..i] == s[..i];
    AllSpaceSnoc(t[j..], s[|s| - 1]);
    assert t[j..] + [s[|s| - 1]] == s[j..];
  }

  /** Slicing the tail of `s` is slicing `s` one place further on. */
  lemma TailSlice(s: string, i: nat, j: nat)
    requires i <= j <= |s| - 1
    ensures s[1..][i..j] == s[i + 1..j + 1] && s[1..][j..] == s[j + 1..]
  {
    assert forall k :: 0 <= k < j - i ==> s[1..][i..j][k] == s[1..][i + k];
  }

  lemma AllSpaceCons(c: char, t: string)
    requires IsSpace(c) && AllSpace(t)
    ensures AllSpace([c] + t)
  {
    assert forall k :: 1 <= k < |t| + 1 ==> ([c] + t)[k] == t[k - 1];
  }

  lemma AllSpaceSnoc(t: string, c: char)
    requires AllSpace(t) && IsSpace(c)
    ensures AllSpace(t + [c])
  {
    assert forall k :: 0 <= k < |t| ==> (t + [c])[k] == t[k];
  }

  /** A string trims to nothing exactly when it is all white space. */
  lemma {:induction false} TrimEmptyIff(s: string)
    ensures Trim(s) == [] <==> AllSpace(s)
    decreases |s|
  {
    if s != [] && IsSpace(s[0]) {
      TrimEmptyIff(s[1..]);
      assert AllSpace(s) <==> AllSpace(s[1..]) by {
        assert forall k :: 1 <= k < |s| ==> s[k] == s[1..][k - 1];
      }
    } else if s != [] && IsSpace(s[|s| - 1]) {
      TrimEmptyIff(s[..|s| - 1]);
      assert AllSpace(s) <==> AllSpace(s[..|s| - 1]) by {
        assert forall k :: 0 <= k < |s| - 1 ==> s[k] == s[..|s| - 1][k];
      }
    }
  }

  /** Trimming twice is trimming once. */
  lemma TrimIdempotent(s: string)
    ensures Trim(Trim(s)) == Trim(s)
  {
  }

  /** `String.prototype.startsWith`. */
  predicate StartsWith(s: string, prefix: string) {
    |prefix| <= |s| && s[..|prefix|] == prefix
  }

  predicate IsDigit(c: char) {
    '0' <= c <= '9'
  }

  function DigitChar(d: nat): (c: char)
    requires d < 10
    ensures IsDigit(c) && c as int - '0' as int == d
  {
    ('0' as int + d) as char
  }

  /** The decimal text of a number, as a JavaScript template literal renders a non-negative integer. */
  function NatToDecimal(n: nat): (r: string)
    ensures r != [] && forall i :: 0 <= i < |r| ==> IsDigit(r[i])
    ensures |r| > 1 ==> r[0] != '0'
  {
    if n < 10 then [DigitChar(n)] else NatToDecimal(n / 10) + [DigitChar(n % 10)]
  }

  /** The number a string of decimal digits denotes. */
  function DecimalValue(s: string): int
    requires forall i :: 0 <= i < |s| ==> IsDigit(s[i])
  {
    if s == [] then 0
    else 10 * DecimalValue(s[..|s| - 1]) + (s[|s| - 1] as int - '0' as int)
  }

  /** Reading the decimal text back gives the number. */
  lemma {:induction false} DecimalRoundTrip(n: nat)
    ensures DecimalValue(NatToDecimal(n)) == n
  {
    var r := NatToDecimal(n);
    if n >= 10 {
      DecimalRoundTrip(n / 10);
      assert r[..|r| - 1] == NatToDecimal(n / 10);
    }
  }
}
