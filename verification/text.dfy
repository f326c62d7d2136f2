/**
 * The string operations the source relies on: `trim`, `toLowerCase`, `includes`,
 * `Number.prototype.toString` for non-negative integers, and `padStart`.
 */
module Text {

  /** The characters `String.prototype.trim` removes: WhiteSpace and LineTerminator of ECMAScript. */
  predicate IsWhitespace(c: char)
  {
    c == '\t' || c == '\n' || c == '\U{000B}' || c == '\U{000C}' || c == '\r' || c == ' ' ||
    c == '\U{00A0}' || c == '\U{1680}' || ('\U{2000}' <= c <= '\U{200A}') ||
    c == '\U{2028}' || c == '\U{2029}' || c == '\U{202F}' || c == '\U{205F}' ||
    c == '\U{3000}' || c == '\U{FEFF}'
  }

  /** Every character of `s` is whitespace (vacuously true of ""). */
  predicate IsBlank(s: string)
  {
    forall i :: 0 <= i < |s| ==> IsWhitespace(s[i])
  }

  /** `s` with its leading whitespace removed. */
  function TrimStart(s: string): (r: string)
    ensures |r| <= |s| && r == s[|s| - |r|..]
    ensures forall i :: 0 <= i < |s| - |r| ==> IsWhitespace(s[i])
    ensures r == "" || !IsWhitespace(r[0])
  {
    if s != "" && IsWhitespace(s[0]) then TrimStart(s[1..]) else s
  }

  /** `s` with its trailing whitespace removed. */
  function TrimEnd(s: string): (r: string)
    ensures |r| <= |s| && r == s[..|r|]
    ensures forall i :: |r| <= i < |s| ==> IsWhitespace(s[i])
    ensures r == "" || !IsWhitespace(r[|r| - 1])
  {
    if s != "" && IsWhitespace(s[|s| - 1]) then TrimEnd(s[..|s| - 1]) else s
  }

  /** `String.prototype.trim`: falsy exactly for a blank string, and never edged by whitespace. */
  function Trim(s: string): (r: string)
    ensures |r| <= |s|
    ensures r == "" <==> IsBlank(s)
    ensures r == "" || (!IsWhitespace(r[0]) && !IsWhitespace(r[|r| - 1]))
  {
    TrimEnd(TrimStart(s))
  }

  /** ASCII case folding; other characters are left alone. */
  function LowerChar(c: char): (d: char)
    ensures 'A' <= c <= 'Z' ==> 'a' <= d <= 'z' && d as int - c as int == 32
    ensures !('A' <= c <= 'Z') ==> d == c
  {
    if 'A' <= c <= 'Z' then (c as int + 32) as char else c
  }

  /** `String.prototype.toLowerCase`, restricted to ASCII letters. */
  function ToLower(s: string): (r: string)
    ensures |r| == |s|
    ensures forall i :: 0 <= i < |s| ==> r[i] == LowerChar(s[i])
  {
    seq(|s|, i requires 0 <= i < |s| => LowerChar(s[i]))
  }

  /** `q` is a prefix of `s`. */
  predicate StartsWith(s: string, q: string)
  {
    |q| <= |s| && s[..|q|] == q
  }

  /** `String.prototype.includes`: `q` occurs in `s` as a contiguous block. */
  predicate Includes(s: string, q: string)
    ensures Includes(s, q) ==> |q| <= |s|
    ensures q == "" ==> Includes(s, q)
    decreases |s|
  {
    StartsWith(s, q) || (s != "" && Includes(s[1..], q))
  }

  /** `Includes` holds exactly when some offset matches. */
  lemma {:induction false} IncludesAt(s: string, q: string, k: nat)
    requires k + |q| <= |s| && s[k..k + |q|] == q
    ensures Includes(s, q)
    decreases k
  {
    if k > 0 {
      assert s[1..][k - 1..k - 1 + |q|] == s[k..k + |q|];
      IncludesAt(s[1..], q, k - 1);
    }
  }

  lemma {:induction false} IncludesWitness(s: string, q: string) returns (k: nat)
    requires Includes(s, q)
    ensures k + |q| <= |s| && s[k..k + |q|] == q
    decreases |s|
  {
    if StartsWith(s, q) {
      k := 0;
    } else {
      var j := IncludesWitness(s[1..], q);
      assert s[1..][j..j + |q|] == s[j + 1..j + 1 + |q|];
      k := j + 1;
    }
  }

  /** Without a suffix that starts with `q` there is no occurrence: the converse of `IncludesWitness`. */
  lemma {:induction false} IncludesOnlyAtOffsets(s: string, q: string)
    requires forall k :: 0 <= k <= |s| ==> !StartsWith(s[k..], q)
    ensures !Includes(s, q)
    decreases |s|
  {
    assert s[0..] == s;
    if s != "" {
      forall k | 0 <= k <= |s[1..]| ensures !StartsWith(s[1..][k..], q) {
        assert s[1..][k..] == s[k + 1..];
      }
      IncludesOnlyAtOffsets(s[1..], q);
    }
  }

  predicate IsDigit(c: char)
  {
    '0' <= c <= '9'
  }

  function DigitChar(d: nat): (c: char)
    requires d < 10
    ensures IsDigit(c) && c as int - '0' as int == d
  {
    ('0' as int + d) as char
  }

  /** `n.toString()` for a non-negative integer: decimal, no leading zeros. */
  function DecimalString(n: nat): (r: string)
    ensures |r| >= 1
    ensures forall i :: 0 <= i < |r| ==> IsDigit(r[i])
    ensures |r| > 1 ==> r[0] != '0'
    decreases n
  {
    if n < 10 then [DigitChar(n)] else DecimalString(n / 10) + [DigitChar(n % 10)]
  }

  /** The value of a string of decimal digits. */
  function DecimalValue(s: string): nat
    requires forall i :: 0 <= i < |s| ==> IsDigit(s[i])
  {
    if s == "" then 0
    else
      assert IsDigit(s[|s| - 1]);
      DecimalValue(s[..|s| - 1]) * 10 + (s[|s| - 1] as int - '0' as int)
  }

  /** Reading back what `DecimalString` wrote gives the number. */
  lemma {:induction false} DecimalRoundTrip(n: nat)
    ensures DecimalValue(DecimalString(n)) == n
    decreases n
  {
    var r := DecimalString(n);
    if n >= 10 {
      DecimalRoundTrip(n / 10);
      assert r[..|r| - 1] == DecimalString(n / 10);
    }
  }

  /** `s.padStart(width, fill)` with a one-character fill. */
  function PadStart(s: string, width: nat, fill: char): (r: string)
    ensures |r| == if |s| >= width then |s| else width
    ensures r[|r| - |s|..] == s
    ensures forall i :: 0 <= i < |r| - |s| ==> r[i] == fill
    decreases width - |s|
  {
    if |s| >= width then s else PadStart([fill] + s, width, fill)
  }
}
