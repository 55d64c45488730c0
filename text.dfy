/**
 * The handful of Python string operations the script's prompts rely on:
 * `str.strip()`, `str.lower()`, `str.startswith()`, `str.isdigit()`, `int()`
 * on a string of digits, and the decimal rendering of an `int` inside an
 * f-string. Only ASCII behaviour is modelled.
 */
module Text {

  /** Python's `str.isspace()` restricted to ASCII: space, \t \n \x0b \x0c \r and \x1c-\x1f. */
  predicate IsSpace(c: char) {
    c == ' ' || (9 <= c as int <= 13) || (28 <= c as int <= 31)
  }

  /** No whitespace at either end. */
  predicate IsStripped(s: string) {
    s == [] || (!IsSpace(s[0]) && !IsSpace(s[|s| - 1]))
  }

  /** `s.strip()`: whitespace is removed from both ends, so the result has none
      there, and a string that already has none is left as it is. */
  function Strip(s: string): (r: string)
    ensures |r| <= |s|
    ensures IsStripped(r)
    ensures IsStripped(s) ==> r == s
  {
    if s != [] && IsSpace(s[0]) then Strip(s[1..])
    else if s != [] && IsSpace(s[|s| - 1]) then Strip(s[..|s| - 1])
    else s
  }

  /** `s[i..j]` is `s` with only whitespace cut off before `i` and from `j` on. */
  predicate TrimmedAt(s: string, i: int, j: int) {
    && 0 <= i <= j <= |s|
    && (forall k :: 0 <= k < i ==> IsSpace(s[k]))
    && (forall k :: j <= k < |s| ==> IsSpace(s[k]))
  }

  /** `s.strip()` is `s` with a run of whitespace removed at each end and nothing else:
      a slice of `s` with only whitespace before and after it. */
  lemma {:induction false} StripIsInfix(s: string)
    ensures exists i, j :: TrimmedAt(s, i, j) && Strip(s) == s[i..j]
  {
    if s != [] && IsSpace(s[0]) {
      var tail := s[1..];
      StripIsInfix(tail);
      var i, j :| TrimmedAt(tail, i, j) && Strip(tail) == tail[i..j];
      assert tail[i..j] == s[i + 1..j + 1];
      forall k | 0 <= k < i + 1
        ensures IsSpace(s[k])
      {
        if k > 0 {
          assert s[k] == tail[k - 1];
        }
      }
      forall k | j + 1 <= k < |s|
        ensures IsSpace(s[k])
      {
        assert s[k] == tail[k - 1];
      }
      assert TrimmedAt(s, i + 1, j + 1);
    } else if s != [] && IsSpace(s[|s| - 1]) {
      var init := s[..|s| - 1];
      StripIsInfix(init);
      var i, j :| TrimmedAt(init, i, j) && Strip(init) == init[i..j];
      assert init[i..j] == s[i..j];
      forall k | j <= k < |s|
        ensures IsSpace(s[k])
      {
        if k < |init| {
          assert s[k] == init[k];
        }
      }
      assert TrimmedAt(s, i, j);
    } else {
      assert s[0..|s|] == s;
      assert TrimmedAt(s, 0, |s|);
    }
  }

  /** Whitespace around a stripped, non-empty string is exactly what `strip()` removes. */
  lemma {:induction false} StripPadded(pre: string, t: string, post: string)
    requires t != [] && IsStripped(t)
    requires forall i :: 0 <= i < |pre| ==> IsSpace(pre[i])
    requires forall i :: 0 <= i < |post| ==> IsSpace(post[i])
    ensures Strip(pre + t + post) == t
    decreases |pre| + |post|
  {
    var s := pre + t + post;
    if pre != [] {
      assert s[0] == pre[0];
      assert s[1..] == pre[1..] + t + post;
      StripPadded(pre[1..], t, post);
    } else if post != [] {
      assert s == t + post;
      assert s[0] == t[0];
      assert s[|s| - 1] == post[|post| - 1];
      assert s[..|s| - 1] == pre + t + post[..|post| - 1];
      StripPadded(pre, t, post[..|post| - 1]);
    } else {
      assert s == t;
    }
  }

  function LowerChar(c: char): char {
    if 'A' <= c <= 'Z' then (c as int + 32) as char else c
  }

  /** `s.lower()` on ASCII letters. */
  function Lower(s: string): (r: string)
    ensures |r| == |s|
  {
    seq(|s|, i requires 0 <= i < |s| => LowerChar(s[i]))
  }

  /** `s.lower()` leaves no upper-case letter, moves each upper-case letter to its
      lower-case one and keeps every other character. */
  lemma LowerChars(s: string)
    ensures forall i :: 0 <= i < |s| ==> !('A' <= Lower(s)[i] <= 'Z')
    ensures forall i :: 0 <= i < |s| && !('A' <= s[i] <= 'Z') ==> Lower(s)[i] == s[i]
    ensures forall i :: 0 <= i < |s| && 'A' <= s[i] <= 'Z' ==> Lower(s)[i] as int == s[i] as int + 32
  {
  }

  /** `s.startswith(prefix)`. */
  predicate StartsWith(s: string, prefix: string) {
    |prefix| <= |s| && s[..|prefix|] == prefix
  }

  predicate IsDigit(c: char) {
    '0' <= c <= '9'
  }

  function DigitValue(c: char): nat
    requires IsDigit(c)
  {
    c as int - '0' as int
  }

  /** `s.isdigit()` on ASCII: non-empty and made of decimal digits only. */
  predicate IsDigits(s: string) {
    |s| > 0 && forall i :: 0 <= i < |s| ==> IsDigit(s[i])
  }

  /** `int(s)` for a string of decimal digits (leading zeros allowed). */
  function ParseDigits(s: string): (r: nat)
    requires forall i :: 0 <= i < |s| ==> IsDigit(s[i])
    // the value is zero exactly when every digit is '0'
    ensures r == 0 <==> forall i :: 0 <= i < |s| ==> s[i] == '0'
  {
    if s == [] then 0
    else
      var init := s[..|s| - 1];
      assert forall i :: 0 <= i < |init| ==> init[i] == s[i];
      10 * ParseDigits(init) + DigitValue(s[|s| - 1])
  }

  /** Leading zeros do not change the value `int()` reads. */
  lemma {:induction false} ParseLeadingZeros(zeros: string, u: string)
    requires forall i :: 0 <= i < |zeros| ==> zeros[i] == '0'
    requires forall i :: 0 <= i < |u| ==> IsDigit(u[i])
    ensures ParseDigits(zeros + u) == ParseDigits(u)
  {
    if u == [] {
      assert zeros + u == zeros;
    } else {
      var s := zeros + u;
      assert s[..|s| - 1] == zeros + u[..|u| - 1];
      ParseLeadingZeros(zeros, u[..|u| - 1]);
    }
  }

  /** `str(n)`: the decimal numeral of `n`, without leading zeros. */
  function NatToString(n: nat): (r: string)
    ensures IsDigits(r)
    ensures r[0] != '0' || r == "0"
  {
    if n < 10 then [('0' as int + n) as char]
    else NatToString(n / 10) + [('0' as int + n % 10) as char]
  }

  /** Reading back the numeral of `n` gives `n`. */
  lemma {:induction false} ParseNatToString(n: nat)
    ensures ParseDigits(NatToString(n)) == n
  {
    var s := NatToString(n);
    if n >= 10 {
      ParseNatToString(n / 10);
      assert s[..|s| - 1] == NatToString(n / 10);
    }
  }

  /** Distinct numbers have distinct numerals. */
  lemma NatToStringInjective(m: nat, n: nat)
    requires NatToString(m) == NatToString(n)
    ensures m == n
  {
    ParseNatToString(m);
    ParseNatToString(n);
  }
}
