/** The string primitives the TypeScript code leans on: the regular-expression classes
    \d and \s, digit stripping (`replace(/\D/g, '')`), `toLowerCase`,
    `includes` and `trim`. */
module Text {
  import opened Seqs

  /** The class \d of a JavaScript regular expression without the u flag. */
  predicate IsDigit(c: char) { '0' <= c <= '9' }

  predicate AllDigits(s: string) { forall i :: 0 <= i < |s| ==> IsDigit(s[i]) }

  /** parseInt of a one-digit string. */
  function DigitValue(c: char): (n: nat)
    requires IsDigit(c)
    ensures n < 10
    ensures c == "0123456789"[n]
  {
    c as int - '0' as int
  }

  /** value.replace(/\D/g, ''): the digits of s, in order. */
  function Digits(s: string): (r: string)
    ensures AllDigits(r)
    ensures |r| <= |s|
  {
    if s == [] then []
    else if IsDigit(s[0]) then [s[0]] + Digits(s[1..])
    else Digits(s[1..])
  }

  /** Digit stripping is the filter over IsDigit (`replace(/\D/g, '')` read as a filter). */
  lemma {:induction false} DigitsIsFilter(s: string)
    ensures Digits(s) == Filter(s, IsDigit)
  {
    if s != [] {
      DigitsIsFilter(s[1..]);
    }
  }

  lemma {:induction false} DigitsConcat(a: string, b: string)
    ensures Digits(a + b) == Digits(a) + Digits(b)
  {
    if a == [] {
      assert a + b == b;
    } else {
      assert (a + b)[1..] == a[1..] + b;
      DigitsConcat(a[1..], b);
    }
  }

  /** A string of digits is its own digit string. */
  lemma {:induction false} DigitsOfDigits(s: string)
    ensures AllDigits(s) <==> Digits(s) == s
  {
    if s != [] {
      DigitsOfDigits(s[1..]);
      if !IsDigit(s[0]) {
        assert |Digits(s)| <= |s[1..]| < |s|;
      }
    }
  }

  /** Stripping is idempotent. */
  lemma DigitsIdempotent(s: string)
    ensures Digits(Digits(s)) == Digits(s)
  {
    DigitsOfDigits(Digits(s));
  }

  /** Inserting one non-digit character anywhere leaves the digits unchanged. */
  lemma DigitsIgnoreNonDigit(a: string, c: char, b: string)
    requires !IsDigit(c)
    ensures Digits(a + [c] + b) == Digits(a + b)
  {
    var ac := a + [c];
    assert a + [c] + b == ac + b;
    DigitsConcat(ac, b);
    DigitsConcat(a, [c]);
    DigitsConcat(a, b);
    assert Digits([c]) == [];
    assert Digits(ac) == Digits(a);
  }

  /** The white space of a regular-expression \s, which is also the set that
      String.prototype.trim removes (WhiteSpace and LineTerminator). */
  predicate IsWhitespace(c: char) {
    c == '\t' || c == '\n' || c == '\U{000B}' || c == '\U{000C}' || c == '\r' || c == ' '
    || c == '\U{00A0}' || c == '\U{1680}' || ('\U{2000}' <= c <= '\U{200A}')
    || c == '\U{2028}' || c == '\U{2029}' || c == '\U{202F}' || c == '\U{205F}'
    || c == '\U{3000}' || c == '\U{FEFF}'
  }

  /** toLowerCase on the letters this model covers: ASCII A-Z and the
      upper-case letters of Latin-1 (U+00C0 to U+00DE except U+00D7). */
  function LowerChar(c: char): (r: char)
    ensures r == c || (r as int == c as int + 32)
  {
    if 'A' <= c <= 'Z' || ('\U{00C0}' <= c <= '\U{00DE}' && c != '\U{00D7}') then
      (c as int + 32) as char
    else c
  }

  function Lower(s: string): (r: string)
    ensures |r| == |s|
    ensures forall i :: 0 <= i < |s| ==> r[i] == LowerChar(s[i])
  {
    seq(|s|, i requires 0 <= i < |s| => LowerChar(s[i]))
  }

  lemma LowerCharIdempotent(c: char)
    ensures LowerChar(LowerChar(c)) == LowerChar(c)
  {
  }

  lemma LowerIdempotent(s: string)
    ensures Lower(Lower(s)) == Lower(s)
  {
    forall i | 0 <= i < |s| ensures Lower(Lower(s))[i] == Lower(s)[i] {
      LowerCharIdempotent(s[i]);
    }
  }

  /** String.prototype.includes. */
  predicate Contains(hay: string, needle: string) {
    exists i :: 0 <= i <= |hay| - |needle| && OccursAt(hay, needle, i)
  }

  predicate OccursAt(hay: string, needle: string, i: int) {
    0 <= i && i + |needle| <= |hay| && hay[i..i + |needle|] == needle
  }

  /** Every string contains the empty string, and itself. */
  lemma ContainsTrivial(s: string)
    ensures Contains(s, "") && Contains(s, s)
  {
    assert OccursAt(s, "", 0);
    assert OccursAt(s, s, 0);
  }

  /** Number of leading white-space characters. */
  function LeadingSpace(s: string): (n: nat)
    ensures n <= |s|
    ensures forall k :: 0 <= k < n ==> IsWhitespace(s[k])
    ensures n < |s| ==> !IsWhitespace(s[n])
  {
    if s != [] && IsWhitespace(s[0]) then 1 + LeadingSpace(s[1..]) else 0
  }

  /** Length of s without its trailing white space. */
  function TrailingStart(s: string): (m: nat)
    ensures m <= |s|
    ensures forall k :: m <= k < |s| ==> IsWhitespace(s[k])
    ensures m > 0 ==> !IsWhitespace(s[m - 1])
  {
    if s != [] && IsWhitespace(s[|s| - 1]) then TrailingStart(s[..|s| - 1]) else |s|
  }

  /** String.prototype.trim. */
  function Trim(s: string): (r: string)
    ensures |r| <= |s|
    ensures r != [] ==> !IsWhitespace(r[0]) && !IsWhitespace(r[|r| - 1])
  {
    var t := s[LeadingSpace(s)..];
    t[..TrailingStart(t)]
  }

  /** The trimmed string is a slice of s that leaves out only white space
      and neither starts nor ends with white space. */
  lemma TrimSpec(s: string)
    ensures exists i, j :: 0 <= i <= j <= |s| && Trim(s) == s[i..j]
                           && (forall k :: 0 <= k < i ==> IsWhitespace(s[k]))
                           && (forall k :: j <= k < |s| ==> IsWhitespace(s[k]))
    ensures Trim(s) != [] ==> !IsWhitespace(Trim(s)[0]) && !IsWhitespace(Trim(s)[|Trim(s)| - 1])
  {
    var i := LeadingSpace(s);
    var t := s[i..];
    var m := TrailingStart(t);
    assert Trim(s) == s[i..i + m];
    assert forall k :: i + m <= k < |s| ==> IsWhitespace(s[k]) by {
      forall k | i + m <= k < |s| ensures IsWhitespace(s[k]) { assert s[k] == t[k - i]; }
    }
    if Trim(s) != [] {
      assert Trim(s)[0] == t[0];
    }
  }

  /** Trimming leaves nothing exactly when s is all white space. */
  lemma TrimEmpty(s: string)
    ensures Trim(s) == [] <==> forall k :: 0 <= k < |s| ==> IsWhitespace(s[k])
  {
    var i := LeadingSpace(s);
    var t := s[i..];
    if forall k :: 0 <= k < |s| ==> IsWhitespace(s[k]) {
      assert i == |s|;
    } else {
      assert i < |s|;
      assert !IsWhitespace(t[0]);
      assert TrailingStart(t) > 0;
    }
  }

  /** Trimming is idempotent. */
  lemma TrimIdempotent(s: string)
    ensures Trim(Trim(s)) == Trim(s)
  {
    var r := Trim(s);
    TrimSpec(s);
    if r != [] {
      assert LeadingSpace(r) == 0;
      assert TrailingStart(r) == |r|;
      assert r[0..] == r;
      assert r[..|r|] == r;
    }
  }

  /** Trimming white space around a text that neither starts nor ends with
      white space gives back that text. */
  lemma TrimSurrounded(a: string, m: string, b: string)
    requires forall k :: 0 <= k < |a| ==> IsWhitespace(a[k])
    requires forall k :: 0 <= k < |b| ==> IsWhitespace(b[k])
    requires m != [] && !IsWhitespace(m[0]) && !IsWhitespace(m[|m| - 1])
    ensures Trim(a + m + b) == m
  {
    var s := a + m + b;
    assert s[|a|] == m[0];
    assert forall k :: 0 <= k < |a| ==> s[k] == a[k];
    var i := LeadingSpace(s);
    assert i == |a|;
    var t := s[i..];
    assert t == m + b;
    assert t[|m| - 1] == m[|m| - 1];
    assert forall k :: |m| <= k < |t| ==> t[k] == b[k - |m|];
    assert TrailingStart(t) == |m|;
  }
}
