/** The key validators of pixService.ts: the CPF and CNPJ check-digit
    algorithms (loops over the digit string), the e-mail, phone and UUID
    regular expressions, and validatePixKey, which dispatches on the key type.
    The artificial 500 ms delay of validatePixKey is not modelled. */
module PixService {
  import opened Seqs
  import opened Text
  import opened UsePixStore

  /** The regular expressions /^(\d)\1{10}$/ and /^(\d)\1{13}$/ on a digit
      string of the right length: every digit equals the first. */
  predicate AllSame(d: string) {
    forall k :: 0 <= k < |d| ==> d[k] == d[0]
  }

  // ------------------------------------------------------------------ CPF

  /** The sum over the first k digits of d[i] * (top - i). */
  function WeightedSum(d: string, k: nat, top: int): int
    requires k <= |d| && AllDigits(d)
  {
    if k == 0 then 0 else WeightedSum(d, k - 1, top) + DigitValue(d[k - 1]) * (top - (k - 1))
  }

  /** The CPF check digit over the first n digits (weights n + 1 down to 2):
      ten times the sum modulo 11, a remainder of 10 or 11 read as 0. */
  function CpfCheckDigit(d: string, n: nat): (r: nat)
    requires n <= |d| && AllDigits(d)
    ensures r < 10
  {
    var remainder := (WeightedSum(d, n, n + 1) * 10) % 11;
    if remainder == 10 || remainder == 11 then 0 else remainder
  }

  /** What isValidCPF accepts: eleven digits, not all equal, whose tenth and
      eleventh digits are the check digits of the nine and ten before them. */
  predicate CpfValid(v: string) {
    CpfDigitsValid(Digits(v))
  }

  /** The same condition on the digit string itself. */
  predicate CpfDigitsValid(d: string) {
    |d| == 11 && AllDigits(d) && !AllSame(d)
    && CpfCheckDigit(d, 9) == DigitValue(d[9])
    && CpfCheckDigit(d, 10) == DigitValue(d[10])
  }

  /** On a string of digits the two readings coincide. */
  lemma CpfOfDigitString(d: string)
    requires AllDigits(d)
    ensures CpfValid(d) == CpfDigitsValid(d)
  {
    DigitsOfDigits(d);
  }

  /** isValidCPF. */
  method IsValidCPF(cpf: string) returns (ok: bool)
    ensures ok == CpfValid(cpf)
  {
    var d := Digits(cpf);
    if |d| != 11 || !AllDigits(d) {
      return false;
    }
    if AllSame(d) {
      return false;
    }
    var sum := 0;
    for i := 0 to 9
      invariant sum == WeightedSum(d, i, 10)
    {
      sum := sum + DigitValue(d[i]) * (10 - i);
    }
    var remainder := (sum * 10) % 11;
    if remainder == 10 || remainder == 11 {
      remainder := 0;
    }
    if remainder != DigitValue(d[9]) {
      return false;
    }
    sum := 0;
    for i := 0 to 10
      invariant sum == WeightedSum(d, i, 11)
    {
      sum := sum + DigitValue(d[i]) * (11 - i);
    }
    remainder := (sum * 10) % 11;
    if remainder == 10 || remainder == 11 {
      remainder := 0;
    }
    ok := remainder == DigitValue(d[10]);
  }

  /** The weighted sum reads only the first k digits. */
  lemma {:induction false} WeightedSumPrefix(a: string, b: string, k: nat, top: int)
    requires k <= |a| && k <= |b| && AllDigits(a) && AllDigits(b)
    requires a[..k] == b[..k]
    ensures WeightedSum(a, k, top) == WeightedSum(b, k, top)
  {
    if k > 0 {
      assert a[k - 1] == a[..k][k - 1] == b[..k][k - 1] == b[k - 1];
      assert a[..k - 1] == a[..k][..k - 1] == b[..k][..k - 1] == b[..k - 1];
      WeightedSumPrefix(a, b, k - 1, top);
    }
  }

  /** Characters other than digits never change the verdict. */
  lemma CpfIgnoresNonDigits(a: string, c: char, b: string)
    requires !IsDigit(c)
    ensures CpfValid(a + [c] + b) == CpfValid(a + b)
  {
    DigitsIgnoreNonDigit(a, c, b);
  }

  /** The two check digits are determined by the first nine digits: two
      valid CPFs that share them are the same number. */
  lemma CpfCheckDigitsDetermined(a: string, b: string)
    requires CpfDigitsValid(a) && CpfDigitsValid(b)
    requires a[..9] == b[..9]
    ensures a == b
  {
    WeightedSumPrefix(a, b, 9, 10);
    assert DigitValue(a[9]) == DigitValue(b[9]);
    assert a[9] == b[9];
    assert a[..10] == a[..9] + [a[9]] && b[..10] == b[..9] + [b[9]];
    WeightedSumPrefix(a, b, 10, 11);
    assert a[10] == b[10];
    assert a == a[..10] + [a[10]] && b == b[..10] + [b[10]];
  }

  function Repeat(c: char, n: nat): (s: string)
    ensures |s| == n && forall i :: 0 <= i < n ==> s[i] == c
  {
    seq(n, _ => c)
  }

  /** The sum of the weights top, top - 1, ... over k positions. */
  function WeightTotal(k: nat, top: int): int {
    if k == 0 then 0 else WeightTotal(k - 1, top) + (top - (k - 1))
  }

  lemma {:induction false} WeightedSumOfRepeat(c: char, n: nat, k: nat, top: int)
    requires IsDigit(c) && k <= n
    ensures WeightedSum(Repeat(c, n), k, top) == DigitValue(c) * WeightTotal(k, top)
  {
    if k > 0 {
      WeightedSumOfRepeat(c, n, k - 1, top);
    }
  }

  /** A run of eleven equal digits satisfies both check-digit equations and
      is still rejected, by the repeated-digit rule alone. */
  lemma CpfRepeatedDigitsPassChecksum(c: char)
    requires IsDigit(c)
    ensures var d := Repeat(c, 11);
            CpfCheckDigit(d, 9) == DigitValue(c) && CpfCheckDigit(d, 10) == DigitValue(c)
            && !CpfValid(d)
  {
    var d := Repeat(c, 11);
    var v := DigitValue(c);
    WeightedSumOfRepeat(c, 11, 9, 10);
    WeightedSumOfRepeat(c, 11, 10, 11);
    assert WeightTotal(9, 10) == 54;
    assert WeightTotal(10, 11) == 65;
    RepeatedRemainders(v);
    assert AllDigits(d);
    DigitsOfDigits(d);
  }

  /** 540 and 650 are both 1 modulo 11. */
  lemma RepeatedRemainders(v: nat)
    requires v < 10
    ensures (v * 54 * 10) % 11 == v && (v * 65 * 10) % 11 == v
  {
    assert v == 0 || v == 1 || v == 2 || v == 3 || v == 4 || v == 5 || v == 6 || v == 7 || v == 8 || v == 9;
  }

  /** A change of the first digit by one can go unnoticed: both digit
      strings pass, and being digit strings they are their own Digits. */
  lemma CpfSingleDigitChangeUndetected()
    ensures CpfDigitsValid("10000000108") && CpfDigitsValid("20000000108")
  {
    CpfExample("10000000108", 1);
    CpfExample("20000000108", 2);
  }

  /** The digit strings c0000000108 for a leading digit c of 1 or 2. */
  lemma CpfExample(d: string, c: nat)
    requires c == 1 || c == 2
    requires |d| == 11 && d[0] == "0123456789"[c] && d[8] == '1' && d[10] == '8'
    requires forall i :: 1 <= i < 10 && i != 8 ==> d[i] == '0'
    ensures CpfDigitsValid(d)
  {
    assert AllDigits(d);
    WeightedSumZeros(d, 1, 8, 10);
    WeightedSumZeros(d, 1, 8, 11);
    assert WeightedSum(d, 9, 10) == 10 * c + 2;
    assert WeightedSum(d, 10, 11) == 11 * c + 3;
    assert d[0] != d[1];
  }

  /** Zeros between positions j and k add nothing to the weighted sum. */
  lemma {:induction false} WeightedSumZeros(d: string, j: nat, k: nat, top: int)
    requires j <= k <= |d| && AllDigits(d)
    requires forall i :: j <= i < k ==> d[i] == '0'
    ensures WeightedSum(d, k, top) == WeightedSum(d, j, top)
  {
    if k > j {
      WeightedSumZeros(d, j, k - 1, top);
    }
  }

  // ----------------------------------------------------------------- CNPJ

  /** The weight of position j in an n-digit CNPJ base: counting from the
      right, 2, 3, ..., 9 and again 2, 3, ... */
  function CnpjWeight(n: nat, j: nat): int
    requires j < n
  {
    2 + (n - 1 - j) % 8
  }

  /** The sum over the first k of n digits of d[j] * CnpjWeight(n, j). */
  function CnpjSum(d: string, n: nat, k: nat): int
    requires k <= n <= |d| && AllDigits(d)
  {
    if k == 0 then 0 else CnpjSum(d, n, k - 1) + DigitValue(d[k - 1]) * CnpjWeight(n, k - 1)
  }

  /** The CNPJ check digit over the first n digits. */
  function CnpjCheckDigit(d: string, n: nat): (r: nat)
    requires n <= |d| && AllDigits(d)
    ensures r < 10
  {
    var s := CnpjSum(d, n, n);
    if s % 11 < 2 then 0 else 11 - s % 11
  }

  /** What isValidCNPJ accepts: fourteen digits, not all equal, whose last
      two are the check digits of the twelve and thirteen before them. */
  predicate CnpjValid(v: string) {
    CnpjDigitsValid(Digits(v))
  }

  /** The same condition on the digit string itself. */
  predicate CnpjDigitsValid(d: string) {
    |d| == 14 && AllDigits(d) && !AllSame(d)
    && CnpjCheckDigit(d, 12) == DigitValue(d[12])
    && CnpjCheckDigit(d, 13) == DigitValue(d[13])
  }

  /** On a string of digits the two readings coincide. */
  lemma CnpjOfDigitString(d: string)
    requires AllDigits(d)
    ensures CnpjValid(d) == CnpjDigitsValid(d)
  {
    DigitsOfDigits(d);
  }

  /** The weights the two passes use. */
  lemma CnpjWeightCycles()
    ensures seq(12, j requires 0 <= j < 12 => CnpjWeight(12, j)) == [5, 4, 3, 2, 9, 8, 7, 6, 5, 4, 3, 2]
    ensures seq(13, j requires 0 <= j < 13 => CnpjWeight(13, j)) == [6, 5, 4, 3, 2, 9, 8, 7, 6, 5, 4, 3, 2]
  {
  }

  /** One pass of the loop over the first `length` digits, stepping pos
      down from length - 7 and back to 9 below 2 (isValidCNPJ runs it
      for 12 and 13 digits; the starting weight is a weight in 2..9 for
      lengths 9 to 16). */
  method CnpjPass(numbers: string, length: nat) returns (sum: int)
    requires length == |numbers| && 9 <= length <= 16 && AllDigits(numbers)
    ensures sum == CnpjSum(numbers, length, length)
  {
    sum := 0;
    var pos := length - 7;
    var i := length;
    while i >= 1
      invariant 0 <= i <= length
      invariant sum == CnpjSum(numbers, length, length - i)
      invariant pos == 2 + (i - 1) % 8
    {
      assert CnpjWeight(length, length - i) == pos;
      sum := sum + DigitValue(numbers[length - i]) * pos;
      pos := pos - 1;
      if pos < 2 {
        pos := 9;
      }
      WeightStep(i);
      i := i - 1;
    }
  }

  /** Stepping the weight down, and back to 9 below 2, follows the
      weights from the right. */
  lemma WeightStep(i: int)
    ensures (if 1 + (i - 1) % 8 < 2 then 9 else 1 + (i - 1) % 8) == 2 + (i - 2) % 8
  {
    var r := (i - 1) % 8;
    assert i - 1 == 8 * ((i - 1) / 8) + r;
    if r == 0 {
      assert i - 2 == 8 * ((i - 1) / 8 - 1) + 7;
    } else {
      assert i - 2 == 8 * ((i - 1) / 8) + (r - 1);
    }
  }

  lemma {:induction false} CnpjSumPrefix(a: string, b: string, n: nat, k: nat)
    requires k <= n <= |a| && n <= |b| && AllDigits(a) && AllDigits(b)
    requires a[..k] == b[..k]
    ensures CnpjSum(a, n, k) == CnpjSum(b, n, k)
  {
    if k > 0 {
      assert a[k - 1] == a[..k][k - 1] == b[..k][k - 1] == b[k - 1];
      assert a[..k - 1] == a[..k][..k - 1] == b[..k][..k - 1] == b[..k - 1];
      CnpjSumPrefix(a, b, n, k - 1);
    }
  }

  /** isValidCNPJ. */
  method IsValidCNPJ(cnpj: string) returns (ok: bool)
    ensures ok == CnpjValid(cnpj)
  {
    var d := Digits(cnpj);
    if |d| != 14 {
      return false;
    }
    if AllSame(d) {
      return false;
    }
    var length := |d| - 2;
    var numbers := d[..length];
    var digits := d[length..];
    var sum := CnpjPass(numbers, length);
    CnpjSumPrefix(numbers, d, length, length);
    var result1 := if sum % 11 < 2 then 0 else 11 - sum % 11;
    if result1 != DigitValue(digits[0]) {
      return false;
    }
    length := length + 1;
    numbers := d[..length];
    sum := CnpjPass(numbers, length);
    CnpjSumPrefix(numbers, d, length, length);
    var result2 := if sum % 11 < 2 then 0 else 11 - sum % 11;
    ok := result2 == DigitValue(digits[1]);
  }

  /** Characters other than digits never change the verdict. */
  lemma CnpjIgnoresNonDigits(a: string, c: char, b: string)
    requires !IsDigit(c)
    ensures CnpjValid(a + [c] + b) == CnpjValid(a + b)
  {
    DigitsIgnoreNonDigit(a, c, b);
  }

  /** The two check digits are determined by the first twelve digits. */
  lemma CnpjCheckDigitsDetermined(a: string, b: string)
    requires CnpjDigitsValid(a) && CnpjDigitsValid(b)
    requires a[..12] == b[..12]
    ensures a == b
  {
    CnpjSumPrefix(a, b, 12, 12);
    assert DigitValue(a[12]) == DigitValue(b[12]);
    assert a[12] == b[12];
    assert a[..13] == a[..12] + [a[12]] && b[..13] == b[..12] + [b[12]];
    CnpjSumPrefix(a, b, 13, 13);
    assert a[13] == b[13];
    assert a == a[..13] + [a[13]] && b == b[..13] + [b[13]];
  }

  /** Fourteen zeros satisfy both check-digit equations and are rejected by
      the repeated-digit rule alone. */
  lemma CnpjZerosPassChecksum()
    ensures var d := Repeat('0', 14);
            CnpjCheckDigit(d, 12) == 0 && CnpjCheckDigit(d, 13) == 0 && !CnpjValid(d)
  {
    var d := Repeat('0', 14);
    ZeroCnpjSum(d, 12, 12);
    ZeroCnpjSum(d, 13, 13);
    DigitsOfDigits(d);
  }

  lemma {:induction false} ZeroCnpjSum(d: string, n: nat, k: nat)
    requires k <= n <= |d| && forall i :: 0 <= i < |d| ==> d[i] == '0'
    ensures CnpjSum(d, n, k) == 0
  {
    if k > 0 {
      ZeroCnpjSum(d, n, k - 1);
    }
  }

  // ------------------------------------------------------ e-mail and phone

  predicate IsPlain(c: char) { !IsWhitespace(c) && c != '@' }

  /** A non-empty run of the class [^\s@]. */
  predicate PlainRun(s: string) { |s| > 0 && forall i :: 0 <= i < |s| ==> IsPlain(s[i]) }

  function IsAt(c: char): bool { c == '@' }

  /** The regular expression /^[^\s@]+@[^\s@]+\.[^\s@]+$/, read off the
      string: no white space, a single @ after a non-empty local part, and a
      dot in the domain with text on both sides of it. */
  predicate IsValidEmail(email: string): (ok: bool)
    ensures ok ==> 5 <= |email| && '@' in email && email[0] != '@' && email[|email| - 1] != '@'
  {
    var at := FindIndex(email, IsAt);
    (forall i :: 0 <= i < |email| ==> !IsWhitespace(email[i]))
    && 0 < at < |email|
    && (forall i :: at < i < |email| ==> email[i] != '@')
    && exists k :: at + 1 < k < |email| - 1 && email[k] == '.'
  }

  /** The same regular expression as the shape of its matches. */
  ghost predicate EmailPattern(s: string) {
    exists l, d1, d2 :: s == l + "@" + d1 + "." + d2 && PlainRun(l) && PlainRun(d1) && PlainRun(d2)
  }

  /** The scanning reading and the pattern agree on every string. */
  lemma EmailMatchesPattern(s: string)
    ensures IsValidEmail(s) <==> EmailPattern(s)
  {
    if IsValidEmail(s) {
      EmailScanGivesPattern(s);
    }
    if EmailPattern(s) {
      var l, d1, d2 :| s == l + "@" + d1 + "." + d2 && PlainRun(l) && PlainRun(d1) && PlainRun(d2);
      EmailPatternGivesScan(l, d1, d2);
    }
  }

  lemma EmailScanGivesPattern(s: string)
    requires IsValidEmail(s)
    ensures EmailPattern(s)
  {
    var at := FindIndex(s, IsAt);
    var k :| at + 1 < k < |s| - 1 && s[k] == '.';
    var l, d1, d2 := s[..at], s[at + 1..k], s[k + 1..];
    assert IsAt(s[at]);
    assert s == l + "@" + d1 + "." + d2 by {
      assert s == s[..at] + [s[at]] + s[at + 1..k] + [s[k]] + s[k + 1..];
    }
    assert PlainRun(l) by {
      forall i | 0 <= i < |l| ensures IsPlain(l[i]) {
        assert l[i] == s[i] && !IsAt(s[i]);
      }
    }
    assert PlainRun(d1) by {
      forall i | 0 <= i < |d1| ensures IsPlain(d1[i]) {
        assert d1[i] == s[at + 1 + i];
      }
    }
    assert PlainRun(d2) by {
      forall i | 0 <= i < |d2| ensures IsPlain(d2[i]) {
        assert d2[i] == s[k + 1 + i];
      }
    }
  }

  lemma EmailPatternGivesScan(l: string, d1: string, d2: string)
    requires PlainRun(l) && PlainRun(d1) && PlainRun(d2)
    ensures IsValidEmail(l + "@" + d1 + "." + d2)
  {
    var s := l + "@" + d1 + "." + d2;
    var at := |l|;
    var k := at + 1 + |d1|;
    assert forall i :: 0 <= i < at ==> s[i] == l[i];
    assert forall i :: at < i < k ==> s[i] == d1[i - at - 1];
    assert forall i :: k < i < |s| ==> s[i] == d2[i - k - 1];
    assert s[at] == '@' && s[k] == '.';
    FindIndexFirst(s, IsAt, at);
    assert forall i :: 0 <= i < |s| ==> !IsWhitespace(s[i]) by {
      forall i | 0 <= i < |s| ensures !IsWhitespace(s[i]) {
        if i < at { assert IsPlain(l[i]); }
        else if at < i < k { assert IsPlain(d1[i - at - 1]); }
        else if k < i { assert IsPlain(d2[i - k - 1]); }
      }
    }
    assert forall i :: at < i < |s| ==> s[i] != '@' by {
      forall i | at < i < |s| ensures s[i] != '@' {
        if i < k { assert IsPlain(d1[i - at - 1]); }
        else if k < i { assert IsPlain(d2[i - k - 1]); }
      }
    }
  }

  lemma {:induction false} FindIndexFirst<T>(s: seq<T>, p: T -> bool, i: nat)
    requires i < |s| && p(s[i]) && forall j :: 0 <= j < i ==> !p(s[j])
    ensures FindIndex(s, p) == i
  {
    if i > 0 {
      FindIndexFirst(s[1..], p, i - 1);
    }
  }

  predicate IsDigitOrPlus(c: char) { IsDigit(c) || c == '+' }

  /** The regular expression /^\+?[1-9]\d{10,14}$/. */
  predicate PhonePattern(s: string) {
    var body := if |s| > 0 && s[0] == '+' then s[1..] else s;
    11 <= |body| <= 15 && AllDigits(body) && body[0] != '0'
  }

  /** isValidPhone: the pattern, applied after removing everything but digits and +. */
  predicate IsValidPhone(phone: string): (ok: bool)
    ensures ok ==> 11 <= |phone|
  {
    PhonePattern(Filter(phone, IsDigitOrPlus))
  }

  /** Stripping keeps the digits of the input. */
  lemma StrippedPhoneDigits(phone: string)
    ensures Digits(Filter(phone, IsDigitOrPlus)) == Digits(phone)
  {
    DigitsIsFilter(phone);
    DigitsIsFilter(Filter(phone, IsDigitOrPlus));
    FilterFilter(phone, IsDigitOrPlus, IsDigit);
  }

  /** A string the pattern accepts has its body as its digits. */
  lemma PhonePatternDigits(s: string)
    requires PhonePattern(s)
    ensures Digits(s) == if s[0] == '+' then s[1..] else s
  {
    if s[0] == '+' {
      assert s == [s[0]] + s[1..];
      DigitsConcat([s[0]], s[1..]);
      assert Digits([s[0]]) == [];
      DigitsOfDigits(s[1..]);
    } else {
      DigitsOfDigits(s);
    }
  }

  /** An accepted phone has 11 to 15 digits, the first of them not 0. */
  lemma PhoneDigitCount(phone: string)
    requires IsValidPhone(phone)
    ensures 11 <= |Digits(phone)| <= 15 && Digits(phone)[0] != '0'
  {
    StrippedPhoneDigits(phone);
    PhonePatternDigits(Filter(phone, IsDigitOrPlus));
  }

  /** For input without a +, that digit count is also enough. */
  lemma PhoneWithoutPlus(phone: string)
    requires '+' !in phone
    ensures IsValidPhone(phone) <==> 11 <= |Digits(phone)| <= 15 && Digits(phone)[0] != '0'
  {
    var s := Filter(phone, IsDigitOrPlus);
    assert '+' !in s;
    assert forall i :: 0 <= i < |s| ==> IsDigit(s[i]) by {
      forall i | 0 <= i < |s| ensures IsDigit(s[i]) { assert s[i] in s; }
    }
    DigitsOfDigits(s);
    StrippedPhoneDigits(phone);
  }

  // --------------------------------------------------------------- UUID

  predicate IsHex(c: char) { '0' <= c <= '9' || 'a' <= c <= 'f' || 'A' <= c <= 'F' }

  predicate AllHex(s: string) { forall i :: 0 <= i < |s| ==> IsHex(s[i]) }

  /** What the case-insensitive pattern of isValidRandomKey allows at each
      of its 36 positions: hyphens between the 8-4-4-4-12 groups, the
      version digit 1-5 at position 14 (section 4.1.3 of RFC 4122) and the
      variant digit 8, 9, a or b at position 19 (section 4.1.1). */
  predicate UuidCharOk(c: char, i: int) {
    if i == 8 || i == 13 || i == 18 || i == 23 then c == '-'
    else if i == 14 then '1' <= c <= '5'
    else if i == 19 then c in "89abAB"
    else IsHex(c)
  }

  /** isValidRandomKey. */
  predicate IsValidRandomKey(key: string): (ok: bool)
    ensures ok ==> |key| == 36 && key[8] == '-' && key[13] == '-' && key[18] == '-' && key[23] == '-'
  {
    |key| == 36 && forall i :: 0 <= i < 36 ==> UuidCharOk(key[i], i)
  }

  /** The same pattern as five hexadecimal groups joined by hyphens. */
  lemma RandomKeyGroups(key: string)
    ensures IsValidRandomKey(key) <==>
              |key| == 36 && key[8] == '-' && key[13] == '-' && key[18] == '-' && key[23] == '-'
              && AllHex(key[..8]) && AllHex(key[9..13]) && AllHex(key[14..18]) && AllHex(key[19..23])
              && AllHex(key[24..])
              && '1' <= key[14] <= '5' && key[19] in "89abAB"
  {
    if |key| == 36 && key[8] == '-' && key[13] == '-' && key[18] == '-' && key[23] == '-'
       && AllHex(key[..8]) && AllHex(key[9..13]) && AllHex(key[14..18]) && AllHex(key[19..23])
       && AllHex(key[24..]) && '1' <= key[14] <= '5' && key[19] in "89abAB"
    {
      forall i | 0 <= i < 36 ensures UuidCharOk(key[i], i) {
        if i < 8 { assert key[i] == key[..8][i]; }
        else if 8 < i < 13 { assert key[i] == key[9..13][i - 9]; }
        else if 14 < i < 18 { assert key[i] == key[14..18][i - 14]; }
        else if 19 < i < 23 { assert key[i] == key[19..23][i - 19]; }
        else if 23 < i { assert key[i] == key[24..][i - 24]; }
      }
    }
  }

  /** The pattern carries the i flag: the letter case of the key does not matter. */
  lemma RandomKeyIgnoresCase(key: string)
    ensures IsValidRandomKey(Lower(key)) == IsValidRandomKey(key)
  {
    forall i | 0 <= i < |key| ensures UuidCharOk(Lower(key)[i], i) == UuidCharOk(key[i], i) {
      assert Lower(key)[i] == LowerChar(key[i]);
    }
  }

  // ------------------------------------------------------------ dispatch

  /** What validatePixKey answers for each type; manual keys always pass. */
  predicate KeyValid(t: KeyType, value: string) {
    match t
    case Cpf => CpfValid(value)
    case Cnpj => CnpjValid(value)
    case Email => IsValidEmail(value)
    case Phone => IsValidPhone(value)
    case Random => IsValidRandomKey(value)
    case Manual => true
  }

  /** validatePixKey, without its delay. */
  method ValidatePixKey(t: KeyType, value: string) returns (ok: bool)
    ensures ok == KeyValid(t, value)
    ensures t == Manual ==> ok
  {
    match t
    case Cpf => ok := IsValidCPF(value);
    case Cnpj => ok := IsValidCNPJ(value);
    case Email => ok := IsValidEmail(value);
    case Phone => ok := IsValidPhone(value);
    case Random => ok := IsValidRandomKey(value);
    case Manual => ok := true;
  }
}
