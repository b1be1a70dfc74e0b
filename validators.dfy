/** The display helpers of validators.ts: the punctuation formatters for CPF,
    CNPJ and phone numbers, the lighter by-type validator used by the forms,
    the display mask, and the label and placeholder tables. Key types arrive
    here as plain strings. */
module Validators {
  import opened Seqs
  import opened Text
  import opened PixService
  import UsePixStore

  /** s has the shape of mask: a digit wherever mask has '#', the mask's own
      character everywhere else. */
  predicate FitsMask(s: string, mask: string) {
    |s| == |mask| && forall i :: 0 <= i < |s| ==> if mask[i] == '#' then IsDigit(s[i]) else s[i] == mask[i]
  }

  const CpfMask: string := "###.###.###-##"
  const CnpjMask: string := "##.###.###/####-##"
  const Phone10Mask: string := "(##) ####-####"
  const Phone11Mask: string := "(##) #####-####"

  /** A separator followed by more text contributes only the digits of the text. */
  lemma DigitsJoin(a: string, sep: string, b: string)
    requires AllDigits(a) && Digits(sep) == []
    ensures Digits(a + (sep + b)) == a + Digits(b)
  {
    DigitsConcat(a, sep + b);
    DigitsConcat(sep, b);
    DigitsOfDigits(a);
    assert Digits(a) == a;
    assert Digits(sep + b) == Digits(b);
  }

  /** A separator without digits has none to contribute. */
  lemma {:induction false} NoDigits(sep: string)
    requires forall i :: 0 <= i < |sep| ==> !IsDigit(sep[i])
    ensures Digits(sep) == []
  {
    if sep != [] {
      NoDigits(sep[1..]);
    }
  }

  // ------------------------------------------------------------------ CPF

  /** formatCPF. */
  function FormatCPF(value: string): (r: string)
    ensures |Digits(value)| != 11 ==> r == Digits(value)
  {
    var n := Digits(value);
    if |n| == 11 then n[..3] + ("." + (n[3..6] + ("." + (n[6..9] + ("-" + n[9..]))))) else n
  }

  /** Eleven digits come out in the shape ddd.ddd.ddd-dd. */
  lemma FormatCPFShape(value: string)
    requires |Digits(value)| == 11
    ensures FitsMask(FormatCPF(value), CpfMask)
  {
    var n, r := Digits(value), FormatCPF(value);
    forall i | 0 <= i < 14
      ensures if CpfMask[i] == '#' then IsDigit(r[i]) else r[i] == CpfMask[i]
    {
      if i < 3 { assert r[i] == n[i]; }
      else if 3 < i < 7 { assert r[i] == n[i - 1]; }
      else if 7 < i < 11 { assert r[i] == n[i - 2]; }
      else if 11 < i { assert r[i] == n[i - 3]; }
    }
  }

  /** Formatting keeps exactly the digits of the input. */
  lemma FormatCPFDigits(value: string)
    ensures Digits(FormatCPF(value)) == Digits(value)
  {
    var n := Digits(value);
    if |n| == 11 {
      var p1, p2, p3, p4 := n[..3], n[3..6], n[6..9], n[9..];
      assert FormatCPF(value) == p1 + ("." + (p2 + ("." + (p3 + ("-" + p4)))));
      CpfPartsDigits(p1, p2, p3, p4);
      assert p1 + (p2 + (p3 + p4)) == n;
    } else {
      DigitsIdempotent(value);
    }
  }

  /** formatCPF(formatCPF(v)) == formatCPF(v). */
  lemma FormatCPFIdempotent(value: string)
    ensures FormatCPF(FormatCPF(value)) == FormatCPF(value)
  {
    FormatCPFDigits(value);
  }

  /** A string already in the shape ddd.ddd.ddd-dd is left as it is. */
  lemma FormatCPFFixesMasked(s: string)
    requires FitsMask(s, CpfMask)
    ensures FormatCPF(s) == s
  {
    var p1, p2, p3, p4 := s[..3], s[4..7], s[8..11], s[12..];
    CpfMaskedParts(s);
    CpfPartsDigits(p1, p2, p3, p4);
    var n := p1 + (p2 + (p3 + p4));
    assert n[..3] == p1 && n[3..6] == p2 && n[6..9] == p3 && n[9..] == p4;
  }

  /** A string in the CPF shape is its four digit groups joined by the separators. */
  lemma CpfMaskedParts(s: string)
    requires FitsMask(s, CpfMask)
    ensures s == s[..3] + ("." + (s[4..7] + ("." + (s[8..11] + ("-" + s[12..])))))
    ensures AllDigits(s[..3]) && AllDigits(s[4..7]) && AllDigits(s[8..11]) && AllDigits(s[12..])
  {
    assert s[3] == '.' && s[7] == '.' && s[11] == '-';
    assert forall i :: 0 <= i < 3 || 4 <= i < 7 || 8 <= i < 11 || 12 <= i < 14 ==> IsDigit(s[i]);
    SplitCpf(s);
  }

  /** A string of CPF length cut around positions 3, 7 and 11. */
  lemma SplitCpf(s: string)
    requires |s| == 14
    ensures s == s[..3] + ([s[3]] + (s[4..7] + ([s[7]] + (s[8..11] + ([s[11]] + s[12..])))))
  {
    var t := s[..3] + ([s[3]] + (s[4..7] + ([s[7]] + (s[8..11] + ([s[11]] + s[12..])))));
    forall i | 0 <= i < 14 ensures t[i] == s[i] {
      if i < 3 {} else if i < 4 {} else if i < 7 {} else if i < 8 {} else if i < 11 {}
      else if i < 12 {} else {}
    }
  }

  /** A string of CNPJ length cut around positions 2, 6, 10 and 15. */
  lemma SplitCnpj(s: string)
    requires |s| == 18
    ensures s == s[..2] + ([s[2]] + (s[3..6] + ([s[6]] + (s[7..10] + ([s[10]] + (s[11..15] + ([s[15]] + s[16..])))))))
  {
    var t := s[..2] + ([s[2]] + (s[3..6] + ([s[6]] + (s[7..10] + ([s[10]] + (s[11..15] + ([s[15]] + s[16..])))))));
    forall i | 0 <= i < 18 ensures t[i] == s[i] {
      if i < 2 {} else if i < 3 {} else if i < 6 {} else if i < 7 {} else if i < 10 {}
      else if i < 11 {} else if i < 15 {} else if i < 16 {} else {}
    }
  }

  /** The digits of four digit groups joined by the CPF separators are the groups themselves. */
  lemma CpfPartsDigits(p1: string, p2: string, p3: string, p4: string)
    requires AllDigits(p1) && AllDigits(p2) && AllDigits(p3) && AllDigits(p4)
    ensures Digits(p1 + ("." + (p2 + ("." + (p3 + ("-" + p4)))))) == p1 + (p2 + (p3 + p4))
  {
    NoDigits(".");
    NoDigits("-");
    DigitsOfDigits(p4);
    var t3 := p3 + ("-" + p4);
    var t2 := p2 + ("." + t3);
    calc {
      Digits(p1 + ("." + t2));
    == { DigitsJoin(p1, ".", t2); }
      p1 + Digits(t2);
    == { DigitsJoin(p2, ".", t3); }
      p1 + (p2 + Digits(t3));
    == { DigitsJoin(p3, "-", p4); }
      p1 + (p2 + (p3 + p4));
    }
  }

  // ----------------------------------------------------------------- CNPJ

  /** formatCNPJ. */
  function FormatCNPJ(value: string): (r: string)
    ensures |Digits(value)| != 14 ==> r == Digits(value)
  {
    var n := Digits(value);
    if |n| == 14 then n[..2] + ("." + (n[2..5] + ("." + (n[5..8] + ("/" + (n[8..12] + ("-" + n[12..])))))))
    else n
  }

  /** Fourteen digits come out in the shape dd.ddd.ddd/dddd-dd. */
  lemma FormatCNPJShape(value: string)
    requires |Digits(value)| == 14
    ensures FitsMask(FormatCNPJ(value), CnpjMask)
  {
    var n, r := Digits(value), FormatCNPJ(value);
    forall i | 0 <= i < 18
      ensures if CnpjMask[i] == '#' then IsDigit(r[i]) else r[i] == CnpjMask[i]
    {
      if i < 2 { assert r[i] == n[i]; }
      else if 2 < i < 6 { assert r[i] == n[i - 1]; }
      else if 6 < i < 10 { assert r[i] == n[i - 2]; }
      else if 10 < i < 15 { assert r[i] == n[i - 3]; }
      else if 15 < i { assert r[i] == n[i - 4]; }
    }
  }

  /** Formatting keeps exactly the digits of the input. */
  lemma FormatCNPJDigits(value: string)
    ensures Digits(FormatCNPJ(value)) == Digits(value)
  {
    var n := Digits(value);
    if |n| == 14 {
      var p1, p2, p3, p4, p5 := n[..2], n[2..5], n[5..8], n[8..12], n[12..];
      assert FormatCNPJ(value) == p1 + ("." + (p2 + ("." + (p3 + ("/" + (p4 + ("-" + p5)))))));
      CnpjPartsDigits(p1, p2, p3, p4, p5);
      assert p1 + (p2 + (p3 + (p4 + p5))) == n;
    } else {
      DigitsIdempotent(value);
    }
  }

  /** formatCNPJ(formatCNPJ(v)) == formatCNPJ(v). */
  lemma FormatCNPJIdempotent(value: string)
    ensures FormatCNPJ(FormatCNPJ(value)) == FormatCNPJ(value)
  {
    FormatCNPJDigits(value);
  }

  /** A string already in the shape dd.ddd.ddd/dddd-dd is left as it is. */
  lemma FormatCNPJFixesMasked(s: string)
    requires FitsMask(s, CnpjMask)
    ensures FormatCNPJ(s) == s
  {
    var p1, p2, p3, p4, p5 := s[..2], s[3..6], s[7..10], s[11..15], s[16..];
    CnpjMaskedParts(s);
    CnpjPartsDigits(p1, p2, p3, p4, p5);
    var n := p1 + (p2 + (p3 + (p4 + p5)));
    assert n[..2] == p1 && n[2..5] == p2 && n[5..8] == p3 && n[8..12] == p4 && n[12..] == p5;
  }

  /** A string in the CNPJ shape is its five digit groups joined by the separators. */
  lemma CnpjMaskedParts(s: string)
    requires FitsMask(s, CnpjMask)
    ensures s == s[..2] + ("." + (s[3..6] + ("." + (s[7..10] + ("/" + (s[11..15] + ("-" + s[16..])))))))
    ensures AllDigits(s[..2]) && AllDigits(s[3..6]) && AllDigits(s[7..10]) && AllDigits(s[11..15]) && AllDigits(s[16..])
  {
    assert s[2] == '.' && s[6] == '.' && s[10] == '/' && s[15] == '-';
    assert forall i :: 0 <= i < 2 || 3 <= i < 6 || 7 <= i < 10 || 11 <= i < 15 || 16 <= i < 18 ==> IsDigit(s[i]);
    SplitCnpj(s);
  }

  /** The digits of five digit groups joined by the CNPJ separators are the groups themselves. */
  lemma CnpjPartsDigits(p1: string, p2: string, p3: string, p4: string, p5: string)
    requires AllDigits(p1) && AllDigits(p2) && AllDigits(p3) && AllDigits(p4) && AllDigits(p5)
    ensures Digits(p1 + ("." + (p2 + ("." + (p3 + ("/" + (p4 + ("-" + p5)))))))) == p1 + (p2 + (p3 + (p4 + p5)))
  {
    NoDigits(".");
    NoDigits("/");
    NoDigits("-");
    FourSeparators(p1, p2, p3, p4, p5, ".", ".", "/", "-");
  }

  /** Digit groups joined by four digit-free separators keep just the groups. */
  lemma FourSeparators(p1: string, p2: string, p3: string, p4: string, p5: string,
                       s1: string, s2: string, s3: string, s4: string)
    requires AllDigits(p1) && AllDigits(p2) && AllDigits(p3) && AllDigits(p4) && AllDigits(p5)
    requires Digits(s1) == [] && Digits(s2) == [] && Digits(s3) == [] && Digits(s4) == []
    ensures Digits(p1 + (s1 + (p2 + (s2 + (p3 + (s3 + (p4 + (s4 + p5)))))))) == p1 + (p2 + (p3 + (p4 + p5)))
  {
    DigitsOfDigits(p5);
    var t4 := p4 + (s4 + p5);
    var t3 := p3 + (s3 + t4);
    var t2 := p2 + (s2 + t3);
    calc {
      Digits(p1 + (s1 + t2));
    == { DigitsJoin(p1, s1, t2); }
      p1 + Digits(t2);
    == { DigitsJoin(p2, s2, t3); }
      p1 + (p2 + Digits(t3));
    == { DigitsJoin(p3, s3, t4); }
      p1 + (p2 + (p3 + Digits(t4)));
    == { DigitsJoin(p4, s4, p5); }
      p1 + (p2 + (p3 + (p4 + p5)));
    }
  }

  // ---------------------------------------------------------------- phone

  /** formatPhone: the ten-digit pattern up to ten digits, the eleven-digit
      one above; each applies only to its exact length. */
  function FormatPhone(value: string): (r: string)
    ensures |Digits(value)| != 10 && |Digits(value)| != 11 ==> r == Digits(value)
  {
    var n := Digits(value);
    if |n| <= 10 then
      if |n| == 10 then "(" + (n[..2] + (") " + (n[2..6] + ("-" + n[6..])))) else n
    else
      if |n| == 11 then "(" + (n[..2] + (") " + (n[2..7] + ("-" + n[7..])))) else n
  }

  /** Ten digits come out as (dd) dddd-dddd, eleven as (dd) ddddd-dddd. */
  lemma FormatPhoneShape(value: string)
    ensures |Digits(value)| == 10 ==> FitsMask(FormatPhone(value), Phone10Mask)
    ensures |Digits(value)| == 11 ==> FitsMask(FormatPhone(value), Phone11Mask)
  {
    var n, r := Digits(value), FormatPhone(value);
    if |n| == 10 {
      forall i | 0 <= i < 14
        ensures if Phone10Mask[i] == '#' then IsDigit(r[i]) else r[i] == Phone10Mask[i]
      {
        if 1 <= i < 3 { assert r[i] == n[i - 1]; }
        else if 5 <= i < 9 { assert r[i] == n[i - 3]; }
        else if 10 <= i { assert r[i] == n[i - 4]; }
      }
    } else if |n| == 11 {
      forall i | 0 <= i < 15
        ensures if Phone11Mask[i] == '#' then IsDigit(r[i]) else r[i] == Phone11Mask[i]
      {
        if 1 <= i < 3 { assert r[i] == n[i - 1]; }
        else if 5 <= i < 10 { assert r[i] == n[i - 3]; }
        else if 11 <= i { assert r[i] == n[i - 4]; }
      }
    }
  }

  /** Formatting keeps exactly the digits of the input. */
  lemma FormatPhoneDigits(value: string)
    ensures Digits(FormatPhone(value)) == Digits(value)
  {
    var n := Digits(value);
    if |n| == 10 || |n| == 11 {
      var k := |n| - 4;
      var p1, p2, p3 := n[..2], n[2..k], n[k..];
      assert FormatPhone(value) == "(" + (p1 + (") " + (p2 + ("-" + p3))));
      PhonePartsDigits(p1, p2, p3);
      assert p1 + (p2 + p3) == n;
    } else {
      DigitsIdempotent(value);
    }
  }

  /** formatPhone(formatPhone(v)) == formatPhone(v). */
  lemma FormatPhoneIdempotent(value: string)
    ensures FormatPhone(FormatPhone(value)) == FormatPhone(value)
  {
    FormatPhoneDigits(value);
  }

  /** A string already in either phone shape is left as it is. */
  lemma FormatPhoneFixesMasked(s: string)
    requires FitsMask(s, Phone10Mask) || FitsMask(s, Phone11Mask)
    ensures FormatPhone(s) == s
  {
    var k := |s| - 5;
    if FitsMask(s, Phone10Mask) {
      PhoneMaskFields(s, Phone10Mask);
    } else {
      PhoneMaskFields(s, Phone11Mask);
    }
    PhoneRebuild(s[1..3], s[5..k], s[k + 1..]);
  }

  /** Formatting three digit groups already joined in a phone shape gives them back. */
  lemma PhoneRebuild(p1: string, p2: string, p3: string)
    requires AllDigits(p1) && AllDigits(p2) && AllDigits(p3)
    requires |p1| == 2 && (|p2| == 4 || |p2| == 5) && |p3| == 4
    ensures var t := "(" + (p1 + (") " + (p2 + ("-" + p3))));
            FormatPhone(t) == t
  {
    PhonePartsDigits(p1, p2, p3);
    var n := p1 + (p2 + p3);
    var j := |p2| + 2;
    assert n[..2] == p1 && n[2..j] == p2 && n[j..] == p3;
  }

  /** A string in either phone shape is its three digit groups joined by the separators. */
  lemma PhoneMaskFields(s: string, mask: string)
    requires mask == Phone10Mask || mask == Phone11Mask
    requires FitsMask(s, mask)
    ensures var k := |s| - 5;
            s == "(" + (s[1..3] + (") " + (s[5..k] + ("-" + s[k + 1..]))))
            && |s[5..k]| == |mask| - 10
            && AllDigits(s[1..3]) && AllDigits(s[5..k]) && AllDigits(s[k + 1..])
  {
    var k := |s| - 5;
    assert forall i :: 1 <= i < 3 || 5 <= i < k || k < i < |s| ==> mask[i] == '#';
    assert s[0] == '(' && s[3] == ')' && s[4] == ' ' && s[k] == '-';
    var t := "(" + (s[1..3] + (") " + (s[5..k] + ("-" + s[k + 1..]))));
    assert |t| == |s|;
    forall i | 0 <= i < |s| ensures t[i] == s[i] {
      if i < 1 {} else if i < 3 {} else if i < 5 {} else if i < k {} else if i < k + 1 {} else {}
    }
  }

  /** The digits of three digit groups joined by the phone separators are the groups themselves. */
  lemma PhonePartsDigits(p1: string, p2: string, p3: string)
    requires AllDigits(p1) && AllDigits(p2) && AllDigits(p3)
    ensures Digits("(" + (p1 + (") " + (p2 + ("-" + p3))))) == p1 + (p2 + p3)
  {
    NoDigits("(");
    NoDigits(") ");
    NoDigits("-");
    DigitsOfDigits(p3);
    var t2 := p2 + ("-" + p3);
    var t1 := p1 + (") " + t2);
    calc {
      Digits("(" + t1);
    == { DigitsConcat("(", t1); }
      Digits(t1);
    == { DigitsJoin(p1, ") ", t2); }
      p1 + Digits(t2);
    == { DigitsJoin(p2, "-", p3); }
      p1 + (p2 + p3);
    }
  }

  // ------------------------------------------------- validatePixKeyByType

  /** validatePixKeyByType: digit counts for cpf, cnpj and phone, the
      regular expressions of the service for email and random, and a
      non-empty value for every other type string. */
  predicate ValidatePixKeyByType(keyType: string, value: string): (ok: bool)
    ensures ok ==> value != ""
    ensures keyType in {"cpf", "cnpj", "phone"} && ok ==> 10 <= |Digits(value)|
  {
    var clean := Digits(value);
    if keyType == "cpf" then |clean| == 11
    else if keyType == "cnpj" then |clean| == 14
    else if keyType == "email" then IsValidEmail(value)
    else if keyType == "phone" then 10 <= |clean| <= 11
    else if keyType == "random" then IsValidRandomKey(value)
    else |value| > 0
  }

  /** Every key the service accepts as a CPF, CNPJ, e-mail or random key the
      form accepts too; the form asks of them strictly less. */
  lemma ServiceValidImpliesByType(t: UsePixStore.KeyType, value: string)
    requires t != UsePixStore.Phone && t != UsePixStore.Manual
    requires KeyValid(t, value)
    ensures ValidatePixKeyByType(t.Name(), value)
  {
  }

  /** The form takes eleven equal digits for a CPF; the service does not. */
  lemma ByTypeAcceptsRepeatedCpf(c: char)
    requires IsDigit(c)
    ensures ValidatePixKeyByType("cpf", Repeat(c, 11)) && !CpfValid(Repeat(c, 11))
  {
    CpfRepeatedDigitsPassChecksum(c);
    assert AllDigits(Repeat(c, 11));
    DigitsOfDigits(Repeat(c, 11));
  }

  /** The two phone checks disagree in both directions: the service accepts
      12 to 15 digits, which the form refuses, and the form accepts ten
      digits, which the service refuses. */
  lemma PhoneChecksDisagree(d: string)
    requires AllDigits(d) && 10 <= |d| <= 15 && d[0] != '0'
    ensures IsValidPhone(d) <==> 11 <= |d|
    ensures ValidatePixKeyByType("phone", d) <==> |d| <= 11
  {
    DigitsOfDigits(d);
    assert '+' !in d;
    PhoneWithoutPlus(d);
    ByTypePhone(d);
  }

  /** The form's phone check counts the digits only. */
  lemma ByTypePhone(value: string)
    ensures ValidatePixKeyByType("phone", value) <==> 10 <= |Digits(value)| <= 11
  {
  }

  /** The service accepts an empty manual key; the form does not. */
  lemma ManualEmptyKey()
    ensures KeyValid(UsePixStore.Manual, "") && !ValidatePixKeyByType("manual", "")
  {
  }

  // ----------------------------------------------------------- maskPixKey

  /** maskPixKey. */
  function MaskPixKey(keyType: string, value: string): (r: string)
    ensures keyType == "cpf" ==> r == FormatCPF(value)
    ensures keyType == "cnpj" ==> r == FormatCNPJ(value)
    ensures keyType == "phone" ==> r == FormatPhone(value)
    ensures keyType == "email" ==> r == Lower(value)
    ensures keyType !in {"cpf", "cnpj", "phone", "email"} ==> r == value
  {
    if keyType == "cpf" then FormatCPF(value)
    else if keyType == "cnpj" then FormatCNPJ(value)
    else if keyType == "phone" then FormatPhone(value)
    else if keyType == "email" then Lower(value)
    else value
  }

  /** Masking twice is masking once, for every type. */
  lemma MaskPixKeyIdempotent(keyType: string, value: string)
    ensures MaskPixKey(keyType, MaskPixKey(keyType, value)) == MaskPixKey(keyType, value)
  {
    if keyType == "cpf" {
      FormatCPFIdempotent(value);
    } else if keyType == "cnpj" {
      FormatCNPJIdempotent(value);
    } else if keyType == "phone" {
      FormatPhoneIdempotent(value);
    } else if keyType == "email" {
      LowerIdempotent(value);
    }
  }

  /** For cpf, cnpj and phone the mask keeps the digits of the value. */
  lemma MaskPixKeyKeepsDigits(keyType: string, value: string)
    requires keyType in {"cpf", "cnpj", "phone"}
    ensures Digits(MaskPixKey(keyType, value)) == Digits(value)
  {
    if keyType == "cpf" {
      FormatCPFDigits(value);
    } else if keyType == "cnpj" {
      FormatCNPJDigits(value);
    } else {
      FormatPhoneDigits(value);
    }
  }

  // ------------------------------------------------- labels and placeholders

  /** getPixKeyLabel. */
  function GetPixKeyLabel(keyType: string): (r: string)
    ensures r != ""
    ensures keyType !in {"cpf", "cnpj", "email", "phone", "random", "manual"} ==> r == "Chave Pix"
  {
    if keyType == "cpf" then "CPF"
    else if keyType == "cnpj" then "CNPJ"
    else if keyType == "email" then "E-mail"
    else if keyType == "phone" then "Telefone"
    else if keyType == "random" then "Chave Aleatória"
    else if keyType == "manual" then "Chave Manual"
    else "Chave Pix"
  }

  /** The six key types have six different labels, none of them the fallback. */
  lemma LabelsDistinct(a: UsePixStore.KeyType, b: UsePixStore.KeyType)
    ensures GetPixKeyLabel(a.Name()) != "Chave Pix"
    ensures GetPixKeyLabel(a.Name()) == GetPixKeyLabel(b.Name()) <==> a == b
  {
  }

  /** getPixKeyPlaceholder. */
  function GetPixKeyPlaceholder(keyType: string): (r: string)
    ensures keyType !in {"cpf", "cnpj", "email", "phone", "random", "manual"} ==> r == ""
  {
    if keyType == "cpf" then "000.000.000-00"
    else if keyType == "cnpj" then "00.000.000/0000-00"
    else if keyType == "email" then "email@exemplo.com"
    else if keyType == "phone" then "(11) 99999-9999"
    else if keyType == "random" then "12345678-1234-1234-1234-123456789012"
    else if keyType == "manual" then "Digite sua chave"
    else ""
  }

  /** The placeholders of cpf, cnpj and phone are already in the shape the
      formatters produce, so masking leaves every placeholder as it is. */
  lemma PlaceholdersAreMasked(t: UsePixStore.KeyType)
    ensures MaskPixKey(t.Name(), GetPixKeyPlaceholder(t.Name())) == GetPixKeyPlaceholder(t.Name())
  {
    var p := GetPixKeyPlaceholder(t.Name());
    match t
    case Cpf => CpfPlaceholderMasked(p);
    case Cnpj => CnpjPlaceholderMasked(p);
    case Phone => PhonePlaceholderMasked(p);
    case Email =>
      assert Lower(p) == p;
    case Random =>
    case Manual =>
  }

  lemma CpfPlaceholderMasked(p: string)
    requires p == GetPixKeyPlaceholder("cpf")
    ensures FormatCPF(p) == p
  {
    assert FitsMask(p, CpfMask);
    FormatCPFFixesMasked(p);
  }

  lemma CnpjPlaceholderMasked(p: string)
    requires p == GetPixKeyPlaceholder("cnpj")
    ensures FormatCNPJ(p) == p
  {
    assert FitsMask(p, CnpjMask);
    FormatCNPJFixesMasked(p);
  }

  lemma PhonePlaceholderMasked(p: string)
    requires p == GetPixKeyPlaceholder("phone")
    ensures FormatPhone(p) == p
  {
    assert FitsMask(p, Phone11Mask);
    FormatPhoneFixesMasked(p);
  }

  /** The e-mail placeholder is a valid e-mail address. */
  lemma EmailPlaceholderIsEmail()
    ensures IsValidEmail(GetPixKeyPlaceholder("email"))
  {
    var p := GetPixKeyPlaceholder("email");
    assert p == "email@exemplo.com";
    assert p[5] == '@' && p[13] == '.';
    assert forall i :: 0 <= i < 17 && i != 5 && i != 13 ==> 'a' <= p[i] <= 'z';
    EmailPlaceholderValid(p);
  }

  /** The random-key placeholder is not a key the UUID pattern accepts: its
      fourth group starts with 1, not with 8, 9, a or b. */
  lemma RandomPlaceholderIsNotUuid()
    ensures !IsValidRandomKey(GetPixKeyPlaceholder("random"))
  {
    RandomPlaceholderInvalid(GetPixKeyPlaceholder("random"));
  }

  lemma RandomPlaceholderInvalid(p: string)
    requires p == "12345678-1234-1234-1234-123456789012"
    ensures !IsValidRandomKey(p)
  {
    assert p[19] == '1';
    assert !UuidCharOk(p[19], 19);
  }

  /** A string of 17 lower-case letters with @ at 5 and a dot at 13, the
      shape of the e-mail placeholder, is a valid e-mail address. */
  lemma EmailPlaceholderValid(p: string)
    requires |p| == 17 && p[5] == '@' && p[13] == '.'
    requires forall i :: 0 <= i < 17 && i != 5 && i != 13 ==> 'a' <= p[i] <= 'z'
    ensures IsValidEmail(p)
  {
    var l, d1, d2 := p[..5], p[6..13], p[14..];
    assert PlainRun(l) && PlainRun(d1) && PlainRun(d2) by {
      assert forall i :: 0 <= i < |l| ==> l[i] == p[i];
      assert forall i :: 0 <= i < |d1| ==> d1[i] == p[6 + i];
      assert forall i :: 0 <= i < |d2| ==> d2[i] == p[14 + i];
    }
    EmailPatternGivesScan(l, d1, d2);
    assert p == l + "@" + d1 + "." + d2;
  }
}
