/** The key list screen of PixKeyList.tsx: the displayed subset of the keys
    (filteredKeys), recomputed by the search box, by the type filter and on
    every change of the keys, and the partial masking of key values. */
module PixKeyList {
  import opened Wrappers
  import opened Seqs
  import opened Text
  import opened UsePixStore
  import Validators
  import PixService

  /** A key as the list receives it: the store's key with its name as its
      label (keyLabel, since label is a Dafny keyword) and its type as the
      plain type string. */
  datatype ListedKey = ListedKey(id: string, keyType: string, value: string, keyLabel: string,
                                 isPrimary: bool, createdAt: string)

  /** The mapping the page applies to the store's keys before passing them in. */
  function ListedOf(k: PixKey): (r: ListedKey)
    ensures r.id == k.id && r.keyType == k.keyType.Name() && r.keyLabel == k.name && r.value == k.value
  {
    ListedKey(k.id, k.keyType.Name(), k.value, k.name, k.isPrimary, k.createdAt)
  }

  function ToListed(keys: seq<PixKey>): (r: seq<ListedKey>)
    ensures |r| == |keys| && forall i :: 0 <= i < |keys| ==> r[i] == ListedOf(keys[i])
  {
    Map(keys, ListedOf)
  }

  // ------------------------------------------------------ search and filter

  /** The search predicate of handleSearch, for an already lower-cased query. */
  predicate ListedMatches(k: ListedKey, lowerQuery: string) {
    Contains(Lower(k.keyLabel), lowerQuery) || Contains(Lower(k.value), lowerQuery)
  }

  function ListedMatcher(lowerQuery: string): ListedKey -> bool {
    (k: ListedKey) => ListedMatches(k, lowerQuery)
  }

  /** What handleSearch shows. */
  function SearchListed(keys: seq<ListedKey>, query: string): (r: seq<ListedKey>)
    ensures query == "" ==> r == keys
    ensures query != "" ==> IsSubsequence(r, keys) && forall k :: k in r <==> k in keys && ListedMatches(k, Lower(query))
    ensures forall k :: multiset(r)[k] == if query == "" || ListedMatches(k, Lower(query)) then multiset(keys)[k] else 0
  {
    if query == "" then keys
    else
      FilterMultiset(keys, ListedMatcher(Lower(query)));
      Filter(keys, ListedMatcher(Lower(query)))
  }

  function ListedTypeIs(t: string): ListedKey -> bool {
    (k: ListedKey) => k.keyType == t
  }

  /** What handleFilter shows. */
  function FilterListed(keys: seq<ListedKey>, t: string): (r: seq<ListedKey>)
    ensures t == "" || t == "all" ==> r == keys
    ensures t != "" && t != "all" ==> IsSubsequence(r, keys) && forall k :: k in r <==> k in keys && k.keyType == t
    ensures forall k :: multiset(r)[k] == if t == "" || t == "all" || k.keyType == t then multiset(keys)[k] else 0
  {
    if t == "" || t == "all" then keys
    else
      FilterMultiset(keys, ListedTypeIs(t));
      Filter(keys, ListedTypeIs(t))
  }

  /** The list's search over the mapped keys is the store's searchPixKeys,
      mapped: label plays the part of name. */
  lemma SearchAgreesWithStore(keys: seq<PixKey>, query: string)
    ensures SearchListed(ToListed(keys), query) == ToListed(SearchPixKeys(keys, query))
  {
    if query != "" {
      FilterMap(keys, ListedOf, ListedMatcher(Lower(query)), KeyMatcher(Lower(query)));
    }
  }

  /** The type filter over the mapped keys is the store's filterPixKeysByType, mapped. */
  lemma FilterAgreesWithStore(keys: seq<PixKey>, t: string)
    ensures FilterListed(ToListed(keys), t) == ToListed(FilterPixKeysByType(keys, t))
  {
    if t != "" && t != "all" {
      FilterMap(keys, ListedOf, ListedTypeIs(t), TypeMatcher(t));
    }
  }

  /** The component state: the keys it was given and the ones it shows. */
  class KeyList {
    var keys: seq<ListedKey>
    var filteredKeys: seq<ListedKey>

    /** The initial state shows every key. */
    constructor (keys: seq<ListedKey>)
      ensures this.keys == keys && filteredKeys == keys
    {
      this.keys := keys;
      filteredKeys := keys;
    }

    /** handleSearch: recomputed from all keys, whatever was shown before. */
    method HandleSearch(query: string)
      modifies this
      ensures filteredKeys == SearchListed(keys, query)
      ensures keys == old(keys)
    {
      if query == "" {
        filteredKeys := keys;
        return;
      }
      filteredKeys := Filter(keys, ListedMatcher(Lower(query)));
    }

    /** handleFilter: recomputed from all keys, so a search before it is forgotten. */
    method HandleFilter(t: string)
      modifies this
      ensures filteredKeys == FilterListed(keys, t)
      ensures keys == old(keys)
    {
      if t == "" || t == "all" {
        filteredKeys := keys;
        return;
      }
      filteredKeys := Filter(keys, ListedTypeIs(t));
    }

    /** New keys from the page, followed by the effect that shows them all. */
    method KeysChanged(newKeys: seq<ListedKey>)
      modifies this
      ensures keys == newKeys && filteredKeys == newKeys
    {
      keys := newKeys;
      filteredKeys := keys;
    }
  }

  /** Search and filter do not compose: after a search and then a filter,
      the list shows what the filter alone shows. */
  method SearchThenFilter(keys: seq<ListedKey>, query: string, t: string) returns (shown: seq<ListedKey>)
    ensures shown == FilterListed(keys, t)
  {
    var list := new KeyList(keys);
    list.HandleSearch(query);
    list.HandleFilter(t);
    shown := list.filteredKeys;
  }

  // --------------------------------------------------------------- masking

  /** s has n digits in a row starting at i. */
  predicate DigitRunAt(s: string, i: nat, n: nat) {
    i + n <= |s| && AllDigits(s[i..i + n])
  }

  /** Where a regular expression of n digits first matches in s, at or after from. */
  function FirstDigitRun(s: string, n: nat, from: nat): (r: Option<nat>)
    ensures r.Some? ==> from <= r.value && DigitRunAt(s, r.value, n)
                        && forall j :: from <= j < r.value ==> !DigitRunAt(s, j, n)
    ensures r.None? ==> forall j :: from <= j ==> !DigitRunAt(s, j, n)
    decreases |s| - from
  {
    if from + n > |s| then None
    else if DigitRunAt(s, from, n) then Some(from)
    else FirstDigitRun(s, n, from + 1)
  }

  /** value.replace(/(\d{3})(\d{3})(\d{3})(\d{2})/, "$1.***.***-$4"). */
  function MaskCpf(value: string): (r: string)
    ensures FirstDigitRun(value, 11, 0).None? ==> r == value
    ensures FirstDigitRun(value, 11, 0).Some? ==>
              var i := FirstDigitRun(value, 11, 0).value;
              |r| == |value| + 3 && r[..i + 3] == value[..i + 3] && r[i + 3..i + 12] == ".***.***-"
              && r[i + 12..] == value[i + 9..]
  {
    match FirstDigitRun(value, 11, 0)
    case None => value
    case Some(i) => value[..i] + value[i..i + 3] + ".***.***-" + value[i + 9..i + 11] + value[i + 11..]
  }

  /** value.replace(/(\d{2})(\d{5})(\d{4})/, "($1) $2-****"). */
  function MaskPhone(value: string): (r: string)
    ensures FirstDigitRun(value, 11, 0).None? ==> r == value
    ensures FirstDigitRun(value, 11, 0).Some? ==>
              var i := FirstDigitRun(value, 11, 0).value;
              |r| == |value| + 4 && r[..i] == value[..i] && r[i] == '(' && r[i + 1..i + 3] == value[i..i + 2]
              && r[i + 3..i + 5] == ") " && r[i + 5..i + 10] == value[i + 2..i + 7]
              && r[i + 10..i + 15] == "-****" && r[i + 15..] == value[i + 11..]
  {
    match FirstDigitRun(value, 11, 0)
    case None => value
    case Some(i) => value[..i] + "(" + value[i..i + 2] + ") " + value[i + 2..i + 7] + "-****" + value[i + 11..]
  }

  /** The first two pieces of value.split("@"); the second is absent when
      there is no @. */
  function SplitAt(value: string): (r: (string, Option<string>))
    ensures '@' !in r.0 && (r.1.Some? ==> '@' !in r.1.value)
    ensures r.1.None? <==> '@' !in value
    ensures r.1.None? ==> r.0 == value
    ensures r.1.Some? ==> |r.0| + 1 + |r.1.value| <= |value| && value[..|r.0| + 1] == r.0 + "@"
                          && value[|r.0| + 1..|r.0| + 1 + |r.1.value|] == r.1.value
    ensures r.1.Some? ==> |r.0| + 1 + |r.1.value| == |value| || value[|r.0| + 1 + |r.1.value|] == '@'
  {
    var at := FindIndex(value, PixService.IsAt);
    if at == |value| then
      assert value[..at] == value;
      (value, None)
    else
      var rest := value[at + 1..];
      var second := FindIndex(rest, PixService.IsAt);
      assert value[..at + 1] == value[..at] + "@";
      (value[..at], Some(rest[..second]))
  }

  /** The e-mail mask: the first character of the user part, "***@", then
      the domain part, which a template literal writes as "undefined" when
      there is none. */
  function MaskEmail(value: string): (r: string)
    ensures '@' !in value ==> r == (if value == "" then "" else [value[0]]) + "***@undefined"
    ensures '@' in value ==> r == (if value[0] == '@' then "" else [value[0]]) + "***@" + SplitAt(value).1.value
  {
    var (user, domain) := SplitAt(value);
    (if user == "" then "" else [user[0]]) + "***@" + domain.GetOr("undefined")
  }

  /** maskValue. */
  function MaskValue(keyType: string, value: string): (r: string)
    ensures keyType == "cpf" ==> r == MaskCpf(value)
    ensures keyType == "phone" ==> r == MaskPhone(value)
    ensures keyType == "email" ==> r == MaskEmail(value)
    ensures keyType !in {"cpf", "email", "phone"} ==> r == value
  {
    if keyType == "cpf" then MaskCpf(value)
    else if keyType == "email" then MaskEmail(value)
    else if keyType == "phone" then MaskPhone(value)
    else value
  }

  /** For eleven bare digits the CPF mask is the formatted CPF with its
      middle six digits starred. */
  lemma CpfMaskHidesMiddle(d: string)
    requires |d| == 11 && AllDigits(d)
    ensures var m, f := MaskValue("cpf", d), Validators.FormatCPF(d);
            |m| == |f| == 14
            && forall i :: 0 <= i < 14 ==> if i in {4, 5, 6, 8, 9, 10} then m[i] == '*' else m[i] == f[i]
  {
    var m, f := MaskValue("cpf", d), Validators.FormatCPF(d);
    MaskCpfOfDigits(d);
    DigitsOfDigits(d);
    assert f == d[..3] + ("." + (d[3..6] + ("." + (d[6..9] + ("-" + d[9..])))));
    forall i | 0 <= i < 14
      ensures if i in {4, 5, 6, 8, 9, 10} then m[i] == '*' else m[i] == f[i]
    {
      if i < 3 { assert m[i] == d[i] == f[i]; }
      else if 11 < i { assert m[i] == d[i - 3] == f[i]; }
    }
  }

  /** On eleven bare digits the CPF mask rewrites the whole string. */
  lemma MaskCpfOfDigits(d: string)
    requires |d| == 11 && AllDigits(d)
    ensures MaskCpf(d) == d[..3] + ".***.***-" + d[9..]
  {
    ElevenDigitsRunAtZero(d);
    assert d[..0] + d[0..3] == d[..3];
    assert d[9..11] + d[11..] == d[9..];
  }

  /** For eleven bare digits the phone mask is the formatted phone number
      with its last four digits starred. */
  lemma PhoneMaskHidesEnd(d: string)
    requires |d| == 11 && AllDigits(d)
    ensures var m, f := MaskValue("phone", d), Validators.FormatPhone(d);
            |m| == |f| == 15
            && forall i :: 0 <= i < 15 ==> if 11 <= i then m[i] == '*' else m[i] == f[i]
  {
    var m, f := MaskValue("phone", d), Validators.FormatPhone(d);
    ElevenDigitsRunAtZero(d);
    MaskPhoneAt(d, 0);
    DigitsOfDigits(d);
    assert f == "(" + (d[..2] + (") " + (d[2..7] + ("-" + d[7..]))));
    forall i | 0 <= i < 15
      ensures if 11 <= i then m[i] == '*' else m[i] == f[i]
    {
      if 1 <= i < 3 { assert m[i] == d[i - 1] == f[i]; }
      else if 5 <= i < 10 { assert m[i] == d[i - 3] == f[i]; }
    }
  }

  /** Eleven bare digits are themselves the first run of eleven digits. */
  lemma ElevenDigitsRunAtZero(d: string)
    requires |d| == 11 && AllDigits(d)
    ensures FirstDigitRun(d, 11, 0) == Some(0)
  {
    assert d[0..11] == d;
  }

  /** The phone mask once the run of eleven digits is found at i. */
  lemma MaskPhoneAt(value: string, i: nat)
    requires FirstDigitRun(value, 11, 0) == Some(i)
    ensures MaskPhone(value) == value[..i] + "(" + value[i..i + 2] + ") " + value[i + 2..i + 7] + "-****" + value[i + 11..]
  {
  }


  /** An address user@domain with a non-empty user and a single @ shows
      only the first letter of the user. */
  lemma EmailMaskShowsDomain(user: string, domain: string)
    requires user != [] && '@' !in user && '@' !in domain
    ensures MaskValue("email", user + "@" + domain) == [user[0]] + "***@" + domain
  {
    var v := user + "@" + domain;
    assert forall j :: 0 <= j < |user| ==> v[j] == user[j];
    assert v[|user|] == '@';
    PixService.FindIndexFirst(v, PixService.IsAt, |user|);
    var rest := v[|user| + 1..];
    assert rest == domain;
    assert FindIndex(rest, PixService.IsAt) == |rest| by {
      assert forall j :: 0 <= j < |rest| ==> rest[j] in domain;
    }
  }

  /** With two or more @, the mask shows the part between the first and the
      second @ as the domain and drops the rest. */
  lemma EmailMaskSecondAt(user: string, domain: string, rest: string)
    requires user != [] && '@' !in user && '@' !in domain
    ensures MaskValue("email", user + "@" + domain + "@" + rest) == [user[0]] + "***@" + domain
  {
    var v := user + "@" + domain + "@" + rest;
    assert forall j :: 0 <= j < |user| ==> v[j] == user[j];
    assert v[|user|] == '@';
    PixService.FindIndexFirst(v, PixService.IsAt, |user|);
    var tail := v[|user| + 1..];
    assert tail == domain + "@" + rest;
    assert forall j :: 0 <= j < |domain| ==> tail[j] == domain[j];
    assert tail[|domain|] == '@';
    PixService.FindIndexFirst(tail, PixService.IsAt, |domain|);
    assert v[..|user|] == user;
    assert tail[..|domain|] == domain;
  }

  /** A value without @ is shown with "undefined" as its domain. */
  lemma EmailMaskWithoutAt(value: string)
    requires value != [] && '@' !in value
    ensures MaskValue("email", value) == [value[0]] + "***@undefined"
  {
  }

  /** A value whose user part is empty shows no first character: "@d" is
      shown as "***@d". */
  lemma EmailMaskEmptyUser(d: string)
    requires '@' !in d
    ensures MaskValue("email", "@" + d) == "***@" + d
  {
    var v := "@" + d;
    var (user, domain) := SplitAt(v);
    assert v[..|user| + 1] == user + "@";
    assert user == "";
    assert domain.value == v[1..1 + |domain.value|];
    assert v[1..] == d;
  }

  /** The CPF mask applies to the first eleven-digit run wherever it
      starts: a leading letter is kept and the run after it is masked. */
  lemma CpfMaskAfterLetter()
    ensures MaskValue("cpf", "a12345678901") == "a123.***.***-01"
  {
    var v := "a12345678901";
    assert v[0..11][0] == 'a' && !IsDigit('a');
    assert AllDigits(v[1..12]);
    assert FirstDigitRun(v, 11, 0) == FirstDigitRun(v, 11, 1) == Some(1);
    assert v[..1] == "a" && v[1..4] == "123" && v[10..12] == "01" && v[12..] == "";
  }
}
