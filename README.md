# Pix Fácil — a verified model of the key store, the key validators and the list views

Pix Fácil is a merchant application for Brazil's Pix instant-payment system. A
merchant registers payment-receiving keys (CPF or CNPJ tax number, e-mail,
phone, random UUID key, or free text). The merchant then generates payment
QR codes for those keys and follows each code through pending, received and
cancelled.

This project models four parts of that application in Dafny:

- **The client-side store** (`UsePixStore`). It holds the keys, the
  transactions, the QR-code history and an offline flag.
  - The class `PixStore` has one method per action of the store. Each method
    reassigns the collection that action replaces.
  - Each new collection is computed by a pure function (`WithNewKey`,
    `WithPrimary`, `KeysWithout`, `WithCancelled`, …).
  - The store's queries are pure functions as well: search, filter by type,
    the primary key, and lookup by id.
- **The key validators** (`PixService`). These cover the CPF and CNPJ
  check-digit algorithms and the e-mail, phone and UUID patterns, plus the
  type dispatch of `validatePixKey`.
  - `IsValidCPF`, `IsValidCNPJ` and the CNPJ pass keep the loops of the
    original code. They are proved against the specification predicates
    `CpfValid` and `CnpjValid`.
- **The display helpers** (`Validators`): the CPF, CNPJ and phone
  formatters, the form's by-type validation, and `maskPixKey`. It also holds
  the label and placeholder tables.
- **The three components that carry logic:**
  - `QRHistoryList`: the search and status filters of the history screen,
    and the row actions offered for each record.
  - `PixKeyList`: search and type filter over the displayed keys, their reset
    when the keys change, and the value masks.
  - `CancelDialog`: the reason field and its trimmed-reason guard, the only
    place where a cancellation reason is checked.

`seqs.dfy` holds the sequence helpers (`Filter`, `Find`, subsequences) and
`text.dfy` the character helpers. The character helpers are digit
stripping, ECMAScript white space, `toLowerCase`, `includes` and `trim`.

The clock and `Date.now()` become parameters of the methods that use them.
Each such method receives the `id` and the `createdAt` timestamp of the
record it creates. The store does not check that an id is fresh, and two
calls within one millisecond produce the same id. So the methods carry no
freshness precondition. Lemmas that need unique ids state it as a
hypothesis (`UniqueIds`, or "no key has this id").

### Behaviour of the code worth noting

The model follows the code. These lemmas record behaviour where one part
of the code enforces a rule that another part does not:

- **`cancelQR` is not terminal.** An `updateQRReceived(id, true)` after it
  leaves the record both cancelled and received (`ReceivedAfterCancel`).
  Only the list prevents that: it hides the row buttons of a cancelled record
  (`QRHistoryList.tsx:244-269`) and classifies it as cancelled first
  (`RowActions`, `ReceivedUpdateKeepsCancelled`).
- **`cancelQR` does not check its reason.** It accepts `""` and overwrites an
  earlier reason (`CancelReasonUnchecked`, `CancelLastWriteWins`). The
  non-empty-reason rule is enforced only by the dialog's guard and disabled
  button (`CancelDialog.tsx:26`, `:99`; `ConfirmedCancelHasReason`).
- **A dismissed reason carries over to the next record.** The dialog stays
  mounted (`QRHistoryList.tsx:295`) and keeps its reason state above the
  `if (!qr) return null` at `CancelDialog.tsx:37`. A dismissal by Escape or a
  click outside calls `onOpenChange` without clearing the field (`:48`). So
  a reason typed for one record is already there, and confirm already
  enabled, when the dialog opens for another (`ReasonCarriesOver`).
- **The two phone checks differ.** The service's `isValidPhone` accepts 11 to
  15 digits with an optional `+`. The form's check by type accepts 10 or 11
  digits. Each accepts phone numbers that the other rejects
  (`PhoneChecksDisagree`).
- **`setPrimaryKey` with an unknown id clears every primary flag.**
  `updatePixKey` can create a second primary key, although `addPixKey`
  clears the other flags when it adds a primary key (`usePixStore.ts:87-98`)
  (`SetPrimaryThenGetPrimary`, `UpdateCanMakeSecondPrimary`).

## Model

| member | source | states |
|---|---|---|
| UsePixStore.KeyType.Name | src/hooks/usePixStore.ts:6 | every key type has a non-empty tag other than "all" |
| UsePixStore.NameInjective | src/hooks/usePixStore.ts:6 | different key types have different tags |
| UsePixStore.WithNewKey | src/hooks/usePixStore.ts:82-101 | the new key, with the given id and timestamp, is appended at the end; when it is primary every earlier key keeps all its fields but loses its primary flag, otherwise the earlier keys are unchanged |
| UsePixStore.Merge | src/hooks/usePixStore.ts:106 | for each of the six fields, a field present in the update replaces the key's field and an absent one keeps it (`{ ...key, ...updates }`); an empty update changes nothing |
| UsePixStore.UpdateRenamesAndMarksPrimary | src/test/pixStore.test.ts:74-90 | a key added as non-primary and then updated with a new name and isPrimary true has that name, is primary and keeps its other fields |
| UsePixStore.WithUpdates | src/hooks/usePixStore.ts:103-109 | keys with the id are merged with the updates and every other key stays as it was, in place |
| UsePixStore.UpdateUnknownIsNoOp | src/hooks/usePixStore.ts:103-109 | an update of an id no key has changes nothing |
| UsePixStore.KeysWithout | src/hooks/usePixStore.ts:113 | the keys kept are, in order, exactly those whose id differs, each as many times as it occurred |
| UsePixStore.WithPrimary | src/hooks/usePixStore.ts:119-126 | same length and same fields except the flag, and a key is primary exactly when its id is the given one |
| UsePixStore.GetPixKeyById | src/hooks/usePixStore.ts:128-130 | the key found is the first with the id; none is found exactly when no key has the id |
| UsePixStore.GetPrimaryKey | src/hooks/usePixStore.ts:132-134 | a key found is primary and in the list; none is found exactly when no key is primary |
| UsePixStore.GetPrimaryKeyIsFirst | src/hooks/usePixStore.ts:132-134 | the primary key returned is the first primary key of the list |
| UsePixStore.SearchPixKeys | src/hooks/usePixStore.ts:136-145 | an empty query returns all keys; otherwise the order-preserving subsequence of keys whose lower-cased name or value contains the lower-cased query, each matching key as many times as it occurs |
| UsePixStore.SearchPixKeysIgnoresCase | src/hooks/usePixStore.ts:140-144 | the key search does not depend on the letter case of the query |
| UsePixStore.FilterPixKeysByType | src/hooks/usePixStore.ts:147-151 | type "" or "all" returns all keys; otherwise the order-preserving subsequence of keys of exactly that type, each as many times as it occurs |
| UsePixStore.AddPrimaryLeavesOnlyNewKeyPrimary | src/hooks/usePixStore.ts:87-98 | after adding a primary key exactly the new last key is primary and getPrimaryKey returns it |
| UsePixStore.AddKeyKeepsPrimary | src/hooks/usePixStore.ts:84-98 | adding a non-primary key appends it and leaves getPrimaryKey and the one-primary invariant as they were |
| UsePixStore.AddKeyKeepsUniqueIds | src/hooks/usePixStore.ts:91-98 | a key added with an unused id keeps the ids pairwise distinct |
| UsePixStore.SetPrimaryThenGetPrimary | src/hooks/usePixStore.ts:119-134 | after setPrimaryKey(id), getPrimaryKey returns the first key with that id, now primary, and nothing when the id is unknown |
| UsePixStore.SetPrimaryKeepsAtMostOne | src/hooks/usePixStore.ts:119-126 | with unique ids setPrimaryKey leaves at most one primary key |
| UsePixStore.SetPrimaryDuplicateIds | src/hooks/usePixStore.ts:121-124 | with a repeated id setPrimaryKey makes two keys primary |
| UsePixStore.UpdateCanMakeSecondPrimary | src/hooks/usePixStore.ts:103-109 | updatePixKey with isPrimary true does not clear the other flag: two keys end up primary |
| UsePixStore.DeleteKeepsInvariants | src/hooks/usePixStore.ts:111-117 | deleting a key keeps at most one primary key and keeps the ids unique |
| UsePixStore.TwoKeysScenario | src/test/pixStore.test.ts:33-56 | with two keys added, the second as primary, getPrimaryKey returns the second, and after setPrimaryKey on the first it returns the first while the second is no longer primary |
| UsePixStore.WithNewTransaction | src/hooks/usePixStore.ts:154-166 | the new transaction is appended after the unchanged earlier ones |
| UsePixStore.WithTransactionStatus | src/hooks/usePixStore.ts:168-174 | each transaction keeps every field but its status; one with the id takes the new status and the others are unchanged |
| UsePixStore.GetTransactionsByKeyId | src/hooks/usePixStore.ts:176-178 | exactly the transactions of that key, in order, each as many times as it occurs |
| UsePixStore.TransactionsWithout | src/hooks/usePixStore.ts:114 | exactly the transactions of other keys, in order, each as many times as it occurs |
| UsePixStore.WithNewQR | src/hooks/usePixStore.ts:181-194 | the new record is at index 0, not cancelled, with the given id and timestamp and the caller's other fields, and the old history follows unchanged |
| UsePixStore.WithReceived | src/hooks/usePixStore.ts:196-202 | each record keeps every field but isReceived; one with the id takes the new value whatever its isCancelled, and the others are unchanged |
| UsePixStore.WithCancelled | src/hooks/usePixStore.ts:204-210 | each record keeps every field but its two flags and reason; one with the id becomes cancelled and not received with the given reason, and the others are unchanged |
| UsePixStore.ReceivedAfterCancel | src/hooks/usePixStore.ts:196-210 | a record cancelled and then marked received is both cancelled and received |
| UsePixStore.CancelReasonUnchecked | src/hooks/usePixStore.ts:204-210 | an empty reason still cancels, and a later cancel replaces the reason |
| UsePixStore.HistoryWithout | src/hooks/usePixStore.ts:115 | exactly the history records of other keys, in order, each as many times as it occurs |
| UsePixStore.SearchQRHistory | src/hooks/usePixStore.ts:216-226 | an empty query returns the history; otherwise the records whose key name, description or amount contains the query, ignoring case, in order and each as many times as it occurs |
| UsePixStore.SearchQRHistoryIgnoresCase | src/hooks/usePixStore.ts:220-225 | the history search does not depend on the letter case of the query |
| UsePixStore.AddThenGetById | src/hooks/usePixStore.ts:82-101 | a key added with an unused id is what getPixKeyById then returns |
| UsePixStore.DeleteThenGet | src/hooks/usePixStore.ts:111-117 | after deleting a key neither it, nor a transaction of it, nor a history record of it is left |
| UsePixStore.AddTransactionThenGet | src/hooks/usePixStore.ts:154-178 | a transaction added is the last of its key's transactions, after the earlier ones |
| UsePixStore.SetPrimaryIdempotent | src/hooks/usePixStore.ts:119-126 | applying setPrimaryKey twice with the same id is the same as applying it once |
| UsePixStore.StatusLastWriteWins | src/hooks/usePixStore.ts:168-174 | of two status updates the later one decides |
| UsePixStore.ReceivedLastWriteWins | src/hooks/usePixStore.ts:196-202 | of two isReceived updates the later one decides |
| UsePixStore.CancelLastWriteWins | src/hooks/usePixStore.ts:204-210 | of two cancellations the later reason decides |
| UsePixStore.HistoryUpdatesKeepRecords | src/hooks/usePixStore.ts:196-210 | updateQRReceived and cancelQR change only the flags and reason of matching records and leave every other record as it was |
| UsePixStore.PixStore.constructor | src/hooks/usePixStore.ts:75-79 | the store starts with no keys, transactions or history and online |
| UsePixStore.PixStore.AddPixKey | src/hooks/usePixStore.ts:82-101 | pixKeys becomes WithNewKey of the old keys; a new primary key is then the one getPrimaryKey returns; nothing else changes |
| UsePixStore.PixStore.UpdatePixKey | src/hooks/usePixStore.ts:103-109 | pixKeys becomes WithUpdates of the old keys; nothing else changes |
| UsePixStore.PixStore.DeletePixKey | src/hooks/usePixStore.ts:111-117 | keys, transactions and history lose, in one step, exactly the entries of that key |
| UsePixStore.PixStore.SetPrimaryKey | src/hooks/usePixStore.ts:119-126 | pixKeys becomes WithPrimary of the old keys; nothing else changes |
| UsePixStore.PixStore.AddTransaction | src/hooks/usePixStore.ts:154-166 | transactions gain the new one at the end; nothing else changes |
| UsePixStore.PixStore.UpdateTransactionStatus | src/hooks/usePixStore.ts:168-174 | transactions become WithTransactionStatus of the old ones; nothing else changes |
| UsePixStore.PixStore.AddQRHistory | src/hooks/usePixStore.ts:181-194 | the history gains the new record at the front; nothing else changes |
| UsePixStore.PixStore.UpdateQRReceived | src/hooks/usePixStore.ts:196-202 | the history becomes WithReceived of the old one; nothing else changes |
| UsePixStore.PixStore.CancelQR | src/hooks/usePixStore.ts:204-210 | the history becomes WithCancelled of the old one; nothing else changes |
| UsePixStore.PixStore.SetOfflineStatus | src/hooks/usePixStore.ts:229-231 | only the offline flag changes, to the given value |
| UsePixStore.PixStore.ClearStore | src/hooks/usePixStore.ts:233-240 | all three collections are empty and the store is online |
| PixService.CpfCheckDigit | src/services/pixService.ts:96-97 | the CPF check digit, (10·sum mod 11) with 10 read as 0, is a single digit |
| PixService.IsValidCPF | src/services/pixService.ts:84-107 | the loops return exactly CpfValid: eleven digits after stripping, not all equal, both check digits right |
| PixService.CpfOfDigitString | src/services/pixService.ts:85 | on a string of digits the verdict is the digit-string condition itself |
| PixService.WeightedSumPrefix | src/services/pixService.ts:93-95 | the weighted sum reads only the digits it weighs |
| PixService.CpfIgnoresNonDigits | src/services/pixService.ts:85 | inserting a non-digit character never changes the CPF verdict |
| PixService.CpfCheckDigitsDetermined | src/services/pixService.ts:92-106 | two valid CPFs that agree on the first nine digits are equal |
| PixService.WeightedSumOfRepeat | src/services/pixService.ts:93-95 | the weighted sum of a run of one digit is the digit times the sum of the weights |
| PixService.CpfRepeatedDigitsPassChecksum | src/services/pixService.ts:89-106 | eleven equal digits satisfy both check-digit equations and are rejected only by the repeated-digit test |
| PixService.CpfSingleDigitChangeUndetected | src/services/pixService.ts:92-106 | 10000000108 and 20000000108 are both valid: a change of one digit can go unnoticed |
| PixService.CnpjCheckDigit | src/services/pixService.ts:128 | the CNPJ check digit, 0 below remainder 2 and 11 minus the remainder otherwise, is a single digit |
| PixService.CnpjWeightCycles | src/services/pixService.ts:121-126 | the two passes weigh the digits 5,4,3,2,9,…,2 and 6,5,4,3,2,9,…,2 |
| PixService.CnpjPass | src/services/pixService.ts:123-126 | the loop with the stepping and wrapping pos computes the weighted CNPJ sum |
| PixService.CnpjSumPrefix | src/services/pixService.ts:118 | the CNPJ sum reads only the digits it weighs |
| PixService.IsValidCNPJ | src/services/pixService.ts:109-143 | the method returns exactly CnpjValid: fourteen digits after stripping, not all equal, both check digits right |
| PixService.CnpjOfDigitString | src/services/pixService.ts:110 | on a string of digits the verdict is the digit-string condition itself |
| PixService.CnpjIgnoresNonDigits | src/services/pixService.ts:110 | inserting a non-digit character never changes the CNPJ verdict |
| PixService.CnpjCheckDigitsDetermined | src/services/pixService.ts:117-142 | two valid CNPJs that agree on the first twelve digits are equal |
| PixService.CnpjZerosPassChecksum | src/services/pixService.ts:114-142 | fourteen zeros satisfy both check-digit equations and are rejected only by the repeated-digit test |
| PixService.EmailMatchesPattern | src/services/pixService.ts:145-148 | the scan accepts a string exactly when it is user@d1.d2 with non-empty runs free of white space and @ |
| PixService.IsValidEmail | src/services/pixService.ts:145-148 | an accepted e-mail has at least five characters, contains @, and neither starts nor ends with @ |
| PixService.EmailPatternGivesScan | src/services/pixService.ts:146 | every string of the form user@d1.d2 is accepted |
| PixService.StrippedPhoneDigits | src/services/pixService.ts:152 | removing all but digits and + keeps the digits of the input |
| PixService.PhonePatternDigits | src/services/pixService.ts:151 | a string the phone pattern accepts is its digits, after an optional + |
| PixService.PhoneDigitCount | src/services/pixService.ts:150-153 | an accepted phone has 11 to 15 digits, the first not 0 |
| PixService.IsValidPhone | src/services/pixService.ts:150-153 | an accepted phone has at least eleven characters |
| PixService.PhoneWithoutPlus | src/services/pixService.ts:150-153 | for input without + the phone check is exactly "11 to 15 digits, the first not 0" |
| PixService.RandomKeyGroups | src/services/pixService.ts:155-159 | a random key is accepted exactly when it is hex groups of 8-4-4-4-12 with version 1-5 and variant 8, 9, a or b |
| PixService.IsValidRandomKey | src/services/pixService.ts:155-159 | an accepted random key has 36 characters with hyphens at positions 8, 13, 18 and 23 |
| PixService.RandomKeyIgnoresCase | src/services/pixService.ts:157 | lower-casing a key never changes whether it is accepted |
| PixService.ValidatePixKey | src/services/pixService.ts:8-26 | validatePixKey answers the validator of the key's type, and true for manual keys |
| Validators.FormatCPF | src/utils/validators.ts:3-7 | input without exactly eleven digits comes out as its bare digits |
| Validators.FormatCPFShape | src/utils/validators.ts:5-6 | eleven digits come out as ddd.ddd.ddd-dd |
| Validators.FormatCPFDigits | src/utils/validators.ts:3-7 | the output has exactly the digits of the input |
| Validators.FormatCPFIdempotent | src/utils/validators.ts:3-7 | formatting twice is formatting once |
| Validators.FormatCPFFixesMasked | src/utils/validators.ts:3-7 | a string already in the ddd.ddd.ddd-dd shape comes out unchanged |
| Validators.FormatCNPJ | src/utils/validators.ts:9-13 | input without exactly fourteen digits comes out as its bare digits |
| Validators.FormatCNPJShape | src/utils/validators.ts:11-12 | fourteen digits come out as dd.ddd.ddd/dddd-dd |
| Validators.FormatCNPJDigits | src/utils/validators.ts:9-13 | the output has exactly the digits of the input |
| Validators.FormatCNPJIdempotent | src/utils/validators.ts:9-13 | formatting twice is formatting once |
| Validators.FormatCNPJFixesMasked | src/utils/validators.ts:9-13 | a string already in the CNPJ shape comes out unchanged |
| Validators.FormatPhone | src/utils/validators.ts:15-25 | input with a digit count other than ten or eleven comes out as its bare digits |
| Validators.FormatPhoneShape | src/utils/validators.ts:18-24 | ten digits come out as (dd) dddd-dddd and eleven as (dd) ddddd-dddd |
| Validators.FormatPhoneDigits | src/utils/validators.ts:15-25 | the output has exactly the digits of the input |
| Validators.FormatPhoneIdempotent | src/utils/validators.ts:15-25 | formatting twice is formatting once |
| Validators.FormatPhoneFixesMasked | src/utils/validators.ts:15-25 | a string already in either phone shape comes out unchanged |
| Validators.ValidatePixKeyByType | src/utils/validators.ts:41-58 | every accepted value is non-empty, and an accepted cpf, cnpj or phone value has at least ten digits |
| Validators.ServiceValidImpliesByType | src/utils/validators.ts:41-58 | every CPF, CNPJ, e-mail or random key the service accepts passes the form's check by type |
| Validators.ByTypeAcceptsRepeatedCpf | src/utils/validators.ts:45-46 | the form accepts eleven equal digits as a CPF, which the service rejects |
| Validators.PhoneChecksDisagree | src/utils/validators.ts:51-52 | for 10 to 15 digits, the first not 0, the service accepts exactly 11 or more and the form exactly 11 or fewer |
| Validators.ManualEmptyKey | src/utils/validators.ts:55-56 | the service accepts an empty manual key, which the form rejects |
| Validators.MaskPixKey | src/utils/validators.ts:60-73 | cpf, cnpj and phone values are the results of formatCPF, formatCNPJ and formatPhone; e-mail values are lower-cased; values of any other type are returned unchanged |
| Validators.MaskPixKeyIdempotent | src/utils/validators.ts:60-73 | masking twice is masking once, for every type |
| Validators.MaskPixKeyKeepsDigits | src/utils/validators.ts:62-67 | for cpf, cnpj and phone the mask keeps exactly the digits of the value |
| Validators.GetPixKeyLabel | src/utils/validators.ts:75-85 | every label is non-empty and an unknown type gets "Chave Pix" |
| Validators.LabelsDistinct | src/utils/validators.ts:76-83 | the six types have six different labels, none the fallback |
| Validators.GetPixKeyPlaceholder | src/utils/validators.ts:87-97 | an unknown type gets the empty placeholder |
| Validators.PlaceholdersAreMasked | src/utils/validators.ts:87-97 | every placeholder is already in the shape maskPixKey gives its type |
| Validators.EmailPlaceholderIsEmail | src/utils/validators.ts:91 | the e-mail placeholder is a valid e-mail address |
| Validators.RandomPlaceholderIsNotUuid | src/utils/validators.ts:93 | the random-key placeholder is not a valid random key: its fourth group starts with 1 |
| QRHistoryList.StatusOf | src/components/QRHistoryList.tsx:60-66 | pending is not received and not cancelled, received is received and not cancelled, cancelled is cancelled |
| QRHistoryList.ExactlyOneStatus | src/components/QRHistoryList.tsx:61-66 | every record matches exactly one status filter, the one of its class |
| QRHistoryList.CancelledNeverReceived | src/components/QRHistoryList.tsx:63-66 | a cancelled record is shown under cancelled and never under received |
| QRHistoryList.ApplyFilters | src/components/QRHistoryList.tsx:36-74 | the listed records are the order-preserving subsequence of the history matching the search and the status filter, each as many times as it occurs |
| QRHistoryList.NoFilterListsAll | src/components/QRHistoryList.tsx:36-58 | with an empty query and status "all" the whole history is listed |
| QRHistoryList.ApplyFiltersIsOneFilter | src/components/QRHistoryList.tsx:36-74 | the search step followed by the status step is one filter by their conjunction |
| QRHistoryList.StoreSearchWithinListSearch | src/components/QRHistoryList.tsx:40-48 | everything the store's history search finds, the list's search finds too, in order |
| QRHistoryList.ValueOnlyMatch | src/components/QRHistoryList.tsx:46 | a record matching only on its key value is listed by the screen but not found by the store |
| QRHistoryList.RowActions | src/components/QRHistoryList.tsx:244-269 | a row has no actions exactly when it is cancelled; the toggle sends the record's id and the negated isReceived |
| QRHistoryList.ToggleFlipsStatus | src/components/QRHistoryList.tsx:249 | the toggle moves a record between pending and received and changes nothing else |
| QRHistoryList.ToggleTwice | src/components/QRHistoryList.tsx:249 | toggling twice restores the record |
| QRHistoryList.ReceivedUpdateKeepsCancelled | src/components/QRHistoryList.tsx:63-66 | marking a cancelled record received leaves it in the cancelled class |
| PixKeyList.ListedOf | src/pages/Index.tsx:227-234 | the listed key carries the store key's id, type tag, value, and its name as label |
| PixKeyList.ToListed | src/pages/Index.tsx:227-234 | the page maps every key, in order |
| PixKeyList.SearchListed | src/components/PixKeyList.tsx:27-39 | an empty query shows all keys; otherwise the keys whose label or value contains the query, ignoring case, in order and each as many times as it occurs |
| PixKeyList.FilterListed | src/components/PixKeyList.tsx:41-49 | type "" or "all" shows all keys; otherwise exactly the keys of that type, in order and each as many times as it occurs |
| PixKeyList.SearchAgreesWithStore | src/components/PixKeyList.tsx:33-37 | the list's search over the mapped keys is the store's key search, mapped |
| PixKeyList.FilterAgreesWithStore | src/components/PixKeyList.tsx:47 | the list's type filter over the mapped keys is the store's filter by type, mapped |
| PixKeyList.KeyList.constructor | src/components/PixKeyList.tsx:20 | the list first shows every key |
| PixKeyList.KeyList.HandleSearch | src/components/PixKeyList.tsx:27-39 | the shown keys become the search result over all keys |
| PixKeyList.KeyList.HandleFilter | src/components/PixKeyList.tsx:41-49 | the shown keys become the type filter over all keys |
| PixKeyList.KeyList.KeysChanged | src/components/PixKeyList.tsx:100-102 | new keys are all shown |
| PixKeyList.SearchThenFilter | src/components/PixKeyList.tsx:29-48 | a search followed by a filter shows the filter's result alone |
| PixKeyList.FirstDigitRun | src/components/PixKeyList.tsx:87 | the first position from which n digits follow in a row, or none when there is no such run |
| PixKeyList.MaskCpf | src/components/PixKeyList.tsx:87 | without an eleven-digit run the value is unchanged; otherwise the first run is rewritten with its middle six digits hidden |
| PixKeyList.MaskPhone | src/components/PixKeyList.tsx:94 | without an eleven-digit run the value is unchanged; otherwise the first run is rewritten with its last four digits hidden |
| PixKeyList.SplitAt | src/components/PixKeyList.tsx:90 | the first two pieces of the value split at @: the first runs up to the first @, the second from there up to the next @ or the end, and is absent exactly when there is no @ |
| PixKeyList.MaskEmail | src/components/PixKeyList.tsx:89-91 | a value without @ is its first character (none when empty) then "***@undefined"; otherwise the first character unless it is the @ itself, then "***@" and the second piece of the split |
| PixKeyList.MaskValue | src/components/PixKeyList.tsx:85-97 | a cpf value is the result of the CPF replace, a phone value of the phone replace, an e-mail value of the e-mail mask, and values of any other type are shown unchanged |
| PixKeyList.CpfMaskHidesMiddle | src/components/PixKeyList.tsx:86-88 | for eleven bare digits the mask is the formatted CPF with positions 4-6 and 8-10 as * |
| PixKeyList.PhoneMaskHidesEnd | src/components/PixKeyList.tsx:93-95 | for eleven bare digits the mask is the formatted phone with its last four digits as * |
| PixKeyList.EmailMaskShowsDomain | src/components/PixKeyList.tsx:89-91 | user@domain is shown as the first letter of user, ***@ and the domain |
| PixKeyList.EmailMaskSecondAt | src/components/PixKeyList.tsx:89-91 | with two or more @ the domain shown is the part between the first and the second @ |
| PixKeyList.EmailMaskWithoutAt | src/components/PixKeyList.tsx:89-91 | a value without @ is shown with the domain "undefined" |
| PixKeyList.EmailMaskEmptyUser | src/components/PixKeyList.tsx:89-91 | "@d" with no further @ is shown as "***@d": charAt(0) of the empty user part is empty |
| PixKeyList.CpfMaskAfterLetter | src/components/PixKeyList.tsx:87 | "a12345678901" is shown as "a123.***.***-01": the leading letter is kept and the digit run after it is masked |
| CancelDialog.TrimmedReasonGood | src/components/CancelDialog.tsx:26-27 | the trimmed reason is non-empty and trimmed exactly when the text holds a character that is not white space |
| CancelDialog.Dialog.constructor | src/components/CancelDialog.tsx:23 | the dialog starts with an empty reason and no callbacks made |
| CancelDialog.Dialog.ConfirmEnabled | src/components/CancelDialog.tsx:99 | the confirm button is enabled exactly when the reason holds a character that is not white space |
| CancelDialog.Dialog.SetReason | src/components/CancelDialog.tsx:23 | typing replaces the reason and makes no callback |
| CancelDialog.Dialog.HandleConfirm | src/components/CancelDialog.tsx:25-30 | without a record or with a blank reason nothing happens; otherwise one onConfirm call with the record's id and the trimmed reason, a cleared field and one close request |
| CancelDialog.Dialog.HandleCancel | src/components/CancelDialog.tsx:32-35 | the field is cleared, a close is requested and onConfirm is not called |
| CancelDialog.Dialog.Dismiss | src/components/CancelDialog.tsx:48 | a dismissal by Escape or a click outside requests a close and leaves the reason and the record as they are |
| CancelDialog.Dialog.SetQr | src/components/QRHistoryList.tsx:295-298 | the list passing another record, or none, replaces the record and keeps the reason typed so far |
| CancelDialog.ConfirmWhenEnabled | src/components/__tests__/CancelDialog.test.tsx:53-93 | pressing an enabled confirm button calls onConfirm once with the record's id and the trimmed reason, keeps every reason passed good, and leaves the button disabled |
| CancelDialog.ConfirmTrimsReason | src/components/CancelDialog.tsx:27 | "  motivo " reaches onConfirm as "motivo" |
| CancelDialog.ReasonCarriesOver | src/components/CancelDialog.tsx:23-37 | a reason typed for one record and dismissed is still there when the dialog opens for another record, so confirm is enabled and sends it for that record |
| CancelDialog.ConfirmedCancelHasReason | src/components/QRHistoryList.tsx:299-300 | a cancellation confirmed by the dialog leaves the store's record cancelled, not received, with a non-empty trimmed reason |
| Seqs.Filter | src/hooks/usePixStore.ts:141 | the kept elements are an order-preserving subsequence, each kept exactly when it passes |
| Seqs.FilterMultiset | src/hooks/usePixStore.ts:141 | an element that passes is kept as many times as it occurs, one that fails not at all |
| Seqs.Find | src/hooks/usePixStore.ts:129 | the element found is the first that passes; none is found exactly when none passes |
| Seqs.FilterNone | src/hooks/usePixStore.ts:114 | when no element of the sequence satisfies the predicate, the filter returns the empty sequence |
| Seqs.Map | src/pages/Index.tsx:227-234 | the mapped sequence has the same length and holds the image of each element at its position |
| Seqs.FilterMap | src/pages/Index.tsx:227-234 | filtering a mapped sequence by a predicate is mapping the sequence filtered by that predicate read through the map |
| Text.Lower | src/hooks/usePixStore.ts:140 | lower-casing works character by character and keeps the length |
| Text.LowerIdempotent | src/hooks/usePixStore.ts:140 | lower-casing twice is lower-casing once |
| Text.DigitsOfDigits | src/utils/validators.ts:4 | stripping non-digits leaves a string unchanged exactly when it is all digits |
| Text.DigitsConcat | src/utils/validators.ts:4 | stripping non-digits distributes over concatenation |
| Text.Digits | src/utils/validators.ts:4 | stripping non-digits leaves only digits and never lengthens the string |
| Text.Trim | src/components/CancelDialog.tsx:26 | the trimmed text is no longer than the text and, when non-empty, neither starts nor ends with white space |
| Text.TrimSpec | src/components/CancelDialog.tsx:26 | the trimmed text is a slice of the text that neither starts nor ends with white space |
| Text.TrimIdempotent | src/components/CancelDialog.tsx:27 | trimming twice is trimming once |
| Text.TrimSurrounded | src/components/CancelDialog.tsx:27 | text with white space around a part that starts and ends with other characters trims to that part |

## Left out

- The BR Code payload encoder and its CRC-16 (`generateBRCode`, `generateQRCodeUrl`): `src/utils/pixBRCodeGenerator` is not part of this model.
- Persistence: the `persist` wrapper with its `pix-store` name and version, and localStorage serialisation. The model is the in-memory state.
- `Date.now()` ids and ISO timestamps are parameters. No freshness precondition is imposed, because the code does not ensure one.
- `getQRHistory` returns the `qrHistory` field itself. It is the field of `PixStore`, with no member of its own.
- `deleteQRHistory` is called by the page but not defined in the store, so it is not part of this model.
- The date filter of the history screen needs date-fns `isSameDay` on timestamps. The model filters as when no date is selected.
- `formatCurrency`, `parseCurrency` and all amount arithmetic: the code uses floating point and locale formatting.
- `syncTransactions` and `backupData` (network), and the 500 ms delay of `validatePixKey`.
- `getTypeLabel` and `getTypeColor` of the key list: display-only lookups.
- The key form, pages, toasts, share, clipboard and native hooks are presentation glue.
- The `isLoading` and `onDeleteQR` props that some component tests pass: the components modelled have no such behaviour.
- Text.Lower: `toLowerCase` is modelled for ASCII and the Latin-1 Supplement letters only. The rest of Unicode is left as it is.
- Validators.GetPixKeyLabel: lookups of inherited object property names such as "toString" are not modelled. The model returns the fallback for them.
- Validators.GetPixKeyPlaceholder: the same limit for inherited property names.
- UsePixStore.Merge: an update carrying an explicit `undefined` value is not modelled. A missing field (`None`) keeps the old value.
- CancelDialog.Dialog: `onOpenChange` is a log of the calls made. The parent's reaction to the log (resetting its own state) is not modelled; the record passed in is changed with SetQr, and the `open` prop is not modelled.
- PixService.CnpjPass: the loop is proved for 9 to 16 digits, the range in which its weight cycle holds at entry. `IsValidCNPJ` only calls it with 12 and 13.
- PixService.CpfSingleDigitChangeUndetected: stated on the digit strings. `CpfOfDigitString` carries it to the validator's verdict.
- PixService.CpfCheckDigitsDetermined: stated on the digit strings, for the same reason.
- PixKeyList.SplitAt: only the first two pieces of `split("@")` are modelled, the ones `maskValue` reads.
- Strings are sequences of Unicode code points, not UTF-16 code units. For a user part starting with a character outside the Basic Multilingual Plane, `charAt(0)` in the e-mail mask gives a lone surrogate, while MaskEmail keeps the whole character.
