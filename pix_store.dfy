/** The client-side store of usePixStore.ts: Pix keys, generated QR-code
    history and transactions, plus the offline flag. Each action of the
    store computes its new collection with a pure map/filter expression;
    those expressions are the functions below, the store object itself is
    the class PixStore at the end, whose methods reassign its fields. */
module UsePixStore {
  import opened Wrappers
  import opened Seqs
  import opened Text

  datatype KeyType = Cpf | Cnpj | Email | Phone | Random | Manual {
    /** The string stored in PixKey.type. */
    function Name(): (s: string)
      ensures s != "" && s != "all"
    {
      match this
      case Cpf => "cpf"
      case Cnpj => "cnpj"
      case Email => "email"
      case Phone => "phone"
      case Random => "random"
      case Manual => "manual"
    }
  }

  /** Different key types have different names. */
  lemma NameInjective(a: KeyType, b: KeyType)
    ensures a.Name() == b.Name() <==> a == b
  {
  }

  datatype PixKey = PixKey(id: string, keyType: KeyType, value: string, name: string,
                           isPrimary: bool, createdAt: string)

  /** The argument of addPixKey: a key without id and creation time. */
  datatype NewPixKey = NewPixKey(keyType: KeyType, value: string, name: string, isPrimary: bool)

  /** The argument of updatePixKey: a Partial<PixKey>, absent fields are None. */
  datatype KeyUpdates = KeyUpdates(id: Option<string>, keyType: Option<KeyType>, value: Option<string>,
                                   name: Option<string>, isPrimary: Option<bool>, createdAt: Option<string>)

  datatype TransactionStatus = TxPending | TxCompleted | TxCancelled

  datatype PixTransaction = PixTransaction(id: string, pixKeyId: string, amount: string, description: string,
                                           qrCode: string, createdAt: string, status: TransactionStatus)

  datatype NewTransaction = NewTransaction(pixKeyId: string, amount: string, description: string,
                                           qrCode: string, status: TransactionStatus)

  datatype QRCodeHistory = QRCodeHistory(id: string, pixKeyId: string, pixKeyValue: string, pixKeyName: string,
                                         amount: string, description: string, qrCode: string, pixCode: string,
                                         createdAt: string, isReceived: bool, isCancelled: bool,
                                         cancellationReason: Option<string>)

  /** The argument of addQRHistory: a record without id and creation time.
      Its isCancelled is overridden by the store. */
  datatype NewQRCode = NewQRCode(pixKeyId: string, pixKeyValue: string, pixKeyName: string, amount: string,
                                 description: string, qrCode: string, pixCode: string, isReceived: bool,
                                 isCancelled: bool, cancellationReason: Option<string>)

  // ---------------------------------------------------------------- keys

  /** a and b agree on every field except, possibly, isPrimary. */
  predicate SameButPrimary(a: PixKey, b: PixKey) {
    a.(isPrimary := b.isPrimary) == b
  }

  function KeyFrom(k: NewPixKey, id: string, createdAt: string): PixKey {
    PixKey(id, k.keyType, k.value, k.name, k.isPrimary, createdAt)
  }

  function ClearPrimary(keys: seq<PixKey>): seq<PixKey> {
    seq(|keys|, i requires 0 <= i < |keys| => keys[i].(isPrimary := false))
  }

  /** The new pixKeys of addPixKey. */
  function WithNewKey(keys: seq<PixKey>, k: NewPixKey, id: string, createdAt: string): (r: seq<PixKey>)
    ensures |r| == |keys| + 1 && r[|keys|] == KeyFrom(k, id, createdAt)
    ensures k.isPrimary ==> forall i :: 0 <= i < |keys| ==> !r[i].isPrimary && SameButPrimary(r[i], keys[i])
    ensures !k.isPrimary ==> r[..|keys|] == keys
  {
    (if k.isPrimary then ClearPrimary(keys) else keys) + [KeyFrom(k, id, createdAt)]
  }

  /** The key with every present field of u replacing the key's own ({...key, ...updates}). */
  function Merge(key: PixKey, u: KeyUpdates): (r: PixKey)
    ensures u.id.Some? ==> r.id == u.id.value
    ensures u.id.None? ==> r.id == key.id
    ensures u.keyType.Some? ==> r.keyType == u.keyType.value
    ensures u.keyType.None? ==> r.keyType == key.keyType
    ensures u.value.Some? ==> r.value == u.value.value
    ensures u.value.None? ==> r.value == key.value
    ensures u.name.Some? ==> r.name == u.name.value
    ensures u.name.None? ==> r.name == key.name
    ensures u.isPrimary.Some? ==> r.isPrimary == u.isPrimary.value
    ensures u.createdAt.Some? ==> r.createdAt == u.createdAt.value
    ensures u.createdAt.None? ==> r.createdAt == key.createdAt
    ensures u.isPrimary == None ==> r.isPrimary == key.isPrimary
    ensures u == KeyUpdates(None, None, None, None, None, None) ==> r == key
  {
    PixKey(u.id.GetOr(key.id), u.keyType.GetOr(key.keyType), u.value.GetOr(key.value),
           u.name.GetOr(key.name), u.isPrimary.GetOr(key.isPrimary), u.createdAt.GetOr(key.createdAt))
  }

  /** The new pixKeys of updatePixKey. */
  function WithUpdates(keys: seq<PixKey>, id: string, u: KeyUpdates): (r: seq<PixKey>)
    ensures |r| == |keys|
    ensures forall i :: 0 <= i < |keys| && keys[i].id == id ==> r[i] == Merge(keys[i], u)
    ensures forall i :: 0 <= i < |keys| && keys[i].id != id ==> r[i] == keys[i]
  {
    seq(|keys|, i requires 0 <= i < |keys| => if keys[i].id == id then Merge(keys[i], u) else keys[i])
  }

  /** A key added as non-primary, then updated with a new name and isPrimary
      true, carries the new name and the flag and keeps its other fields. */
  lemma UpdateRenamesAndMarksPrimary(k: NewPixKey, id: string, createdAt: string, name: string)
    requires !k.isPrimary
    ensures var r := WithUpdates(WithNewKey([], k, id, createdAt), id,
                                 KeyUpdates(None, None, None, Some(name), Some(true), None));
            |r| == 1 && r[0] == KeyFrom(k, id, createdAt).(name := name, isPrimary := true)
  {
  }

  /** updatePixKey with an id no key has changes nothing. */
  lemma UpdateUnknownIsNoOp(keys: seq<PixKey>, id: string, u: KeyUpdates)
    requires forall i :: 0 <= i < |keys| ==> keys[i].id != id
    ensures WithUpdates(keys, id, u) == keys
  {
  }

  function HasId(id: string): PixKey -> bool {
    (k: PixKey) => k.id == id
  }

  function HasOtherId(id: string): PixKey -> bool {
    (k: PixKey) => k.id != id
  }

  /** The new pixKeys of deletePixKey. */
  function KeysWithout(keys: seq<PixKey>, id: string): (r: seq<PixKey>)
    ensures IsSubsequence(r, keys)
    ensures forall k :: k in r <==> k in keys && k.id != id
    ensures forall k :: multiset(r)[k] == if k.id != id then multiset(keys)[k] else 0
  {
    FilterMultiset(keys, HasOtherId(id));
    Filter(keys, HasOtherId(id))
  }

  /** The new pixKeys of setPrimaryKey. */
  function WithPrimary(keys: seq<PixKey>, id: string): (r: seq<PixKey>)
    ensures |r| == |keys|
    ensures forall i :: 0 <= i < |r| ==> SameButPrimary(r[i], keys[i]) && (r[i].isPrimary <==> keys[i].id == id)
  {
    seq(|keys|, i requires 0 <= i < |keys| => keys[i].(isPrimary := keys[i].id == id))
  }

  function IsPrimaryKey(k: PixKey): bool { k.isPrimary }

  /** getPixKeyById: the first key with that id. */
  function GetPixKeyById(keys: seq<PixKey>, id: string): (r: Option<PixKey>)
    ensures r.Some? ==> r.value in keys && r.value.id == id
    ensures r.Some? ==> exists i :: 0 <= i < |keys| && keys[i] == r.value && forall j :: 0 <= j < i ==> keys[j].id != id
    ensures r.None? <==> forall i :: 0 <= i < |keys| ==> keys[i].id != id
  {
    Find(keys, HasId(id))
  }

  /** getPrimaryKey: the first key whose isPrimary is set. */
  function GetPrimaryKey(keys: seq<PixKey>): (r: Option<PixKey>)
    ensures r.Some? ==> r.value in keys && r.value.isPrimary
    ensures r.None? <==> forall i :: 0 <= i < |keys| ==> !keys[i].isPrimary
  {
    Find(keys, IsPrimaryKey)
  }

  /** The primary key found is the first one: no key before it is primary. */
  lemma {:induction false} GetPrimaryKeyIsFirst(keys: seq<PixKey>)
    ensures GetPrimaryKey(keys).Some? ==>
              exists i :: 0 <= i < |keys| && keys[i] == GetPrimaryKey(keys).value
                          && forall j :: 0 <= j < i ==> !keys[j].isPrimary
  {
    var i := FindIndex(keys, IsPrimaryKey);
    if i < |keys| {
      assert keys[i] == GetPrimaryKey(keys).value;
    }
  }

  /** The search predicate of searchPixKeys, for an already lower-cased query. */
  predicate KeyMatches(k: PixKey, lowerQuery: string) {
    Contains(Lower(k.name), lowerQuery) || Contains(Lower(k.value), lowerQuery)
  }

  function KeyMatcher(lowerQuery: string): PixKey -> bool {
    (k: PixKey) => KeyMatches(k, lowerQuery)
  }

  /** searchPixKeys. */
  function SearchPixKeys(keys: seq<PixKey>, query: string): (r: seq<PixKey>)
    ensures query == "" ==> r == keys
    ensures query != "" ==> IsSubsequence(r, keys) && forall k :: k in r <==> k in keys && KeyMatches(k, Lower(query))
    ensures forall k :: multiset(r)[k] == if query == "" || KeyMatches(k, Lower(query)) then multiset(keys)[k] else 0
  {
    if query == "" then keys
    else
      FilterMultiset(keys, KeyMatcher(Lower(query)));
      Filter(keys, KeyMatcher(Lower(query)))
  }

  /** The search does not depend on the letter case of the query. */
  lemma SearchPixKeysIgnoresCase(keys: seq<PixKey>, query: string)
    ensures SearchPixKeys(keys, Lower(query)) == SearchPixKeys(keys, query)
  {
    LowerIdempotent(query);
  }

  predicate HasTypeName(k: PixKey, t: string) { k.keyType.Name() == t }

  function TypeMatcher(t: string): PixKey -> bool {
    (k: PixKey) => HasTypeName(k, t)
  }

  /** filterPixKeysByType. */
  function FilterPixKeysByType(keys: seq<PixKey>, t: string): (r: seq<PixKey>)
    ensures t == "" || t == "all" ==> r == keys
    ensures t != "" && t != "all" ==> IsSubsequence(r, keys) && forall k :: k in r <==> k in keys && k.keyType.Name() == t
    ensures forall k :: multiset(r)[k] == if t == "" || t == "all" || k.keyType.Name() == t then multiset(keys)[k] else 0
  {
    if t == "" || t == "all" then keys
    else
      FilterMultiset(keys, TypeMatcher(t));
      Filter(keys, TypeMatcher(t))
  }

  // -------------------------------------------------- key invariants

  predicate NotBothPrimary(a: PixKey, b: PixKey) { !(a.isPrimary && b.isPrimary) }

  predicate DistinctIds(a: PixKey, b: PixKey) { a.id != b.id }

  /** At most one key is primary. */
  ghost predicate AtMostOnePrimary(keys: seq<PixKey>) { Pairwise(keys, NotBothPrimary) }

  /** No two keys share an id. */
  ghost predicate UniqueIds(keys: seq<PixKey>) { Pairwise(keys, DistinctIds) }

  /** addPixKey with isPrimary set: the new key, last, is the only primary key. */
  lemma AddPrimaryLeavesOnlyNewKeyPrimary(keys: seq<PixKey>, k: NewPixKey, id: string, createdAt: string)
    requires k.isPrimary
    ensures var r := WithNewKey(keys, k, id, createdAt);
            (forall i :: 0 <= i < |r| ==> (r[i].isPrimary <==> i == |keys|))
            && AtMostOnePrimary(r)
            && GetPrimaryKey(r) == Some(KeyFrom(k, id, createdAt))
  {
  }

  /** addPixKey without isPrimary keeps the existing keys and appends the new one. */
  lemma AddKeyKeepsPrimary(keys: seq<PixKey>, k: NewPixKey, id: string, createdAt: string)
    requires !k.isPrimary
    ensures var r := WithNewKey(keys, k, id, createdAt);
            r == keys + [KeyFrom(k, id, createdAt)]
            && GetPrimaryKey(r) == GetPrimaryKey(keys)
            && (AtMostOnePrimary(keys) ==> AtMostOnePrimary(r))
  {
    var r := WithNewKey(keys, k, id, createdAt);
    assert r == keys + [KeyFrom(k, id, createdAt)];
    FindAppendMiss(keys, KeyFrom(k, id, createdAt), IsPrimaryKey);
  }

  /** Adding a key with an id no other key has keeps the ids unique. */
  lemma AddKeyKeepsUniqueIds(keys: seq<PixKey>, k: NewPixKey, id: string, createdAt: string)
    requires UniqueIds(keys)
    requires forall i :: 0 <= i < |keys| ==> keys[i].id != id
    ensures UniqueIds(WithNewKey(keys, k, id, createdAt))
  {
  }

  /** setPrimaryKey: the key found by getPrimaryKey afterwards is the first
      key with that id, now primary; with an unknown id no key is primary. */
  lemma {:induction false} SetPrimaryThenGetPrimary(keys: seq<PixKey>, id: string)
    ensures GetPrimaryKey(WithPrimary(keys, id)) ==
            match GetPixKeyById(keys, id)
            case Some(k) => Some(k.(isPrimary := true))
            case None => None
  {
    var r := WithPrimary(keys, id);
    if keys != [] {
      assert WithPrimary(keys, id)[1..] == WithPrimary(keys[1..], id);
      SetPrimaryThenGetPrimary(keys[1..], id);
    }
  }

  /** With unique ids, setPrimaryKey leaves at most one primary key. */
  lemma SetPrimaryKeepsAtMostOne(keys: seq<PixKey>, id: string)
    requires UniqueIds(keys)
    ensures AtMostOnePrimary(WithPrimary(keys, id))
  {
    var r := WithPrimary(keys, id);
    forall i, j | 0 <= i < j < |r| ensures NotBothPrimary(r[i], r[j]) {
      assert DistinctIds(keys[i], keys[j]);
    }
  }

  /** Without unique ids setPrimaryKey makes every key with that id primary. */
  lemma SetPrimaryDuplicateIds()
    ensures var k := PixKey("1", Cpf, "v", "n", false, "t");
            !AtMostOnePrimary(WithPrimary([k, k], "1"))
  {
    var k := PixKey("1", Cpf, "v", "n", false, "t");
    var r := WithPrimary([k, k], "1");
    assert !NotBothPrimary(r[0], r[1]);
  }

  /** updatePixKey does not clear the other keys' flags: it can leave two primary keys. */
  lemma UpdateCanMakeSecondPrimary()
    ensures var a := PixKey("a", Cpf, "1", "A", true, "t");
            var b := PixKey("b", Email, "2", "B", false, "t");
            var r := WithUpdates([a, b], "b", KeyUpdates(None, None, None, None, Some(true), None));
            AtMostOnePrimary([a, b]) && !AtMostOnePrimary(r)
  {
    var a := PixKey("a", Cpf, "1", "A", true, "t");
    var b := PixKey("b", Email, "2", "B", false, "t");
    var r := WithUpdates([a, b], "b", KeyUpdates(None, None, None, None, Some(true), None));
    assert !NotBothPrimary(r[0], r[1]);
  }

  /** deletePixKey keeps both invariants. */
  lemma DeleteKeepsInvariants(keys: seq<PixKey>, id: string)
    ensures AtMostOnePrimary(keys) ==> AtMostOnePrimary(KeysWithout(keys, id))
    ensures UniqueIds(keys) ==> UniqueIds(KeysWithout(keys, id))
  {
    var r := KeysWithout(keys, id);
    if AtMostOnePrimary(keys) {
      SubsequencePairwise(r, keys, NotBothPrimary);
    }
    if UniqueIds(keys) {
      SubsequencePairwise(r, keys, DistinctIds);
    }
  }

  /** Two keys added, the second as primary: getPrimaryKey returns the
      second; after setPrimaryKey(first) it returns the first and the
      second is no longer primary. */
  lemma TwoKeysScenario(a: NewPixKey, b: NewPixKey, idA: string, idB: string, t1: string, t2: string)
    requires !a.isPrimary && b.isPrimary && idA != idB
    ensures var ks := WithNewKey(WithNewKey([], a, idA, t1), b, idB, t2);
            GetPrimaryKey(ks) == Some(KeyFrom(b, idB, t2))
            && GetPrimaryKey(WithPrimary(ks, idA)) == Some(KeyFrom(a, idA, t1).(isPrimary := true))
            && !WithPrimary(ks, idA)[1].isPrimary
  {
    var ks := WithNewKey(WithNewKey([], a, idA, t1), b, idB, t2);
    assert ks == [KeyFrom(a, idA, t1), KeyFrom(b, idB, t2)];
    SetPrimaryThenGetPrimary(ks, idA);
  }

  // -------------------------------------------------------- transactions

  function TransactionFrom(t: NewTransaction, id: string, createdAt: string): PixTransaction {
    PixTransaction(id, t.pixKeyId, t.amount, t.description, t.qrCode, createdAt, t.status)
  }

  /** The new transactions of addTransaction. */
  function WithNewTransaction(txs: seq<PixTransaction>, t: NewTransaction, id: string, createdAt: string): (r: seq<PixTransaction>)
    ensures |r| == |txs| + 1 && r[..|txs|] == txs && r[|txs|] == TransactionFrom(t, id, createdAt)
  {
    txs + [TransactionFrom(t, id, createdAt)]
  }

  /** The new transactions of updateTransactionStatus. */
  function WithTransactionStatus(txs: seq<PixTransaction>, id: string, status: TransactionStatus): (r: seq<PixTransaction>)
    ensures |r| == |txs|
    ensures forall i :: 0 <= i < |txs| ==> r[i].(status := txs[i].status) == txs[i]
    ensures forall i :: 0 <= i < |txs| ==> if txs[i].id == id then r[i].status == status else r[i] == txs[i]
  {
    seq(|txs|, i requires 0 <= i < |txs| => if txs[i].id == id then txs[i].(status := status) else txs[i])
  }

  function TxOfKey(pixKeyId: string): PixTransaction -> bool {
    (t: PixTransaction) => t.pixKeyId == pixKeyId
  }

  function TxNotOfKey(pixKeyId: string): PixTransaction -> bool {
    (t: PixTransaction) => t.pixKeyId != pixKeyId
  }

  /** getTransactionsByKeyId. */
  function GetTransactionsByKeyId(txs: seq<PixTransaction>, pixKeyId: string): (r: seq<PixTransaction>)
    ensures IsSubsequence(r, txs)
    ensures forall t :: t in r <==> t in txs && t.pixKeyId == pixKeyId
    ensures forall t :: multiset(r)[t] == if t.pixKeyId == pixKeyId then multiset(txs)[t] else 0
  {
    FilterMultiset(txs, TxOfKey(pixKeyId));
    Filter(txs, TxOfKey(pixKeyId))
  }

  /** The new transactions of deletePixKey. */
  function TransactionsWithout(txs: seq<PixTransaction>, pixKeyId: string): (r: seq<PixTransaction>)
    ensures IsSubsequence(r, txs)
    ensures forall t :: t in r <==> t in txs && t.pixKeyId != pixKeyId
    ensures forall t :: multiset(r)[t] == if t.pixKeyId != pixKeyId then multiset(txs)[t] else 0
  {
    FilterMultiset(txs, TxNotOfKey(pixKeyId));
    Filter(txs, TxNotOfKey(pixKeyId))
  }

  // ------------------------------------------------------------- history

  function QRFrom(q: NewQRCode, id: string, createdAt: string): QRCodeHistory {
    QRCodeHistory(id, q.pixKeyId, q.pixKeyValue, q.pixKeyName, q.amount, q.description, q.qrCode, q.pixCode,
                  createdAt, q.isReceived, false, q.cancellationReason)
  }

  /** The new qrHistory of addQRHistory: the record goes first, never cancelled. */
  function WithNewQR(h: seq<QRCodeHistory>, q: NewQRCode, id: string, createdAt: string): (r: seq<QRCodeHistory>)
    ensures |r| == |h| + 1 && r[1..] == h
    ensures r[0].id == id && r[0].createdAt == createdAt && !r[0].isCancelled
    ensures r[0].(isCancelled := q.isCancelled, id := "", createdAt := "") ==
            QRCodeHistory("", q.pixKeyId, q.pixKeyValue, q.pixKeyName, q.amount, q.description, q.qrCode,
                          q.pixCode, "", q.isReceived, q.isCancelled, q.cancellationReason)
  {
    [QRFrom(q, id, createdAt)] + h
  }

  /** The new qrHistory of updateQRReceived: isCancelled is not consulted. */
  function WithReceived(h: seq<QRCodeHistory>, id: string, isReceived: bool): (r: seq<QRCodeHistory>)
    ensures |r| == |h|
    ensures forall i :: 0 <= i < |h| ==> r[i].(isReceived := h[i].isReceived) == h[i]
    ensures forall i :: 0 <= i < |h| ==> if h[i].id == id then r[i].isReceived == isReceived else r[i] == h[i]
  {
    seq(|h|, i requires 0 <= i < |h| => if h[i].id == id then h[i].(isReceived := isReceived) else h[i])
  }

  /** The record as cancelQR leaves it. */
  function Cancelled(qr: QRCodeHistory, reason: string): QRCodeHistory {
    qr.(isCancelled := true, cancellationReason := Some(reason), isReceived := false)
  }

  /** The new qrHistory of cancelQR: the reason is not checked, an earlier
      cancellation is overwritten. */
  function WithCancelled(h: seq<QRCodeHistory>, id: string, reason: string): (r: seq<QRCodeHistory>)
    ensures |r| == |h|
    ensures forall i :: 0 <= i < |h| ==>
              r[i].(isReceived := h[i].isReceived, isCancelled := h[i].isCancelled,
                    cancellationReason := h[i].cancellationReason) == h[i]
    ensures forall i :: 0 <= i < |h| ==>
              if h[i].id == id then r[i].isCancelled && !r[i].isReceived && r[i].cancellationReason == Some(reason)
              else r[i] == h[i]
  {
    seq(|h|, i requires 0 <= i < |h| => if h[i].id == id then Cancelled(h[i], reason) else h[i])
  }

  /** cancelQR followed by updateQRReceived(id, true): the store leaves the
      record both cancelled and received, so cancelling is not terminal. */
  lemma ReceivedAfterCancel(h: seq<QRCodeHistory>, id: string, reason: string, i: nat)
    requires i < |h| && h[i].id == id
    ensures var r := WithReceived(WithCancelled(h, id, reason), id, true);
            r[i].isCancelled && r[i].isReceived && r[i].cancellationReason == Some(reason)
  {
  }

  /** cancelQR with an empty reason still cancels, and a second cancelQR
      replaces the first reason. */
  lemma CancelReasonUnchecked(h: seq<QRCodeHistory>, id: string, reason: string, i: nat)
    requires i < |h| && h[i].id == id
    ensures WithCancelled(h, id, "")[i].isCancelled
    ensures WithCancelled(WithCancelled(h, id, ""), id, reason)[i].cancellationReason == Some(reason)
  {
  }

  function QRNotOfKey(pixKeyId: string): QRCodeHistory -> bool {
    (qr: QRCodeHistory) => qr.pixKeyId != pixKeyId
  }

  /** The new qrHistory of deletePixKey. */
  function HistoryWithout(h: seq<QRCodeHistory>, pixKeyId: string): (r: seq<QRCodeHistory>)
    ensures IsSubsequence(r, h)
    ensures forall qr :: qr in r <==> qr in h && qr.pixKeyId != pixKeyId
    ensures forall qr :: multiset(r)[qr] == if qr.pixKeyId != pixKeyId then multiset(h)[qr] else 0
  {
    FilterMultiset(h, QRNotOfKey(pixKeyId));
    Filter(h, QRNotOfKey(pixKeyId))
  }

  /** The search predicate of searchQRHistory, for an already lower-cased query. */
  predicate StoreQRMatches(qr: QRCodeHistory, lowerQuery: string) {
    Contains(Lower(qr.pixKeyName), lowerQuery) || Contains(Lower(qr.description), lowerQuery)
    || Contains(Lower(qr.amount), lowerQuery)
  }

  function StoreQRMatcher(lowerQuery: string): QRCodeHistory -> bool {
    (qr: QRCodeHistory) => StoreQRMatches(qr, lowerQuery)
  }

  /** searchQRHistory. */
  function SearchQRHistory(h: seq<QRCodeHistory>, query: string): (r: seq<QRCodeHistory>)
    ensures query == "" ==> r == h
    ensures query != "" ==> IsSubsequence(r, h) && forall qr :: qr in r <==> qr in h && StoreQRMatches(qr, Lower(query))
    ensures forall qr :: multiset(r)[qr] == if query == "" || StoreQRMatches(qr, Lower(query)) then multiset(h)[qr] else 0
  {
    if query == "" then h
    else
      FilterMultiset(h, StoreQRMatcher(Lower(query)));
      Filter(h, StoreQRMatcher(Lower(query)))
  }

  // ------------------------------------------- how the actions combine

  /** A key added under an id no key has is what getPixKeyById then finds. */
  lemma AddThenGetById(keys: seq<PixKey>, k: NewPixKey, id: string, createdAt: string)
    requires forall i :: 0 <= i < |keys| ==> keys[i].id != id
    ensures GetPixKeyById(WithNewKey(keys, k, id, createdAt), id) == Some(KeyFrom(k, id, createdAt))
  {
    var r := WithNewKey(keys, k, id, createdAt);
    assert forall i :: 0 <= i < |keys| ==> r[i].id == keys[i].id by {
      forall i | 0 <= i < |keys| ensures r[i].id == keys[i].id {
        if k.isPrimary {
          assert SameButPrimary(r[i], keys[i]);
        } else {
          assert r[..|keys|][i] == keys[i];
        }
      }
    }
    assert FindIndex(r, HasId(id)) == |keys|;
  }

  /** After deletePixKey(id) nothing refers to id any more. */
  lemma DeleteThenGet(keys: seq<PixKey>, txs: seq<PixTransaction>, h: seq<QRCodeHistory>, id: string)
    ensures GetPixKeyById(KeysWithout(keys, id), id) == None
    ensures GetTransactionsByKeyId(TransactionsWithout(txs, id), id) == []
    ensures forall qr :: qr in HistoryWithout(h, id) ==> qr.pixKeyId != id
  {
    var ks := KeysWithout(keys, id);
    assert forall i :: 0 <= i < |ks| ==> ks[i] in ks;
    var ts := TransactionsWithout(txs, id);
    assert forall i :: 0 <= i < |ts| ==> ts[i] in ts;
    FilterNone(ts, TxOfKey(id));
  }

  /** A transaction added for a key is the last of that key's transactions. */
  lemma AddTransactionThenGet(txs: seq<PixTransaction>, t: NewTransaction, id: string, createdAt: string)
    ensures GetTransactionsByKeyId(WithNewTransaction(txs, t, id, createdAt), t.pixKeyId)
            == GetTransactionsByKeyId(txs, t.pixKeyId) + [TransactionFrom(t, id, createdAt)]
  {
    FilterConcat(txs, [TransactionFrom(t, id, createdAt)], TxOfKey(t.pixKeyId));
  }

  /** setPrimaryKey twice with the same id is setPrimaryKey once. */
  lemma SetPrimaryIdempotent(keys: seq<PixKey>, id: string)
    ensures WithPrimary(WithPrimary(keys, id), id) == WithPrimary(keys, id)
  {
  }

  /** Two status updates of one transaction: the later one wins. */
  lemma StatusLastWriteWins(txs: seq<PixTransaction>, id: string, s1: TransactionStatus, s2: TransactionStatus)
    ensures WithTransactionStatus(WithTransactionStatus(txs, id, s1), id, s2) == WithTransactionStatus(txs, id, s2)
  {
  }

  /** Two updateQRReceived calls on one record: the later one wins. */
  lemma ReceivedLastWriteWins(h: seq<QRCodeHistory>, id: string, b1: bool, b2: bool)
    ensures WithReceived(WithReceived(h, id, b1), id, b2) == WithReceived(h, id, b2)
  {
  }

  /** Two cancelQR calls on one record: the later reason replaces the earlier. */
  lemma CancelLastWriteWins(h: seq<QRCodeHistory>, id: string, r1: string, r2: string)
    ensures WithCancelled(WithCancelled(h, id, r1), id, r2) == WithCancelled(h, id, r2)
  {
  }

  /** updateQRReceived and cancelQR touch only the records with that id, and
      keep every field except the flags and the reason. */
  lemma HistoryUpdatesKeepRecords(h: seq<QRCodeHistory>, id: string, b: bool, reason: string, i: nat)
    requires i < |h|
    ensures var a, c := WithReceived(h, id, b)[i], WithCancelled(h, id, reason)[i];
            a.(isReceived := h[i].isReceived) == h[i]
            && c.(isReceived := h[i].isReceived, isCancelled := h[i].isCancelled,
                  cancellationReason := h[i].cancellationReason) == h[i]
            && (h[i].id != id ==> a == h[i] && c == h[i])
  {
  }

  /** The history search does not depend on the letter case of the query. */
  lemma SearchQRHistoryIgnoresCase(h: seq<QRCodeHistory>, query: string)
    ensures SearchQRHistory(h, Lower(query)) == SearchQRHistory(h, query)
  {
    LowerIdempotent(query);
  }

  // ---------------------------------------------------------- the store

  class PixStore {
    var pixKeys: seq<PixKey>
    var transactions: seq<PixTransaction>
    var qrHistory: seq<QRCodeHistory>
    var isOffline: bool

    /** The initial state. */
    constructor ()
      ensures pixKeys == [] && transactions == [] && qrHistory == [] && !isOffline
    {
      pixKeys, transactions, qrHistory, isOffline := [], [], [], false;
    }

    method AddPixKey(newKey: NewPixKey, id: string, createdAt: string)
      modifies this
      ensures pixKeys == WithNewKey(old(pixKeys), newKey, id, createdAt)
      ensures newKey.isPrimary ==> GetPrimaryKey(pixKeys) == Some(KeyFrom(newKey, id, createdAt))
      ensures unchanged(this`transactions, this`qrHistory, this`isOffline)
    {
      if newKey.isPrimary {
        AddPrimaryLeavesOnlyNewKeyPrimary(pixKeys, newKey, id, createdAt);
      }
      pixKeys := WithNewKey(pixKeys, newKey, id, createdAt);
    }

    method UpdatePixKey(id: string, updates: KeyUpdates)
      modifies this
      ensures pixKeys == WithUpdates(old(pixKeys), id, updates)
      ensures unchanged(this`transactions, this`qrHistory, this`isOffline)
    {
      pixKeys := WithUpdates(pixKeys, id, updates);
    }

    /** One state update removes the key and everything that refers to it. */
    method DeletePixKey(id: string)
      modifies this
      ensures pixKeys == KeysWithout(old(pixKeys), id)
      ensures transactions == TransactionsWithout(old(transactions), id)
      ensures qrHistory == HistoryWithout(old(qrHistory), id)
      ensures isOffline == old(isOffline)
    {
      pixKeys, transactions, qrHistory :=
        KeysWithout(pixKeys, id), TransactionsWithout(transactions, id), HistoryWithout(qrHistory, id);
    }

    method SetPrimaryKey(id: string)
      modifies this
      ensures pixKeys == WithPrimary(old(pixKeys), id)
      ensures unchanged(this`transactions, this`qrHistory, this`isOffline)
    {
      pixKeys := WithPrimary(pixKeys, id);
    }

    method AddTransaction(t: NewTransaction, id: string, createdAt: string)
      modifies this
      ensures transactions == WithNewTransaction(old(transactions), t, id, createdAt)
      ensures unchanged(this`pixKeys, this`qrHistory, this`isOffline)
    {
      transactions := WithNewTransaction(transactions, t, id, createdAt);
    }

    method UpdateTransactionStatus(id: string, status: TransactionStatus)
      modifies this
      ensures transactions == WithTransactionStatus(old(transactions), id, status)
      ensures unchanged(this`pixKeys, this`qrHistory, this`isOffline)
    {
      transactions := WithTransactionStatus(transactions, id, status);
    }

    method AddQRHistory(q: NewQRCode, id: string, createdAt: string)
      modifies this
      ensures qrHistory == WithNewQR(old(qrHistory), q, id, createdAt)
      ensures unchanged(this`pixKeys, this`transactions, this`isOffline)
    {
      qrHistory := WithNewQR(qrHistory, q, id, createdAt);
    }

    method UpdateQRReceived(id: string, isReceived: bool)
      modifies this
      ensures qrHistory == WithReceived(old(qrHistory), id, isReceived)
      ensures unchanged(this`pixKeys, this`transactions, this`isOffline)
    {
      qrHistory := WithReceived(qrHistory, id, isReceived);
    }

    method CancelQR(id: string, reason: string)
      modifies this
      ensures qrHistory == WithCancelled(old(qrHistory), id, reason)
      ensures unchanged(this`pixKeys, this`transactions, this`isOffline)
    {
      qrHistory := WithCancelled(qrHistory, id, reason);
    }

    method SetOfflineStatus(offline: bool)
      modifies this
      ensures isOffline == offline
      ensures unchanged(this`pixKeys, this`transactions, this`qrHistory)
    {
      isOffline := offline;
    }

    method ClearStore()
      modifies this
      ensures pixKeys == [] && transactions == [] && qrHistory == [] && !isOffline
    {
      pixKeys, transactions, qrHistory, isOffline := [], [], [], false;
    }
  }
}
