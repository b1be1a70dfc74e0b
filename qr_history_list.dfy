/** The QR-code history screen of QRHistoryList.tsx: the filter chain of
    applyFilters (search, then status) over the store's history, and the row
    actions offered for each record. The date filter is not part of this
    model: records are filtered as when no date is selected. */
module QRHistoryList {
  import opened Seqs
  import opened Text
  import opened UsePixStore

  /** The three classes a record is shown under. */
  datatype Status = Pending | Received | CancelledStatus

  /** The value of the status filter: "all" or one of the classes. */
  datatype StatusFilter = AllStatuses | Only(status: Status)

  /** The class of a record: cancellation wins over receipt. */
  function StatusOf(qr: QRCodeHistory): (s: Status)
    ensures s == Pending <==> !qr.isReceived && !qr.isCancelled
    ensures s == Received <==> qr.isReceived && !qr.isCancelled
    ensures s == CancelledStatus <==> qr.isCancelled
  {
    if qr.isCancelled then CancelledStatus
    else if qr.isReceived then Received
    else Pending
  }

  /** The status predicate of applyFilters, case by case as the switch has it. */
  predicate MatchesStatus(qr: QRCodeHistory, f: StatusFilter) {
    match f
    case AllStatuses => true
    case Only(Pending) => !qr.isReceived && !qr.isCancelled
    case Only(Received) => qr.isReceived && !qr.isCancelled
    case Only(CancelledStatus) => qr.isCancelled
  }

  /** Every record is in exactly one status class: the one StatusOf names. */
  lemma ExactlyOneStatus(qr: QRCodeHistory, s: Status)
    ensures MatchesStatus(qr, Only(s)) <==> StatusOf(qr) == s
  {
  }

  /** A cancelled record is never shown under "received", whatever its isReceived. */
  lemma CancelledNeverReceived(qr: QRCodeHistory)
    requires qr.isCancelled
    ensures !MatchesStatus(qr, Only(Received)) && MatchesStatus(qr, Only(CancelledStatus))
  {
  }

  /** The search predicate of applyFilters, for an already lower-cased query:
      unlike the store's search it also looks at the key value. */
  predicate EntryMatches(qr: QRCodeHistory, lowerQuery: string) {
    Contains(Lower(qr.pixKeyName), lowerQuery) || Contains(Lower(qr.description), lowerQuery)
    || Contains(Lower(qr.amount), lowerQuery) || Contains(Lower(qr.pixKeyValue), lowerQuery)
  }

  function EntryMatcher(lowerQuery: string): QRCodeHistory -> bool {
    (qr: QRCodeHistory) => EntryMatches(qr, lowerQuery)
  }

  function StatusMatcher(f: StatusFilter): QRCodeHistory -> bool {
    (qr: QRCodeHistory) => MatchesStatus(qr, f)
  }

  /** What a record must satisfy to be listed. */
  predicate Listed(qr: QRCodeHistory, query: string, f: StatusFilter) {
    (query == "" || EntryMatches(qr, Lower(query))) && MatchesStatus(qr, f)
  }

  /** applyFilters, without the date step. */
  function ApplyFilters(h: seq<QRCodeHistory>, query: string, f: StatusFilter): (r: seq<QRCodeHistory>)
    ensures IsSubsequence(r, h)
    ensures forall qr :: qr in r <==> qr in h && Listed(qr, query, f)
    ensures forall qr :: multiset(r)[qr] == if Listed(qr, query, f) then multiset(h)[qr] else 0
  {
    var searched := if query == "" then h else Filter(h, EntryMatcher(Lower(query)));
    assert IsSubsequence(searched, h) by {
      if query == "" { SubsequenceRefl(h); }
    }
    assert forall qr :: multiset(searched)[qr] == if query == "" || EntryMatches(qr, Lower(query)) then multiset(h)[qr] else 0 by {
      if query != "" { FilterMultiset(h, EntryMatcher(Lower(query))); }
    }
    if f == AllStatuses then searched
    else
      var r := Filter(searched, StatusMatcher(f));
      SubsequenceTrans(r, searched, h);
      FilterMultiset(searched, StatusMatcher(f));
      r
  }

  /** With an empty query and status "all", the whole history is listed. */
  lemma NoFilterListsAll(h: seq<QRCodeHistory>)
    ensures ApplyFilters(h, "", AllStatuses) == h
  {
  }

  /** The listed records are exactly the history filtered by Listed, in order:
      the two steps of applyFilters compose to one filter. */
  lemma ApplyFiltersIsOneFilter(h: seq<QRCodeHistory>, query: string, f: StatusFilter)
    ensures ApplyFilters(h, query, f) == Filter(h, ListedMatcher(query, f))
  {
    if query == "" {
      if f == AllStatuses {
        FilterKeepsAll(h, ListedMatcher(query, f));
      } else {
        FilterSame(h, StatusMatcher(f), ListedMatcher(query, f));
      }
    } else {
      var p := EntryMatcher(Lower(query));
      if f == AllStatuses {
        FilterSame(h, p, ListedMatcher(query, f));
      } else {
        FilterAnd(h, p, StatusMatcher(f), ListedMatcher(query, f));
      }
    }
  }

  function ListedMatcher(query: string, f: StatusFilter): QRCodeHistory -> bool {
    (qr: QRCodeHistory) => Listed(qr, query, f)
  }

  lemma {:induction false} SubsequenceRefl<T>(s: seq<T>)
    ensures IsSubsequence(s, s)
  {
    if s != [] {
      SubsequenceRefl(s[1..]);
    }
  }

  /** Filters with the same predicate, written twice, agree. */
  lemma {:induction false} FilterSame<T(!new)>(s: seq<T>, p: T -> bool, q: T -> bool)
    requires forall x :: p(x) == q(x)
    ensures Filter(s, p) == Filter(s, q)
  {
    if s != [] {
      FilterSame(s[1..], p, q);
    }
  }

  /** Filtering by p and then by q is filtering by their conjunction. */
  lemma {:induction false} FilterAnd<T(!new)>(s: seq<T>, p: T -> bool, q: T -> bool, pq: T -> bool)
    requires forall x :: pq(x) == (p(x) && q(x))
    ensures Filter(Filter(s, p), q) == Filter(s, pq)
  {
    if s != [] {
      FilterAnd(s[1..], p, q, pq);
      if p(s[0]) {
        assert Filter(s, p)[1..] == Filter(s[1..], p);
      }
    }
  }

  /** Filtering by a weaker predicate keeps a supersequence. */
  lemma {:induction false} FilterWeaker<T(!new)>(s: seq<T>, p: T -> bool, q: T -> bool)
    requires forall x :: p(x) ==> q(x)
    ensures IsSubsequence(Filter(s, p), Filter(s, q))
  {
    if s != [] {
      FilterWeaker(s[1..], p, q);
      var fp, fq := Filter(s, p), Filter(s, q);
      if p(s[0]) {
        assert fp[0] == fq[0] && fp[1..] == Filter(s[1..], p) && fq[1..] == Filter(s[1..], q);
      } else if q(s[0]) {
        assert fq[1..] == Filter(s[1..], q);
        if fp != [] {
          assert fp == Filter(s[1..], p);
        }
      }
    }
  }

  /** Everything the store's searchQRHistory finds, the list's search finds
      too, in the same order. */
  lemma StoreSearchWithinListSearch(h: seq<QRCodeHistory>, query: string)
    ensures IsSubsequence(SearchQRHistory(h, query), ApplyFilters(h, query, AllStatuses))
  {
    if query == "" {
      SubsequenceRefl(h);
    } else {
      FilterWeaker(h, StoreQRMatcher(Lower(query)), EntryMatcher(Lower(query)));
    }
  }

  /** The reverse fails: a record that matches on its key value alone is
      listed by the screen and not found by the store. */
  lemma ValueOnlyMatch(qr: QRCodeHistory)
    requires qr.pixKeyName == "" && qr.description == "" && qr.amount == "" && qr.pixKeyValue == "chave"
    ensures qr in ApplyFilters([qr], "chave", AllStatuses)
    ensures qr !in SearchQRHistory([qr], "chave")
  {
    assert Lower("chave") == "chave";
    assert OccursAt(Lower(qr.pixKeyValue), "chave", 0);
  }

  // ------------------------------------------------------------ row actions

  /** The controls of one row that change the record. */
  datatype RowAction = ToggleReceived(id: string, isReceived: bool) | OpenCancel(qr: QRCodeHistory)

  /** The toggle and cancel buttons, shown only for records not cancelled;
      the toggle sends the negation of the current isReceived. */
  function RowActions(qr: QRCodeHistory): (r: seq<RowAction>)
    ensures r == [] <==> qr.isCancelled
    ensures forall a :: a in r && a.ToggleReceived? ==> a.id == qr.id && a.isReceived == !qr.isReceived
    ensures forall a :: a in r && a.OpenCancel? ==> a.qr == qr
  {
    if qr.isCancelled then [] else [ToggleReceived(qr.id, !qr.isReceived), OpenCancel(qr)]
  }

  /** Pressing the toggle of a row moves its record between pending and
      received, and the store's update keeps every other field. */
  lemma ToggleFlipsStatus(h: seq<QRCodeHistory>, i: nat)
    requires i < |h| && !h[i].isCancelled
    ensures var a := RowActions(h[i])[0];
            var qr := WithReceived(h, a.id, a.isReceived)[i];
            StatusOf(qr) == (if StatusOf(h[i]) == Pending then Received else Pending)
            && qr == h[i].(isReceived := !h[i].isReceived)
  {
  }

  /** Pressing the toggle twice restores the record. */
  lemma ToggleTwice(h: seq<QRCodeHistory>, i: nat)
    requires i < |h| && !h[i].isCancelled
    ensures var a := RowActions(h[i])[0];
            var h1 := WithReceived(h, a.id, a.isReceived);
            var b := RowActions(h1[i])[0];
            WithReceived(h1, b.id, b.isReceived)[i] == h[i]
  {
  }

  /** The store does not refuse an isReceived update of a cancelled record,
      but it leaves the record in the cancelled class. */
  lemma ReceivedUpdateKeepsCancelled(h: seq<QRCodeHistory>, id: string, isReceived: bool, i: nat)
    requires i < |h| && h[i].isCancelled
    ensures StatusOf(WithReceived(h, id, isReceived)[i]) == CancelledStatus
  {
  }
}
