/** The cancellation dialog of CancelDialog.tsx: the reason typed by the
    user, the confirm and cancel handlers, and the enabled state of the
    confirm button. The two callbacks the dialog receives, onConfirm and
    onOpenChange, are recorded as logs of the calls made to them. */
module CancelDialog {
  import opened Wrappers
  import opened Text
  import opened UsePixStore

  /** A reason as onConfirm may receive it: non-empty and trimmed. */
  predicate GoodReason(r: string) {
    r != "" && Trim(r) == r
  }

  /** The trimmed reason is good exactly when the typed text has a character
      that is not white space. */
  lemma TrimmedReasonGood(typed: string)
    ensures GoodReason(Trim(typed)) <==> exists k :: 0 <= k < |typed| && !IsWhitespace(typed[k])
  {
    TrimEmpty(typed);
    TrimIdempotent(typed);
  }

  class Dialog {
    /** The record being cancelled, as passed in by the list (null when none). */
    var qr: Option<QRCodeHistory>
    /** The text of the reason field. */
    var reason: string
    /** Every call made to onConfirm, as (qr id, reason). */
    var confirmations: seq<(string, string)>
    /** Every call made to onOpenChange. */
    var openChanges: seq<bool>

    /** Every reason passed to onConfirm was non-empty and trimmed. */
    ghost predicate Valid()
      reads this
    {
      forall c :: c in confirmations ==> GoodReason(c.1)
    }

    /** The dialog as first shown: an empty reason and no calls yet. */
    constructor (qr: Option<QRCodeHistory>)
      ensures this.qr == qr && reason == "" && confirmations == [] && openChanges == []
      ensures Valid()
    {
      this.qr := qr;
      reason := "";
      confirmations := [];
      openChanges := [];
    }

    /** The disabled condition of the confirm button, negated. */
    function ConfirmEnabled(): (enabled: bool)
      reads this
      ensures enabled <==> exists k :: 0 <= k < |reason| && !IsWhitespace(reason[k])
    {
      TrimEmpty(reason);
      Trim(reason) != ""
    }

    /** The onChange handler of the reason field. */
    method SetReason(text: string)
      modifies this
      requires Valid()
      ensures reason == text
      ensures qr == old(qr) && confirmations == old(confirmations) && openChanges == old(openChanges)
      ensures Valid()
    {
      reason := text;
    }

    /** handleConfirm: without a record or with a blank reason nothing
      happens; otherwise onConfirm receives the id and the trimmed reason,
      the field is cleared and a close is requested. */
    method HandleConfirm()
      modifies this
      requires Valid()
      ensures qr == old(qr)
      ensures old(qr).None? || Trim(old(reason)) == "" ==>
                reason == old(reason) && confirmations == old(confirmations) && openChanges == old(openChanges)
      ensures old(qr).Some? && Trim(old(reason)) != "" ==>
                confirmations == old(confirmations) + [(old(qr).value.id, Trim(old(reason)))]
                && reason == "" && openChanges == old(openChanges) + [false]
      ensures Valid()
    {
      if qr.None? || Trim(reason) == "" {
        return;
      }
      TrimIdempotent(reason);
      confirmations := confirmations + [(qr.value.id, Trim(reason))];
      reason := "";
      openChanges := openChanges + [false];
    }

    /** handleCancel: clears the field and requests a close, never confirming. */
    method HandleCancel()
      modifies this
      requires Valid()
      ensures qr == old(qr) && reason == "" && confirmations == old(confirmations)
      ensures openChanges == old(openChanges) + [false]
      ensures Valid()
    {
      reason := "";
      openChanges := openChanges + [false];
    }

    /** A dismissal by Escape or a click outside: the Dialog element calls
        onOpenChange(false) itself, and the reason field is left as it is. */
    method Dismiss()
      modifies this
      requires Valid()
      ensures qr == old(qr) && reason == old(reason) && confirmations == old(confirmations)
      ensures openChanges == old(openChanges) + [false]
      ensures Valid()
    {
      openChanges := openChanges + [false];
    }

    /** The list passes another record (or none): the component stays mounted,
        so the reason state is kept. */
    method SetQr(q: Option<QRCodeHistory>)
      modifies this
      requires Valid()
      ensures qr == q
      ensures reason == old(reason) && confirmations == old(confirmations) && openChanges == old(openChanges)
      ensures Valid()
    {
      qr := q;
    }
  }

  /** When the confirm button is enabled and a record is set, pressing it
      calls onConfirm once. */
  method ConfirmWhenEnabled(d: Dialog)
    modifies d
    requires d.Valid() && d.qr.Some? && d.ConfirmEnabled()
    ensures d.qr == old(d.qr)
    ensures |d.confirmations| == |old(d.confirmations)| + 1
    ensures d.confirmations[|d.confirmations| - 1] == (d.qr.value.id, Trim(old(d.reason)))
    ensures d.reason == "" && !d.ConfirmEnabled()
    ensures d.Valid()
  {
    TrimEmpty(d.reason);
    d.HandleConfirm();
  }

  /** A reason typed with surrounding spaces reaches onConfirm trimmed. */
  method ConfirmTrimsReason(qr: QRCodeHistory) returns (calls: seq<(string, string)>)
    ensures calls == [(qr.id, "motivo")]
  {
    var d := new Dialog(Some(qr));
    d.SetReason("  motivo ");
    assert "  motivo " == "  " + "motivo" + " ";
    TrimSurrounded("  ", "motivo", " ");
    d.HandleConfirm();
    calls := d.confirmations;
  }

  /** A reason typed for one record and dismissed with Escape is still in
      the field when the dialog opens for another record, and confirming
      sends it for that record without anything typed. */
  method ReasonCarriesOver(a: QRCodeHistory, b: QRCodeHistory) returns (enabled: bool, calls: seq<(string, string)>)
    ensures enabled
    ensures calls == [(b.id, "x")]
  {
    var d := new Dialog(Some(a));
    d.SetReason("x");
    d.Dismiss();
    d.SetQr(None);
    d.SetQr(Some(b));
    enabled := d.ConfirmEnabled();
    assert "x" == "" + "x" + "";
    TrimSurrounded("", "x", "");
    d.HandleConfirm();
    calls := d.confirmations;
  }

  /** A cancellation the dialog confirmed reaches the store with a reason
      that is non-empty: the store's cancelQR relies on the dialog for that. */
  lemma ConfirmedCancelHasReason(h: seq<QRCodeHistory>, c: (string, string), i: nat)
    requires GoodReason(c.1) && i < |h| && h[i].id == c.0
    ensures var r := WithCancelled(h, c.0, c.1)[i];
            r.isCancelled && !r.isReceived && r.cancellationReason.Some?
            && r.cancellationReason.value != "" && Trim(r.cancellationReason.value) == r.cancellationReason.value
  {
  }
}
