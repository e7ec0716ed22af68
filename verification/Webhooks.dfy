/** Payment and chargeback webhooks. */
module Webhooks {
  import opened Common
  import opened Config
  import opened Deposits
  import opened Tables

  datatype Payment = Payment(
    txId: Id,
    paid: bool,  // status "paid"; otherwise "failed"
    sbpPaymentId: Option<string>,
    payerName: Option<string>,
    payerPhone: Option<string>,
    amountRub: Option<nat>
  )

  // ------------------------------------------------------------ payment webhook

  /** COALESCE(a, b) */
  function Coalesce<T>(a: Option<T>, b: Option<T>): Option<T> {
    if a.Some? then a else b
  }

  predicate HasTransfer(transfers: map<Id, Transfer>, key: string) {
    exists i :: i in transfers && transfers[i].key == key
  }

  function NewTransfer(txId: Id, t: Txn, holdMinutes: int, now: Time): Transfer {
    Transfer(txId, KeyOf(txId), t.recipientUid, t.amountUsdt, TrPending, 0, None, now + holdMinutes * MINUTE, now, now)
  }

  /** Inserts the transfer unless its idempotency key is taken, and NOTIFYs either way. */
  function Schedule(db: Db, txId: Id, t: Txn, holdMinutes: int, now: Time, transferId: Id): Db {
    if HasTransfer(db.transfers, KeyOf(txId)) then db.(notices := db.notices + 1)
    else db.(transfers := db.transfers[transferId := NewTransfer(txId, t, holdMinutes, now)],
             notices := db.notices + 1)
  }

  /** The webhook carries all that a paid report needs, and the stored amount. */
  predicate FullyValid(p: Payment, t: Txn) {
    p.paid && !Blank(p.payerName) && !Blank(p.payerPhone) && p.amountRub == Some(t.amountRub)
  }

  function MarkPaid(db: Db, p: Payment, holdMinutes: int, now: Time, transferId: Id): Db
    requires p.txId in db.transactions && p.payerName.Some? && p.payerPhone.Some?
  {
    var t := db.transactions[p.txId];
    var paid := db.(
      transactions := db.transactions[p.txId :=
        t.(status := TxPaid, sbpPaymentId := Coalesce(p.sbpPaymentId, t.sbpPaymentId))],
      kyc := db.kyc[p.txId := Kyc(p.payerName.value, p.payerPhone.value, t.amountRub)],
      audit := db.audit + [Audit("sbp_payment_paid", Some(p.txId))]);
    Schedule(paid, p.txId, t, holdMinutes, now, transferId)
  }

  function CloseFailed(db: Db, p: Payment): Db
    requires p.txId in db.transactions
  {
    var t := db.transactions[p.txId];
    db.(transactions := db.transactions[p.txId :=
          t.(status := TxFailed, sbpPaymentId := Coalesce(p.sbpPaymentId, t.sbpPaymentId))],
        audit := db.audit + [Audit("sbp_payment_failed", Some(p.txId))])
  }

  function MarkFailed(db: Db, p: Payment): Db
    requires p.txId in db.transactions
  {
    ReleasePromo(CloseFailed(db, p), p.txId)
  }

  function RecordMismatch(db: Db, txId: Id): Db {
    db.(alerts := db.alerts + [Alert("amount_mismatch", txId)],
        audit := db.audit + [Audit("sbp_payment_amount_mismatch", Some(txId))])
  }

  /** The effect of a payment webhook: only a pending transaction reacts, to a failed report
      or to a fully valid paid one; a paid report with another amount only raises an alert. */
  function HandlePayment(db: Db, p: Payment, holdMinutes: int, now: Time, transferId: Id): (out: Result<Db>) {
    if p.txId !in db.transactions then
      Ok(db.(audit := db.audit + [Audit("sbp_payment_unmatched", None)]))
    else
      var t := db.transactions[p.txId];
      if t.status != TxPending then Ok(db)
      else if !p.paid then Ok(MarkFailed(db, p))
      else if Blank(p.payerName) || Blank(p.payerPhone) || p.amountRub.None? then Err(BadRequest)
      else if p.amountRub.value != t.amountRub then Ok(RecordMismatch(db, p.txId))
      else Ok(MarkPaid(db, p, holdMinutes, now, transferId))
  }

  /** A failed report of a pending transaction, by the columns. */
  ghost predicate ReportedFailed(o: Db, db: Db, txId: Id, sbpPaymentId: Option<string>)
    requires txId in o.transactions
  {
    var t := o.transactions[txId];
    && db == o.(transactions := db.transactions, promos := db.promos,
                audit := o.audit + [Audit("sbp_payment_failed", Some(txId))])
    && db.transactions == o.transactions[txId :=
         t.(status := TxFailed, sbpPaymentId := if sbpPaymentId.Some? then sbpPaymentId else t.sbpPaymentId)]
    && UseGivenBack(o.promos, db.promos, t.promoId)
  }

  /** A paid report that decides, by the columns: the transaction is paid, its payer is recorded with
      the stored amount, and one transfer of the stored USDT to the stored recipient is pending from
      now + hold on, unless its key is taken; the queue is notified either way. */
  ghost predicate ReportedPaid(o: Db, db: Db, p: Payment, name: string, phone: string, holdMinutes: int, now: Time,
                               transferId: Id)
    requires p.txId in o.transactions
  {
    var (t, key) := (o.transactions[p.txId], "bingx-transfer:" + p.txId);
    && db == o.(transactions := db.transactions, kyc := db.kyc, transfers := db.transfers, notices := o.notices + 1,
                audit := o.audit + [Audit("sbp_payment_paid", Some(p.txId))])
    && db.transactions == o.transactions[p.txId :=
         t.(status := TxPaid, sbpPaymentId := if p.sbpPaymentId.Some? then p.sbpPaymentId else t.sbpPaymentId)]
    && db.kyc == o.kyc[p.txId := Kyc(name, phone, t.amountRub)]
    && db.transfers ==
         if exists i :: i in o.transfers && o.transfers[i].key == key then o.transfers
         else o.transfers[transferId := Transfer(p.txId, key, t.recipientUid, t.amountUsdt, TrPending, 0, None,
                                                 now + holdMinutes * 60_000_000, now, now)]
  }

  /** The payment webhook, by the columns.  Only a pending transaction reacts.  A failed report closes
      it; a paid one needs the payer's name and phone and an amount, raises an alert when the amount is
      not the stored one, and else pays. */
  ghost predicate Reported(o: Db, out: Result<Db>, p: Payment, holdMinutes: int, now: Time, transferId: Id) {
    if p.txId !in o.transactions then out == Ok(o.(audit := o.audit + [Audit("sbp_payment_unmatched", None)]))
    else if o.transactions[p.txId].status != TxPending then out == Ok(o)
    else if !p.paid then out.Ok? && ReportedFailed(o, out.value, p.txId, p.sbpPaymentId)
    else match (p.payerName, p.payerPhone, p.amountRub)
      case (Some(name), Some(phone), Some(amountRub)) =>
        if name == "" || phone == "" then out == Err(BadRequest)
        else if amountRub != o.transactions[p.txId].amountRub then
          out == Ok(o.(alerts := o.alerts + [Alert("amount_mismatch", p.txId)],
                       audit := o.audit + [Audit("sbp_payment_amount_mismatch", Some(p.txId))]))
        else out.Ok? && ReportedPaid(o, out.value, p, name, phone, holdMinutes, now, transferId)
      case _ => out == Err(BadRequest)
  }

  lemma FailedIs(o: Db, p: Payment)
    requires p.txId in o.transactions
    ensures ReportedFailed(o, MarkFailed(o, p), p.txId, p.sbpPaymentId)
  {
  }

  lemma PaidIs(o: Db, p: Payment, holdMinutes: int, now: Time, transferId: Id)
    requires p.txId in o.transactions && p.payerName.Some? && p.payerPhone.Some?
    ensures ReportedPaid(o, MarkPaid(o, p, holdMinutes, now, transferId), p, p.payerName.value, p.payerPhone.value,
                         holdMinutes, now, transferId)
  {
  }

  lemma PaymentIs(o: Db, p: Payment, holdMinutes: int, now: Time, transferId: Id)
    ensures Reported(o, HandlePayment(o, p, holdMinutes, now, transferId), p, holdMinutes, now, transferId)
  {
    if p.txId in o.transactions {
      FailedIs(o, p);
      if p.payerName.Some? && p.payerPhone.Some? { PaidIs(o, p, holdMinutes, now, transferId); }
    }
    hide MarkPaid, MarkFailed, ReportedPaid, ReportedFailed;
  }

  method MarkTransactionFailed(store: Store, p: Payment)
    requires p.txId in store.transactions
    modifies store
    ensures store.Snapshot() == MarkFailed(old(store.Snapshot()), p)
    ensures ReportedFailed(old(store.Snapshot()), store.Snapshot(), p.txId, p.sbpPaymentId)
  {
    FailedIs(store.Snapshot(), p);
    hide ReportedFailed, UseGivenBack;
    var t := store.transactions[p.txId];
    store.transactions := store.transactions[p.txId :=
      t.(status := TxFailed, sbpPaymentId := Coalesce(p.sbpPaymentId, t.sbpPaymentId))];
    ReleasePromoCode(store, p.txId);
    store.WriteAudit("sbp_payment_failed", Some(p.txId));
  }

  /** INSERT .. ON CONFLICT (transaction_id) DO UPDATE: one row per transaction either way. */
  method UpsertKycRecord(store: Store, txId: Id, name: string, phone: string, amountRub: nat)
    modifies store`kyc
    ensures store.kyc == old(store.kyc)[txId := Kyc(name, phone, amountRub)]
  {
    if txId in store.kyc {
      var row := store.kyc[txId];
      store.kyc := store.kyc[txId := row.(payerName := name, payerPhone := phone, amountRub := amountRub)];
    } else {
      store.kyc := store.kyc[txId := Kyc(name, phone, amountRub)];
    }
  }

  method ScheduleBingxTransfer(store: Store, txId: Id, t: Txn, holdMinutes: int, now: Time, transferId: Id)
    requires transferId !in store.transfers
    modifies store
    ensures store.Snapshot() == Schedule(old(store.Snapshot()), txId, t, holdMinutes, now, transferId)
  {
    var scheduledAt := now + holdMinutes * MINUTE;
    var key := KeyOf(txId);
    if !HasTransfer(store.transfers, key) {
      store.transfers := store.transfers[transferId :=
        Transfer(txId, key, t.recipientUid, t.amountUsdt, TrPending, 0, None, scheduledAt, now, now)];
    }
    store.notices := store.notices + 1;
  }

  method HandleSbpPaymentWebhook(store: Store, p: Payment, holdMinutes: int, now: Time, transferId: Id)
    returns (out: Result<()>)
    requires transferId !in store.transfers
    modifies store
    ensures var spec := HandlePayment(old(store.Snapshot()), p, holdMinutes, now, transferId);
      match out
      case Ok(_) => spec == Ok(store.Snapshot())
      case Err(e) => spec == Err(e) && store.Snapshot() == old(store.Snapshot())
    ensures Reported(old(store.Snapshot()), if out.Ok? then Ok(store.Snapshot()) else Err(out.error), p, holdMinutes,
                     now, transferId)
  {
    PaymentIs(store.Snapshot(), p, holdMinutes, now, transferId);
    hide Reported, ReportedFailed, UseGivenBack;
    if p.txId !in store.transactions {
      store.WriteAudit("sbp_payment_unmatched", None);
      return Ok(());
    }
    var t := store.transactions[p.txId];
    if t.status == TxChargeback {
      return Ok(());
    }
    if !p.paid {
      if t.status != TxPending {
        return Ok(());
      }
      MarkTransactionFailed(store, p);
      return Ok(());
    }
    if t.status != TxPending {
      return Ok(());
    }
    if Blank(p.payerName) || Blank(p.payerPhone) {
      return Err(BadRequest);
    }
    if p.amountRub.None? {
      return Err(BadRequest);
    }
    if p.amountRub.value != t.amountRub {
      store.RaiseAlert("amount_mismatch", p.txId);
      store.WriteAudit("sbp_payment_amount_mismatch", Some(p.txId));
      return Ok(());
    }
    store.transactions := store.transactions[p.txId :=
      t.(status := TxPaid, sbpPaymentId := Coalesce(p.sbpPaymentId, t.sbpPaymentId))];
    UpsertKycRecord(store, p.txId, p.payerName.value, p.payerPhone.value, t.amountRub);
    ScheduleBingxTransfer(store, p.txId, t, holdMinutes, now, transferId);
    store.WriteAudit("sbp_payment_paid", Some(p.txId));
    out := Ok(());
  }

  // --------------------------------------------------------- chargeback webhook

  predicate ChargebackEligible(s: TxStatus) {
    s == TxPaid || s == TxCompleted || s == TxError
  }

  /** A transfer that is not finished is cancelled. */
  function WithCancel(tr: Transfer, now: Time): Transfer {
    if tr.status in {TrPending, TrProcessing} then tr.(status := TrCancelled, updatedAt := now) else tr
  }

  function CancelTransfers(transfers: map<Id, Transfer>, txId: Id, now: Time): (r: map<Id, Transfer>)
    ensures r.Keys == transfers.Keys
  {
    map i | i in transfers :: if transfers[i].txId == txId then WithCancel(transfers[i], now) else transfers[i]
  }

  /** One blacklist upsert; an existing entry keeps its id. */
  function UpsertBan(bans: map<BanKey, Ban>, key: BanKey, id: Id, reason: string): map<BanKey, Ban> {
    bans[key := Ban(if key in bans then bans[key].id else id, reason, Some("chargeback webhook"))]
  }

  /** Upserts every entry whose value is not empty, in order. */
  function BanAll(bans: map<BanKey, Ban>, entries: seq<BanKey>, ids: seq<Id>, reason: string): map<BanKey, Ban>
    requires |entries| == |ids|
  {
    if entries == [] then bans
    else
      var rest := BanAll(bans, entries[..|entries| - 1], ids[..|ids| - 1], reason);
      var key := entries[|entries| - 1];
      if key.1 == "" then rest else UpsertBan(rest, key, ids[|ids| - 1], reason)
  }

  /** The two entries a chargeback bans. */
  function BanEntries(email: string, recipientUid: string): seq<BanKey> {
    [(BanEmail, email), (BanUid, recipientUid)]
  }

  /** The effect of a chargeback on an eligible transaction. */
  function AcceptChargeback(db: Db, txId: Id, reason: string, now: Time, ids: seq<Id>): Db
    requires txId in db.transactions && db.transactions[txId].userId in db.users && |ids| == 2
  {
    var t := db.transactions[txId];
    var released := ReleasePromo(db, txId);
    db.(
      transactions := db.transactions[txId := t.(status := TxChargeback)],
      transfers := CancelTransfers(db.transfers, txId, now),
      promos := released.promos,
      bans := BanAll(db.bans, BanEntries(db.users[t.userId].email, t.recipientUid), ids, reason),
      alerts := db.alerts + [Alert("chargeback", txId)],
      audit := db.audit + [Audit("chargeback_received", Some(txId))])
  }

  predicate Found(db: Db, txId: Id) {
    txId in db.transactions && db.transactions[txId].userId in db.users
  }

  function HandleChargeback(db: Db, txId: Id, reason: string, now: Time, ids: seq<Id>): Db
    requires |ids| == 2
  {
    if !Found(db, txId) then db.(audit := db.audit + [Audit("chargeback_unmatched", None)])
    else
      var status := db.transactions[txId].status;
      if status == TxChargeback then db
      else if !ChargebackEligible(status) then db.(audit := db.audit + [Audit("chargeback_ineligible", Some(txId))])
      else AcceptChargeback(db, txId, reason, now, ids)
  }

  /** Exactly the entries of a chargeback that are not empty have been written, for this reason; those
      that stood before keep their ids, and no other entry has changed. */
  ghost predicate BansWritten(a: map<BanKey, Ban>, b: map<BanKey, Ban>, email: string, uid: string, reason: string) {
    && (forall key :: key in b ==>
          key in a || (key == (BanEmail, email) && email != "") || (key == (BanUid, uid) && uid != ""))
    && (forall key :: key in a ==> key in b && b[key].id == a[key].id)
    && (forall key :: key in a && key != (BanEmail, email) && key != (BanUid, uid) ==> b[key] == a[key])
    && (email != "" ==> (BanEmail, email) in b && b[(BanEmail, email)].reason == reason
                        && b[(BanEmail, email)].comment == Some("chargeback webhook"))
    && (uid != "" ==> (BanUid, uid) in b && b[(BanUid, uid)].reason == reason
                      && b[(BanUid, uid)].comment == Some("chargeback webhook"))
    && (email == "" && (BanEmail, email) in a ==> b[(BanEmail, email)] == a[(BanEmail, email)])
    && (uid == "" && (BanUid, uid) in a ==> b[(BanUid, uid)] == a[(BanUid, uid)])
  }

  lemma BansAre(a: map<BanKey, Ban>, email: string, uid: string, ids: seq<Id>, reason: string)
    requires |ids| == 2
    ensures BansWritten(a, BanAll(a, BanEntries(email, uid), ids, reason), email, uid, reason)
  {
    var entries := BanEntries(email, uid);
    assert entries[..1] == [(BanEmail, email)] && entries[..1][..0] == [];
    assert ids[..1] == [ids[0]] && ids[..1][..0] == [];
    assert BanAll(a, [], [], reason) == a;
  }

  /** An accepted chargeback, by the columns. */
  ghost predicate ChargedBack(o: Db, db: Db, txId: Id, reason: string, now: Time)
    requires txId in o.transactions && o.transactions[txId].userId in o.users
  {
    var t := o.transactions[txId];
    && db == o.(transactions := db.transactions, transfers := db.transfers, promos := db.promos, bans := db.bans,
                alerts := o.alerts + [Alert("chargeback", txId)],
                audit := o.audit + [Audit("chargeback_received", Some(txId))])
    && db.transactions == o.transactions[txId := t.(status := TxChargeback)]
    && db.transfers.Keys == o.transfers.Keys
    && (forall i :: i in o.transfers ==>
          var tr := o.transfers[i];
          db.transfers[i] == if tr.txId == txId && (tr.status == TrPending || tr.status == TrProcessing)
                             then tr.(status := TrCancelled, updatedAt := now) else tr)
    && UseGivenBack(o.promos, db.promos, t.promoId)
    && BansWritten(o.bans, db.bans, o.users[t.userId].email, t.recipientUid, reason)
  }

  /** The chargeback webhook, by the statuses: a paid, completed or errored transaction is charged
      back, one in chargeback is left alone, and for a pending, failed or unknown one only the audit
      log grows. */
  ghost predicate ChargebackHandled(o: Db, db: Db, txId: Id, reason: string, now: Time) {
    if txId !in o.transactions || o.transactions[txId].userId !in o.users then
      db == o.(audit := o.audit + [Audit("chargeback_unmatched", None)])
    else match o.transactions[txId].status
      case TxPaid => ChargedBack(o, db, txId, reason, now)
      case TxCompleted => ChargedBack(o, db, txId, reason, now)
      case TxError => ChargedBack(o, db, txId, reason, now)
      case TxChargeback => db == o
      case TxPending => db == o.(audit := o.audit + [Audit("chargeback_ineligible", Some(txId))])
      case TxFailed => db == o.(audit := o.audit + [Audit("chargeback_ineligible", Some(txId))])
  }

  lemma AcceptIs(o: Db, txId: Id, reason: string, now: Time, ids: seq<Id>)
    requires txId in o.transactions && o.transactions[txId].userId in o.users && |ids| == 2
    ensures ChargedBack(o, AcceptChargeback(o, txId, reason, now, ids), txId, reason, now)
  {
    var t := o.transactions[txId];
    BansAre(o.bans, o.users[t.userId].email, t.recipientUid, ids, reason);
    hide BanAll, BansWritten;
  }

  lemma ChargebackIs(o: Db, txId: Id, reason: string, now: Time, ids: seq<Id>)
    requires |ids| == 2
    ensures ChargebackHandled(o, HandleChargeback(o, txId, reason, now, ids), txId, reason, now)
  {
    if Found(o, txId) { AcceptIs(o, txId, reason, now, ids); }
    hide AcceptChargeback, ChargedBack;
  }

  method AddChargebackBlacklist(store: Store, email: string, recipientUid: string, reason: string, ids: seq<Id>)
    requires |ids| == 2
    modifies store`bans
    ensures store.bans == BanAll(old(store.bans), BanEntries(email, recipientUid), ids, reason)
    ensures BansWritten(old(store.bans), store.bans, email, recipientUid, reason)
  {
    BansAre(store.bans, email, recipientUid, ids, reason);
    hide BansWritten;
    var entries := [(BanEmail, email), (BanUid, recipientUid)];
    for i := 0 to |entries|
      invariant store.bans == BanAll(old(store.bans), entries[..i], ids[..i], reason)
    {
      var key := entries[i];
      assert entries[..i + 1][..i] == entries[..i] && ids[..i + 1][..i] == ids[..i];
      if key.1 == "" {
        continue;
      }
      if key in store.bans {
        store.bans := store.bans[key := store.bans[key].(reason := reason, comment := Some("chargeback webhook"))];
      } else {
        store.bans := store.bans[key := Ban(ids[i], reason, Some("chargeback webhook"))];
      }
    }
    assert entries[..|entries|] == entries && ids[..|entries|] == ids;
  }

  /** UPDATE bingx_transfers SET status = 'cancelled' .. on the rows not sent yet. */
  method CancelUnsent(store: Store, txId: Id, now: Time)
    modifies store`transfers
    ensures store.transfers.Keys == old(store.transfers).Keys
    ensures forall i :: i in store.transfers ==>
      var (a, b) := (old(store.transfers)[i], store.transfers[i]);
      if a.txId == txId && (a.status == TrPending || a.status == TrProcessing)
      then b.status == TrCancelled && b.updatedAt == now && b == a.(status := b.status, updatedAt := b.updatedAt)
      else b == a
    ensures store.transfers == CancelTransfers(old(store.transfers), txId, now)
  {
    store.transfers := map i | i in store.transfers ::
      if store.transfers[i].txId == txId && store.transfers[i].status in {TrPending, TrProcessing}
      then store.transfers[i].(status := TrCancelled, updatedAt := now) else store.transfers[i];
  }

  /** Releasing a promo use sees only the promo table and the transaction's code. */
  lemma ReleaseSees(a: Db, b: Db, txId: Id)
    requires a.promos == b.promos && txId in a.transactions && txId in b.transactions
    requires a.transactions[txId].promoId == b.transactions[txId].promoId
    ensures ReleasePromo(b, txId) == b.(promos := ReleasePromo(a, txId).promos)
  {
  }

  /** The statements of an accepted chargeback. */
  method AcceptChargebackRows(store: Store, txId: Id, reason: string, now: Time, ids: seq<Id>)
    requires txId in store.transactions && store.transactions[txId].userId in store.users && |ids| == 2
    modifies store
    ensures store.Snapshot() == AcceptChargeback(old(store.Snapshot()), txId, reason, now, ids)
    ensures ChargedBack(old(store.Snapshot()), store.Snapshot(), txId, reason, now)
  {
    AcceptIs(store.Snapshot(), txId, reason, now, ids);
    hide BanAll, CancelTransfers, ReleasePromo, BansWritten, UseGivenBack, ChargedBack;
    ghost var before := store.Snapshot();
    var t := store.transactions[txId];
    store.transactions := store.transactions[txId := t.(status := TxChargeback)];
    CancelUnsent(store, txId, now);
    ghost var reversed := before.(transactions := store.transactions, transfers := store.transfers);
    assert store.Snapshot() == reversed;
    ReleaseSees(before, reversed, txId);
    ReleasePromoCode(store, txId);
    assert store.Snapshot() == reversed.(promos := ReleasePromo(before, txId).promos);
    AddChargebackBlacklist(store, store.users[t.userId].email, t.recipientUid, reason, ids);
    store.RaiseAlert("chargeback", txId);
    store.WriteAudit("chargeback_received", Some(txId));
  }

  method HandleChargebackWebhook(store: Store, txId: Id, reason: string, now: Time, ids: seq<Id>)
    requires |ids| == 2
    modifies store
    ensures store.Snapshot() == HandleChargeback(old(store.Snapshot()), txId, reason, now, ids)
    ensures ChargebackHandled(old(store.Snapshot()), store.Snapshot(), txId, reason, now)
  {
    ChargebackIs(store.Snapshot(), txId, reason, now, ids);
    hide AcceptChargeback, ChargebackHandled, ChargedBack;
    if !Found(store.Snapshot(), txId) {
      store.WriteAudit("chargeback_unmatched", None);
      return;
    }
    var status := store.transactions[txId].status;
    if status == TxChargeback {
      return;
    }
    if !ChargebackEligible(status) {
      store.WriteAudit("chargeback_ineligible", Some(txId));
      return;
    }
    AcceptChargebackRows(store, txId, reason, now, ids);
  }
}
