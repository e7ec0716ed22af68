/** The database tables of the money path: a snapshot value, and the store the services
    update in place. */
module Tables {
  import opened Common
  import opened Quotes

  type Id = string
  type Time = int  // microseconds

  datatype TxStatus = TxPending | TxPaid | TxCompleted | TxFailed | TxError | TxChargeback

  datatype TransferStatus =
    TrPending | TrProcessing | TrCompleted | TrOnHold | TrFailed | TrError | TrCancelled

  /** A percentage in hundredths, as the discount_range constraint keeps it. */
  type Percent = n: nat | n <= FULL

  datatype User = User(email: string)

  datatype Txn = Txn(
    userId: Id,
    promoId: Option<Id>,
    amountRub: nat,
    amountUsdt: nat,
    commission: nat,
    status: TxStatus,
    sbpPaymentId: Option<string>,
    exchangeId: Option<string>,
    recipientUid: string
  )

  datatype Transfer = Transfer(
    txId: Id,
    key: string,
    recipientUid: string,
    amountUsdt: nat,
    status: TransferStatus,
    attempts: nat,
    exchangeId: Option<string>,
    scheduledAt: Time,
    createdAt: Time,
    updatedAt: Time
  )

  datatype Kyc = Kyc(payerName: string, payerPhone: string, amountRub: nat)

  datatype Promo = Promo(
    code: string,
    discount: Percent,
    maxUses: Option<int>,
    used: nat,
    active: bool,
    expiresAt: Option<Time>
  )

  datatype BanKind = BanEmail | BanUid | BanIp
  type BanKey = (BanKind, string)
  datatype Ban = Ban(id: Id, reason: string, comment: Option<string>)

  datatype Alert = Alert(kind: string, txId: Id)
  datatype Audit = Audit(event: string, txId: Option<Id>)

  /** One committed state of all tables; `notices` counts the NOTIFYs committed so far. */
  datatype Db = Db(
    users: map<Id, User>,
    transactions: map<Id, Txn>,
    transfers: map<Id, Transfer>,
    kyc: map<Id, Kyc>,
    promos: map<Id, Promo>,
    bans: map<BanKey, Ban>,
    alerts: seq<Alert>,
    audit: seq<Audit>,
    notices: nat
  )

  const EMPTY_DB: Db := Db(map[], map[], map[], map[], map[], map[], [], [], 0)

  /** The idempotency key of a transaction's transfer, its transferClientId at the exchange. */
  function KeyOf(txId: Id): string {
    "bingx-transfer:" + txId
  }

  lemma KeyInjective(a: Id, b: Id)
    requires KeyOf(a) == KeyOf(b)
    ensures a == b
  {
    assert KeyOf(a)[|"bingx-transfer:"|..] == a;
    assert KeyOf(b)[|"bingx-transfer:"|..] == b;
  }

  /** The tables as the services see them through one connection. */
  class Store {
    var users: map<Id, User>
    var transactions: map<Id, Txn>
    var transfers: map<Id, Transfer>
    var kyc: map<Id, Kyc>
    var promos: map<Id, Promo>
    var bans: map<BanKey, Ban>
    var alerts: seq<Alert>
    var audit: seq<Audit>
    var notices: nat

    constructor (db: Db)
      ensures Snapshot() == db
    {
      users, transactions, transfers, kyc, promos := db.users, db.transactions, db.transfers, db.kyc, db.promos;
      bans, alerts, audit, notices := db.bans, db.alerts, db.audit, db.notices;
    }

    function Snapshot(): (db: Db)
      reads this
    {
      Db(users, transactions, transfers, kyc, promos, bans, alerts, audit, notices)
    }

    /** ROLLBACK to the state at the start of the request's transaction. */
    method Rollback(db: Db)
      modifies this
      ensures Snapshot() == db
    {
      users, transactions, transfers, kyc, promos := db.users, db.transactions, db.transfers, db.kyc, db.promos;
      bans, alerts, audit, notices := db.bans, db.alerts, db.audit, db.notices;
    }

    method WriteAudit(event: string, txId: Option<Id>)
      modifies this`audit
      ensures audit == old(audit) + [Audit(event, txId)]
    {
      audit := audit + [Audit(event, txId)];
    }

    method RaiseAlert(kind: string, txId: Id)
      modifies this`alerts
      ensures alerts == old(alerts) + [Alert(kind, txId)]
    {
      alerts := alerts + [Alert(kind, txId)];
    }
  }
}
