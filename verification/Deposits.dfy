/** Creating a deposit: limits, blacklist, promo reservation, quote. */
module Deposits {
  import opened Common
  import opened Config
  import opened Quotes
  import opened Tables

  datatype Request = Request(
    userId: Id,
    amountRub: nat,
    recipientUid: string,
    ip: Option<string>,
    promoCode: Option<string>
  )

  /** What the request schema lets through. */
  predicate Acceptable(r: Request) {
    0 < r.amountRub <= SCHEMA_MAX && |r.recipientUid| >= 3
  }

  // --------------------------------------------------------------- promo codes

  predicate Reservable(p: Promo, code: string, now: Time) {
    && p.code == code
    && p.active
    && (p.expiresAt.None? || p.expiresAt.value > now)
    && (p.maxUses.None? || p.used < p.maxUses.value)
  }

  /** The unique constraint on promo_codes.code. */
  ghost predicate UniqueCodes(promos: map<Id, Promo>) {
    forall i, j :: i in promos && j in promos && promos[i].code == promos[j].code ==> i == j
  }

  /** The row the reserving UPDATE hits, if any. */
  ghost function RowFor(promos: map<Id, Promo>, code: string, now: Time): (row: Option<Id>)
    ensures row.Some? ==> row.value in promos && Reservable(promos[row.value], code, now)
    ensures row.None? ==> forall id :: id in promos ==> !Reservable(promos[id], code, now)
  {
    if exists id :: id in promos && Reservable(promos[id], code, now) then
      var id :| id in promos && Reservable(promos[id], code, now);
      Some(id)
    else None
  }

  function AddUse(db: Db, promoId: Id): Db {
    if promoId in db.promos then
      db.(promos := db.promos[promoId := db.promos[promoId].(used := db.promos[promoId].used + 1)])
    else db
  }

  /** Gives back the use of the transaction's promo code. */
  function ReleasePromo(db: Db, txId: Id): Db {
    if txId !in db.transactions || db.transactions[txId].promoId.None? then db else
    var id := db.transactions[txId].promoId.value;
    if id in db.promos && db.promos[id].used > 0 then
      db.(promos := db.promos[id := db.promos[id].(used := db.promos[id].used - 1)])
    else db
  }

  /** The code's row can be used now, by its columns. */
  ghost predicate Usable(promos: map<Id, Promo>, id: Id, code: string, now: Time) {
    && id in promos
    && var p := promos[id];
      p.code == code && p.active && (p.expiresAt.Some? ==> now < p.expiresAt.value)
      && (p.maxUses.Some? ==> p.used < p.maxUses.value)
  }

  /** Only the use counter of this row has changed, by this much. */
  ghost predicate UsesChanged(a: map<Id, Promo>, b: map<Id, Promo>, id: Id, delta: int) {
    && a.Keys == b.Keys && id in a && b[id].used == a[id].used + delta && b[id] == a[id].(used := b[id].used)
    && forall j :: j in a && j != id ==> b[j] == a[j]
  }

  /** One use of the transaction's code is given back, if it has a code with uses. */
  ghost predicate UseGivenBack(a: map<Id, Promo>, b: map<Id, Promo>, promoId: Option<Id>) {
    if promoId.Some? && promoId.value in a && a[promoId.value].used > 0 then UsesChanged(a, b, promoId.value, -1)
    else a == b
  }

  lemma RowIsUsable(promos: map<Id, Promo>, code: string, now: Time)
    ensures var row := RowFor(promos, code, now);
      if row.Some? then Usable(promos, row.value, code, now) else forall id :: !Usable(promos, id, code, now)
  {
    forall id
      ensures Usable(promos, id, code, now) <==> id in promos && Reservable(promos[id], code, now)
    {
    }
    hide Usable, Reservable;
  }

  /** Takes one use exactly when the code has a usable row. */
  method ReservePromoCode(store: Store, code: string, now: Time) returns (row: Option<Id>)
    requires UniqueCodes(store.promos)
    modifies store
    ensures row == RowFor(old(store.promos), code, now)
    ensures store.Snapshot() == if row.Some? then AddUse(old(store.Snapshot()), row.value) else old(store.Snapshot())
    ensures row.Some? <==> exists id :: Usable(old(store.promos), id, code, now)
    ensures store.Snapshot() == old(store.Snapshot()).(promos := store.promos)
    ensures if row.Some?
      then Usable(old(store.promos), row.value, code, now) && UsesChanged(old(store.promos), store.promos, row.value, 1)
      else store.promos == old(store.promos)
  {
    RowIsUsable(store.promos, code, now);
    hide Usable;
    if id :| id in store.promos && Reservable(store.promos[id], code, now) {
      store.promos := store.promos[id := store.promos[id].(used := store.promos[id].used + 1)];
      row := Some(id);
    } else {
      row := None;
    }
  }

  method ReleasePromoCode(store: Store, txId: Id)
    modifies store
    ensures store.Snapshot() == ReleasePromo(old(store.Snapshot()), txId)
    ensures store.Snapshot() == old(store.Snapshot()).(promos := store.promos)
    ensures UseGivenBack(old(store.promos), store.promos,
                         if txId in store.transactions then store.transactions[txId].promoId else None)
  {
    if txId in store.transactions {
      var promoId := store.transactions[txId].promoId;
      if promoId.Some? && promoId.value in store.promos && store.promos[promoId.value].used > 0 {
        var p := store.promos[promoId.value];
        store.promos := store.promos[promoId.value := p.(used := p.used - 1)];
      }
    }
  }

  // ----------------------------------------------------------------- blacklist

  predicate Blacklisted(db: Db, ip: Option<string>, email: string, recipientUid: string) {
    || (BanEmail, Lower(email)) in db.bans
    || (BanUid, recipientUid) in db.bans
    || (ip.Some? && (BanIp, ip.value) in db.bans)
  }

  // ------------------------------------------------------------------- deposit

  /** transactions.amount_usdt is numeric(18, 8): an insert at or above 10^10 USDT fails. */
  const USDT_COLUMN_LIMIT: nat := 1_000_000_000_000_000_000

  function Discount(db: Db, promoRow: Option<Id>): Percent {
    if promoRow.Some? && promoRow.value in db.promos then db.promos[promoRow.value].discount else 0
  }

  function Quoted(s: Settings, amountRub: nat, discount: Percent): Option<(nat, nat)>
    requires Validated(s) && amountRub <= SCHEMA_MAX
  {
    SchemaFits();
    CalculateDepositAmounts(amountRub, s, discount)
  }

  function NewTxn(r: Request, promoRow: Option<Id>, quote: (nat, nat)): Txn {
    Txn(r.userId, promoRow, r.amountRub, quote.1, quote.0, TxPending, None, None, r.recipientUid)
  }

  /** The first part of a deposit request: its limits, and a plain read of the blacklist. */
  function CheckDeposit(db: Db, s: Settings, r: Request): Option<Error>
    requires r.userId in db.users
  {
    if r.amountRub < s.depositMin || r.amountRub > s.depositMax then Some(BadRequest)
    else if Blacklisted(db, r.ip, db.users[r.userId].email, r.recipientUid) then Some(Conflict)
    else None
  }

  /** The rest of it: the promo use, the quote and the new row, or the error that refuses it. */
  ghost function InsertDeposit(db: Db, s: Settings, r: Request, now: Time, txId: Id): (out: Result<Db>)
    requires Validated(s) && Acceptable(r)
  {
    var row := if Blank(r.promoCode) then None else RowFor(db.promos, r.promoCode.value, now);
    var quote := Quoted(s, r.amountRub, Discount(db, row));
    if !Blank(r.promoCode) && row.None? then Err(BadRequest)
    else if quote.None? then Err(Internal)
    else if quote.value.1 == 0 then Err(BadRequest)
    else if quote.value.1 >= USDT_COLUMN_LIMIT then Err(Internal)
    else
      var db1 := if row.Some? then AddUse(db, row.value) else db;
      Ok(db1.(transactions := db.transactions[txId := NewTxn(r, row, quote.value)],
              audit := db.audit + [Audit("deposit_created", Some(txId))]))
  }

  /** What the blacklist is asked: the lower-cased email, the recipient, and the ip if it is known. */
  ghost predicate Screened(db: Db, email: string, r: Request) {
    || (BanEmail, Lower(email)) in db.bans.Keys
    || (BanUid, r.recipientUid) in db.bans.Keys
    || exists ip :: r.ip == Some(ip) && (BanIp, ip) in db.bans.Keys
  }

  /** The checks pass exactly within the limits and with none of the three entries; outside the limits
      they refuse the amount, whatever is banned. */
  lemma CheckIs(db: Db, s: Settings, r: Request)
    requires r.userId in db.users
    ensures var email := db.users[r.userId].email;
      CheckDeposit(db, s, r) ==
        if r.amountRub < s.depositMin || s.depositMax < r.amountRub then Some(BadRequest)
        else if Screened(db, email, r) then Some(Conflict)
        else None
  {
    hide Lower;
  }

  /** A new pending transaction with this code, commission and USDT amount, one use of the code, and
      nothing else. */
  ghost predicate Created(o: Db, db: Db, r: Request, txId: Id, row: Option<Id>, commission: nat, amountUsdt: nat) {
    && db == o.(transactions := db.transactions, promos := db.promos,
                audit := o.audit + [Audit("deposit_created", Some(txId))])
    && db.transactions == o.transactions[txId := Txn(r.userId, row, r.amountRub, amountUsdt, commission,
                                                     TxPending, None, None, r.recipientUid)]
    && if row.Some? then UsesChanged(o.promos, db.promos, row.value, 1) else db.promos == o.promos
  }

  /** The insert, by the columns: a code that is given must have a usable row, whose discount counts;
      the quote must exist, be more than nothing and fit its column; else the request is refused. */
  ghost predicate InsertedAs(o: Db, out: Result<Db>, s: Settings, r: Request, now: Time, txId: Id, row: Option<Id>)
    requires Validated(s) && r.amountRub <= SCHEMA_MAX
  {
    var wanted := r.promoCode.Some? && r.promoCode.value != "";
    && (row.Some? ==> wanted && Usable(o.promos, row.value, r.promoCode.value, now))
    && (row.None? && wanted ==>
          out == Err(BadRequest) && forall id :: !Usable(o.promos, id, r.promoCode.value, now))
    && (row.Some? || !wanted ==>
          var quote := Quoted(s, r.amountRub, if row.Some? then o.promos[row.value].discount else 0);
          if quote.None? then out == Err(Internal)
          else if quote.value.1 == 0 then out == Err(BadRequest)
          else if 1_000_000_000_000_000_000 <= quote.value.1 then out == Err(Internal)
          else out.Ok? && Created(o, out.value, r, txId, row, quote.value.0, quote.value.1))
  }

  ghost predicate InsertOutcome(o: Db, out: Result<Db>, s: Settings, r: Request, now: Time, txId: Id)
    requires Validated(s) && r.amountRub <= SCHEMA_MAX
  {
    exists row :: InsertedAs(o, out, s, r, now, txId, row)
  }

  lemma InsertIs(o: Db, s: Settings, r: Request, now: Time, txId: Id)
    requires Validated(s) && Acceptable(r)
    ensures InsertOutcome(o, InsertDeposit(o, s, r, now, txId), s, r, now, txId)
  {
    hide Quoted, RowFor;
    var row := if Blank(r.promoCode) then None else RowFor(o.promos, r.promoCode.value, now);
    if !Blank(r.promoCode) { RowIsUsable(o.promos, r.promoCode.value, now); }
    hide Usable;
    assert InsertedAs(o, InsertDeposit(o, s, r, now, txId), s, r, now, txId, row);
  }

  /** The effect of a deposit request that nothing comes between: the next state, or the error it
      is refused with. */
  ghost function CreateDeposit(db: Db, s: Settings, r: Request, now: Time, txId: Id): (out: Result<Db>)
    requires Validated(s) && Acceptable(r) && r.userId in db.users
  {
    match CheckDeposit(db, s, r)
    case Some(e) => Err(e)
    case None => InsertDeposit(db, s, r, now, txId)
  }

  /** The statements of create_deposit; on an error the caller still has to roll back. */
  method CreateDepositRows(store: Store, s: Settings, r: Request, now: Time, txId: Id) returns (out: Result<Id>)
    requires Validated(s) && Acceptable(r) && r.userId in store.users && txId !in store.transactions
    requires UniqueCodes(store.promos)
    modifies store
    ensures var spec := CreateDeposit(old(store.Snapshot()), s, r, now, txId);
      match out
      case Ok(id) => id == txId && spec == Ok(store.Snapshot())
      case Err(e) => spec == Err(e)
  {
    hide Quoted;
    if r.amountRub < s.depositMin || r.amountRub > s.depositMax {
      return Err(BadRequest);
    }
    if Blacklisted(store.Snapshot(), r.ip, store.users[r.userId].email, r.recipientUid) {
      return Err(Conflict);
    }
    var row := None;
    var discount: Percent := 0;
    if !Blank(r.promoCode) {
      row := ReservePromoCode(store, r.promoCode.value, now);
      if row.None? {
        return Err(BadRequest);
      }
      discount := store.promos[row.value].discount;
    }
    var quote := Quoted(s, r.amountRub, discount);
    if quote.None? {
      return Err(Internal);
    }
    var (commission, amountUsdt) := quote.value;
    if amountUsdt == 0 {
      return Err(BadRequest);
    }
    if amountUsdt >= USDT_COLUMN_LIMIT {
      return Err(Internal);
    }
    store.transactions := store.transactions[txId :=
      Txn(r.userId, row, r.amountRub, amountUsdt, commission, TxPending, None, None, r.recipientUid)];
    store.WriteAudit("deposit_created", Some(txId));
    out := Ok(txId);
  }

  /** The request: committed as a whole, or rolled back as a whole. */
  method DepositRequest(store: Store, s: Settings, r: Request, now: Time, txId: Id) returns (out: Result<Id>)
    requires Validated(s) && Acceptable(r) && r.userId in store.users && txId !in store.transactions
    requires UniqueCodes(store.promos)
    modifies store
    ensures var spec := CreateDeposit(old(store.Snapshot()), s, r, now, txId);
      match out
      case Ok(id) => id == txId && spec == Ok(store.Snapshot())
      case Err(e) => spec == Err(e) && store.Snapshot() == old(store.Snapshot())
    ensures var (o, email) := (old(store.Snapshot()), old(store.users[r.userId].email));
      if r.amountRub < s.depositMin || s.depositMax < r.amountRub then out == Err(BadRequest)
      else if Screened(o, email, r) then out == Err(Conflict)
      else InsertOutcome(o, if out.Ok? then Ok(store.Snapshot()) else Err(out.error), s, r, now, txId)
  {
    CheckIs(store.Snapshot(), s, r);
    InsertIs(store.Snapshot(), s, r, now, txId);
    hide CheckDeposit, InsertDeposit, InsertOutcome, Screened;
    var before := store.Snapshot();
    out := CreateDepositRows(store, s, r, now, txId);
    if out.Err? {
      store.Rollback(before);
    }
  }
}
