/** A chargeback bans its payer and recipient for good, unless an admin lifts the ban. */
module Bans {
  import opened Checks
  import opened Common
  import opened Config
  import opened Deposits
  import opened History
  import opened Moves
  import opened Runs
  import opened Tables
  import opened Webhooks

  // ------------------------------------------------------------ normalised users

  /** Emails are stored in lower case and not empty; deposits name a stored user and a
      recipient. */
  ghost predicate UsersOk(users: map<Id, User>) {
    forall u :: u in users ==> Lower(users[u].email) == users[u].email && users[u].email != ""
  }

  ghost predicate TxnsOk(db: Db) {
    forall t :: t in db.transactions ==>
      db.transactions[t].userId in db.users && db.transactions[t].recipientUid != ""
  }

  ghost predicate PeopleOk(db: Db) { UsersOk(db.users) && TxnsOk(db) }

  /** Which rows a step can add, and what it can do to users and bans. */
  ghost predicate PeopleStep(a: Db, b: Db, e: Event) {
    && (forall t :: t in b.transactions && t !in a.transactions ==>
          e.Deposit? && t == e.txId && e.request.userId in a.users && Acceptable(e.request)
          && b.transactions[t].userId == e.request.userId && b.transactions[t].recipientUid == e.request.recipientUid)
    && (forall u :: u in b.users && u !in a.users ==>
          e.Register? && b.users[u].email == Lower(Strip(e.email)) && b.users[u].email != "")
    && (forall key :: key in a.bans && !(e.RemoveBan? && e.key == key) ==> key in b.bans)
  }

  /** The step touches no transaction's presence, no user and no ban. */
  ghost predicate SamePeople(a: Db, b: Db) {
    a.transactions.Keys == b.transactions.Keys && a.users == b.users && a.bans == b.bans
  }

  lemma SamePeopleStep(a: Db, b: Db, e: Event)
    requires SamePeople(a, b)
    ensures PeopleStep(a, b, e)
  {
  }

  lemma StepPeople(s: Settings, w: World, e: Event)
    requires Validated(s)
    ensures PeopleStep(w.db, Apply(s, w, e).db, e)
  {
    hide WorkerStep, ServiceStep, WorkerEnabled, ServiceEnabled, PeopleStep;
    SamePeopleStep(w.db, w.db, e);
    if Enabled(s, w, e) {
      match e
      case Register(userId, email) => PeopleOnRegister(s, w, e);
      case Deposit(check, r, now, txId) => PeopleOnDeposit(s, w, e);
      case ChargebackHook(txId, reason, now, ids) => PeopleOnChargeback(s, w, e);
      case RemoveBan(key) => PeopleOnBan(s, w, e);
      case AddBan(key, ban) => PeopleOnBan(s, w, e);
      case _ =>
        SamePeopleElsewhere(s, w, e);
        SamePeopleStep(w.db, Step(s, w, e).db, e);
    }
  }

  lemma PeopleOnRegister(s: Settings, w: World, e: Event)
    requires Validated(s) && Enabled(s, w, e) && e.Register?
    ensures PeopleStep(w.db, Step(s, w, e).db, e)
  {
    hide WorkerStep, WorkerEnabled;
  }

  lemma PeopleOnBan(s: Settings, w: World, e: Event)
    requires Validated(s) && Enabled(s, w, e) && (e.RemoveBan? || e.AddBan?)
    ensures PeopleStep(w.db, Step(s, w, e).db, e)
  {
    hide WorkerStep, WorkerEnabled;
  }

  lemma PeopleOnDeposit(s: Settings, w: World, e: Event)
    requires Validated(s) && Enabled(s, w, e) && e.Deposit?
    ensures PeopleStep(w.db, Step(s, w, e).db, e)
  {
    hide WorkerStep, WorkerEnabled, InsertDeposit;
    if Inserts(s, w, e) { InsertedTxn(w.db, s, e.request, e.now, e.txId); }
  }

  lemma PeopleOnChargeback(s: Settings, w: World, e: Event)
    requires Validated(s) && Enabled(s, w, e) && e.ChargebackHook?
    ensures PeopleStep(w.db, Step(s, w, e).db, e)
  {
    hide WorkerStep, WorkerEnabled, HandleChargeback, ChargebackBlocked;
    ChargebackPeople(w.db, e.txId, e.reason, e.now, e.ids);
  }

  lemma SamePeopleElsewhere(s: Settings, w: World, e: Event)
    requires Validated(s) && Enabled(s, w, e)
    requires !e.Register? && !e.Deposit? && !e.ChargebackHook? && !e.RemoveBan? && !e.AddBan?
    ensures SamePeople(w.db, Step(s, w, e).db)
  {
    hide WorkerStep, WorkerEnabled, CheckDeposit, HandlePayment, Accepts;
    if e.PaymentHook? {
      PaymentTouches(w.db, e.payment, s.holdMinutes, e.now, e.transferId);
    } else if ByWorker(e) {
      WorkerTouches(s, w, e);
    }
  }

  lemma {:induction false} BanAllAdds(bans: map<BanKey, Ban>, entries: seq<BanKey>, ids: seq<Id>, reason: string)
    requires |entries| == |ids|
    ensures var after := BanAll(bans, entries, ids, reason);
      && (forall key :: key in bans ==> key in after)
      && (forall n :: 0 <= n < |entries| && entries[n].1 != "" ==> entries[n] in after)
  {
    if entries != [] {
      BanAllAdds(bans, entries[..|entries| - 1], ids[..|ids| - 1], reason);
      assert forall n :: 0 <= n < |entries| - 1 ==> entries[..|entries| - 1][n] == entries[n];
    }
  }

  lemma ChargebackPeople(db: Db, txId: Id, reason: string, now: Time, ids: seq<Id>)
    requires |ids| == 2
    ensures var db2 := HandleChargeback(db, txId, reason, now, ids);
      && db2.transactions.Keys == db.transactions.Keys && db2.users == db.users
      && forall key :: key in db.bans ==> key in db2.bans
  {
    if Found(db, txId) {
      var t := db.transactions[txId];
      BanAllAdds(db.bans, BanEntries(db.users[t.userId].email, t.recipientUid), ids, reason);
    }
    hide BanAll, ReleasePromo, CancelTransfers;
  }

  lemma StepPeopleOk(s: Settings, w: World, e: Event)
    requires Validated(s) && PeopleOk(w.db)
    ensures PeopleOk(Apply(s, w, e).db)
  {
    hide Apply;
    StepPeople(s, w, e);
    StepKeepsHistory(s, w, e);
    var db2 := Apply(s, w, e).db;
    forall u | u in db2.users
      ensures Lower(db2.users[u].email) == db2.users[u].email && db2.users[u].email != ""
    {
      if u !in w.db.users { LowerTwice(Strip(e.email)); }
    }
    forall t | t in db2.transactions
      ensures db2.transactions[t].userId in db2.users && db2.transactions[t].recipientUid != ""
    {
      if t in w.db.transactions { assert SameQuote(w.db.transactions[t], db2.transactions[t]); }
    }
  }

  lemma {:induction false} RunPeople(s: Settings, es: seq<Event>)
    requires Validated(s)
    ensures PeopleOk(Exec(s, START, es).db)
  {
    if es != [] {
      RunPeople(s, es[..|es| - 1]);
      hide PeopleOk, Apply;
      StepPeopleOk(s, Exec(s, START, es[..|es| - 1]), es[|es| - 1]);
    }
  }

  // ---------------------------------------------------------------- banned for good

  ghost predicate Banned(db: Db, email: string, uid: string) {
    (BanEmail, email) in db.bans && (BanUid, uid) in db.bans
  }

  /** No admin removes either entry along the run. */
  predicate Unlifted(es: seq<Event>, email: string, uid: string) {
    forall n :: 0 <= n < |es| && es[n].RemoveBan? ==> es[n].key != (BanEmail, email) && es[n].key != (BanUid, uid)
  }

  /** An accepted chargeback bans the payer's email and the recipient. */
  lemma ChargebackBans(s: Settings, w: World, e: Event)
    requires Validated(s) && PeopleOk(w.db) && e.ChargebackHook? && Enabled(s, w, e)
    requires e.txId in w.db.transactions && w.db.transactions[e.txId].status in {TxPaid, TxCompleted, TxError}
    ensures var t := w.db.transactions[e.txId];
      Banned(Apply(s, w, e).db, w.db.users[t.userId].email, t.recipientUid)
  {
    var t := w.db.transactions[e.txId];
    var entries := BanEntries(w.db.users[t.userId].email, t.recipientUid);
    BanAllAdds(w.db.bans, entries, e.ids, e.reason);
    assert entries[0] == (BanEmail, w.db.users[t.userId].email) && entries[1] == (BanUid, t.recipientUid);
    hide BanAll, ReleasePromo, CancelTransfers, ChargebackBlocked;
  }

  /** While the ban stands, no deposit of that user or to that recipient passes its checks. */
  lemma BannedCheckRefused(db: Db, s: Settings, r: Request, email: string, uid: string)
    requires r.userId in db.users && PeopleOk(db) && Banned(db, email, uid)
    requires Concerns(db.users, r.userId, r.recipientUid, email, uid)
    ensures CheckDeposit(db, s, r).Some?
  {
  }

  /** The payer's email, or the recipient, is the banned one. */
  predicate Concerns(users: map<Id, User>, userId: Id, recipientUid: string, email: string, uid: string) {
    (userId in users && users[userId].email == email) || recipientUid == uid
  }

  predicate TxnConcerned(db: Db, t: Id, email: string, uid: string)
    requires t in db.transactions
  {
    Concerns(db.users, db.transactions[t].userId, db.transactions[t].recipientUid, email, uid)
  }

  predicate CheckConcerned(w: World, c: nat, email: string, uid: string)
    requires c in w.checked
  {
    Concerns(w.db.users, w.checked[c].userId, w.checked[c].recipientUid, email, uid)
  }

  /** Every request under way that concerns the ban was under way at w already. */
  ghost predicate NoLaterCheck(w: World, w2: World, email: string, uid: string) {
    forall c :: c in w2.checked && CheckConcerned(w2, c, email, uid) ==>
      c in w.checked && w.checked[c] == w2.checked[c] && CheckConcerned(w, c, email, uid)
  }

  /** Every transaction since w that concerns the ban comes from a request under way at w. */
  ghost predicate OnlySlipped(w: World, w2: World, email: string, uid: string) {
    forall t :: t in w2.db.transactions && t !in w.db.transactions && TxnConcerned(w2.db, t, email, uid) ==>
      t in w2.checkOf && w2.checkOf[t] in w.checked && CheckConcerned(w, w2.checkOf[t], email, uid)
  }

  lemma ConcernsKept(a: map<Id, User>, b: map<Id, User>, userId: Id, recipientUid: string, email: string, uid: string)
    requires UsersStep(a, b) && userId in a
    ensures Concerns(a, userId, recipientUid, email, uid) == Concerns(b, userId, recipientUid, email, uid)
  {
  }

  lemma LaterCheckStep(s: Settings, w: World, mid: World, e: Event, email: string, uid: string)
    requires Validated(s) && PeopleOk(mid.db) && Banned(mid.db, email, uid) && AllPassed(s, mid)
    requires NoLaterCheck(w, mid, email, uid)
    ensures NoLaterCheck(w, Apply(s, mid, e), email, uid)
  {
    hide Apply, Enabled, CheckDeposit, InsertDeposit, TxnsStep, RowsStep, PeopleOk, Banned;
    StepChecks(s, mid, e);
    StepKeepsHistory(s, mid, e);
    var w2 := Apply(s, mid, e);
    if Passes(s, mid, e) { RefusedNow(s, mid, e, email, uid); }
    forall c | c in w2.checked && CheckConcerned(w2, c, email, uid)
      ensures c in w.checked && w.checked[c] == w2.checked[c] && CheckConcerned(w, c, email, uid)
    {
      var r := w2.checked[c];
      ConcernsKept(mid.db.users, w2.db.users, r.userId, r.recipientUid, email, uid);
    }
  }

  lemma RefusedNow(s: Settings, w: World, e: Event, email: string, uid: string)
    requires PeopleOk(w.db) && Banned(w.db, email, uid) && Passes(s, w, e)
    ensures e.request.userId in w.db.users
    ensures !Concerns(w.db.users, e.request.userId, e.request.recipientUid, email, uid)
  {
    hide PeopleOk, Banned, CheckDeposit;
    if Concerns(w.db.users, e.request.userId, e.request.recipientUid, email, uid) {
      BannedCheckRefused(w.db, s, e.request, email, uid);
    }
  }

  /** The transaction of a checked request concerns the ban only if the request does. */
  lemma InsertConcerned(s: Settings, w: World, mid: World, e: Event, email: string, uid: string)
    requires Validated(s) && NoLaterCheck(w, mid, email, uid) && Inserts(s, mid, e)
    requires e.txId in Apply(s, mid, e).db.transactions && TxnConcerned(Apply(s, mid, e).db, e.txId, email, uid)
    ensures e.check in w.checked && CheckConcerned(w, e.check, email, uid)
  {
    hide InsertDeposit, WorkerEnabled;
    InsertedTxn(mid.db, s, e.request, e.now, e.txId);
    DepositDb(s, mid, e);
    hide Apply;
    assert CheckConcerned(mid, e.check, email, uid);
  }

  lemma OldConcerned(s: Settings, mid: World, e: Event, t: Id, email: string, uid: string)
    requires Validated(s) && t in mid.db.transactions && mid.db.transactions[t].userId in mid.db.users
    ensures t in Apply(s, mid, e).db.transactions
    ensures TxnConcerned(Apply(s, mid, e).db, t, email, uid) == TxnConcerned(mid.db, t, email, uid)
  {
    hide Apply, RowsStep;
    StepKeepsHistory(s, mid, e);
    var (x, y) := (mid.db.transactions[t], Apply(s, mid, e).db.transactions[t]);
    assert SameQuote(x, y);
    ConcernsKept(mid.db.users, Apply(s, mid, e).db.users, x.userId, x.recipientUid, email, uid);
  }

  lemma SlippedStep(s: Settings, w: World, mid: World, e: Event, email: string, uid: string)
    requires Validated(s) && NoLaterCheck(w, mid, email, uid) && OnlySlipped(w, mid, email, uid)
    requires TxnsOk(mid.db) && CheckedOnce(mid)
    ensures OnlySlipped(w, Apply(s, mid, e), email, uid)
  {
    hide Apply, Enabled, Passes, Inserts, NoLaterCheck, TxnConcerned, CheckConcerned;
    StepChecks(s, mid, e);
    InsertAdds(s, mid, e);
    var w2 := Apply(s, mid, e);
    forall t | t in w2.db.transactions && t !in w.db.transactions && TxnConcerned(w2.db, t, email, uid)
      ensures t in w2.checkOf && w2.checkOf[t] in w.checked && CheckConcerned(w, w2.checkOf[t], email, uid)
    {
      if t in mid.db.transactions {
        OldConcerned(s, mid, e, t, email, uid);
        CheckOfKept(s, mid, e, t);
      } else {
        InsertConcerned(s, w, mid, e, email, uid);
        CheckOfInsert(s, mid, e);
      }
    }
  }

  lemma CheckOfKept(s: Settings, w: World, e: Event, t: Id)
    requires Validated(s) && t in w.checkOf && t in w.db.transactions
    ensures t in Apply(s, w, e).checkOf && Apply(s, w, e).checkOf[t] == w.checkOf[t]
  {
    hide Apply, Enabled, CheckDeposit, InsertDeposit;
    StepChecks(s, w, e);
    InsertAdds(s, w, e);
  }

  lemma CheckOfInsert(s: Settings, w: World, e: Event)
    requires Validated(s) && Inserts(s, w, e)
    ensures e.txId in Apply(s, w, e).checkOf && Apply(s, w, e).checkOf[e.txId] == e.check
  {
    hide Apply, InsertDeposit, WorkerEnabled, CheckDeposit;
    StepChecks(s, w, e);
  }

  lemma {:induction false} BanStands(s: Settings, w: World, es: seq<Event>, email: string, uid: string)
    requires Validated(s) && PeopleOk(w.db) && AllPassed(s, w) && CheckedOnce(w)
    requires Banned(w.db, email, uid) && Unlifted(es, email, uid)
    ensures var w2 := Exec(s, w, es);
      && PeopleOk(w2.db) && AllPassed(s, w2) && CheckedOnce(w2) && Banned(w2.db, email, uid)
      && NoLaterCheck(w, w2, email, uid) && OnlySlipped(w, w2, email, uid)
  {
    if es != [] {
      var mid, e := Exec(s, w, es[..|es| - 1]), es[|es| - 1];
      BanStands(s, w, es[..|es| - 1], email, uid);
      hide Apply, UsersOk, TxnsOk, AllPassed, CheckedOnce, NoLaterCheck, OnlySlipped;
      StepPeopleOk(s, mid, e);
      StepPeople(s, mid, e);
      StepPassed(s, mid, e);
      StepOnce(s, mid, e);
      LaterCheckStep(s, w, mid, e, email, uid);
      SlippedStep(s, w, mid, e, email, uid);
    }
  }

  /** From an accepted chargeback on, over any run in which no admin lifts the two entries, no
      deposit of the payer's email or to the charged-back recipient passes its checks, and every
      transaction created for them comes from a request that had passed its checks before the
      chargeback and was still under way. */
  lemma {:induction false} ChargebackBansPersist(s: Settings, es: seq<Event>, e: Event, later: seq<Event>)
    requires Validated(s) && e.ChargebackHook?
    requires var w := Exec(s, START, es);
      && Enabled(s, w, e) && Found(w.db, e.txId)
      && w.db.transactions[e.txId].status in {TxPaid, TxCompleted, TxError}
    requires var db := Exec(s, START, es).db;
      var t := db.transactions[e.txId];
      Unlifted(later, db.users[t.userId].email, t.recipientUid)
    ensures var db := Exec(s, START, es).db;
      var (t, w1, w2) := (db.transactions[e.txId], Exec(s, START, es + [e]), Exec(s, START, es + [e] + later));
      var (email, uid) := (db.users[t.userId].email, t.recipientUid);
      && Banned(w2.db, email, uid) && NoLaterCheck(w1, w2, email, uid) && OnlySlipped(w1, w2, email, uid)
  {
    var w := Exec(s, START, es);
    var t := w.db.transactions[e.txId];
    RunPeople(s, es);
    RunPeople(s, es + [e]);
    RunPassed(s, es + [e]);
    RunOnce(s, es + [e]);
    ChargebackBans(s, w, e);
    ExecAppend(s, START, es, e);
    ExecSplit(s, START, es + [e], later);
    hide Exec, Apply, Enabled, UsersOk, TxnsOk, AllPassed, CheckedOnce, NoLaterCheck, OnlySlipped;
    BanStands(s, Exec(s, START, es + [e]), later, w.db.users[t.userId].email, t.recipientUid);
  }

  /** So when no such request is under way, no transaction of that email or to that recipient is
      ever created again. */
  lemma {:induction false} NoneUnderWayNoneCreated(s: Settings, w: World, later: seq<Event>, email: string, uid: string)
    requires Validated(s) && PeopleOk(w.db) && AllPassed(s, w) && CheckedOnce(w)
    requires Banned(w.db, email, uid) && Unlifted(later, email, uid)
    requires forall c :: c in w.checked ==> !CheckConcerned(w, c, email, uid)
    ensures var db2 := Exec(s, w, later).db;
      forall t :: t in db2.transactions && t !in w.db.transactions ==> !TxnConcerned(db2, t, email, uid)
  {
    BanStands(s, w, later, email, uid);
    hide Exec, UsersOk, TxnsOk, AllPassed, CheckedOnce, NoLaterCheck, TxnConcerned, CheckConcerned;
  }

  lemma InsertIgnoresBans(db: Db, s: Settings, r: Request, now: Time, txId: Id)
    requires Validated(s) && Acceptable(r)
    ensures InsertDeposit(db, s, r, now, txId).Ok? == InsertDeposit(db.(bans := map[]), s, r, now, txId).Ok?
  {
    hide Quoted, RowFor;
  }

  /** And the ban does not stop one that is under way: the two entries stand, and the transaction is
      created if and only if it would be without any ban. */
  lemma {:induction false} UnderWaySlipsPast(s: Settings, w: World, c: nat, now: Time, t: Id,
    email: string, uid: string)
    requires Validated(s) && AllPassed(s, w) && c in w.checked && CheckConcerned(w, c, email, uid)
    requires Banned(w.db, email, uid) && t !in w.db.transactions
    ensures Acceptable(w.checked[c])
    ensures var db2 := Exec(s, w, [Deposit(c, w.checked[c], now, t)]).db;
      && Banned(db2, email, uid)
      && (t in db2.transactions <==> InsertDeposit(w.db.(bans := map[]), s, w.checked[c], now, t).Ok?)
      && (t in db2.transactions ==> TxnConcerned(db2, t, email, uid))
  {
    var e := Deposit(c, w.checked[c], now, t);
    assert Passed(s, w.db.users, w.checked[c]);
    InsertIgnoresBans(w.db, s, w.checked[c], now, t);
    hide Exec, Apply, Step, InsertDeposit, AllPassed, WorkerEnabled;
    ExecAppend(s, w, [], e);
    EmptyRun(s, w);
    assert [] + [e] == [e];
    if Inserts(s, w, e) { InsertedTxn(w.db, s, w.checked[c], now, t); }
    DepositDb(s, w, e);
  }
}
