/** What a chargeback does to any payment that was accepted, and what any single blacklist entry
    keeps out, over whole runs. */
module Screening {
  import opened Bans
  import opened Checks
  import opened Common
  import opened Config
  import opened Deposits
  import opened History
  import opened Ledger
  import opened PaymentRuns
  import opened Runs
  import opened Tables
  import opened Truth
  import opened Webhooks

  // --------------------------------------------------------------- chargebacks

  lemma ChargebackDb(s: Settings, w: World, e: Event)
    requires Validated(s) && e.ChargebackHook? && Enabled(s, w, e)
    ensures |e.ids| == 2 && Apply(s, w, e) == w.(db := HandleChargeback(w.db, e.txId, e.reason, e.now, e.ids))
  {
    hide WorkerStep, WorkerEnabled, HandleChargeback, ChargebackBlocked;
  }

  /** The payment was accepted, and the transaction has since neither failed nor been charged back. */
  predicate StillReversible(db: Db, t: Id) {
    t in db.transactions && t in db.kyc && db.transactions[t].status != TxFailed
    && db.transactions[t].status != TxChargeback
  }

  lemma ReversibleStatus(db: Db, t: Id)
    requires Linked(db) && StillReversible(db, t)
    ensures db.transactions[t].status in {TxPaid, TxCompleted, TxError}
  {
    KycByStatus(db, t);
    hide Linked;
  }

  /** Over every run a chargeback that goes through on any transaction whose payment was accepted, and
      which has not failed or been charged back before, leaves it in chargeback, bans its email and
      recipient, cancels what was not sent and raises one alert. */
  lemma {:induction false} AcceptedPaymentIsReversed(s: Settings, es: seq<Event>, e: Event)
    requires Validated(s) && e.ChargebackHook?
    requires Enabled(s, Exec(s, START, es), e) && StillReversible(Exec(s, START, es).db, e.txId)
    ensures var (db, db2) := (Exec(s, START, es).db, Exec(s, START, es + [e]).db);
      var t := db.transactions[e.txId];
      && t.userId in db.users && ChargedBack(db, db2, e.txId, e.reason, e.now)
      && db2.transactions[e.txId].status == TxChargeback
      && (BanEmail, db.users[t.userId].email) in db2.bans && (BanUid, t.recipientUid) in db2.bans
  {
    hide Exec, Enabled, Apply, Linked, Wired, Truthful, UsersOk, TxnsOk;
    RunBooks(s, es);
    RunPeople(s, es);
    ExecAppend(s, START, es, e);
    var db := Exec(s, START, es).db;
    ReversibleStatus(db, e.txId);
    PersonOf(db, e.txId);
    ChargebackDb(s, Exec(s, START, es), e);
    ChargebackIs(db, e.txId, e.reason, e.now, e.ids);
    hide HandleChargeback;
  }

  lemma PersonOf(db: Db, t: Id)
    requires PeopleOk(db) && t in db.transactions
    ensures db.transactions[t].userId in db.users && db.users[db.transactions[t].userId].email != ""
    ensures db.transactions[t].recipientUid != ""
  {
  }

  // ------------------------------------------------------------------- single entries

  /** The entry is of the request's email, recipient or ip. */
  predicate Matches(users: map<Id, User>, r: Request, key: BanKey) {
    || (r.userId in users && key == (BanEmail, users[r.userId].email))
    || key == (BanUid, r.recipientUid)
    || (r.ip.Some? && key == (BanIp, r.ip.value))
  }

  /** No admin lifts the entry along the run. */
  predicate Kept(es: seq<Event>, key: BanKey) {
    forall n :: 0 <= n < |es| && es[n].RemoveBan? ==> es[n].key != key
  }

  lemma MatchRefused(db: Db, s: Settings, r: Request, key: BanKey)
    requires PeopleOk(db) && r.userId in db.users && key in db.bans && Matches(db.users, r, key)
    ensures CheckDeposit(db, s, r).Some?
  {
    CheckIs(db, s, r);
    assert Lower(db.users[r.userId].email) == db.users[r.userId].email;
    if r.ip.Some? && key == (BanIp, r.ip.value) { assert r.ip == Some(r.ip.value); }
    hide CheckDeposit, Lower;
  }

  /** Every matching request under way was under way at w already. */
  ghost predicate NoLaterMatch(w: World, mid: World, key: BanKey) {
    forall c :: c in mid.checked && Matches(mid.db.users, mid.checked[c], key) ==>
      c in w.checked && w.checked[c] == mid.checked[c]
  }

  lemma PassedNotMatching(s: Settings, w: World, e: Event, key: BanKey)
    requires PeopleOk(w.db) && key in w.db.bans && Passes(s, w, e)
    ensures e.request.userId in w.db.users && !Matches(w.db.users, e.request, key)
  {
    hide PeopleOk, CheckDeposit;
    if Matches(w.db.users, e.request, key) { MatchRefused(w.db, s, e.request, key); }
  }

  lemma MatchKept(a: map<Id, User>, b: map<Id, User>, r: Request, key: BanKey)
    requires UsersStep(a, b) && r.userId in a
    ensures Matches(a, r, key) == Matches(b, r, key)
  {
  }

  lemma LaterMatchStep(s: Settings, w: World, mid: World, e: Event, key: BanKey)
    requires Validated(s) && PeopleOk(mid.db) && AllPassed(s, mid) && key in mid.db.bans && NoLaterMatch(w, mid, key)
    ensures NoLaterMatch(w, Apply(s, mid, e), key)
  {
    hide Apply, Enabled, CheckDeposit, InsertDeposit, TxnsStep, RowsStep, PeopleOk, Matches;
    StepChecks(s, mid, e);
    StepKeepsHistory(s, mid, e);
    var w2 := Apply(s, mid, e);
    if Passes(s, mid, e) { PassedNotMatching(s, mid, e, key); }
    forall c | c in w2.checked && Matches(w2.db.users, w2.checked[c], key)
      ensures c in w.checked && w.checked[c] == w2.checked[c]
    {
      MatchKept(mid.db.users, w2.db.users, w2.checked[c], key);
    }
  }

  lemma EntryStays(s: Settings, w: World, e: Event, key: BanKey)
    requires Validated(s) && key in w.db.bans && !(e.RemoveBan? && e.key == key)
    ensures key in Apply(s, w, e).db.bans
  {
    hide Apply;
    StepPeople(s, w, e);
  }

  lemma {:induction false} EntryStands(s: Settings, w: World, es: seq<Event>, key: BanKey)
    requires Validated(s) && PeopleOk(w.db) && AllPassed(s, w) && key in w.db.bans && Kept(es, key)
    ensures var w2 := Exec(s, w, es);
      PeopleOk(w2.db) && AllPassed(s, w2) && key in w2.db.bans && NoLaterMatch(w, w2, key)
  {
    if es != [] {
      var mid, e := Exec(s, w, es[..|es| - 1]), es[|es| - 1];
      KeptInit(es, key);
      EntryStands(s, w, es[..|es| - 1], key);
      hide Apply, UsersOk, TxnsOk, AllPassed, NoLaterMatch, Kept;
      StepPeopleOk(s, mid, e);
      StepPassed(s, mid, e);
      EntryStays(s, mid, e, key);
      LaterMatchStep(s, w, mid, e, key);
    }
  }

  lemma KeptInit(es: seq<Event>, key: BanKey)
    requires es != [] && Kept(es, key)
    ensures Kept(es[..|es| - 1], key) && !(es[|es| - 1].RemoveBan? && es[|es| - 1].key == key)
  {
  }

  lemma KeptPrefix(es: seq<Event>, n: nat, key: BanKey)
    requires n <= |es| && Kept(es, key)
    ensures Kept(es[..n], key)
  {
  }

  /** Over every run from which on an entry of any of the three kinds stands unlifted: no request that
      matches it passes its checks any more, and every transaction that is created for such a request
      comes from one that had passed them before. */
  lemma {:induction false} EntryKeepsOut(s: Settings, es: seq<Event>, later: seq<Event>, key: BanKey, n: nat)
    requires Validated(s) && key in Exec(s, START, es).db.bans && Kept(later, key) && n < |later|
    ensures var (w, mid) := (Exec(s, START, es), Exec(s, Exec(s, START, es), later[..n]));
      && key in mid.db.bans
      && (Passes(s, mid, later[n]) ==> !Matches(mid.db.users, later[n].request, key))
      && (Inserts(s, mid, later[n]) && Matches(mid.db.users, later[n].request, key) ==>
            later[n].check in w.checked && w.checked[later[n].check] == later[n].request)
  {
    var w := Exec(s, START, es);
    RunPeople(s, es);
    RunPassed(s, es);
    KeptPrefix(later, n, key);
    EntryStands(s, w, later[..n], key);
    hide Exec, AllPassed, UsersOk, TxnsOk, Kept, Matches, CheckDeposit, InsertDeposit, WorkerEnabled;
    var mid := Exec(s, w, later[..n]);
    if Passes(s, mid, later[n]) { PassedNotMatching(s, mid, later[n], key); }
    if Inserts(s, mid, later[n]) { UnderWay(s, mid, later[n]); }
  }

  lemma UnderWay(s: Settings, w: World, e: Event)
    requires Validated(s) && Inserts(s, w, e)
    ensures e.check in w.checked && w.checked[e.check] == e.request
  {
    hide InsertDeposit, WorkerEnabled;
  }
}
