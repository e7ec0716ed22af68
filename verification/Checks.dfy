/** Deposit requests between their checks and their insert. */
module Checks {
  import opened Config
  import opened Deposits
  import opened History
  import opened Moves
  import opened Runs
  import opened Tables
  import opened Webhooks

  /** What a checked request has passed: the schema, the limits, and naming a stored user. */
  predicate Passed(s: Settings, users: map<Id, User>, r: Request) {
    Acceptable(r) && r.userId in users && s.depositMin <= r.amountRub <= s.depositMax
  }

  ghost predicate AllPassed(s: Settings, w: World) {
    forall c :: c in w.checked ==> c < w.checks && Passed(s, w.db.users, w.checked[c])
  }

  /** A check leads to at most one transaction, and is gone once it has. */
  ghost predicate CheckedOnce(w: World) {
    && w.checkOf.Keys == w.db.transactions.Keys
    && (forall t :: t in w.checkOf ==> w.checkOf[t] < w.checks && w.checkOf[t] !in w.checked)
    && (forall t, u :: t in w.checkOf && u in w.checkOf && w.checkOf[t] == w.checkOf[u] ==> t == u)
  }

  /** The step is a deposit's checks, passed. */
  ghost predicate Passes(s: Settings, w: World, e: Event) {
    e.Check? && Enabled(s, w, e) && CheckDeposit(w.db, s, e.request).None?
  }

  /** The step inserts the transaction of a checked request. */
  ghost predicate Inserts(s: Settings, w: World, e: Event)
    requires Validated(s)
  {
    e.Deposit? && Enabled(s, w, e) && InsertDeposit(w.db, s, e.request, e.now, e.txId).Ok?
  }

  /** How a step changes the requests under way. */
  ghost predicate ChecksMove(s: Settings, w: World, e: Event, w2: World)
    requires Validated(s)
  {
    if Passes(s, w, e) then
      w2.checked == w.checked[w.checks := e.request] && w2.checks == w.checks + 1 && w2.checkOf == w.checkOf
    else if e.Deposit? && Enabled(s, w, e) then
      && w2.checked == w.checked - {e.check} && w2.checks == w.checks
      && w2.checkOf == if Inserts(s, w, e) then w.checkOf[e.txId := e.check] else w.checkOf
    else w2.checked == w.checked && w2.checks == w.checks && w2.checkOf == w.checkOf
  }

  lemma StepChecks(s: Settings, w: World, e: Event)
    requires Validated(s)
    ensures ChecksMove(s, w, e, Apply(s, w, e))
  {
    hide WorkerStep, WorkerEnabled, CheckDeposit, InsertDeposit, HandlePayment, HandleChargeback, ChargebackBlocked;
  }

  lemma InsertedTxn(db: Db, s: Settings, r: Request, now: Time, txId: Id)
    requires Validated(s) && Acceptable(r) && InsertDeposit(db, s, r, now, txId).Ok?
    ensures var db2 := InsertDeposit(db, s, r, now, txId).value;
      && db2.transactions.Keys == db.transactions.Keys + {txId}
      && db2.transactions[txId].userId == r.userId && db2.transactions[txId].recipientUid == r.recipientUid
      && db2.users == db.users && db2.bans == db.bans
  {
    hide Quoted, RowFor;
  }

  lemma DepositDb(s: Settings, w: World, e: Event)
    requires Validated(s) && e.Deposit?
    ensures Apply(s, w, e).db ==
              if Inserts(s, w, e) then InsertDeposit(w.db, s, e.request, e.now, e.txId).value else w.db
  {
    hide InsertDeposit, WorkerStep, WorkerEnabled;
  }

  lemma PassedKept(s: Settings, a: map<Id, User>, b: map<Id, User>, r: Request)
    requires Passed(s, a, r) && UsersStep(a, b)
    ensures Passed(s, b, r)
  {
  }

  lemma PassedNow(s: Settings, w: World, e: Event)
    requires Passes(s, w, e)
    ensures Passed(s, w.db.users, e.request)
  {
    hide Blacklisted;
  }

  lemma StepPassed(s: Settings, w: World, e: Event)
    requires Validated(s) && AllPassed(s, w)
    ensures AllPassed(s, Apply(s, w, e))
  {
    hide Apply, Enabled, Passes, Inserts, Passed, TxnsStep, RowsStep;
    var w2 := Apply(s, w, e);
    StepChecks(s, w, e);
    StepKeepsHistory(s, w, e);
    if Passes(s, w, e) { PassedNow(s, w, e); }
    forall c | c in w2.checked
      ensures c < w2.checks && Passed(s, w2.db.users, w2.checked[c])
    {
      PassedKept(s, w.db.users, w2.db.users, w2.checked[c]);
    }
  }

  lemma {:induction false} RunPassed(s: Settings, es: seq<Event>)
    requires Validated(s)
    ensures AllPassed(s, Exec(s, START, es))
  {
    if es != [] {
      RunPassed(s, es[..|es| - 1]);
      hide Apply, AllPassed;
      StepPassed(s, Exec(s, START, es[..|es| - 1]), es[|es| - 1]);
    }
  }

  /** Only the insert of a checked request adds a transaction. */
  lemma InsertAdds(s: Settings, w: World, e: Event)
    requires Validated(s)
    ensures Apply(s, w, e).db.transactions.Keys ==
              w.db.transactions.Keys + (if Inserts(s, w, e) then {e.txId} else {})
    ensures Inserts(s, w, e) ==>
      e.check in w.checked && w.checked[e.check] == e.request && e.txId !in w.db.transactions
  {
    hide InsertDeposit;
    if e.Deposit? {
      if Inserts(s, w, e) { InsertedTxn(w.db, s, e.request, e.now, e.txId); }
    } else {
      hide Apply;
      SameTxns(s, w, e);
    }
  }

  lemma StepOnce(s: Settings, w: World, e: Event)
    requires Validated(s) && CheckedOnce(w) && AllPassed(s, w)
    ensures CheckedOnce(Apply(s, w, e))
  {
    hide Apply, Enabled, CheckDeposit, InsertDeposit, Passed;
    StepChecks(s, w, e);
    InsertAdds(s, w, e);
  }

  lemma {:induction false} RunOnce(s: Settings, es: seq<Event>)
    requires Validated(s)
    ensures CheckedOnce(Exec(s, START, es))
  {
    if es != [] {
      RunOnce(s, es[..|es| - 1]);
      RunPassed(s, es[..|es| - 1]);
      hide Apply, AllPassed, CheckedOnce;
      StepOnce(s, Exec(s, START, es[..|es| - 1]), es[|es| - 1]);
    }
  }

  /** A request that nothing comes between is its two steps: together they do what the source's
      create_deposit does, and leave nothing under way. */
  lemma {:induction false} RequestIsTwoSteps(s: Settings, w: World, r: Request, now: Time, txId: Id)
    requires Validated(s) && Enabled(s, w, Check(r)) && txId !in w.db.transactions
    requires w.checks !in w.checked
    ensures var w2 := Exec(s, w, [Check(r), Deposit(w.checks, r, now, txId)]);
      && w2.db == (var out := CreateDeposit(w.db, s, r, now, txId); if out.Ok? then out.value else w.db)
      && w2.checked == w.checked
  {
    var (a, b) := (Check(r), Deposit(w.checks, r, now, txId));
    ExecAppend(s, w, [], a);
    ExecAppend(s, w, [a], b);
    assert [] + [a] == [a] && [a] + [b] == [a, b];
    TwoSteps(s, w, r, now, txId);
    hide Apply;
  }

  lemma CheckStep(s: Settings, w: World, r: Request)
    requires Validated(s) && Enabled(s, w, Check(r))
    ensures r.userId in w.db.users && Acceptable(r)
    ensures Apply(s, w, Check(r)) == if CheckDeposit(w.db, s, r).Some? then w
              else w.(checked := w.checked[w.checks := r], checks := w.checks + 1)
  {
    hide CheckDeposit;
  }

  lemma TwoSteps(s: Settings, w: World, r: Request, now: Time, txId: Id)
    requires Validated(s) && Enabled(s, w, Check(r)) && txId !in w.db.transactions && w.checks !in w.checked
    ensures var w2 := Apply(s, Apply(s, w, Check(r)), Deposit(w.checks, r, now, txId));
      && w2.db == (var out := CreateDeposit(w.db, s, r, now, txId); if out.Ok? then out.value else w.db)
      && w2.checked == w.checked
  {
    hide CheckDeposit, InsertDeposit, Acceptable, Step, Enabled;
    CheckStep(s, w, r);
    if CheckDeposit(w.db, s, r).Some? {
      NotUnderWay(s, w, r, now, txId);
    } else {
      var w1 := w.(checked := w.checked[w.checks := r], checks := w.checks + 1);
      CanInsert(s, w, r, now, txId);
      InsertStep(s, w1, w.checks, r, now, txId);
      assert w1.checked - {w.checks} == w.checked;
      hide Apply;
    }
  }

  lemma NotUnderWay(s: Settings, w: World, r: Request, now: Time, txId: Id)
    requires w.checks !in w.checked
    ensures !Enabled(s, w, Deposit(w.checks, r, now, txId))
  {
  }

  lemma CanInsert(s: Settings, w: World, r: Request, now: Time, txId: Id)
    requires Enabled(s, w, Check(r)) && txId !in w.db.transactions
    ensures Enabled(s, w.(checked := w.checked[w.checks := r], checks := w.checks + 1), Deposit(w.checks, r, now, txId))
  {
  }

  lemma InsertStep(s: Settings, w: World, check: nat, r: Request, now: Time, txId: Id)
    requires Validated(s) && Enabled(s, w, Deposit(check, r, now, txId))
    ensures var (w2, out) := (Apply(s, w, Deposit(check, r, now, txId)), InsertDeposit(w.db, s, r, now, txId));
      w2.checked == w.checked - {check} && w2.db == if out.Ok? then out.value else w.db
  {
    hide InsertDeposit;
  }
}
