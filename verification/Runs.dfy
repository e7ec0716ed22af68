/** Whole runs of the money path: any interleaving of requests, webhooks, workers, exchange
    actions, crashes and admin steps.

    A deposit request is two steps: its checks, which lock nothing, and its insert.

    A worker task is claimed at one of two granularities.  A locked claim is production's: claim,
    call and record are one database transaction, which holds the transfer row until it commits
    or aborts.  An unlocked claim is statement level: the claim commits at once, and the transfer
    row and the transaction row are recorded by two further separate commits. */
module Runs {
  import opened BingX
  import opened Common
  import opened Config
  import opened Deposits
  import opened Tables
  import opened Transfers
  import opened Webhooks

  /** A transfer call on its way to the exchange. */
  datatype Call = Call(key: string, recipientUid: string, amountUsdt: nat)

  /** A transfer the exchange accepted, and paid. */
  datatype Payout = Payout(recipientUid: string, amountUsdt: nat, callId: nat)

  datatype Phase = Claimed | Sent(callId: nat) | Answered(reply: Reply) | RowRecorded(verdict: Verdict)

  datatype Worker = Worker(job: Job, locked: bool, claimedAt: Time, phase: Phase)

  /** The amount an accepted paid webhook confirmed. */
  datatype Receipt = Receipt(txId: Id, amountRub: nat)

  /** A committed claim. */
  datatype Claim = Claim(transferId: Id, at: Time)

  /** `checked` holds the deposit requests that have passed their checks and not inserted yet,
      numbered in the order of their checks; `lost` the keys of calls whose answer never reached
      a committed record.  `receipts`, `claims` and `checkOf`, the check of each transaction, are
      histories. */
  datatype World = World(
    db: Db,
    workers: map<nat, Worker>,
    wire: map<nat, Call>,
    ledger: map<string, Payout>,
    lost: set<string>,
    receipts: seq<Receipt>,
    claims: seq<Claim>,
    calls: nat,
    checked: map<nat, Request>,
    checks: nat,
    checkOf: map<Id, nat>
  )

  const START: World := World(EMPTY_DB, map[], map[], map[], {}, [], [], 0, map[], 0, map[])

  datatype Event =
    | Register(userId: Id, email: string)
    | Check(request: Request)
    | Deposit(check: nat, request: Request, now: Time, txId: Id)
    | PaymentHook(payment: Payment, now: Time, transferId: Id)
    | ChargebackHook(txId: Id, reason: string, now: Time, ids: seq<Id>)
    | ClaimTask(worker: nat, transferId: Id, now: Time, locked: bool)
    | SendCall(worker: nat)
    | Accept(callId: nat)
    | Answer(worker: nat, reply: Reply)
    | RecordRow(worker: nat, now: Time)
    | RecordRest(worker: nat)
    | Commit(worker: nat, now: Time)
    | Drop(worker: nat)
    | ResetHold(transferId: Id)
    | AddBan(key: BanKey, ban: Ban)
    | RemoveBan(key: BanKey)
    | PutPromo(promoId: Id, promo: Promo)
    | DeletePromo(promoId: Id)

  function LockedRows(w: World): (r: set<Id>)
    ensures forall i :: i in r <==>
      exists k :: k in w.workers && w.workers[k].locked && w.workers[k].job.transferId == i
  {
    set k | k in w.workers && w.workers[k].locked :: w.workers[k].job.transferId
  }

  /** A chargeback that would cancel a locked row waits for the worker, or is aborted. */
  predicate ChargebackBlocked(w: World, txId: Id) {
    && Found(w.db, txId)
    && ChargebackEligible(w.db.transactions[txId].status)
    && exists i :: i in LockedRows(w) && i in w.db.transfers && w.db.transfers[i].txId == txId
         && w.db.transfers[i].status in {TrPending, TrProcessing}
  }

  predicate PhaseIs(w: World, worker: nat, locked: bool) {
    worker in w.workers && w.workers[worker].locked == locked
  }

  /** The steps of workers and of the exchange; the others are the web service's and the admin's. */
  predicate ByWorker(e: Event) {
    e.ClaimTask? || e.SendCall? || e.Accept? || e.Answer? || e.RecordRow? || e.RecordRest? || e.Commit? || e.Drop?
  }

  ghost predicate ServiceEnabled(w: World, e: Event)
    requires !ByWorker(e)
  {
    match e
    case Register(userId, email) =>
      && userId !in w.db.users && Lower(Strip(email)) != ""
      && forall u :: u in w.db.users ==> w.db.users[u].email != Lower(Strip(email))
    case Check(r) => Acceptable(r) && r.userId in w.db.users
    case Deposit(check, r, now, txId) =>
      && check in w.checked && w.checked[check] == r && Acceptable(r) && r.userId in w.db.users
      && txId !in w.db.transactions
    case PaymentHook(p, now, transferId) => transferId !in w.db.transfers
    case ChargebackHook(txId, reason, now, ids) => |ids| == 2 && !ChargebackBlocked(w, txId)
    case ResetHold(i) => i in w.db.transfers && w.db.transfers[i].status == TrOnHold
    case AddBan(key, ban) => key !in w.db.bans
    case RemoveBan(key) => key in w.db.bans
    case PutPromo(id, promo) =>
      forall j :: j in w.db.promos && j != id ==> w.db.promos[j].code != promo.code
    case DeletePromo(id) =>  // a referenced code is kept by ON DELETE RESTRICT
      id in w.db.promos && forall t :: t in w.db.transactions ==> w.db.transactions[t].promoId != Some(id)
  }

  /** The exchange answers success or duplicate only for a key it has accepted, and any other
      rejection means that this call was not accepted. */
  predicate WorkerEnabled(s: Settings, w: World, e: Event)
    requires ByWorker(e)
  {
    match e
    case ClaimTask(k, i, now, locked) => k !in w.workers && IsNext(w.db, LockedRows(w), s, now, i)
    case SendCall(k) => k in w.workers && w.workers[k].phase.Claimed?
    case Accept(c) => c in w.wire && w.wire[c].key !in w.ledger
    case Answer(k, reply) =>
      && k in w.workers && w.workers[k].phase.Sent?
      && var key := w.workers[k].job.key;
      && (SaysAccepted(reply) ==> key in w.ledger)
      && (reply.Rejected? && !SaysAccepted(reply) && key in w.ledger ==>
            w.ledger[key].callId != w.workers[k].phase.callId)
    case RecordRow(k, now) =>
      PhaseIs(w, k, false) && w.workers[k].phase.Answered? && w.workers[k].job.transferId !in LockedRows(w)
    case RecordRest(k) => PhaseIs(w, k, false) && w.workers[k].phase.RowRecorded?
    case Commit(k, now) => PhaseIs(w, k, true) && w.workers[k].phase.Answered?
    case Drop(k) => k in w.workers
  }

  /** When the step can happen. */
  ghost predicate Enabled(s: Settings, w: World, e: Event) {
    if ByWorker(e) then WorkerEnabled(s, w, e) else ServiceEnabled(w, e)
  }

  function CallOf(job: Job): Call {
    Call(job.key, job.recipientUid, job.amountUsdt)
  }

  /** The worker's verdict on its answer. */
  function VerdictFor(k: Worker): Verdict
    requires k.phase.Answered?
  {
    VerdictOf(k.phase.reply, k.job.attempt)
  }

  function WithPhase(w: World, k: nat, phase: Phase): map<nat, Worker>
    requires k in w.workers
  {
    w.workers[k := w.workers[k].(phase := phase)]
  }

  /** An admin creates a promo code with no uses, or edits anything but the use counter. */
  function PutPromoRow(promos: map<Id, Promo>, id: Id, promo: Promo): map<Id, Promo> {
    promos[id := promo.(used := if id in promos then promos[id].used else 0)]
  }

  /** A step of the web service or the admin: it leaves workers, calls and payouts alone. */
  ghost function ServiceStep(s: Settings, w: World, e: Event): (w2: World)
    requires Validated(s) && !ByWorker(e) && ServiceEnabled(w, e)
    ensures w2.workers == w.workers && w2.wire == w.wire && w2.ledger == w.ledger && w2.lost == w.lost
    ensures w2.claims == w.claims && w2.calls == w.calls
  {
    match e
    case Register(userId, email) => w.(db := w.db.(users := w.db.users[userId := User(Lower(Strip(email)))]))
    case Check(r) =>
      if CheckDeposit(w.db, s, r).Some? then w
      else w.(checked := w.checked[w.checks := r], checks := w.checks + 1)
    case Deposit(check, r, now, txId) =>
      var out := InsertDeposit(w.db, s, r, now, txId);
      var ended := w.(checked := w.checked - {check});
      if out.Ok? then ended.(db := out.value, checkOf := w.checkOf[txId := check]) else ended
    case PaymentHook(p, now, transferId) =>
      var out := HandlePayment(w.db, p, s.holdMinutes, now, transferId);
      if out.Err? then w
      else if Accepts(w.db, p) then w.(db := out.value, receipts := w.receipts + [Receipt(p.txId, p.amountRub.value)])
      else w.(db := out.value)
    case ChargebackHook(txId, reason, now, ids) => w.(db := HandleChargeback(w.db, txId, reason, now, ids))
    case ResetHold(i) =>
      w.(db := w.db.(transfers := w.db.transfers[i := w.db.transfers[i].(status := TrPending)]))
    case AddBan(key, ban) => w.(db := w.db.(bans := w.db.bans[key := ban]))
    case RemoveBan(key) => w.(db := w.db.(bans := w.db.bans - {key}))
    case PutPromo(id, promo) => w.(db := w.db.(promos := PutPromoRow(w.db.promos, id, promo)))
    case DeletePromo(id) => w.(db := w.db.(promos := w.db.promos - {id}))
  }

  /** A step of a worker or the exchange: it leaves receipts and deposit requests alone. */
  function WorkerStep(s: Settings, w: World, e: Event): (w2: World)
    requires ByWorker(e) && WorkerEnabled(s, w, e)
    ensures w2.receipts == w.receipts && w2.checked == w.checked && w2.checks == w.checks && w2.checkOf == w.checkOf
  {
    match e
    case ClaimTask(k, i, now, locked) =>
      var claimed := ClaimRow(w.db, i, now);
      var worker := Worker(JobOf(i, claimed.transfers[i]), locked, now, Claimed);
      if locked then w.(workers := w.workers[k := worker])
      else w.(db := claimed, workers := w.workers[k := worker], claims := w.claims + [Claim(i, now)])
    case SendCall(k) =>
      w.(workers := WithPhase(w, k, Sent(w.calls)), wire := w.wire[w.calls := CallOf(w.workers[k].job)],
         calls := w.calls + 1)
    case Accept(c) =>
      var call := w.wire[c];
      w.(ledger := w.ledger[call.key := Payout(call.recipientUid, call.amountUsdt, c)], wire := w.wire - {c})
    case Answer(k, reply) =>
      var answered := w.(workers := WithPhase(w, k, Answered(reply)));
      if reply.NoAnswer? then answered.(lost := w.lost + {w.workers[k].job.key})
      else answered.(wire := w.wire - {w.workers[k].phase.callId})
    case RecordRow(k, now) =>
      var v := VerdictFor(w.workers[k]);
      w.(db := RecordTransfer(w.db, w.workers[k].job, v, now), workers := WithPhase(w, k, RowRecorded(v)))
    case RecordRest(k) =>
      w.(db := RecordTxn(w.db, w.workers[k].job, w.workers[k].phase.verdict), workers := w.workers - {k})
    case Commit(k, now) =>
      var worker := w.workers[k];
      var claimed := ClaimRow(w.db, worker.job.transferId, worker.claimedAt);
      w.(db := Record(claimed, worker.job, VerdictFor(worker), now), workers := w.workers - {k},
         claims := w.claims + [Claim(worker.job.transferId, worker.claimedAt)])
    case Drop(k) =>
      w.(workers := w.workers - {k},
         lost := if w.workers[k].phase.Claimed? then w.lost else w.lost + {w.workers[k].job.key})
  }

  ghost function Step(s: Settings, w: World, e: Event): World
    requires Validated(s) && Enabled(s, w, e)
  {
    if ByWorker(e) then WorkerStep(s, w, e) else ServiceStep(s, w, e)
  }

  /** The payment webhook moves its transaction to paid. */
  predicate Accepts(db: Db, p: Payment) {
    p.txId in db.transactions && db.transactions[p.txId].status == TxPending && FullyValid(p, db.transactions[p.txId])
  }

  /** A step that cannot happen changes nothing, so every sequence of events is a run. */
  ghost function Apply(s: Settings, w: World, e: Event): World
    requires Validated(s)
  {
    if Enabled(s, w, e) then Step(s, w, e) else w
  }

  ghost function Exec(s: Settings, w: World, es: seq<Event>): World
    requires Validated(s)
  {
    if es == [] then w else Apply(s, Exec(s, w, es[..|es| - 1]), es[|es| - 1])
  }

  lemma {:induction false} ExecSplit(s: Settings, w: World, a: seq<Event>, b: seq<Event>)
    requires Validated(s)
    ensures Exec(s, w, a + b) == Exec(s, Exec(s, w, a), b)
  {
    if b == [] {
      assert a + b == a;
    } else {
      ExecSplit(s, w, a, b[..|b| - 1]);
      assert (a + b)[..|a + b| - 1] == a + b[..|b| - 1];
    }
  }

  lemma EmptyRun(s: Settings, w: World)
    requires Validated(s)
    ensures Exec(s, w, []) == w
  {
  }

  lemma ExecAppend(s: Settings, w: World, es: seq<Event>, e: Event)
    requires Validated(s)
    ensures Exec(s, w, es + [e]) == Apply(s, Exec(s, w, es), e)
  {
    assert (es + [e])[..|es + [e]| - 1] == es;
    hide Apply;
  }

  /** Production: every claim holds its row until the worker's transaction ends. */
  predicate Transactional(es: seq<Event>) {
    forall i :: 0 <= i < |es| && es[i].ClaimTask? ==> es[i].locked
  }
}
