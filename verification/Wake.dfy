/** The continuous worker: a listener sets a flag on every notification, and one loop clears the
    flag, drains the queue and waits for the flag or a timeout. */
module Wake {
  import opened Common
  import opened Config
  import opened Deposits
  import opened History
  import opened Ledger
  import opened Moves
  import opened Runs
  import opened Tables
  import opened Transfers
  import opened Webhooks

  /** Where the loop is; Waiting knows the time of the drain's final claim, the one that found
      nothing, if the drain ended normally. */
  datatype Pc = Top | Draining | Waiting(finalClaim: Option<Time>)

  /** The loop around the money path.  The first `delivered` notifications have reached the worker
      or were missed by a dead listener.  As histories, `noticeOf` gives each transfer row the
      number of its own notification, and `resets` the rows an admin set back to pending since the
      final claim. */
  datatype Loop = Loop(
    world: World,
    alive: bool,
    delivered: nat,
    flag: bool,
    pc: Pc,
    resets: set<Id>,
    noticeOf: map<Id, nat>
  )

  const STOPPED: Loop := Loop(START, false, 0, false, Top, {}, map[])

  datatype Act =
    | Env(e: Event)
    | Work(e: Event)
    | Die
    | Connect
    | StartDrain
    | FinishDrain(now: Time)
    | FailDrain
    | Deliver
    | WakeUp
    | Timeout

  /** The steps of everybody but this worker. */
  predicate Outside(e: Event) {
    !e.ClaimTask? && !e.SendCall? && !e.Answer? && !e.RecordRow? && !e.RecordRest? && !e.Commit? && !e.Drop?
  }

  /** The steps of this worker, each task in its own database transaction. */
  predicate Own(e: Event) {
    || (e.ClaimTask? && e.worker == 0 && e.locked)
    || ((e.SendCall? || e.Answer? || e.Commit? || e.Drop?) && e.worker == 0)
  }

  ghost predicate Can(s: Settings, l: Loop, a: Act) {
    match a
    case Env(e) => Outside(e) && Enabled(s, l.world, e)
    case Work(e) => Own(e) && l.pc.Draining? && Enabled(s, l.world, e)
    case Die => l.alive
    case Connect => l.pc.Top? && !l.alive
    case StartDrain => l.pc.Top? && l.alive
    case FinishDrain(now) =>
      l.pc.Draining? && l.world.workers == map[]
        && forall i :: i in l.world.db.transfers ==> !Claimable(l.world.db, s, now, i)
    case FailDrain => l.pc.Draining? && l.world.workers == map[]
    case Deliver => l.alive && l.delivered < l.world.db.notices
    case WakeUp => l.pc.Waiting? && l.flag
    case Timeout => l.pc.Waiting?
  }

  function Numbered(noticeOf: map<Id, nat>, db: Db): map<Id, nat> {
    map i | i in db.transfers :: if i in noticeOf then noticeOf[i] else db.notices
  }

  ghost function Next(s: Settings, l: Loop, a: Act): Loop
    requires Validated(s) && Can(s, l, a)
  {
    match a
    case Env(e) =>
      var w := Step(s, l.world, e);
      l.(world := w, noticeOf := Numbered(l.noticeOf, w.db),
         resets := if e.ResetHold? then l.resets + {e.transferId} else l.resets)
    case Work(e) =>
      var w := Step(s, l.world, e);
      l.(world := w, noticeOf := Numbered(l.noticeOf, w.db))
    case Die => l.(alive := false)
    case Connect => l.(alive := true, delivered := l.world.db.notices)
    case StartDrain => l.(flag := false, pc := Draining)
    case FinishDrain(now) => l.(pc := Waiting(Some(now)), resets := {})
    case FailDrain => l.(pc := Waiting(None))
    case Deliver => l.(delivered := l.delivered + 1, flag := true)
    case WakeUp => l.(pc := Top)
    case Timeout => l.(pc := Top)
  }

  /** An act that cannot happen changes nothing. */
  ghost function RunFrom(s: Settings, l: Loop, acts: seq<Act>): Loop
    requires Validated(s)
  {
    if acts == [] then l else
    var before, a := RunFrom(s, l, acts[..|acts| - 1]), acts[|acts| - 1];
    if Can(s, before, a) then Next(s, before, a) else before
  }

  ghost function RunLoop(s: Settings, acts: seq<Act>): Loop
    requires Validated(s)
  {
    RunFrom(s, STOPPED, acts)
  }

  // ------------------------------------------------------------------ invariant

  ghost predicate Numbers(l: Loop) {
    && l.delivered <= l.world.db.notices
    && l.noticeOf.Keys == l.world.db.transfers.Keys
    && forall i :: i in l.noticeOf ==> l.noticeOf[i] <= l.world.db.notices
  }

  /** What the final claim left claimable was reset since, or is still to be notified. */
  ghost predicate Left(s: Settings, l: Loop) {
    l.pc.Waiting? && l.pc.finalClaim.Some? && l.alive && !l.flag ==>
      forall i :: i in l.world.db.transfers && i in l.noticeOf && Claimable(l.world.db, s, l.pc.finalClaim.value, i) ==>
        i in l.resets || l.delivered < l.noticeOf[i]
  }

  ghost predicate LoopOk(s: Settings, l: Loop) {
    Linked(l.world.db) && Numbers(l) && Left(s, l)
  }

  /** Nothing outside makes an old row claimable at a time it was not, but an admin's reset. */
  lemma NotMoreClaimable(s: Settings, w: World, e: Event, at: Time, i: Id)
    requires Validated(s) && Linked(w.db) && Outside(e) && i in w.db.transfers && !Resets(s, w, e, i)
    requires Claimable(Apply(s, w, e).db, s, at, i)
    ensures Claimable(w.db, s, at, i)
  {
    hide Apply, Linked, Enabled, Ready, ChargesBack, Decides, Resets;
    RowTxn(w.db, i);
    StepRow(s, w, e, i);
    StepStatus(s, w, e, w.db.transfers[i].txId);
    CancelledNotReady(w.db.transfers[i], s, at);
  }

  lemma CancelledNotReady(tr: Transfer, s: Settings, at: Time)
    ensures forall now :: Ready(WithCancel(tr, now), s, at) ==> Ready(tr, s, at) && WithCancel(tr, now) == tr
  {
  }

  lemma PaymentNotices(db: Db, p: Payment, hold: int, now: Time, transferId: Id)
    ensures var out := HandlePayment(db, p, hold, now, transferId);
      out.Ok? ==>
        db.notices <= out.value.notices && (out.value.transfers != db.transfers ==> db.notices < out.value.notices)
  {
    if p.txId in db.transactions { ReleaseKeeps(CloseFailed(db, p), p.txId); }
    hide ReleasePromo, HasTransfer;
  }

  lemma DepositNotices(db: Db, s: Settings, r: Request, now: Time, txId: Id)
    requires Validated(s) && Acceptable(r)
    ensures var out := InsertDeposit(db, s, r, now, txId);
      out.Ok? ==> out.value.notices == db.notices && out.value.transfers == db.transfers
  {
    hide Quoted, RowFor, Blacklisted;
  }

  lemma ChargebackNotices(db: Db, txId: Id, reason: string, now: Time, ids: seq<Id>)
    requires |ids| == 2
    ensures HandleChargeback(db, txId, reason, now, ids).notices == db.notices
  {
    hide BanAll, ReleasePromo, CancelTransfers;
  }

  lemma ServiceNotices(s: Settings, w: World, e: Event)
    requires Validated(s) && !ByWorker(e) && ServiceEnabled(w, e)
    ensures w.db.notices <= ServiceStep(s, w, e).db.notices
    ensures e.PaymentHook? && ServiceStep(s, w, e).db.transfers != w.db.transfers ==>
      w.db.notices < ServiceStep(s, w, e).db.notices
  {
    hide CheckDeposit, InsertDeposit, HandlePayment, HandleChargeback, ChargebackBlocked, Accepts;
    if e.PaymentHook? {
      PaymentNotices(w.db, e.payment, s.holdMinutes, e.now, e.transferId);
    } else if e.ChargebackHook? {
      ChargebackNotices(w.db, e.txId, e.reason, e.now, e.ids);
    } else if e.Deposit? {
      DepositNotices(w.db, s, e.request, e.now, e.txId);
    }
  }

  /** Notifications only accumulate, and a new row comes with one. */
  lemma StepNotices(s: Settings, w: World, e: Event)
    requires Validated(s)
    ensures w.db.notices <= Apply(s, w, e).db.notices
    ensures forall i :: i in Apply(s, w, e).db.transfers && i !in w.db.transfers ==>
      w.db.notices < Apply(s, w, e).db.notices
  {
    hide WorkerStep, ServiceStep, WorkerEnabled, ServiceEnabled, Accepts;
    forall i | i in Apply(s, w, e).db.transfers && i !in w.db.transfers
      ensures e.PaymentHook? && Enabled(s, w, e)
    {
      StepNewRow(s, w, e, i);
    }
    if Enabled(s, w, e) {
      if ByWorker(e) { WorkerTouches(s, w, e); } else { ServiceNotices(s, w, e); }
    }
  }

  // ------------------------------------------------------------------- each step

  lemma NumbersKept(s: Settings, l: Loop, e: Event, l2: Loop)
    requires Validated(s) && Numbers(l) && Enabled(s, l.world, e)
    requires l2.world == Step(s, l.world, e) && l2.noticeOf == Numbered(l.noticeOf, l2.world.db)
      && l2.delivered == l.delivered
    ensures Numbers(l2)
  {
    StepNotices(s, l.world, e);
    hide Step, Enabled;
  }

  lemma LeftByEnv(s: Settings, l: Loop, e: Event)
    requires Validated(s) && LoopOk(s, l) && Can(s, l, Env(e))
    ensures Left(s, Next(s, l, Env(e)))
  {
    var l2 := Next(s, l, Env(e));
    StepNotices(s, l.world, e);
    hide Step, Enabled, Linked;
    if l.pc.Waiting? && l.pc.finalClaim.Some? && l.alive && !l.flag {
      var at := l.pc.finalClaim.value;
      forall i | i in l2.world.db.transfers && Claimable(l2.world.db, s, at, i)
        ensures i in l2.resets || l2.delivered < l2.noticeOf[i]
      {
        if i in l.world.db.transfers && !Resets(s, l.world, e, i) { NotMoreClaimable(s, l.world, e, at, i); }
      }
    }
  }

  lemma LoopByEnv(s: Settings, l: Loop, e: Event)
    requires Validated(s) && LoopOk(s, l) && Can(s, l, Env(e))
    ensures LoopOk(s, Next(s, l, Env(e)))
  {
    StepLinked(s, l.world, e);
    LeftByEnv(s, l, e);
    NumbersKept(s, l, e, Next(s, l, Env(e)));
    hide Step, Enabled, Linked, Left, Numbers, Numbered;
  }

  lemma LoopByWork(s: Settings, l: Loop, e: Event)
    requires Validated(s) && LoopOk(s, l) && Can(s, l, Work(e))
    ensures LoopOk(s, Next(s, l, Work(e)))
  {
    StepLinked(s, l.world, e);
    NumbersKept(s, l, e, Next(s, l, Work(e)));
    hide Step, Enabled, Linked, Numbers, Numbered, Claimable;
  }

  lemma LoopByLoop(s: Settings, l: Loop, a: Act)
    requires Validated(s) && LoopOk(s, l) && Can(s, l, a) && !a.Env? && !a.Work?
    ensures LoopOk(s, Next(s, l, a))
  {
    hide Step, Enabled, Linked, Claimable, Numbered;
  }

  lemma StepLoopOk(s: Settings, l: Loop, a: Act)
    requires Validated(s) && LoopOk(s, l) && Can(s, l, a)
    ensures LoopOk(s, Next(s, l, a))
  {
    hide LoopOk, Can, Next;
    if a.Env? {
      LoopByEnv(s, l, a.e);
    } else if a.Work? {
      LoopByWork(s, l, a.e);
    } else {
      LoopByLoop(s, l, a);
    }
  }

  lemma {:induction false} RunLoopOk(s: Settings, acts: seq<Act>)
    requires Validated(s)
    ensures LoopOk(s, RunLoop(s, acts))
  {
    if acts != [] {
      RunLoopOk(s, acts[..|acts| - 1]);
      hide LoopOk, Can, Next;
      if Can(s, RunLoop(s, acts[..|acts| - 1]), acts[|acts| - 1]) {
        StepLoopOk(s, RunLoop(s, acts[..|acts| - 1]), acts[|acts| - 1]);
      }
    } else {
      assert Linked(STOPPED.world.db);
    }
  }

  // ---------------------------------------------------------------- main results

  /** No lost wake-up: whenever the listener is alive, the last drain ended normally and the loop
      waits with its flag unset, no committed transfer whose notification has been delivered was
      claimable at the drain's final claim, unless an admin reset it since, which notifies nobody. */
  lemma NoLostWakeUp(s: Settings, acts: seq<Act>, i: Id)
    requires Validated(s)
    requires var l := RunLoop(s, acts);
      l.pc.Waiting? && l.pc.finalClaim.Some? && l.alive && !l.flag && i in l.world.db.transfers && i !in l.resets
    ensures var l := RunLoop(s, acts);
      i in l.noticeOf && (l.noticeOf[i] <= l.delivered ==> !Claimable(l.world.db, s, l.pc.finalClaim.value, i))
  {
    RunLoopOk(s, acts);
    hide RunFrom, Linked, Claimable;
  }

  /** A delivered notification sets the flag, and only the start of a drain clears it: while the
      loop is anywhere else the flag stays set. */
  lemma FlagLeadsToDrain(s: Settings, l: Loop, a: Act)
    requires Validated(s) && Can(s, l, a)
    ensures a.Deliver? ==> Next(s, l, a).flag
    ensures l.flag && !a.StartDrain? ==> Next(s, l, a).flag
  {
    hide Enabled, Step, Claimable;
  }

  /** Where the loop goes on to a drain. */
  function Onward(l: Loop): seq<Act> {
    if l.alive then [StartDrain] else [Connect, StartDrain]
  }

  /** While the loop waits, the timeout can always end it, and the flag can too once it is set; after
      either the loop can start the next drain, the listener connected and the flag cleared, and
      neither step touches the tables. */
  lemma {:induction false} WaitLeadsToDrain(s: Settings, l: Loop)
    requires Validated(s) && l.pc.Waiting?
    ensures Can(s, l, Timeout) && (Can(s, l, WakeUp) <==> l.flag)
    ensures forall a :: a == Timeout || (a == WakeUp && l.flag) ==>
      var l2 := RunFrom(s, l, [a] + Onward(l));
      l2.pc.Draining? && l2.alive && !l2.flag && l2.world == l.world
  {
    forall a | a == Timeout || (a == WakeUp && l.flag)
      ensures var l2 := RunFrom(s, l, [a] + Onward(l));
        l2.pc.Draining? && l2.alive && !l2.flag && l2.world == l.world
    {
      WaitEnds(s, l, a);
      hide Can, Next, RunFrom, Onward;
      ActsAppend(s, l, [], a);
      NoActs(s, l);
      assert [] + [a] == [a];
      DrainStarts(s, l, l.(pc := Top), a);
    }
  }

  lemma NoActs(s: Settings, l: Loop)
    requires Validated(s)
    ensures RunFrom(s, l, []) == l
  {
  }

  lemma WaitEnds(s: Settings, l: Loop, a: Act)
    requires Validated(s) && l.pc.Waiting? && (a == Timeout || (a == WakeUp && l.flag))
    ensures Can(s, l, a) && Next(s, l, a) == l.(pc := Top)
  {
  }

  lemma DrainStarts(s: Settings, l: Loop, top: Loop, a: Act)
    requires Validated(s) && top.pc.Top? && top.alive == l.alive && RunFrom(s, l, [a]) == top
    ensures var l2 := RunFrom(s, l, [a] + Onward(l));
      l2.pc.Draining? && l2.alive && !l2.flag && l2.world == top.world
  {
    hide RunFrom;
    if l.alive {
      ActsAppend(s, l, [a], StartDrain);
    } else {
      ActsAppend(s, l, [a], Connect);
      ActsAppend(s, l, [a, Connect], StartDrain);
      assert [a] + [Connect] == [a, Connect] && [a, Connect] + [StartDrain] == [a] + Onward(l);
    }
  }

  lemma ActsAppend(s: Settings, l: Loop, acts: seq<Act>, a: Act)
    requires Validated(s)
    ensures var l2 := RunFrom(s, l, acts);
      RunFrom(s, l, acts + [a]) == if Can(s, l2, a) then Next(s, l2, a) else l2
  {
    assert (acts + [a])[..|acts|] == acts;
    hide Can, Next;
  }
}
