/** Production runs: no accepted payout goes unrecorded unless its answer was lost, and a lost one
    is repaired by the next attempt. */
module Accounted {
  import opened BingX
  import opened Common
  import opened Config
  import opened Coupling
  import opened History
  import opened Ledger
  import opened Moves
  import opened Runs
  import opened Tables
  import opened Transfers
  import opened Truth
  import opened Webhooks

  /** The row of this key is completed. */
  ghost predicate Done(rows: map<Id, Transfer>, key: string) {
    exists i :: i in rows && rows[i].key == key && rows[i].status == TrCompleted
  }

  /** The worker waits for the answer to this accepted call, or has it. */
  predicate Carries(k: Worker, key: string, callId: nat) {
    k.job.key == key && (k.phase == Sent(callId) || (k.phase.Answered? && SaysAccepted(k.phase.reply)))
  }

  ghost predicate InFlight(workers: map<nat, Worker>, key: string, callId: nat) {
    exists k :: k in workers && Carries(workers[k], key, callId)
  }

  ghost predicate KeyAccounted(w: World, key: string)
    requires key in w.ledger
  {
    Done(w.db.transfers, key) || key in w.lost || InFlight(w.workers, key, w.ledger[key].callId)
  }

  ghost predicate Waits(workers: map<nat, Worker>, key: string, callId: nat) {
    exists k :: k in workers && workers[k].job.key == key && workers[k].phase == Sent(callId)
  }

  /** A call still on the wire has its worker waiting for it, or was given up. */
  ghost predicate CallOwned(w: World, c: nat)
    requires c in w.wire
  {
    w.wire[c].key in w.lost || Waits(w.workers, w.wire[c].key, c)
  }

  ghost predicate AllAccounted(w: World) {
    && (forall key :: key in w.ledger ==> KeyAccounted(w, key))
    && (forall c :: c in w.wire ==> CallOwned(w, c))
  }

  // ----------------------------------------------------------- completed stays completed

  lemma DoneStays(s: Settings, w: World, e: Event, key: string)
    requires Validated(s) && Linked(w.db) && Wired(w) && AllHold(w) && LockedOnly(e) && Done(w.db.transfers, key)
    ensures Done(Apply(s, w, e).db.transfers, key)
  {
    var i :| i in w.db.transfers && w.db.transfers[i].key == key && w.db.transfers[i].status == TrCompleted;
    CompletedStays(s, w, e, i);
    hide Apply, Linked, Wired, AllHold;
  }

  lemma CompletedStays(s: Settings, w: World, e: Event, i: Id)
    requires Validated(s) && Linked(w.db) && Wired(w) && AllHold(w) && LockedOnly(e)
    requires i in w.db.transfers && w.db.transfers[i].status == TrCompleted
    ensures var rows := Apply(s, w, e).db.transfers;
      i in rows && rows[i].key == w.db.transfers[i].key && rows[i].status == TrCompleted
  {
    hide Apply, Linked, Wired, AllHold, ChargesBack, Resets, RecordsRow, TxnsStep, UsersStep;
    NoVerdictOnCompleted(s, w, e, i);
    StepKeepsHistory(s, w, e);
    assert SameRow(w.db.transfers[i], Apply(s, w, e).db.transfers[i]);
    hide RowsStep;
    UnworkedStep(s, w, e, i);
  }

  lemma NoVerdictOnCompleted(s: Settings, w: World, e: Event, i: Id)
    requires AllHold(w) && i in w.db.transfers && w.db.transfers[i].status == TrCompleted
    ensures !RecordsRow(s, w, e, i)
  {
    hide AllHold, Enabled;
    if RecordsRow(s, w, e, i) {
      OnlyCommits(s, w, e);
      HoldsIts(w, e.worker);
    }
  }

  /** A commit with an accepting answer completes its row. */
  lemma CommitCompletesRow(s: Settings, w: World, e: Event)
    requires Validated(s) && Wired(w) && e.Commit? && Enabled(s, w, e) && SaysAccepted(w.workers[e.worker].phase.reply)
    ensures var job := w.workers[e.worker].job;
      var rows := Apply(s, w, e).db.transfers;
      && job.transferId in rows && rows[job.transferId].key == job.key && rows[job.transferId].status == TrCompleted
      && Done(rows, job.key)
  {
    var k := w.workers[e.worker];
    JobRow(w, e.worker);
    StepRow(s, w, e, k.job.transferId);
    StepKeepsHistory(s, w, e);
    CompleteIffAccepted(k.phase.reply, k.job.attempt);
    hide Apply, Wired, VerdictOf, SaysAccepted;
    NoOtherMove(s, w, e);
    assert SameRow(w.db.transfers[k.job.transferId], Apply(s, w, e).db.transfers[k.job.transferId]);
  }

  lemma NoOtherMove(s: Settings, w: World, e: Event)
    requires e.Commit?
    ensures forall t :: !ChargesBack(s, w, e, t)
    ensures forall i :: !ClaimsRow(s, w, e, i)
  {
  }

  // ------------------------------------------------------------------- one step

  lemma AnswerAccounts(s: Settings, w: World, e: Event, key: string)
    requires Validated(s) && Enabled(s, w, e) && e.Answer? && key in w.ledger && KeyAccounted(w, key)
    ensures key in Step(s, w, e).ledger && KeyAccounted(Step(s, w, e), key)
  {
    hide Done;
    if InFlight(w.workers, key, w.ledger[key].callId) {
      var k :| k in w.workers && Carries(w.workers[k], key, w.ledger[key].callId);
      if k != e.worker || SaysAccepted(e.reply) {
        assert Carries(Step(s, w, e).workers[k], key, w.ledger[key].callId);
      }
    }
  }

  lemma AcceptAccounts(s: Settings, w: World, e: Event, key: string)
    requires Validated(s) && Enabled(s, w, e) && e.Accept? && CallOwned(w, e.callId)
    requires key in w.ledger ==> KeyAccounted(w, key)
    ensures key in Step(s, w, e).ledger ==> KeyAccounted(Step(s, w, e), key)
  {
    hide Done;
    if key == w.wire[e.callId].key && Waits(w.workers, key, e.callId) {
      var k :| k in w.workers && w.workers[k].job.key == key && w.workers[k].phase == Sent(e.callId);
      assert Carries(Step(s, w, e).workers[k], key, e.callId);
    }
  }

  lemma CommitAccounts(s: Settings, w: World, e: Event, key: string)
    requires Validated(s) && Linked(w.db) && Wired(w) && AllHold(w)
    requires Enabled(s, w, e) && e.Commit? && key in w.ledger && KeyAccounted(w, key)
    ensures key in Step(s, w, e).ledger && KeyAccounted(Step(s, w, e), key)
  {
    hide Done, Record, VerdictOf, Linked, Wired, AllHold, ClaimRow, SaysAccepted;
    if Done(w.db.transfers, key) {
      DoneStays(s, w, e, key);
    } else if key !in w.lost {
      var k :| k in w.workers && Carries(w.workers[k], key, w.ledger[key].callId);
      if k == e.worker {
        CommitCompletesRow(s, w, e);
      } else {
        assert Carries(Step(s, w, e).workers[k], key, w.ledger[key].callId);
      }
    }
  }

  /** The other steps leave ledger, waiting workers and lost answers as they were, or lose one. */
  lemma ElseAccounts(s: Settings, w: World, e: Event, key: string)
    requires Validated(s) && Linked(w.db) && Wired(w) && AllHold(w) && LockedOnly(e)
    requires Enabled(s, w, e) && !e.Answer? && !e.Accept? && !e.Commit? && key in w.ledger && KeyAccounted(w, key)
    ensures key in Step(s, w, e).ledger && KeyAccounted(Step(s, w, e), key)
  {
    hide Done, Linked, Wired, AllHold, Enabled, Step, Carries;
    OtherBooks(s, w, e);
    if Done(w.db.transfers, key) {
      DoneStays(s, w, e, key);
    } else if key !in w.lost {
      var k :| k in w.workers && Carries(w.workers[k], key, w.ledger[key].callId);
      CarrierStays(s, w, e, k, key);
    }
  }

  lemma OtherBooks(s: Settings, w: World, e: Event)
    requires Validated(s) && Enabled(s, w, e) && !e.Answer? && !e.Accept? && !e.Commit?
    ensures Step(s, w, e).ledger == w.ledger && w.lost <= Step(s, w, e).lost
  {
    hide ServiceStep, ServiceEnabled, RecordTransfer, RecordTxn, IsNext, VerdictOf, SaysAccepted;
  }

  lemma CarrierStays(s: Settings, w: World, e: Event, k: nat, key: string)
    requires Validated(s) && AllHold(w) && Enabled(s, w, e) && !e.Answer? && !e.Accept? && !e.Commit?
    requires key in w.ledger && k in w.workers && Carries(w.workers[k], key, w.ledger[key].callId)
    ensures key in Step(s, w, e).lost || InFlight(Step(s, w, e).workers, key, w.ledger[key].callId)
  {
    OnlyCommits(s, w, e);
    hide AllHold;
    if (e.SendCall? || e.Drop?) && e.worker == k {
      hide IsNext, SaysAccepted;
    } else {
      hide Step, Enabled, Carries;
      OtherWorker(s, w, e, k);
    }
  }

  lemma StepAccounts(s: Settings, w: World, e: Event, key: string)
    requires Validated(s) && Linked(w.db) && Wired(w) && AllHold(w) && LockedOnly(e) && AllAccounted(w)
    requires Enabled(s, w, e) && key in Step(s, w, e).ledger
    ensures KeyAccounted(Step(s, w, e), key)
  {
    hide Linked, Wired, AllHold, KeyAccounted, CallOwned;
    if e.Accept? {
      hide Enabled;
      AcceptInWire(s, w, e);
      AcceptAccounts(s, w, e, key);
    } else {
      hide Enabled;
      OldKey(s, w, e, key);
      hide Step;
      if e.Answer? {
        AnswerAccounts(s, w, e, key);
      } else if e.Commit? {
        CommitAccounts(s, w, e, key);
      } else {
        ElseAccounts(s, w, e, key);
      }
    }
  }

  lemma AcceptInWire(s: Settings, w: World, e: Event)
    requires Enabled(s, w, e) && e.Accept?
    ensures e.callId in w.wire
  {
  }

  lemma OldKey(s: Settings, w: World, e: Event, key: string)
    requires Validated(s) && Enabled(s, w, e) && !e.Accept? && key in Step(s, w, e).ledger
    ensures key in w.ledger
  {
    hide ServiceStep, ServiceEnabled, Record, RecordTransfer, RecordTxn, VerdictOf, IsNext, SaysAccepted;
  }

  /** A step that is not worker k's own leaves k alone. */
  lemma OtherWorker(s: Settings, w: World, e: Event, k: nat)
    requires Validated(s) && Enabled(s, w, e) && k in w.workers
    requires (e.SendCall? || e.Answer? || e.RecordRow? || e.RecordRest? || e.Commit? || e.Drop?) ==> e.worker != k
    ensures k in Step(s, w, e).workers && Step(s, w, e).workers[k] == w.workers[k]
  {
    hide ServiceStep, ServiceEnabled, Record, RecordTransfer, RecordTxn, VerdictOf, IsNext, SaysAccepted;
  }

  /** Who waits for call c stops waiting only by an answer or an abort. */
  lemma WaiterStays(s: Settings, w: World, e: Event, k: nat, c: nat)
    requires Validated(s) && AllHold(w) && Enabled(s, w, e)
    requires k in w.workers && w.workers[k].phase == Sent(c)
    ensures var w2 := Step(s, w, e);
      || w.workers[k].job.key in w2.lost
      || (e.Answer? && c !in w2.wire)
      || (k in w2.workers && w2.workers[k] == w.workers[k])
  {
    OnlyCommits(s, w, e);
    hide AllHold;
    if (e.SendCall? || e.Answer? || e.Commit? || e.Drop?) && e.worker == k {
      hide IsNext, SaysAccepted, Record;
    } else {
      hide Step, Enabled;
      OtherWorker(s, w, e, k);
    }
  }

  lemma StepWireSet(s: Settings, w: World, e: Event, c: nat)
    requires Validated(s) && Enabled(s, w, e) && c in Step(s, w, e).wire
    ensures w.lost <= Step(s, w, e).lost
    ensures var w2 := Step(s, w, e);
      if e.SendCall? && c == w.calls then
        e.worker in w2.workers && w2.workers[e.worker].job.key == w2.wire[c].key
          && w2.workers[e.worker].phase == Sent(c)
      else c in w.wire && w2.wire[c] == w.wire[c]
  {
    hide ServiceStep, ServiceEnabled, Record, RecordTransfer, RecordTxn, VerdictOf, IsNext, SaysAccepted;
  }

  lemma StepOwned(s: Settings, w: World, e: Event, c: nat)
    requires Validated(s) && AllHold(w) && Enabled(s, w, e)
    requires c in w.wire ==> CallOwned(w, c)
    ensures c in Step(s, w, e).wire ==> CallOwned(Step(s, w, e), c)
  {
    hide AllHold, Enabled, Step;
    if c in Step(s, w, e).wire {
      StepWireSet(s, w, e, c);
      if !(e.SendCall? && c == w.calls) && w.wire[c].key !in w.lost {
        var k :| k in w.workers && w.workers[k].job.key == w.wire[c].key && w.workers[k].phase == Sent(c);
        WaiterStays(s, w, e, k, c);
      }
    }
  }

  lemma {:induction false} RunAccounted(s: Settings, es: seq<Event>)
    requires Validated(s) && Transactional(es)
    ensures AllAccounted(Exec(s, START, es))
  {
    if es != [] {
      var init, e := es[..|es| - 1], es[|es| - 1];
      assert forall n :: 0 <= n < |init| ==> init[n] == es[n];
      var w := Exec(s, START, init);
      RunAccounted(s, init);
      RunCoupled(s, init);
      RunBooks(s, init);
      assert LockedOnly(e);
      hide Linked, Wired, Truthful, AllPaired, AllHold, Alone, Step, Enabled, KeyAccounted, CallOwned;
      if Enabled(s, w, e) {
        forall key | key in Step(s, w, e).ledger
          ensures KeyAccounted(Step(s, w, e), key)
        {
          StepAccounts(s, w, e, key);
        }
        forall c | c in Step(s, w, e).wire
          ensures CallOwned(Step(s, w, e), c)
        {
          StepOwned(s, w, e, c);
        }
      }
    }
  }

  // ---------------------------------------------------------------- main results

  /** In production runs every payout the exchange accepted is recorded as completed, is carried by
      a worker that still waits for the answer to the accepted call or has an answer saying so, or
      had its answer lost to a connection error or an abort. */
  lemma AcceptedIsAccounted(s: Settings, es: seq<Event>, key: string)
    requires Validated(s) && Transactional(es) && key in Exec(s, START, es).ledger
    ensures var w := Exec(s, START, es);
      || (exists i :: i in w.db.transfers && w.db.transfers[i].key == key && w.db.transfers[i].status == TrCompleted)
      || (exists k :: k in w.workers && Carries(w.workers[k], key, w.ledger[key].callId))
      || key in w.lost
  {
    RunAccounted(s, es);
    var w := Exec(s, START, es);
    assert KeyAccounted(w, key);
    hide Exec, SaysAccepted;
  }

  /** One whole attempt on transfer i by a free worker. */
  function Attempt(k: nat, i: Id, claimedAt: Time, reply: Reply, recordedAt: Time): seq<Event> {
    [ClaimTask(k, i, claimedAt, true), SendCall(k), Answer(k, reply), Commit(k, recordedAt)]
  }

  lemma AttemptRun(s: Settings, w: World, es: seq<Event>, a: Event, b: Event, c: Event)
    requires Validated(s)
    ensures Exec(s, w, es + [a, b, c]) == Apply(s, Apply(s, Apply(s, Exec(s, w, es), a), b), c)
  {
    hide Apply, Exec;
    ExecAppend(s, w, es, a);
    ExecAppend(s, w, es + [a], b);
    ExecAppend(s, w, es + [a] + [b], c);
    assert es + [a, b, c] == es + [a] + [b] + [c];
  }

  /** The exchange can answer this to the next call under the key. */
  predicate CanAnswer(w: World, key: string, reply: Reply) {
    && (SaysAccepted(reply) ==> key in w.ledger)
    && (reply.Rejected? && !SaysAccepted(reply) && key in w.ledger ==> w.ledger[key].callId != w.calls)
  }

  /** Up to the answer, an attempt only moves its own worker. */
  lemma AttemptAnswered(s: Settings, w: World, k: nat, i: Id, now: Time, reply: Reply)
    requires Validated(s) && Enabled(s, w, ClaimTask(k, i, now, true))
    requires i in w.db.transfers && CanAnswer(w, w.db.transfers[i].key, reply)
    ensures var w3 := Apply(s, Apply(s, Apply(s, w, ClaimTask(k, i, now, true)), SendCall(k)), Answer(k, reply));
      && w3.db == w.db
      && w3.workers == w.workers[k := Worker(JobOf(i, WithClaim(w.db.transfers[i], now)), true, now, Answered(reply))]
  {
    hide ServiceStep, ServiceEnabled, IsNext, SaysAccepted, LockedRows;
  }

  /** The attempt of a run is the task of the worker's code: claim, call, answer and commit leave
      the tables as ProcessInTransaction leaves them, and the worker free again. */
  lemma {:induction false} AttemptIsOneTask(
      s: Settings, w: World, k: nat, i: Id, now: Time, reply: Reply, recordedAt: Time)
    requires Validated(s) && Enabled(s, w, ClaimTask(k, i, now, true))
    requires i in w.db.transfers && CanAnswer(w, w.db.transfers[i].key, reply)
    ensures var w2 := Exec(s, w, Attempt(k, i, now, reply, recordedAt));
      && OneTask(w.db, w2.db, LockedRows(w), s, _ => reply, now, recordedAt,
        Some(JobOf(i, WithClaim(w.db.transfers[i], now))))
      && w2.workers == w.workers
  {
    hide Exec, Enabled, SaysAccepted, Apply, LockedRows, CanAnswer, OneTask;
    var calls := [ClaimTask(k, i, now, true), SendCall(k), Answer(k, reply)];
    AttemptRun(s, w, [], ClaimTask(k, i, now, true), SendCall(k), Answer(k, reply));
    assert [] + calls == calls && calls + [Commit(k, recordedAt)] == Attempt(k, i, now, reply, recordedAt);
    EmptyRun(s, w);
    AttemptAnswered(s, w, k, i, now, reply);
    ExecAppend(s, w, calls, Commit(k, recordedAt));
    CommitIsRecord(s, w, Exec(s, w, calls), k, i, now, reply, recordedAt);
  }

  lemma CommitIsRecord(s: Settings, w: World, w3: World, k: nat, i: Id, now: Time, reply: Reply, recordedAt: Time)
    requires Validated(s) && Enabled(s, w, ClaimTask(k, i, now, true)) && i in w.db.transfers
    requires w3.db == w.db
    requires w3.workers == w.workers[k :=
      Worker(JobOf(i, WithClaim(w.db.transfers[i], now)), true, now, Answered(reply))]
    ensures var w4 := Apply(s, w3, Commit(k, recordedAt));
      && OneTask(w.db, w4.db, LockedRows(w), s, _ => reply, now, recordedAt,
        Some(JobOf(i, WithClaim(w.db.transfers[i], now))))
      && w4.workers == w.workers
  {
    hide IsNext, Record, VerdictOf, LockedRows;
  }

  /** The same at statement level: claim, transfer row and transaction row committed one by one. */
  function SplitAttempt(k: nat, i: Id, claimedAt: Time, reply: Reply, recordedAt: Time): seq<Event> {
    [ClaimTask(k, i, claimedAt, false), SendCall(k), Answer(k, reply), RecordRow(k, recordedAt), RecordRest(k)]
  }

  /** Up to the answer, only the claim is committed. */
  lemma SplitAnswered(s: Settings, w: World, k: nat, i: Id, now: Time, reply: Reply)
    requires Validated(s) && Enabled(s, w, ClaimTask(k, i, now, false))
    requires i in w.db.transfers && CanAnswer(w, w.db.transfers[i].key, reply)
    ensures var w3 := Apply(s, Apply(s, Apply(s, w, ClaimTask(k, i, now, false)), SendCall(k)), Answer(k, reply));
      && w3.db == ClaimRow(w.db, i, now)
      && w3.workers == w.workers[k := Worker(JobOf(i, WithClaim(w.db.transfers[i], now)), false, now, Answered(reply))]
  {
    hide ServiceStep, ServiceEnabled, IsNext, SaysAccepted, LockedRows;
  }

  lemma RowRecordedStep(s: Settings, w: World, k: nat, now: Time)
    requires Validated(s) && Enabled(s, w, RecordRow(k, now)) && k in w.workers && w.workers[k].phase.Answered?
    ensures var w2 := Apply(s, w, RecordRow(k, now));
      && w2.db == RecordTransfer(w.db, w.workers[k].job, VerdictFor(w.workers[k]), now)
      && w2.workers == w.workers[k := w.workers[k].(phase := RowRecorded(VerdictFor(w.workers[k])))]
  {
    hide ServiceStep, ServiceEnabled, RecordTransfer, VerdictFor, LockedRows;
  }

  lemma RestRecordedStep(s: Settings, w: World, k: nat)
    requires Validated(s) && k in w.workers && w.workers[k].phase.RowRecorded? && !w.workers[k].locked
    ensures var w2 := Apply(s, w, RecordRest(k));
      && w2.db == RecordTxn(w.db, w.workers[k].job, w.workers[k].phase.verdict) && w2.workers == w.workers - {k}
  {
    hide ServiceStep, ServiceEnabled, RecordTxn;
  }

  lemma CanRecordRow(s: Settings, w: World, w3: World, k: nat, i: Id, now: Time, recordedAt: Time)
    requires Enabled(s, w, ClaimTask(k, i, now, false)) && k in w3.workers && w3.workers[k].phase.Answered?
    requires !w3.workers[k].locked && w3.workers[k].job.transferId == i && w3.workers == w.workers[k := w3.workers[k]]
    ensures k !in w.workers && Enabled(s, w3, RecordRow(k, recordedAt))
  {
    ClaimedIsReady(s, w, ClaimTask(k, i, now, false));
    SameLocked(w, w3, k);
    hide IsNext, LockedRows;
  }

  lemma SplitRecorded(s: Settings, w: World, w3: World, k: nat, i: Id, now: Time, reply: Reply, recordedAt: Time)
    requires Validated(s) && Enabled(s, w, ClaimTask(k, i, now, false)) && i in w.db.transfers
    requires w3.db == ClaimRow(w.db, i, now)
    requires w3.workers == w.workers[k :=
      Worker(JobOf(i, WithClaim(w.db.transfers[i], now)), false, now, Answered(reply))]
    ensures var w5 := Apply(s, Apply(s, w3, RecordRow(k, recordedAt)), RecordRest(k));
      && OneTask(w.db, w5.db, LockedRows(w), s, _ => reply, now, recordedAt,
        Some(JobOf(i, WithClaim(w.db.transfers[i], now))))
      && w5.workers == w.workers
  {
    CanRecordRow(s, w, w3, k, i, now, recordedAt);
    ClaimedNext(s, w, k, i, now);
    hide Apply, Enabled, IsNext, RecordTransfer, RecordTxn, VerdictOf, LockedRows;
    RowRecordedStep(s, w3, k, recordedAt);
    var w4 := Apply(s, w3, RecordRow(k, recordedAt));
    RestRecordedStep(s, w4, k);
    assert w4.workers - {k} == w.workers;
  }

  lemma ClaimedNext(s: Settings, w: World, k: nat, i: Id, now: Time)
    requires Enabled(s, w, ClaimTask(k, i, now, false))
    ensures IsNext(w.db, LockedRows(w), s, now, i)
  {
    hide IsNext, LockedRows;
  }

  lemma SameLocked(w: World, w3: World, k: nat)
    requires k !in w.workers && k in w3.workers && !w3.workers[k].locked && w3.workers == w.workers[k := w3.workers[k]]
    ensures LockedRows(w3) == LockedRows(w)
  {
    forall i | i in LockedRows(w)
      ensures i in LockedRows(w3)
    {
      var m :| m in w.workers && w.workers[m].locked && w.workers[m].job.transferId == i;
      assert w3.workers[m] == w.workers[m];
    }
    forall i | i in LockedRows(w3)
      ensures i in LockedRows(w)
    {
      var m :| m in w3.workers && w3.workers[m].locked && w3.workers[m].job.transferId == i;
      assert m in w.workers && w3.workers[m] == w.workers[m];
    }
  }

  /** When nothing comes between its statements, an attempt at statement level is that task too: the
      two granularities differ only in what can come between. */
  lemma {:induction false} SplitAttemptIsOneTask(
      s: Settings, w: World, k: nat, i: Id, now: Time, reply: Reply, recordedAt: Time)
    requires Validated(s) && Enabled(s, w, ClaimTask(k, i, now, false))
    requires i in w.db.transfers && CanAnswer(w, w.db.transfers[i].key, reply)
    ensures var w2 := Exec(s, w, SplitAttempt(k, i, now, reply, recordedAt));
      && OneTask(w.db, w2.db, LockedRows(w), s, _ => reply, now, recordedAt,
        Some(JobOf(i, WithClaim(w.db.transfers[i], now))))
      && w2.workers == w.workers
  {
    hide Exec, Enabled, SaysAccepted, Apply, LockedRows, CanAnswer, OneTask;
    var calls := [ClaimTask(k, i, now, false), SendCall(k), Answer(k, reply)];
    AttemptRun(s, w, [], ClaimTask(k, i, now, false), SendCall(k), Answer(k, reply));
    EmptyRun(s, w);
    assert [] + calls == calls;
    SplitAnswered(s, w, k, i, now, reply);
    ExecAppend(s, w, calls, RecordRow(k, recordedAt));
    ExecAppend(s, w, calls + [RecordRow(k, recordedAt)], RecordRest(k));
    assert calls + [RecordRow(k, recordedAt)] + [RecordRest(k)] == SplitAttempt(k, i, now, reply, recordedAt);
    SplitRecorded(s, w, Exec(s, w, calls), k, i, now, reply, recordedAt);
  }

  /** A call given up on, unanswered or by an abort, can still be accepted later. */
  lemma GivenUpCanBeAccepted(s: Settings, w: World, k: nat)
    requires Validated(s) && k in w.workers && w.workers[k].phase.Sent?
    requires var c := w.workers[k].phase.callId;
      c in w.wire && w.wire[c].key !in w.ledger
    ensures var c := w.workers[k].phase.callId;
      && Enabled(s, Apply(s, w, Answer(k, NoAnswer)), Accept(c)) && Enabled(s, Apply(s, w, Drop(k)), Accept(c))
      && k !in Apply(s, w, Drop(k)).workers && Apply(s, w, Answer(k, NoAnswer)).workers[k].phase == Answered(NoAnswer)
  {
    hide ServiceStep, ServiceEnabled;
  }

  /** A lost acceptance is repaired: if the exchange has accepted the transfer and the next
      attempt on its row gets an answer saying so, the transfer and its transaction end
      completed. */
  lemma LostAcceptanceRepaired(s: Settings, es: seq<Event>, k: nat, i: Id, now: Time, reply: Reply, recordedAt: Time)
    requires Validated(s) && Transactional(es)
    requires var w := Exec(s, START, es);
      Enabled(s, w, ClaimTask(k, i, now, true)) && i in w.db.transfers && w.db.transfers[i].key in w.ledger
    requires SaysAccepted(reply)
    ensures var w2 := Exec(s, START, es + Attempt(k, i, now, reply, recordedAt));
      && i in w2.db.transfers && w2.db.transfers[i].status == TrCompleted
      && w2.db.transfers[i].txId in w2.db.transactions
      && w2.db.transactions[w2.db.transfers[i].txId].status == TxCompleted
  {
    hide Exec, Enabled, Step, SaysAccepted, Apply;
    var answered := es + [ClaimTask(k, i, now, true), SendCall(k), Answer(k, reply)];
    AttemptRun(s, START, es, ClaimTask(k, i, now, true), SendCall(k), Answer(k, reply));
    AttemptAnswered(s, Exec(s, START, es), k, i, now, reply);
    ExecAppend(s, START, answered, Commit(k, recordedAt));
    assert answered + [Commit(k, recordedAt)] == es + Attempt(k, i, now, reply, recordedAt);
    Transact(es, k, i, now, reply);
    CommitEnds(s, answered, k, recordedAt);
  }

  lemma Transact(es: seq<Event>, k: nat, i: Id, now: Time, reply: Reply)
    requires Transactional(es)
    ensures Transactional(es + [ClaimTask(k, i, now, true), SendCall(k), Answer(k, reply)])
  {
  }

  /** The commit of an accepting answer completes the transfer and its transaction. */
  lemma CommitEnds(s: Settings, es: seq<Event>, k: nat, now: Time)
    requires Validated(s) && Transactional(es)
    requires var w := Exec(s, START, es);
      k in w.workers && w.workers[k].phase.Answered? && SaysAccepted(w.workers[k].phase.reply)
    ensures var (job, db2) := (Exec(s, START, es).workers[k].job, Apply(s, Exec(s, START, es), Commit(k, now)).db);
      && job.transferId in db2.transfers && db2.transfers[job.transferId].status == TrCompleted
      && job.txId == db2.transfers[job.transferId].txId
      && job.txId in db2.transactions && db2.transactions[job.txId].status == TxCompleted
  {
    var w, e := Exec(s, START, es), Commit(k, now);
    RunBooks(s, es);
    RunCoupled(s, es);
    hide Exec, Linked, Wired, Truthful, AllPaired, AllHold, Alone, SaysAccepted, Apply, Enabled, HoldsRow, DbStep;
    HoldsIts(w, k);
    JobRow(w, k);
    CommitCan(s, w, k, now);
    CommitCompletesRow(s, w, e);
    CommitSettles(s, w, e);
    KeepsTxn(s, w, e, w.workers[k].job.transferId);
  }

  lemma CommitCan(s: Settings, w: World, k: nat, now: Time)
    requires k in w.workers && HoldsRow(w.db, w.workers[k]) && w.workers[k].phase.Answered?
    ensures Enabled(s, w, Commit(k, now))
  {
  }

  lemma KeepsTxn(s: Settings, w: World, e: Event, i: Id)
    requires Validated(s) && i in w.db.transfers
    ensures i in Apply(s, w, e).db.transfers && Apply(s, w, e).db.transfers[i].txId == w.db.transfers[i].txId
  {
    StepKeepsHistory(s, w, e);
    hide Apply, TxnsStep, UsersStep;
    assert SameRow(w.db.transfers[i], Apply(s, w, e).db.transfers[i]);
  }

  lemma CommitSettles(s: Settings, w: World, e: Event)
    requires Validated(s) && e.Commit? && Enabled(s, w, e) && SaysAccepted(w.workers[e.worker].phase.reply)
    requires HoldsRow(w.db, w.workers[e.worker])
    ensures var (t, db2) := (w.workers[e.worker].job.txId, Apply(s, w, e).db);
      t in db2.transactions && db2.transactions[t].status == TxCompleted
  {
    var k := w.workers[e.worker];
    StepStatus(s, w, e, k.job.txId);
    CompleteIffAccepted(k.phase.reply, k.job.attempt);
    NoOtherMove(s, w, e);
    hide Apply, VerdictOf, SaysAccepted;
  }

  // ------------------------------------------------------- cancelled yet paid out

  lemma RowByKey(w: World, i: Id, j: Id)
    requires Linked(w.db) && i in w.db.transfers && j in w.db.transfers
      && w.db.transfers[i].key == w.db.transfers[j].key
    ensures i == j
  {
    RowTxn(w.db, i);
    RowTxn(w.db, j);
    KeyInjective(w.db.transfers[i].txId, w.db.transfers[j].txId);
    OneRow(w.db, i, j);
    hide Linked;
  }

  lemma CarrierRow(w: World, k: nat, i: Id)
    requires Linked(w.db) && Wired(w) && AllHold(w)
    requires k in w.workers && i in w.db.transfers && w.workers[k].job.key == w.db.transfers[i].key
    ensures w.db.transfers[i].status == TrPending
  {
    hide Linked, Wired, AllHold;
    JobRow(w, k);
    RowByKey(w, i, w.workers[k].job.transferId);
    HoldsIts(w, k);
  }

  /** In production runs a cancelled transfer can have been paid out only if the answer to its
      call was lost. */
  lemma {:induction false} CancelledPaidOnlyIfLost(s: Settings, es: seq<Event>, i: Id)
    requires Validated(s) && Transactional(es)
    requires var w := Exec(s, START, es);
      i in w.db.transfers && w.db.transfers[i].status == TrCancelled && w.db.transfers[i].key in w.ledger
    ensures Exec(s, START, es).db.transfers[i].key in Exec(s, START, es).lost
  {
    var w := Exec(s, START, es);
    var key := w.db.transfers[i].key;
    RunAccounted(s, es);
    RunBooks(s, es);
    RunCoupled(s, es);
    assert KeyAccounted(w, key);
    hide Exec, Linked, Wired, Truthful, AllPaired, AllHold, Alone;
    if Done(w.db.transfers, key) {
      var j :| j in w.db.transfers && w.db.transfers[j].key == key && w.db.transfers[j].status == TrCompleted;
      RowByKey(w, i, j);
    } else if InFlight(w.workers, key, w.ledger[key].callId) {
      var k :| k in w.workers && Carries(w.workers[k], key, w.ledger[key].callId);
      CarrierRow(w, k, i);
    }
  }

  /** And then it does happen: from every production state with a call under way, its acceptance,
      the abort of its worker and a chargeback leave the transfer cancelled and paid out. */
  lemma CancelledCanBePaid(s: Settings, es: seq<Event>, k: nat, c: nat, reason: string, now: Time, ids: seq<Id>)
    requires Validated(s) && Transactional(es) && |ids| == 2
    requires var w := Exec(s, START, es);
      && k in w.workers && w.workers[k].phase == Sent(c) && Found(w.db, w.workers[k].job.txId)
      && c in w.wire && w.wire[c].key == w.workers[k].job.key && w.wire[c].key !in w.ledger
    ensures var job := Exec(s, START, es).workers[k].job;
      var w2 := Exec(s, START, es + [Accept(c), Drop(k), ChargebackHook(job.txId, reason, now, ids)]);
      && job.transferId in w2.db.transfers && w2.db.transfers[job.transferId].status == TrCancelled
      && w2.db.transfers[job.transferId].key in w2.ledger
  {
    var w := Exec(s, START, es);
    var e := ChargebackHook(w.workers[k].job.txId, reason, now, ids);
    RunBooks(s, es);
    RunCoupled(s, es);
    AttemptRun(s, START, es, Accept(c), Drop(k), e);
    hide Exec, Linked, Truthful, AllPaired, Wired, Alone, AllHold;
    JobRow(w, k);
    HoldsIts(w, k);
    AcceptThenDrop(s, w, k, c);
    var w1 := Apply(s, Apply(s, w, Accept(c)), Drop(k));
    hide Apply;
    NoneLeft(w, w1, k);
    ChargebackCancels(s, w1, e, w.workers[k].job.transferId);
  }

  lemma AcceptThenDrop(s: Settings, w: World, k: nat, c: nat)
    requires Validated(s) && k in w.workers && w.workers[k].phase == Sent(c)
    requires c in w.wire && w.wire[c].key == w.workers[k].job.key && w.wire[c].key !in w.ledger
    ensures var w1 := Apply(s, Apply(s, w, Accept(c)), Drop(k));
      w1.db == w.db && w1.workers == w.workers - {k} && w.workers[k].job.key in w1.ledger
  {
  }

  lemma NoneLeft(w: World, w1: World, k: nat)
    requires Linked(w.db) && Wired(w) && Alone(w.workers) && k in w.workers
    requires w1.db == w.db && w1.workers == w.workers - {k}
    ensures !ChargebackBlocked(w1, w.workers[k].job.txId)
  {
    var i := w.workers[k].job.transferId;
    hide Linked, Wired;
    JobRow(w, k);
    forall j | j in LockedRows(w1) && j in w1.db.transfers
      ensures w1.db.transfers[j].txId != w.workers[k].job.txId
    {
      var m :| m in w1.workers && w1.workers[m].locked && w1.workers[m].job.transferId == j;
      if w1.db.transfers[j].txId == w.workers[k].job.txId { OneRow(w.db, i, j); }
    }
  }

  lemma ChargebackCancels(s: Settings, w: World, e: Event, i: Id)
    requires Validated(s) && e.ChargebackHook? && |e.ids| == 2 && !ChargebackBlocked(w, e.txId)
    requires i in w.db.transfers && w.db.transfers[i].txId == e.txId && w.db.transfers[i].status == TrPending
    requires Found(w.db, e.txId) && w.db.transactions[e.txId].status == TxPaid
    ensures var w2 := Apply(s, w, e);
      && i in w2.db.transfers && w2.db.transfers[i].status == TrCancelled
        && w2.db.transfers[i].key == w.db.transfers[i].key
      && w2.ledger == w.ledger
  {
    StepRow(s, w, e, i);
    hide ChargebackBlocked, HandleChargeback;
  }
}
