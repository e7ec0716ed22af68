/** When transfers are claimed: never before the hold ends, and never too soon again. */
module Timing {
  import opened BingX
  import opened Common
  import opened Config
  import opened Ledger
  import opened Moves
  import opened Runs
  import opened Tables
  import opened Transfers
  import opened Truth

  // ------------------------------------------------------------------------ hold

  ghost predicate RowHeld(s: Settings, tr: Transfer) {
    && tr.scheduledAt == tr.createdAt + s.holdMinutes * MINUTE
    && (tr.status == TrProcessing ==> tr.scheduledAt <= tr.updatedAt)
  }

  ghost predicate HoldsKept(s: Settings, rows: map<Id, Transfer>) {
    forall i :: i in rows ==> RowHeld(s, rows[i])
  }

  /** A claimable row is past its hold, on the stale branch too. */
  lemma ReadyAfterHold(s: Settings, tr: Transfer, now: Time)
    requires RowHeld(s, tr) && Ready(tr, s, now)
    ensures tr.scheduledAt <= now
  {
  }

  lemma StepHeld(s: Settings, w: World, e: Event, i: Id)
    requires Validated(s) && HoldsKept(s, w.db.transfers) && i in Apply(s, w, e).db.transfers
    ensures RowHeld(s, Apply(s, w, e).db.transfers[i])
  {
    hide Enabled, Step, VerdictOf;
    if i in w.db.transfers {
      StepRow(s, w, e, i);
      if ClaimsRow(s, w, e, i) {
        ClaimedIsReady(s, w, e);
        ReadyAfterHold(s, w.db.transfers[i], e.now);
      }
      hide Ready, Apply, ChargesBack, Resets;
    } else {
      StepNewRow(s, w, e, i);
    }
  }

  lemma {:induction false} RunHeld(s: Settings, es: seq<Event>)
    requires Validated(s)
    ensures HoldsKept(s, Exec(s, START, es).db.transfers)
  {
    if es != [] {
      var w, e := Exec(s, START, es[..|es| - 1]), es[|es| - 1];
      RunHeld(s, es[..|es| - 1]);
      hide Apply, RowHeld;
      forall i | i in Apply(s, w, e).db.transfers
        ensures RowHeld(s, Apply(s, w, e).db.transfers[i])
      {
        StepHeld(s, w, e, i);
      }
    }
  }

  // ------------------------------------------------------------------- attempts

  function Count(claims: seq<Claim>, i: Id): nat {
    if claims == [] then 0
    else Count(claims[..|claims| - 1], i) + if claims[|claims| - 1].transferId == i then 1 else 0
  }

  lemma CountAppend(claims: seq<Claim>, c: Claim, i: Id)
    ensures Count(claims + [c], i) == Count(claims, i) + if c.transferId == i then 1 else 0
  {
    assert (claims + [c])[..|claims + [c]| - 1] == claims;
  }

  lemma {:induction false} CountZero(claims: seq<Claim>, i: Id)
    ensures Count(claims, i) == 0 <==> forall n :: 0 <= n < |claims| ==> claims[n].transferId != i
  {
    if claims != [] { CountZero(claims[..|claims| - 1], i); }
  }

  /** attempt_number counts the committed claims. */
  ghost predicate AttemptsCount(w: World) {
    && (forall i :: i in w.db.transfers ==> w.db.transfers[i].attempts == Count(w.claims, i))
    && (forall n :: 0 <= n < |w.claims| ==> w.claims[n].transferId in w.db.transfers)
  }

  /** The committed claim of this step, if it commits one. */
  ghost function ClaimOf(s: Settings, w: World, e: Event): Option<Claim> {
    if !Enabled(s, w, e) then None
    else if e.ClaimTask? && !e.locked then Some(Claim(e.transferId, e.now))
    else if e.Commit? then Some(Claim(w.workers[e.worker].job.transferId, w.workers[e.worker].claimedAt))
    else None
  }

  lemma StepClaims(s: Settings, w: World, e: Event)
    requires Validated(s)
    ensures Apply(s, w, e).claims ==
              match ClaimOf(s, w, e) { case None => w.claims case Some(c) => w.claims + [c] }
  {
    hide ServiceStep, ServiceEnabled, Record, RecordTransfer, RecordTxn, VerdictOf, IsNext, SaysAccepted;
  }

  lemma StepAttempts(s: Settings, w: World, e: Event, i: Id)
    requires Validated(s) && i in w.db.transfers
    ensures i in Apply(s, w, e).db.transfers
    ensures Apply(s, w, e).db.transfers[i].attempts == w.db.transfers[i].attempts +
              var c := ClaimOf(s, w, e);
              if c.Some? && c.value.transferId == i then 1 else 0
  {
    hide Apply, Enabled, VerdictOf;
    StepRow(s, w, e, i);
  }

  lemma ClaimOfKnown(s: Settings, w: World, e: Event)
    requires Wired(w) && ClaimOf(s, w, e).Some?
    ensures ClaimOf(s, w, e).value.transferId in w.db.transfers
  {
    if e.Commit? {
      assert JobOk(w.db.transfers, w.workers[e.worker].job);
    } else {
      ClaimedIsReady(s, w, e);
    }
    hide Ready, WireOk, LedgerOk;
  }

  lemma StepCounts(s: Settings, w: World, e: Event)
    requires Validated(s) && Wired(w) && AttemptsCount(w)
    ensures AttemptsCount(Apply(s, w, e))
  {
    hide Enabled, Step, Wired;
    var w2 := Apply(s, w, e);
    StepClaims(s, w, e);
    if ClaimOf(s, w, e).Some? { ClaimOfKnown(s, w, e); }
    hide Apply, ClaimOf;
    forall i | i in w2.db.transfers
      ensures w2.db.transfers[i].attempts == Count(w2.claims, i)
    {
      if i in w.db.transfers {
        StepAttempts(s, w, e, i);
      } else {
        StepNewRow(s, w, e, i);
        CountZero(w.claims, i);
        PaymentClaimsNone(s, w, e);
      }
      if ClaimOf(s, w, e).Some? { CountAppend(w.claims, ClaimOf(s, w, e).value, i); }
    }
    forall i | i in w.db.transfers
      ensures i in w2.db.transfers
    {
      StepRow(s, w, e, i);
    }
  }

  /** A row inserted by a step is not claimed by it. */
  lemma PaymentClaimsNone(s: Settings, w: World, e: Event)
    requires e.PaymentHook?
    ensures ClaimOf(s, w, e).None?
  {
  }

  lemma {:induction false} RunCounts(s: Settings, es: seq<Event>)
    requires Validated(s)
    ensures AttemptsCount(Exec(s, START, es))
  {
    if es != [] {
      RunCounts(s, es[..|es| - 1]);
      RunBooks(s, es[..|es| - 1]);
      hide Apply, AttemptsCount, Wired, Linked, Truthful;
      StepCounts(s, Exec(s, START, es[..|es| - 1]), es[|es| - 1]);
    }
  }

  // -------------------------------------------------------------------- spacing

  /** The clock reading a step takes. */
  function TimeOf(e: Event): Option<Time> {
    match e
    case Deposit(_, _, now, _) => Some(now)
    case PaymentHook(_, now, _) => Some(now)
    case ChargebackHook(_, _, now, _) => Some(now)
    case ClaimTask(_, _, now, _) => Some(now)
    case RecordRow(_, now) => Some(now)
    case Commit(_, now) => Some(now)
    case _ => None
  }

  function Latest(es: seq<Event>): Option<Time> {
    if es == [] then None
    else if TimeOf(es[|es| - 1]).Some? then TimeOf(es[|es| - 1])
    else Latest(es[..|es| - 1])
  }

  predicate NotBefore(now: Option<Time>, before: Option<Time>) {
    now.Some? && before.Some? ==> before.value <= now.value
  }

  /** Clock readings never go back along the run. */
  predicate Clocked(es: seq<Event>) {
    es != [] ==> Clocked(es[..|es| - 1]) && NotBefore(TimeOf(es[|es| - 1]), Latest(es[..|es| - 1]))
  }

  /** The least time between two committed claims of one transfer: the retry backoff or the stale
      threshold, whichever is less, and the backoff alone when stale tasks are not reclaimed. */
  function Gap(s: Settings): int {
    var seconds := if 0 < s.staleSeconds < s.backoffSeconds then s.staleSeconds else s.backoffSeconds;
    if seconds > 0 then seconds * SECOND else 0
  }

  ghost predicate Past(at: Time, c: Option<Time>) { c.Some? && at <= c.value }

  /** Nothing in the tables or the workers is later than the clock. */
  ghost predicate AllPast(w: World, c: Option<Time>) {
    && (forall i :: i in w.db.transfers ==> Past(w.db.transfers[i].updatedAt, c))
    && (forall k :: k in w.workers ==> Past(w.workers[k].claimedAt, c))
  }

  /** A committed claim is no later than its row's last update. */
  ghost predicate ClaimsOld(w: World) {
    forall n :: 0 <= n < |w.claims| && w.claims[n].transferId in w.db.transfers ==>
      w.claims[n].at <= w.db.transfers[w.claims[n].transferId].updatedAt
  }

  ghost predicate SpacedFrom(s: Settings, claims: seq<Claim>, i: Id, at: Time) {
    forall n :: 0 <= n < |claims| && claims[n].transferId == i ==> claims[n].at + Gap(s) <= at
  }

  /** A worker that holds its row claimed it late enough. */
  ghost predicate HoldersLate(s: Settings, w: World) {
    forall k :: k in w.workers && w.workers[k].locked ==>
      SpacedFrom(s, w.claims, w.workers[k].job.transferId, w.workers[k].claimedAt)
  }

  /** A worker that holds its row holds it alone. */
  ghost predicate HoldersAlone(workers: map<nat, Worker>) {
    forall k, m ::
      (k in workers && m in workers && workers[k].locked && workers[m].locked
       && workers[k].job.transferId == workers[m].job.transferId) ==> k == m
  }

  ghost predicate Spaced(s: Settings, claims: seq<Claim>) {
    forall m, n :: 0 <= m < n < |claims| && claims[m].transferId == claims[n].transferId ==>
      claims[m].at + Gap(s) <= claims[n].at
  }

  ghost predicate Timed(s: Settings, w: World, c: Option<Time>) {
    AllPast(w, c) && ClaimsOld(w) && HoldersLate(s, w) && HoldersAlone(w.workers) && Spaced(s, w.claims)
  }

  /** A claimable row was last updated long enough ago, unless it was never claimed. */
  lemma ReadyGap(s: Settings, tr: Transfer, now: Time)
    requires Ready(tr, s, now) && tr.attempts > 0 && tr.updatedAt <= now
    ensures tr.updatedAt + Gap(s) <= now
  {
  }

  /** So a claim, committed or not, is late enough after every committed claim of its row. */
  lemma ClaimSpaced(s: Settings, w: World, e: Event, c: Option<Time>)
    requires AttemptsCount(w) && Timed(s, w, c) && NotBefore(TimeOf(e), c)
    requires e.ClaimTask? && Enabled(s, w, e)
    ensures SpacedFrom(s, w.claims, e.transferId, e.now)
  {
    ClaimedIsReady(s, w, e);
    hide Enabled, HoldersLate, Spaced, Ready, Gap;
    var tr := w.db.transfers[e.transferId];
    assert Past(tr.updatedAt, c);
    if tr.attempts > 0 {
      ReadyGap(s, tr, e.now);
    } else {
      CountZero(w.claims, e.transferId);
    }
  }

  lemma StepPast(s: Settings, w: World, e: Event, c: Option<Time>)
    requires Validated(s) && AllPast(w, c) && NotBefore(TimeOf(e), c)
    ensures AllPast(Apply(s, w, e), if TimeOf(e).Some? then TimeOf(e) else c)
  {
    hide Step, Enabled, VerdictOf;
    var w2 := Apply(s, w, e);
    forall i | i in w2.db.transfers
      ensures Past(w2.db.transfers[i].updatedAt, if TimeOf(e).Some? then TimeOf(e) else c)
    {
      if i in w.db.transfers { StepRow(s, w, e, i); } else { StepNewRow(s, w, e, i); }
      hide Apply;
    }
    if Enabled(s, w, e) { StepWorkers(s, w, e); }
  }

  /** A row's last update never goes back, and a claim or verdict brings it up to the clock. */
  lemma StepUpdated(s: Settings, w: World, e: Event, c: Option<Time>, i: Id)
    requires Validated(s) && AllPast(w, c) && NotBefore(TimeOf(e), c) && i in w.db.transfers
    ensures i in Apply(s, w, e).db.transfers && w.db.transfers[i].updatedAt <= Apply(s, w, e).db.transfers[i].updatedAt
    ensures var claim := ClaimOf(s, w, e);
      claim.Some? && claim.value.transferId == i ==> claim.value.at <= Apply(s, w, e).db.transfers[i].updatedAt
  {
    hide Apply, VerdictOf, Enabled;
    StepRow(s, w, e, i);
    assert Past(w.db.transfers[i].updatedAt, c);
    if e.Commit? && e.worker in w.workers { assert Past(w.workers[e.worker].claimedAt, c); }
    if e.Commit? && Enabled(s, w, e) { CommitLeaves(s, w, e); }
  }

  lemma StepClaimsOld(s: Settings, w: World, e: Event, c: Option<Time>)
    requires Validated(s) && Wired(w) && AttemptsCount(w) && AllPast(w, c) && ClaimsOld(w) && NotBefore(TimeOf(e), c)
    ensures ClaimsOld(Apply(s, w, e))
  {
    hide Enabled, Step, Wired, AllPast;
    var w2 := Apply(s, w, e);
    StepClaims(s, w, e);
    if ClaimOf(s, w, e).Some? { ClaimOfKnown(s, w, e); }
    hide Apply, ClaimOf;
    forall n | 0 <= n < |w2.claims| && w2.claims[n].transferId in w2.db.transfers
      ensures w2.claims[n].at <= w2.db.transfers[w2.claims[n].transferId].updatedAt
    {
      StepUpdated(s, w, e, c, w2.claims[n].transferId);
    }
  }

  /** The committed claim of a step is late enough after those before it. */
  lemma ClaimOfSpaced(s: Settings, w: World, e: Event, c: Option<Time>)
    requires Validated(s) && AttemptsCount(w) && Timed(s, w, c) && NotBefore(TimeOf(e), c) && ClaimOf(s, w, e).Some?
    ensures SpacedFrom(s, w.claims, ClaimOf(s, w, e).value.transferId, ClaimOf(s, w, e).value.at)
  {
    hide Enabled, SpacedFrom, Spaced, AllPast, ClaimsOld, AttemptsCount;
    if e.ClaimTask? {
      ClaimSpaced(s, w, e, c);
    } else {
      CommitLeaves(s, w, e);
    }
  }

  lemma StepSpaced(s: Settings, w: World, e: Event, c: Option<Time>)
    requires Validated(s) && AttemptsCount(w) && Timed(s, w, c) && NotBefore(TimeOf(e), c)
    ensures Spaced(s, Apply(s, w, e).claims)
  {
    hide Step, Enabled, AttemptsCount, AllPast, ClaimsOld, HoldersLate, Gap;
    StepClaims(s, w, e);
    if ClaimOf(s, w, e).Some? { ClaimOfSpaced(s, w, e, c); }
    hide Apply, ClaimOf;
  }

  lemma StepHoldersLate(s: Settings, w: World, e: Event, c: Option<Time>)
    requires Validated(s) && AttemptsCount(w) && Timed(s, w, c) && NotBefore(TimeOf(e), c)
    ensures HoldersLate(s, Apply(s, w, e))
  {
    hide Step, Enabled, AttemptsCount, AllPast, ClaimsOld, Spaced, SpacedFrom;
    var w2 := Apply(s, w, e);
    StepClaims(s, w, e);
    if Enabled(s, w, e) { StepWorkers(s, w, e); }
    forall k | k in w2.workers && w2.workers[k].locked
      ensures SpacedFrom(s, w2.claims, w2.workers[k].job.transferId, w2.workers[k].claimedAt)
    {
      if k in w.workers && w2.workers[k].job == w.workers[k].job && w2.workers[k].claimedAt == w.workers[k].claimedAt
         && w.workers[k].locked {
        HolderKept(s, w, e, c, k);
      } else {
        ClaimSpaced(s, w, e, c);
      }
    }
  }

  /** Nobody else commits a claim of a held row, and its holder leaves with its commit. */
  lemma HolderKept(s: Settings, w: World, e: Event, c: Option<Time>, k: nat)
    requires Validated(s) && Timed(s, w, c) && k in w.workers && w.workers[k].locked && k in Apply(s, w, e).workers
    ensures SpacedFrom(s, Apply(s, w, e).claims, w.workers[k].job.transferId, w.workers[k].claimedAt)
  {
    StepClaims(s, w, e);
    hide Step, Enabled, AllPast, ClaimsOld, Spaced, Gap;
    assert SpacedFrom(s, w.claims, w.workers[k].job.transferId, w.workers[k].claimedAt);
    if Enabled(s, w, e) {
      if e.ClaimTask? { FreshHolder(s, w, e); }
      if e.Commit? { CommitLeaves(s, w, e); }
    }
  }

  lemma StepHoldersAlone(s: Settings, w: World, e: Event)
    requires Validated(s) && HoldersAlone(w.workers)
    ensures HoldersAlone(Apply(s, w, e).workers)
  {
    hide Step, Enabled;
    if Enabled(s, w, e) {
      StepWorkers(s, w, e);
      if e.ClaimTask? { FreshHolder(s, w, e); }
    }
  }

  lemma FreshHolder(s: Settings, w: World, e: Event)
    requires e.ClaimTask? && Enabled(s, w, e)
    ensures e.worker !in w.workers
    ensures forall k :: k in w.workers && w.workers[k].locked ==> w.workers[k].job.transferId != e.transferId
  {
    ClaimedIsReady(s, w, e);
    hide Enabled, Ready;
    forall k | k in w.workers && w.workers[k].locked
      ensures w.workers[k].job.transferId != e.transferId
    {
      assert w.workers[k].job.transferId in LockedRows(w);
    }
  }

  lemma {:induction false} RunTimed(s: Settings, es: seq<Event>)
    requires Validated(s) && Clocked(es)
    ensures Timed(s, Exec(s, START, es), Latest(es))
  {
    if es != [] {
      var init, e := es[..|es| - 1], es[|es| - 1];
      var w := Exec(s, START, init);
      RunTimed(s, init);
      RunCounts(s, init);
      RunBooks(s, init);
      hide Apply, AttemptsCount, Linked, Wired, Truthful, AllPast, ClaimsOld, HoldersLate, HoldersAlone, Spaced, TimeOf;
      StepPast(s, w, e, Latest(init));
      StepClaimsOld(s, w, e, Latest(init));
      StepSpaced(s, w, e, Latest(init));
      StepHoldersLate(s, w, e, Latest(init));
      StepHoldersAlone(s, w, e);
    }
  }

  // ---------------------------------------------------------------- main results

  /** Over every run, at either granularity and stale reclaims included, every claim of a transfer
      comes at or after the time it was scheduled plus the hold. */
  lemma {:induction false} ClaimAfterHold(s: Settings, es: seq<Event>, k: nat, i: Id, now: Time, locked: bool)
    requires Validated(s) && Enabled(s, Exec(s, START, es), ClaimTask(k, i, now, locked))
    ensures i in Exec(s, START, es).db.transfers
    ensures Exec(s, START, es).db.transfers[i].createdAt + s.holdMinutes * MINUTE <= now
  {
    RunHeld(s, es);
    ClaimedIsReady(s, Exec(s, START, es), ClaimTask(k, i, now, locked));
    ReadyAfterHold(s, Exec(s, START, es).db.transfers[i], now);
    hide Exec, Enabled, Ready;
  }

  /** Over every run attempt_number is the number of committed claims of its transfer. */
  lemma {:induction false} AttemptsAreClaims(s: Settings, es: seq<Event>, i: Id)
    requires Validated(s) && i in Exec(s, START, es).db.transfers
    ensures Exec(s, START, es).db.transfers[i].attempts == Count(Exec(s, START, es).claims, i)
  {
    RunCounts(s, es);
  }

  /** With a clock that never goes back, committed claims of one transfer are at least Gap apart,
      and every claim, committed later or not, is at least Gap after them. */
  lemma {:induction false} ClaimsAreSpaced(s: Settings, es: seq<Event>)
    requires Validated(s) && Clocked(es)
    ensures var w := Exec(s, START, es);
      && (forall m, n :: 0 <= m < n < |w.claims| && w.claims[m].transferId == w.claims[n].transferId ==>
            w.claims[m].at + Gap(s) <= w.claims[n].at)
      && (forall k, i, now, locked, n ::
            Enabled(s, w, ClaimTask(k, i, now, locked)) && NotBefore(Some(now), Latest(es))
            && 0 <= n < |w.claims| && w.claims[n].transferId == i ==>
              w.claims[n].at + Gap(s) <= now)
  {
    var w := Exec(s, START, es);
    RunTimed(s, es);
    RunCounts(s, es);
    hide Exec, Gap, Latest;
    forall k, i, now, locked, n |
      Enabled(s, w, ClaimTask(k, i, now, locked)) && NotBefore(Some(now), Latest(es))
      && 0 <= n < |w.claims| && w.claims[n].transferId == i
      ensures w.claims[n].at + Gap(s) <= now
    {
      ClaimSpaced(s, w, ClaimTask(k, i, now, locked), Latest(es));
      hide Enabled;
    }
    hide Enabled;
  }
}
