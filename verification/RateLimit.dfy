/** The in-process sliding-window rate limiter with its LRU-bounded key table. */
module RateLimit {

  /** Call times still remembered per key, oldest first; `order` lists the keys from the least to
      the most recently used. */
  datatype Table = Table(hits: map<string, seq<real>>, order: seq<string>)

  const MAX_TRACKED_KEYS: nat := 50_000

  // ------------------------------------------------------------- one call, on values

  /** Drops the leading calls that have left the window. */
  function Prune(hits: seq<real>, threshold: real): seq<real> {
    if hits != [] && hits[0] <= threshold then Prune(hits[1..], threshold) else hits
  }

  lemma {:induction false} PruneIsSuffix(hits: seq<real>, threshold: real)
    ensures |Prune(hits, threshold)| <= |hits| && Prune(hits, threshold) == hits[|hits| - |Prune(hits, threshold)|..]
  {
    if hits != [] && hits[0] <= threshold { PruneIsSuffix(hits[1..], threshold); }
  }

  function Without(order: seq<string>, key: string): (r: seq<string>)
    ensures forall k :: k in r ==> k in order
    ensures forall k :: k in order && k != key ==> k in r
    ensures |order| - 1 <= |r| <= |order| && (key in order ==> |r| == |order| - 1)
  {
    if order == [] then [] else
    if order[0] == key then order[1..] else [order[0]] + Without(order[1..], key)
  }

  /** Makes the key the most recently used one; a new key may push out the least recent. */
  function Touch(t: Table, key: string): Table {
    if key in t.hits then Table(t.hits, Without(t.order, key) + [key]) else
    var (hits, order) := (t.hits[key := []], t.order + [key]);
    if |order| > MAX_TRACKED_KEYS then Table(hits - {order[0]}, order[1..]) else Table(hits, order)
  }

  function HitsOf(t: Table, key: string): seq<real> { if key in t.hits then t.hits[key] else [] }

  /** The table after a call, and whether the call is let through. */
  function Checked(t: Table, key: string, limit: int, window: real, now: real): (Table, bool) {
    var touched := Touch(t, key);
    var hits := Prune(HitsOf(touched, key), now - window);
    if |hits| >= limit then (touched.(hits := touched.hits[key := hits]), false)
    else (touched.(hits := touched.hits[key := hits + [now]]), true)
  }

  predicate Distinct(order: seq<string>) {
    order == [] || (order[0] !in order[1..] && Distinct(order[1..]))
  }

  /** The hash table and the recency list hold the same keys, and no more than the bound. */
  ghost predicate Ok(t: Table) {
    Distinct(t.order) && (forall k :: k in t.hits <==> k in t.order) && |t.order| <= MAX_TRACKED_KEYS
  }

  lemma {:induction false} WithoutDistinct(order: seq<string>, key: string)
    requires Distinct(order)
    ensures Distinct(Without(order, key)) && key !in Without(order, key)
  {
    if order != [] { WithoutDistinct(order[1..], key); }
  }

  lemma {:induction false} AppendDistinct(order: seq<string>, key: string)
    requires Distinct(order) && key !in order
    ensures Distinct(order + [key])
  {
    if order != [] {
      AppendDistinct(order[1..], key);
      assert (order + [key])[1..] == order[1..] + [key];
    }
  }

  lemma TouchOk(t: Table, key: string)
    requires Ok(t)
    ensures Ok(Touch(t, key)) && key in Touch(t, key).hits
  {
    if key in t.hits {
      WithoutDistinct(t.order, key);
      AppendDistinct(Without(t.order, key), key);
    } else {
      var order := t.order + [key];
      AppendDistinct(t.order, key);
      assert forall k :: k in order <==> k == order[0] || k in order[1..];
      assert key in order[1..] || t.order == [];
    }
  }

  lemma CheckedOk(t: Table, key: string, limit: int, window: real, now: real)
    requires Ok(t)
    ensures Ok(Checked(t, key, limit, window, now).0)
  {
    TouchOk(t, key);
    hide Touch;
  }

  /** The module-level table, updated in place by every call. */
  class Limiter {
    var hits: map<string, seq<real>>
    var order: seq<string>

    constructor ()
      ensures Contents() == Table(map[], []) && Ok(Contents())
    {
      hits, order := map[], [];
    }

    function Contents(): Table
      reads this
    {
      Table(hits, order)
    }

    /** The lookup part of a call: finds or makes the key's entry, as the most recent one. */
    method Lookup(key: string) returns (times: seq<real>)
      requires Ok(Contents())
      modifies this
      ensures Contents() == Touch(old(Contents()), key) && key in hits && times == hits[key]
    {
      TouchOk(Contents(), key);
      hide Ok, Without;
      if key in hits {
        order := Without(order, key) + [key];
      } else {
        hits, order := hits[key := []], order + [key];
        if |order| > MAX_TRACKED_KEYS {
          hits, order := hits - {order[0]}, order[1..];
        }
      }
      times := hits[key];
    }

    static method PopLeft(times: seq<real>, threshold: real) returns (kept: seq<real>)
      ensures kept == Prune(times, threshold)
    {
      kept := times;
      while kept != [] && kept[0] <= threshold
        invariant Prune(kept, threshold) == Prune(times, threshold)
      {
        kept := kept[1..];
      }
    }

    method Check(key: string, limit: int, window: real, now: real) returns (allowed: bool)
      requires Ok(Contents())
      modifies this
      ensures Ok(Contents())
      ensures (Contents(), allowed) == Checked(old(Contents()), key, limit, window, now)
    {
      CheckedOk(Contents(), key, limit, window, now);
      hide Ok, Touch;
      var times := Lookup(key);
      times := PopLeft(times, now - window);
      allowed := |times| < limit;
      hits := hits[key := if allowed then times + [now] else times];
    }

    method Reset()
      modifies this
      ensures Contents() == Table(map[], []) && Ok(Contents())
    {
      hits, order := map[], [];
    }
  }

  // --------------------------------------------------------------------- whole histories

  datatype Call = Call(key: string, limit: int, window: real, now: real)

  function After(t: Table, c: Call): (Table, bool) {
    Checked(t, c.key, c.limit, c.window, c.now)
  }

  function Run(calls: seq<Call>): Table {
    if calls == [] then Table(map[], []) else After(Run(calls[..|calls| - 1]), calls[|calls| - 1]).0
  }

  /** Whether the limiter lets a call through after these. */
  predicate Allows(calls: seq<Call>, c: Call) {
    After(Run(calls), c).1
  }

  /** The full history of a key: the times of all its accepted calls, with nothing forgotten. */
  function Log(calls: seq<Call>, key: string): seq<real> {
    if calls == [] then [] else
    var (init, c) := (calls[..|calls| - 1], calls[|calls| - 1]);
    if c.key == key && Allows(init, c) then Log(init, key) + [c.now] else Log(init, key)
  }

  /** How many of these times lie in (lo, hi]. */
  function CountIn(times: seq<real>, lo: real, hi: real): nat {
    if times == [] then 0 else
    CountIn(times[..|times| - 1], lo, hi) + if lo < times[|times| - 1] <= hi then 1 else 0
  }

  /** The clock never goes back. */
  predicate Clocked(calls: seq<Call>) {
    forall m, n :: 0 <= m < n < |calls| ==> calls[m].now <= calls[n].now
  }

  predicate Ascending(times: seq<real>) {
    forall m, n :: 0 <= m < n < |times| ==> times[m] <= times[n]
  }

  lemma {:induction false} RunOk(calls: seq<Call>)
    ensures Ok(Run(calls))
  {
    if calls != [] {
      var (init, c) := (calls[..|calls| - 1], calls[|calls| - 1]);
      RunOk(init);
      CheckedOk(Run(init), c.key, c.limit, c.window, c.now);
      hide Checked, Ok;
    }
  }

  /** No entry of the log is later than this. */
  ghost predicate UpTo(times: seq<real>, hi: real) {
    forall n :: 0 <= n < |times| ==> times[n] <= hi
  }

  lemma {:induction false} LogAscends(calls: seq<Call>, key: string)
    requires Clocked(calls)
    ensures Ascending(Log(calls, key))
    ensures if calls == [] then Log(calls, key) == [] else UpTo(Log(calls, key), calls[|calls| - 1].now)
  {
    hide Allows;
    if calls != [] {
      var (init, c) := (calls[..|calls| - 1], calls[|calls| - 1]);
      LogAscends(init, key);
      assert init != [] ==> init[|init| - 1].now <= c.now;
      AscendingAppend(Log(init, key), c.now);
    }
  }

  lemma AscendingAppend(times: seq<real>, now: real)
    requires Ascending(times) && UpTo(times, now)
    ensures Ascending(times + [now]) && UpTo(times + [now], now)
  {
  }

  // ------------------------------------------------------------------------ counting

  lemma {:induction false} CountNone(times: seq<real>, lo: real, hi: real)
    requires forall n :: 0 <= n < |times| ==> times[n] <= lo
    ensures CountIn(times, lo, hi) == 0
  {
    if times != [] { CountNone(times[..|times| - 1], lo, hi); }
  }

  lemma {:induction false} CountAll(times: seq<real>, lo: real, hi: real)
    requires forall n :: 0 <= n < |times| ==> lo < times[n] <= hi
    ensures CountIn(times, lo, hi) == |times|
  {
    if times != [] { CountAll(times[..|times| - 1], lo, hi); }
  }

  lemma {:induction false} CountSplit(a: seq<real>, b: seq<real>, lo: real, hi: real)
    ensures CountIn(a + b, lo, hi) == CountIn(a, lo, hi) + CountIn(b, lo, hi)
  {
    if b == [] {
      assert a + b == a;
    } else {
      CountSplit(a, b[..|b| - 1], lo, hi);
      assert (a + b)[..|a + b| - 1] == a + b[..|b| - 1];
    }
  }

  lemma {:induction false} CountWider(times: seq<real>, lo: real, lo2: real, hi: real, hi2: real)
    requires lo <= lo2 && UpTo(times, hi)
    ensures CountIn(times, lo2, hi2) <= CountIn(times, lo, hi)
  {
    if times != [] { CountWider(times[..|times| - 1], lo, lo2, hi, hi2); }
  }

  /** All entries are later than this. */
  ghost predicate Above(times: seq<real>, lo: real) {
    forall n :: 0 <= n < |times| ==> lo < times[n]
  }

  /** What pruning keeps is exactly what lies after the threshold. */
  lemma {:induction false} PruneKeepsRecent(times: seq<real>, threshold: real)
    requires Ascending(times)
    ensures Above(Prune(times, threshold), threshold)
    ensures forall n :: 0 <= n < |times| - |Prune(times, threshold)| ==> times[n] <= threshold
  {
    if times == [] {
    } else if times[0] > threshold {
      assert forall n :: 0 <= n < |times| ==> times[0] <= times[n];
    } else {
      PruneKeepsRecent(times[1..], threshold);
      assert Prune(times, threshold) == Prune(times[1..], threshold);
      hide Above, Prune;
      forall n | 0 <= n < |times| - |Prune(times, threshold)|
        ensures times[n] <= threshold
      {
        if n > 0 { assert times[n] == times[1..][n - 1]; }
      }
    }
  }

  // ------------------------------------------------- the table against the full history

  ghost predicate Suffix(log: seq<real>, hits: seq<real>) {
    |hits| <= |log| && hits == log[|log| - |hits|..]
  }

  /** What the table no longer has of the log is no later than this. */
  ghost predicate DroppedUpTo(log: seq<real>, hits: seq<real>, horizon: real) {
    forall n :: 0 <= n < |log| - |hits| ==> log[n] <= horizon
  }

  lemma TouchHits(t: Table, key: string, k: string)
    requires Ok(t)
    ensures || HitsOf(Touch(t, key), k) == HitsOf(t, k)
            || (k != key && k in t.hits && k !in Touch(t, key).hits && HitsOf(Touch(t, key), k) == [])
  {
    TouchOk(t, key);
  }

  /** What is left of the key's entry when it is called. */
  function Kept(t: Table, key: string, window: real, now: real): seq<real> {
    Prune(HitsOf(t, key), now - window)
  }

  /** A call's effect on the table's entry for k. */
  lemma AfterHits(t: Table, c: Call, k: string)
    requires Ok(t)
    ensures After(t, c).1 == (|Kept(t, c.key, c.window, c.now)| < c.limit)
    ensures var after := HitsOf(After(t, c).0, k);
      if k != c.key then after == HitsOf(t, k) || (k in t.hits && k !in After(t, c).0.hits && after == [])
      else if After(t, c).1 then after == Kept(t, k, c.window, c.now) + [c.now]
      else after == Kept(t, k, c.window, c.now)
  {
    TouchHits(t, c.key, c.key);
    TouchHits(t, c.key, k);
    hide Touch, Ok, Prune;
  }

  lemma PruneSuffix(log: seq<real>, hits: seq<real>, threshold: real)
    requires Suffix(log, hits)
    ensures Suffix(log, Prune(hits, threshold))
  {
    PruneIsSuffix(hits, threshold);
  }

  lemma SuffixAppend(log: seq<real>, hits: seq<real>, now: real)
    requires Suffix(log, hits)
    ensures Suffix(log + [now], hits + [now])
  {
  }

  /** Whatever was evicted before, the table holds the last part of each key's full history. */
  lemma {:induction false} TableIsSuffix(calls: seq<Call>, key: string)
    ensures Suffix(Log(calls, key), HitsOf(Run(calls), key))
  {
    hide After, Ok, Prune, Suffix;
    if calls == [] {
      SuffixEmpty([]);
    } else {
      var (init, c) := (calls[..|calls| - 1], calls[|calls| - 1]);
      var (t, log) := (Run(init), Log(init, key));
      TableIsSuffix(init, key);
      RunOk(init);
      AfterHits(t, c, key);
      SuffixEmpty(log);
      PruneSuffix(log, HitsOf(t, key), c.now - c.window);
      SuffixAppend(log, Kept(t, key, c.window, c.now), c.now);
    }
  }

  lemma SuffixEmpty(log: seq<real>)
    ensures Suffix(log, [])
  {
  }

  /** The last of these calls pushed the key out of the table. */
  ghost predicate Evicts(calls: seq<Call>, key: string) {
    calls != [] && key in Run(calls[..|calls| - 1]).hits && key !in Run(calls).hits
  }

  /** The accepted calls of the key since it was last pushed out of the table. */
  ghost function Remembered(calls: seq<Call>, key: string): seq<real> {
    if calls == [] || key !in Run(calls).hits then [] else
    var (init, c) := (calls[..|calls| - 1], calls[|calls| - 1]);
    if c.key == key && Allows(init, c) then Remembered(init, key) + [c.now] else Remembered(init, key)
  }

  /** The key's calls all carry this rule. */
  predicate HasRule(calls: seq<Call>, key: string, limit: int, window: real) {
    forall n :: 0 <= n < |calls| && calls[n].key == key ==> calls[n].limit == limit && calls[n].window == window
  }

  /** How a call changes the table's entry for k and what is remembered of it. */
  ghost predicate EntryMove(calls: seq<Call>, c: Call, k: string, kept: seq<real>) {
    var (before, after) := (Remembered(calls, k), Remembered(calls + [c], k));
    var (hits, hits2) := (HitsOf(Run(calls), k), HitsOf(Run(calls + [c]), k));
    if Evicts(calls + [c], k) then k != c.key && after == [] && hits2 == []
    else if k != c.key then after == before && hits2 == hits
    else if Allows(calls, c) then after == before + [c.now] && hits2 == kept + [c.now]
    else after == before && hits2 == kept
  }

  lemma EntryMoves(calls: seq<Call>, c: Call, k: string)
    ensures EntryMove(calls, c, k, Kept(Run(calls), k, c.window, c.now))
  {
    hide Touch, Checked, Ok, Prune;
    assert (calls + [c])[..|calls|] == calls;
    RunOk(calls);
    RunOk(calls + [c]);
    AfterHits(Run(calls), c, k);
    TouchedIn(Run(calls), c);
    NotInTable(calls, k);
  }

  lemma TouchedIn(t: Table, c: Call)
    requires Ok(t)
    ensures c.key in After(t, c).0.hits
    ensures forall k :: k != c.key && k !in t.hits ==> k !in After(t, c).0.hits
  {
    TouchOk(t, c.key);
  }

  lemma NotInTable(calls: seq<Call>, key: string)
    ensures key !in Run(calls).hits ==> Remembered(calls, key) == [] && HitsOf(Run(calls), key) == []
  {
  }

  /** hits is the last part of the log, which ends by `now`, and lacks nothing later than the
      threshold. */
  ghost predicate Tail(log: seq<real>, hits: seq<real>, threshold: real, now: real) {
    Ascending(log) && Suffix(log, hits) && UpTo(log, now) && DroppedUpTo(log, hits, threshold)
  }

  /** What held at an earlier time still holds. */
  lemma TailLater(log: seq<real>, hits: seq<real>, threshold: real, later: real, now: real, now2: real)
    requires Tail(log, hits, threshold, now) && threshold <= later && now <= now2
    ensures Tail(log, hits, later, now2)
  {
  }

  lemma EmptyTail(threshold: real, now: real)
    ensures Tail([], [], threshold, now)
  {
  }

  lemma TailOnCall(log: seq<real>, hits: seq<real>, threshold: real, now: real)
    requires Tail(log, hits, threshold, now)
    ensures Tail(log, Prune(hits, threshold), threshold, now)
    ensures Tail(log + [now], Prune(hits, threshold) + [now], threshold, now)
  {
    DropsOnCall(log, hits, threshold, threshold, now);
    AscendingAppend(log, now);
    PruneSuffix(log, hits, threshold);
    SuffixAppend(log, Prune(hits, threshold), now);
    hide Ascending, Suffix, UpTo, DroppedUpTo, Prune;
  }

  lemma TailStep(calls: seq<Call>, c: Call, k: string, window: real)
    requires Tail(Remembered(calls, k), HitsOf(Run(calls), k), c.now - window, c.now)
    requires c.key == k ==> c.window == window
    ensures Tail(Remembered(calls + [c], k), HitsOf(Run(calls + [c]), k), c.now - window, c.now)
  {
    hide Run, Remembered, Evicts, Allows, Prune, Tail, HitsOf;
    EntryMoves(calls, c, k);
    TailOnCall(Remembered(calls, k), HitsOf(Run(calls), k), c.now - window, c.now);
    EmptyTail(c.now - window, c.now);
  }

  lemma NoneYet(key: string)
    ensures Remembered([], key) == [] && HitsOf(Run([]), key) == []
  {
  }

  /** The table holds the last part of what is remembered, and drops from it only what has left
      the window. */
  lemma {:induction false} RememberedDrops(calls: seq<Call>, key: string, limit: int, window: real, now: real)
    requires Clocked(calls) && HasRule(calls, key, limit, window) && (calls != [] ==> calls[|calls| - 1].now <= now)
    ensures Tail(Remembered(calls, key), HitsOf(Run(calls), key), now - window, now)
  {
    hide Run, Remembered, Clocked, HasRule, Tail, HitsOf;
    if calls == [] {
      NoneYet(key);
      EmptyTail(now - window, now);
    } else {
      var (init, c) := (calls[..|calls| - 1], calls[|calls| - 1]);
      assert init + [c] == calls;
      ClockedInit(calls);
      RuleInit(calls, key, limit, window);
      RememberedDrops(init, key, limit, window, c.now);
      TailStep(init, c, key, window);
      TailLater(Remembered(calls, key), HitsOf(Run(calls), key), c.now - window, now - window, c.now, now);
    }
  }

  lemma ClockedInit(calls: seq<Call>)
    requires Clocked(calls) && calls != []
    ensures var init := calls[..|calls| - 1];
      Clocked(init) && (init != [] ==> init[|init| - 1].now <= calls[|calls| - 1].now)
  {
  }

  lemma DropsOnCall(log: seq<real>, hits: seq<real>, threshold: real, horizon: real, now: real)
    requires Ascending(log) && Suffix(log, hits) && DroppedUpTo(log, hits, horizon) && threshold <= horizon
    ensures DroppedUpTo(log, Prune(hits, threshold), horizon)
    ensures DroppedUpTo(log + [now], Prune(hits, threshold) + [now], horizon)
  {
    var d := |log| - |hits|;
    assert forall n :: 0 <= n < |hits| ==> hits[n] == log[d + n];
    PruneKeepsRecent(hits, threshold);
    PruneIsSuffix(hits, threshold);
    forall n | 0 <= n < |log| - |Prune(hits, threshold)|
      ensures log[n] <= horizon
    {
      if n >= d { assert log[n] == hits[n - d]; }
    }
  }

  // ------------------------------------------------------- what an eviction loses

  /** No eviction of the key up to the time hi loses an accepted call later than lo. */
  ghost predicate NothingLost(calls: seq<Call>, key: string, lo: real, hi: real) {
    calls != [] ==>
      var (init, c) := (calls[..|calls| - 1], calls[|calls| - 1]);
      NothingLost(init, key, lo, hi) && (Evicts(calls, key) && c.now <= hi ==> UpTo(Log(init, key), lo))
  }

  lemma RememberedStep(calls: seq<Call>, c: Call, key: string, lo: real)
    requires Suffix(Log(calls, key), Remembered(calls, key))
    requires DroppedUpTo(Log(calls, key), Remembered(calls, key), lo)
    requires Evicts(calls + [c], key) ==> UpTo(Log(calls, key), lo)
    ensures Suffix(Log(calls + [c], key), Remembered(calls + [c], key))
    ensures DroppedUpTo(Log(calls + [c], key), Remembered(calls + [c], key), lo)
  {
    hide Run, Remembered, Evicts, Allows, Prune, HitsOf, Suffix, DroppedUpTo, UpTo, Log;
    EntryMoves(calls, c, key);
    LogAppend(calls, c, key);
    var (log, kept) := (Log(calls, key), Remembered(calls, key));
    SuffixAppend(log, kept, c.now);
    DroppedAppend(log, kept, lo, c.now);
    SuffixEmpty(log);
    if Evicts(calls + [c], key) { NoneRemembered(log, lo); }
  }

  lemma DroppedAppend(log: seq<real>, hits: seq<real>, horizon: real, now: real)
    requires DroppedUpTo(log, hits, horizon)
    ensures DroppedUpTo(log + [now], hits + [now], horizon)
  {
  }

  lemma NoneRemembered(log: seq<real>, lo: real)
    requires UpTo(log, lo)
    ensures DroppedUpTo(log, [], lo)
  {
  }

  /** Then what is remembered is the full history, but for calls no later than lo. */
  lemma {:induction false} RememberedIsLog(calls: seq<Call>, key: string, lo: real, hi: real)
    requires Clocked(calls) && NothingLost(calls, key, lo, hi) && (calls != [] ==> calls[|calls| - 1].now <= hi)
    ensures Suffix(Log(calls, key), Remembered(calls, key))
    ensures DroppedUpTo(Log(calls, key), Remembered(calls, key), lo)
  {
    if calls != [] {
      var (init, c) := (calls[..|calls| - 1], calls[|calls| - 1]);
      assert init + [c] == calls;
      ClockedInit(calls);
      RememberedIsLog(init, key, lo, hi);
      hide Run, Remembered, Evicts, Clocked, Log, Suffix, DroppedUpTo, UpTo;
      RememberedStep(init, c, key, lo);
    }
  }

  /** Every eviction of the key is no later than lo. */
  ghost predicate EvictedBy(calls: seq<Call>, key: string, lo: real) {
    calls != [] ==>
      EvictedBy(calls[..|calls| - 1], key, lo) && (Evicts(calls, key) ==> calls[|calls| - 1].now <= lo)
  }

  lemma {:induction false} OldEvictionsLoseNothing(calls: seq<Call>, key: string, lo: real, hi: real)
    requires Clocked(calls) && EvictedBy(calls, key, lo)
    ensures NothingLost(calls, key, lo, hi)
  {
    if calls != [] {
      var init := calls[..|calls| - 1];
      ClockedInit(calls);
      OldEvictionsLoseNothing(init, key, lo, hi);
      LogAscends(init, key);
      hide Run, Log, Evicts, Clocked;
    }
  }

  // ---------------------------------------------------------------- main results

  lemma KeptInWindow(log: seq<real>, hits: seq<real>, threshold: real, now: real)
    requires Ascending(log) && UpTo(log, now) && Suffix(log, hits)
    ensures var kept := Prune(hits, threshold);
      Suffix(log, kept) && forall n :: 0 <= n < |kept| ==> threshold < kept[n] <= now
  {
    PruneSuffix(log, hits, threshold);
    assert forall n :: 0 <= n < |hits| ==> hits[n] == log[|log| - |hits| + n];
    PruneKeepsRecent(hits, threshold);
  }

  lemma CountBySuffix(log: seq<real>, kept: seq<real>, threshold: real, now: real)
    requires Suffix(log, kept) && forall n :: 0 <= n < |kept| ==> threshold < kept[n] <= now
    ensures |kept| <= CountIn(log, threshold, now)
    ensures DroppedUpTo(log, kept, threshold) ==> |kept| == CountIn(log, threshold, now)
  {
    var dropped := log[..|log| - |kept|];
    assert log == dropped + kept;
    CountSplit(dropped, kept, threshold, now);
    CountAll(kept, threshold, now);
    if DroppedUpTo(log, kept, threshold) { CountNone(dropped, threshold, now); }
  }

  /** A suffix of the log that drops only what has left the window counts what is in it. */
  lemma KeptCounts(log: seq<real>, hits: seq<real>, threshold: real, now: real)
    requires Ascending(log) && UpTo(log, now) && Suffix(log, hits)
    ensures |Prune(hits, threshold)| <= CountIn(log, threshold, now)
    ensures DroppedUpTo(log, hits, threshold) ==> |Prune(hits, threshold)| == CountIn(log, threshold, now)
  {
    KeptInWindow(log, hits, threshold, now);
    if DroppedUpTo(log, hits, threshold) { DropsOnCall(log, hits, threshold, threshold, now); }
    hide Ascending, UpTo, DroppedUpTo;
    CountBySuffix(log, Prune(hits, threshold), threshold, now);
  }

  lemma ClockedLog(calls: seq<Call>, c: Call)
    requires Clocked(calls + [c])
    ensures Clocked(calls) && Ascending(Log(calls, c.key)) && UpTo(Log(calls, c.key), c.now)
  {
    assert (calls + [c])[..|calls|] == calls;
    ClockedInit(calls + [c]);
    LogAscends(calls, c.key);
    hide Allows, Run;
  }

  lemma AllowsByKept(calls: seq<Call>, c: Call)
    ensures Allows(calls, c) <==> |Kept(Run(calls), c.key, c.window, c.now)| < c.limit
  {
    RunOk(calls);
    AfterHits(Run(calls), c, c.key);
    hide After, Ok, Kept;
  }

  /** Whatever is evicted, a call is let through exactly while fewer than `limit` of its key's
      accepted calls since the key's last eviction lie in (now - window, now]. */
  lemma CountsRemembered(calls: seq<Call>, c: Call)
    requires Clocked(calls + [c]) && HasRule(calls, c.key, c.limit, c.window)
    ensures Allows(calls, c) <==> CountIn(Remembered(calls, c.key), c.now - c.window, c.now) < c.limit
  {
    hide Allows, Run, Remembered, Prune, HasRule, DroppedUpTo, Suffix, Ascending, UpTo, Clocked, CountIn;
    ClockedInit(calls + [c]);
    assert (calls + [c])[..|calls|] == calls;
    AllowsByKept(calls, c);
    RememberedDrops(calls, c.key, c.limit, c.window, c.now);
    KeptCounts(Remembered(calls, c.key), HitsOf(Run(calls), c.key), c.now - c.window, c.now);
  }

  /** The limiter refines the full-history rule: when no eviction of the key has lost an accepted
      call that is still in the window, a call is let through exactly while fewer than `limit` of
      its key's accepted calls lie in (now - window, now]. */
  lemma RefinesInWindow(calls: seq<Call>, c: Call)
    requires Clocked(calls + [c]) && HasRule(calls, c.key, c.limit, c.window)
    requires NothingLost(calls, c.key, c.now - c.window, c.now)
    ensures Allows(calls, c) <==> CountIn(Log(calls, c.key), c.now - c.window, c.now) < c.limit
  {
    hide Allows, Run, Remembered, HasRule, DroppedUpTo, Suffix, Clocked, Log, CountIn, NothingLost;
    ClockedInit(calls + [c]);
    assert (calls + [c])[..|calls|] == calls;
    CountsRemembered(calls, c);
    RememberedIsLog(calls, c.key, c.now - c.window, c.now);
    SameCount(Log(calls, c.key), Remembered(calls, c.key), c.now - c.window, c.now);
  }

  lemma SameCount(log: seq<real>, kept: seq<real>, lo: real, hi: real)
    requires Suffix(log, kept) && DroppedUpTo(log, kept, lo)
    ensures CountIn(log, lo, hi) == CountIn(kept, lo, hi)
  {
    var dropped := log[..|log| - |kept|];
    assert log == dropped + kept;
    CountSplit(dropped, kept, lo, hi);
    CountNone(dropped, lo, hi);
  }

  /** In particular for a key whose evictions, if any, have all left the window. */
  lemma RefinesFullHistory(calls: seq<Call>, c: Call)
    requires Clocked(calls + [c]) && HasRule(calls, c.key, c.limit, c.window)
    requires EvictedBy(calls, c.key, c.now - c.window)
    ensures Allows(calls, c) <==> CountIn(Log(calls, c.key), c.now - c.window, c.now) < c.limit
  {
    hide Allows, HasRule, Clocked, Log, CountIn, NothingLost, EvictedBy;
    ClockedLog(calls, c);
    OldEvictionsLoseNothing(calls, c.key, c.now - c.window, c.now);
    RefinesInWindow(calls, c);
  }

  /** Even after evictions, every denial is justified by `limit` really accepted calls of the key
      within the window. */
  lemma DenialIsJustified(calls: seq<Call>, c: Call)
    requires Clocked(calls + [c]) && !Allows(calls, c)
    ensures CountIn(Log(calls, c.key), c.now - c.window, c.now) >= c.limit
  {
    hide Allows, Run, Prune, DroppedUpTo, Suffix, Ascending, UpTo, Clocked, Log, CountIn;
    ClockedLog(calls, c);
    AllowsByKept(calls, c);
    TableIsSuffix(calls, c.key);
    KeptCounts(Log(calls, c.key), HitsOf(Run(calls), c.key), c.now - c.window, c.now);
  }

  /** No window of the key's length, wherever it lies, holds more than `limit` accepted calls of a
      key, when no eviction up to its end loses one of them. */
  lemma {:induction false} NoWindowExceedsLimit(calls: seq<Call>, key: string, limit: int, window: real, end: real)
    requires Clocked(calls) && HasRule(calls, key, limit, window) && NothingLost(calls, key, end - window, end)
    ensures CountIn(Log(calls, key), end - window, end) <= if limit > 0 then limit else 0
  {
    if calls != [] {
      var (init, c) := (calls[..|calls| - 1], calls[|calls| - 1]);
      hide Allows, Run, Clocked, CountIn, HasRule, NothingLost, Log;
      LostInit(calls, key, end - window, end);
      ClockedInit(calls);
      RuleInit(calls, key, limit, window);
      NoWindowExceedsLimit(init, key, limit, window, end);
      assert init + [c] == calls;
      WindowStep(init, c, key, limit, window, end);
    }
  }

  lemma WindowStep(calls: seq<Call>, c: Call, key: string, limit: int, window: real, end: real)
    requires Clocked(calls + [c]) && HasRule(calls, key, limit, window) && NothingLost(calls, key, end - window, end)
    requires c.key == key ==> c.limit == limit && c.window == window
    requires CountIn(Log(calls, key), end - window, end) <= if limit > 0 then limit else 0
    ensures CountIn(Log(calls + [c], key), end - window, end) <= if limit > 0 then limit else 0
  {
    hide Allows, Run, Clocked, CountIn, HasRule, NothingLost, Log;
    LogAppend(calls, c, key);
    if c.key == key && Allows(calls, c) { AcceptStep(calls, c, end); }
  }

  lemma LogAppend(calls: seq<Call>, c: Call, key: string)
    ensures Log(calls + [c], key) ==
              if c.key == key && Allows(calls, c) then Log(calls, key) + [c.now] else Log(calls, key)
  {
    hide Allows;
    assert (calls + [c])[..|calls|] == calls;
  }

  lemma LostInit(calls: seq<Call>, key: string, lo: real, hi: real)
    requires calls != [] && NothingLost(calls, key, lo, hi)
    ensures NothingLost(calls[..|calls| - 1], key, lo, hi)
  {
    hide Evicts, UpTo;
  }

  lemma RuleInit(calls: seq<Call>, key: string, limit: int, window: real)
    requires calls != [] && HasRule(calls, key, limit, window)
    ensures HasRule(calls[..|calls| - 1], key, limit, window)
    ensures calls[|calls| - 1].key == key ==> calls[|calls| - 1].limit == limit && calls[|calls| - 1].window == window
  {
  }

  lemma AcceptStep(calls: seq<Call>, c: Call, end: real)
    requires Clocked(calls + [c]) && HasRule(calls, c.key, c.limit, c.window)
    requires NothingLost(calls, c.key, end - c.window, end) && Allows(calls, c)
    requires CountIn(Log(calls, c.key), end - c.window, end) <= if c.limit > 0 then c.limit else 0
    ensures CountIn(Log(calls, c.key) + [c.now], end - c.window, end) <= if c.limit > 0 then c.limit else 0
  {
    hide Allows, Run, Clocked, CountIn, HasRule, UpTo, Ascending, Suffix, DroppedUpTo, NothingLost, Log, Remembered;
    var (lo, log) := (end - c.window, Log(calls, c.key));
    CountAppend(log, c.now, lo, end);
    if lo < c.now <= end {
      ClockedInit(calls + [c]);
      assert (calls + [c])[..|calls|] == calls;
      CountsRemembered(calls, c);
      RememberedIsLog(calls, c.key, lo, end);
      SameCount(log, Remembered(calls, c.key), lo, end);
      RememberedUpTo(calls, c);
      CountWider(Remembered(calls, c.key), c.now - c.window, lo, c.now, end);
    }
  }

  lemma RememberedUpTo(calls: seq<Call>, c: Call)
    requires Clocked(calls + [c]) && HasRule(calls, c.key, c.limit, c.window)
    ensures UpTo(Remembered(calls, c.key), c.now)
  {
    hide Run, Remembered, HasRule, Ascending, Suffix, DroppedUpTo;
    ClockedInit(calls + [c]);
    assert (calls + [c])[..|calls|] == calls;
    RememberedDrops(calls, c.key, c.limit, c.window, c.now);
  }

  lemma CountAppend(times: seq<real>, now: real, lo: real, hi: real)
    ensures CountIn(times + [now], lo, hi) == CountIn(times, lo, hi) + if lo < now <= hi then 1 else 0
  {
    assert (times + [now])[..|times|] == times;
  }

  // ----------------------------------------------------------------------- eviction

  /** The other keys called since the key's last call. */
  function Since(calls: seq<Call>, key: string): set<string> {
    if calls == [] || calls[|calls| - 1].key == key then {}
    else Since(calls[..|calls| - 1], key) + {calls[|calls| - 1].key}
  }

  /** Every key of the recency list has been followed by all keys after it. */
  predicate ByRecency(order: seq<string>, calls: seq<Call>) {
    order != [] ==>
      (forall k :: k in order[1..] ==> k in Since(calls, order[0])) && ByRecency(order[1..], calls)
  }

  lemma {:induction false} RecencyAfterCall(order: seq<string>, calls: seq<Call>, c: Call)
    requires ByRecency(order, calls) && c.key !in order
    ensures ByRecency(order + [c.key], calls + [c])
  {
    assert (calls + [c])[..|calls|] == calls;
    if order != [] {
      RecencyAfterCall(order[1..], calls, c);
      assert (order + [c.key])[1..] == order[1..] + [c.key];
      assert forall k :: k in order[1..] + [c.key] ==> k in Since(calls + [c], order[0]);
    } else {
      assert (order + [c.key])[1..] == [];
    }
  }

  lemma {:induction false} RecencyWithout(order: seq<string>, calls: seq<Call>, key: string)
    requires ByRecency(order, calls)
    ensures ByRecency(Without(order, key), calls)
  {
    if order != [] && order[0] != key {
      RecencyWithout(order[1..], calls, key);
      assert Without(order, key)[1..] == Without(order[1..], key);
    }
  }

  lemma {:induction false} SizeOf(order: seq<string>) returns (keys: set<string>)
    requires Distinct(order)
    ensures |keys| == |order| && forall k :: k in keys <==> k in order
  {
    if order == [] {
      keys := {};
    } else {
      var rest := SizeOf(order[1..]);
      keys := rest + {order[0]};
    }
  }

  /** A recency list one key too long: its first key has been followed by MAX_TRACKED_KEYS others. */
  lemma ManySince(order: seq<string>, calls: seq<Call>)
    requires Distinct(order) && ByRecency(order, calls) && |order| == MAX_TRACKED_KEYS + 1
    ensures |Since(calls, order[0])| >= MAX_TRACKED_KEYS
  {
    var keys := SizeOf(order[1..]);
    assert keys <= Since(calls, order[0]);
    SubsetSize(keys, Since(calls, order[0]));
  }

  lemma {:induction false} SubsetSize(a: set<string>, b: set<string>)
    requires a <= b
    ensures |a| <= |b|
  {
    if a != {} {
      var k :| k in a;
      SubsetSize(a - {k}, b - {k});
    }
  }

  lemma {:induction false} RunByRecency(calls: seq<Call>)
    ensures ByRecency(Run(calls).order, calls)
  {
    if calls != [] {
      var (init, c) := (calls[..|calls| - 1], calls[|calls| - 1]);
      assert init + [c] == calls;
      RunByRecency(init);
      RunOk(init);
      TouchByRecency(Run(init), init, c);
      hide Touch, ByRecency, Ok;
    }
  }

  lemma TouchByRecency(t: Table, calls: seq<Call>, c: Call)
    requires Ok(t) && ByRecency(t.order, calls)
    ensures ByRecency(Touch(t, c.key).order, calls + [c])
  {
    if c.key in t.hits {
      RecencyWithout(t.order, calls, c.key);
      WithoutDistinct(t.order, c.key);
      RecencyAfterCall(Without(t.order, c.key), calls, c);
    } else {
      RecencyAfterCall(t.order, calls, c);
    }
  }

  /** Only a key that MAX_TRACKED_KEYS distinct other keys have followed since its last call can be
      evicted: with fewer, it keeps its history. */
  lemma EvictionNeedsManyOthers(calls: seq<Call>, c: Call, key: string)
    requires key in Run(calls).hits && key !in Run(calls + [c]).hits
    ensures |Since(calls + [c], key)| >= MAX_TRACKED_KEYS
  {
    assert (calls + [c])[..|calls|] == calls;
    RunOk(calls);
    RunByRecency(calls);
    OldestEvicted(Run(calls), c, key);
    var order := Run(calls).order + [c.key];
    AppendDistinct(Run(calls).order, c.key);
    RecencyAfterCall(Run(calls).order, calls, c);
    hide Run, Since;
    ManySince(order, calls + [c]);
  }

  lemma OldestEvicted(t: Table, c: Call, key: string)
    requires Ok(t) && key in t.hits && key !in After(t, c).0.hits
    ensures c.key !in t.order && |t.order| == MAX_TRACKED_KEYS && t.order[0] == key
  {
    TouchOk(t, c.key);
  }

  /** Fewer than MAX_TRACKED_KEYS distinct other keys follow each call of the key. */
  ghost predicate FewOthers(calls: seq<Call>, key: string) {
    calls != [] ==>
      var init := calls[..|calls| - 1];
      FewOthers(init, key) && (key in Run(init).hits ==> |Since(calls, key)| < MAX_TRACKED_KEYS)
  }

  lemma {:induction false} FewOthersUnevicted(calls: seq<Call>, key: string, lo: real)
    requires FewOthers(calls, key)
    ensures EvictedBy(calls, key, lo)
  {
    if calls != [] {
      var (init, c) := (calls[..|calls| - 1], calls[|calls| - 1]);
      assert init + [c] == calls;
      FewOthersUnevicted(init, key, lo);
      if Evicts(calls, key) { EvictionNeedsManyOthers(init, c, key); }
      hide Run, Since;
    }
  }

  /** So with few other keys the limiter is the full-history rule, for any sequence of calls. */
  lemma ExactWithFewOthers(calls: seq<Call>, c: Call)
    requires Clocked(calls + [c]) && FewOthers(calls, c.key) && HasRule(calls, c.key, c.limit, c.window)
    ensures Allows(calls, c) <==> CountIn(Log(calls, c.key), c.now - c.window, c.now) < c.limit
  {
    hide Allows, HasRule, Clocked, Log, CountIn, FewOthers, EvictedBy;
    FewOthersUnevicted(calls, c.key, c.now - c.window);
    RefinesFullHistory(calls, c);
  }

  /** The other keys called later than lo. */
  function OthersAfter(calls: seq<Call>, key: string, lo: real): set<string> {
    set n | 0 <= n < |calls| && calls[n].key != key && lo < calls[n].now :: calls[n].key
  }

  /** When an accepted call of the key is later than lo, so are all calls since its last one. */
  lemma {:induction false} SinceIsAfter(calls: seq<Call>, key: string, lo: real)
    requires Clocked(calls) && !UpTo(Log(calls, key), lo)
    ensures Since(calls, key) <= OthersAfter(calls, key, lo)
  {
    if calls != [] {
      var (init, c) := (calls[..|calls| - 1], calls[|calls| - 1]);
      ClockedInit(calls);
      hide Clocked;
      if c.key != key {
        SinceIsAfter(init, key, lo);
        LogAscends(init, key);
        hide Allows, Since;
        assert lo < c.now;
        OthersGrow(calls, key, lo);
        assert calls[|calls| - 1] == c && c.key in OthersAfter(calls, key, lo);
      }
    }
  }

  lemma OthersGrow(calls: seq<Call>, key: string, lo: real)
    requires calls != []
    ensures OthersAfter(calls[..|calls| - 1], key, lo) <= OthersAfter(calls, key, lo)
  {
    var init := calls[..|calls| - 1];
    forall k | k in OthersAfter(init, key, lo)
      ensures k in OthersAfter(calls, key, lo)
    {
      var n :| 0 <= n < |init| && init[n].key == k && init[n].key != key && lo < init[n].now;
      assert calls[n] == init[n];
    }
  }

  lemma {:induction false} FewInWindowLoseNothing(calls: seq<Call>, key: string, lo: real, hi: real)
    requires Clocked(calls) && |OthersAfter(calls, key, lo)| < MAX_TRACKED_KEYS
    ensures NothingLost(calls, key, lo, hi)
  {
    if calls != [] {
      var (init, c) := (calls[..|calls| - 1], calls[|calls| - 1]);
      assert init + [c] == calls;
      ClockedInit(calls);
      OthersGrow(calls, key, lo);
      SubsetSize(OthersAfter(init, key, lo), OthersAfter(calls, key, lo));
      FewInWindowLoseNothing(init, key, lo, hi);
      if Evicts(calls, key) && !UpTo(Log(init, key), lo) {
        EvictionNeedsManyOthers(init, c, key);
        EvictedByOther(init, c, key);
        SinceIsAfter(calls, key, lo);
        SubsetSize(Since(calls, key), OthersAfter(calls, key, lo));
      }
      hide Run, Since, Evicts, OthersAfter, Log, UpTo, Clocked;
    }
  }

  lemma EvictedByOther(calls: seq<Call>, c: Call, key: string)
    requires Evicts(calls + [c], key)
    ensures c.key != key && Log(calls + [c], key) == Log(calls, key)
  {
    assert (calls + [c])[..|calls|] == calls;
    RunOk(calls);
    TouchedIn(Run(calls), c);
    hide After, Ok;
  }

  /** Whatever came before, the limiter is the full-history rule for a key while fewer than
      MAX_TRACKED_KEYS distinct other keys have been called within its window. */
  lemma ExactWithFewOthersInWindow(calls: seq<Call>, c: Call)
    requires Clocked(calls + [c]) && HasRule(calls, c.key, c.limit, c.window)
    requires |OthersAfter(calls, c.key, c.now - c.window)| < MAX_TRACKED_KEYS
    ensures Allows(calls, c) <==> CountIn(Log(calls, c.key), c.now - c.window, c.now) < c.limit
  {
    hide Allows, HasRule, Clocked, Log, CountIn, NothingLost, OthersAfter;
    ClockedLog(calls, c);
    FewInWindowLoseNothing(calls, c.key, c.now - c.window, c.now);
    RefinesInWindow(calls, c);
  }
}
