/** A key of the rate limiter pushed out of the table within its window. */
module EvictionBound {
  import opened RateLimit

  const CLIENT := "client"

  function Name(n: nat): string { seq(n, _ => 'o') }

  function Names(n: nat): (r: seq<string>)
    ensures |r| == n
  {
    seq(n, k requires 0 <= k => Name(k))
  }

  function Ask(key: string): Call { Call(key, 1, 60.0, 0.0) }

  /** One call of the client, then one each of n other keys, all at once. */
  function Crowd(n: nat): seq<Call> {
    if n == 0 then [Ask(CLIENT)] else Crowd(n - 1) + [Ask(Name(n - 1))]
  }

  lemma NewName(n: nat)
    ensures Name(n) != CLIENT && Name(n) !in Names(n) && Names(n + 1) == Names(n) + [Name(n)]
  {
    assert CLIENT[0] == 'c';
    forall k | 0 <= k < n
      ensures Names(n)[k] != Name(n)
    {
      assert |Names(n)[k]| == k && |Name(n)| == n;
    }
  }

  /** The client stays at the head of the recency list until it is full, and then drops out. */
  lemma {:induction false} CrowdTable(n: nat)
    requires n <= MAX_TRACKED_KEYS
    ensures Run(Crowd(n)).order == if n < MAX_TRACKED_KEYS then [CLIENT] + Names(n) else Names(n)
  {
    if n == 0 {
      FirstCall();
    } else {
      CrowdTable(n - 1);
      CrowdStep(Crowd(n - 1), n - 1);
    }
  }

  lemma CrowdStep(calls: seq<Call>, n: nat)
    requires n < MAX_TRACKED_KEYS && Run(calls).order == [CLIENT] + Names(n)
    ensures Run(calls + [Ask(Name(n))]).order ==
              if n + 1 < MAX_TRACKED_KEYS then [CLIENT] + Names(n + 1) else Names(n + 1)
  {
    NewName(n);
    RunOk(calls);
    RunStep(calls, Ask(Name(n)));
    hide Run, After, Names, Name, Ok;
    NewKeyOrder(Run(calls), Ask(Name(n)));
    assert [CLIENT] + Names(n) + [Name(n)] == [CLIENT] + Names(n + 1);
  }

  lemma RunStep(calls: seq<Call>, c: Call)
    ensures Run(calls + [c]) == After(Run(calls), c).0
  {
    assert (calls + [c])[..|calls|] == calls;
    hide After;
  }

  /** Only the client's first call is an accepted one of it. */
  lemma {:induction false} CrowdLog(n: nat)
    ensures Log(Crowd(n), CLIENT) == [0.0]
  {
    if n == 0 {
      FirstCall();
    } else {
      CrowdLog(n - 1);
      NewName(n - 1);
      LogAppend(Crowd(n - 1), Ask(Name(n - 1)), CLIENT);
      hide Log, Names, Name, Allows;
    }
  }

  /** All calls come at once and carry the rule. */
  lemma {:induction false} CrowdRule(n: nat)
    ensures forall m :: 0 <= m < |Crowd(n)| ==>
      Crowd(n)[m].now == 0.0 && Crowd(n)[m].limit == 1 && Crowd(n)[m].window == 60.0
  {
    if n > 0 {
      CrowdRule(n - 1);
      hide Name;
    }
  }

  lemma FirstCall()
    ensures Run([Ask(CLIENT)]).order == [CLIENT] + Names(0) && Log([Ask(CLIENT)], CLIENT) == [0.0]
  {
    assert [Ask(CLIENT)][..0] == [];
    assert Run([]) == Table(map[], []);
    assert Touch(Table(map[], []), CLIENT) == Table(map[CLIENT := []], [CLIENT]);
    assert Allows([], Ask(CLIENT));
  }

  lemma NewKeyOrder(t: Table, c: Call)
    requires Ok(t) && c.key !in t.order
    ensures After(t, c).0.order ==
      if |t.order| < MAX_TRACKED_KEYS then t.order + [c.key] else (t.order + [c.key])[1..]
  {
  }

  /** MAX_TRACKED_KEYS other keys are enough: after them the client, limited to one call in 60
      seconds, is let through a second time within the same instant. */
  lemma BoundIsTight()
    ensures var calls := Crowd(MAX_TRACKED_KEYS);
      && Clocked(calls + [Ask(CLIENT)]) && HasRule(calls, CLIENT, 1, 60.0)
      && |OthersAfter(calls, CLIENT, -60.0)| == MAX_TRACKED_KEYS
      && CountIn(Log(calls, CLIENT), -60.0, 0.0) == 1 && Allows(calls, Ask(CLIENT))
  {
    var calls := Crowd(MAX_TRACKED_KEYS);
    CrowdTable(MAX_TRACKED_KEYS);
    CrowdLog(MAX_TRACKED_KEYS);
    CrowdRule(MAX_TRACKED_KEYS);
    CrowdOthers(MAX_TRACKED_KEYS);
    ClientGone(calls);
    hide Run, Crowd, Log, Names, Name, Clocked, HasRule, OthersAfter, Allows;
    CountOne();
    FlatClock(calls, Ask(CLIENT));
  }

  lemma FlatClock(calls: seq<Call>, c: Call)
    requires c.now == 0.0 && forall m :: 0 <= m < |calls| ==> calls[m].now == 0.0
    ensures Clocked(calls + [c])
  {
  }

  lemma CountOne()
    ensures CountIn([0.0], -60.0, 0.0) == 1
  {
    assert [0.0][..0] == [];
  }

  lemma ClientGone(calls: seq<Call>)
    requires Run(calls).order == Names(MAX_TRACKED_KEYS)
    ensures Allows(calls, Ask(CLIENT))
  {
    RunOk(calls);
    forall k | 0 <= k < MAX_TRACKED_KEYS
      ensures Names(MAX_TRACKED_KEYS)[k] != CLIENT
    {
      NewName(k);
    }
    assert CLIENT !in Run(calls).order;
    NotInTable(calls, CLIENT);
    AllowsByKept(calls, Ask(CLIENT));
    hide Run, Names;
  }

  lemma {:induction false} CrowdOthers(n: nat)
    ensures |OthersAfter(Crowd(n), CLIENT, -60.0)| == n
    ensures forall k :: k in OthersAfter(Crowd(n), CLIENT, -60.0) <==> k in Names(n)
  {
    if n == 0 {
      assert OthersAfter(Crowd(0), CLIENT, -60.0) == {};
    } else {
      CrowdOthers(n - 1);
      OneMoreOther(Crowd(n - 1), n - 1);
    }
  }

  lemma OneMoreOther(calls: seq<Call>, n: nat)
    requires |OthersAfter(calls, CLIENT, -60.0)| == n
    requires forall k :: k in OthersAfter(calls, CLIENT, -60.0) <==> k in Names(n)
    ensures |OthersAfter(calls + [Ask(Name(n))], CLIENT, -60.0)| == n + 1
    ensures forall k :: k in OthersAfter(calls + [Ask(Name(n))], CLIENT, -60.0) <==> k in Names(n + 1)
  {
    hide Names, Name, OthersAfter;
    NewName(n);
    OthersAppend(calls, Ask(Name(n)));
  }

  lemma OthersAppend(calls: seq<Call>, c: Call)
    requires c.key != CLIENT && c.now == 0.0
    ensures OthersAfter(calls + [c], CLIENT, -60.0) == OthersAfter(calls, CLIENT, -60.0) + {c.key}
  {
    assert (calls + [c])[..|calls|] == calls;
    OthersGrow(calls + [c], CLIENT, -60.0);
    assert (calls + [c])[|calls|] == c;
    forall k | k in OthersAfter(calls + [c], CLIENT, -60.0)
      ensures k == c.key || k in OthersAfter(calls, CLIENT, -60.0)
    {
      var n :| 0 <= n < |calls + [c]| && (calls + [c])[n].key == k && k != CLIENT && -60.0 < (calls + [c])[n].now;
      if n < |calls| { assert calls[n] == (calls + [c])[n]; }
    }
  }
}
