/** What the durable connection promises, over every interleaving. */
module DurTheorems {
  import opened Wrappers
  import opened Seqs
  import opened DurModel
  import opened DurInvariant

  // ----- ownership -----

  /** Single live connection: at most one connection is open; no channel is closed twice; a stale channel is
      closed only after its connection was taken out and closed. */
  lemma {:induction false} SingleLiveConnection(s0: State, steps: seq<Step>)
    requires Init(s0) && CanRun(s0, steps)
    ensures var s := Exec(s0, steps);
      && |s.born - s.shut| <= 1
      && !s.crashed
      && s.stale <= s.shut <= s.born
      && (s.sc.Some? ==> s.sc.value in s.born - s.shut)
  {
    ReachableInv(s0, steps);
    var s := Exec(s0, steps);
    AtMostOneOpen(s);
  }

  lemma AtMostOneOpen(s: State)
    requires OwnershipAt(s)
    ensures |s.born - s.shut| <= 1
  {
    var live := s.born - s.shut;
    if live != {} {
      var c :| c in live;
      assert Owns(s.sc, s.active, s.closer, c);
      forall d | d in live ensures d == c { assert Owns(s.sc, s.active, s.closer, d); }
      assert live == {c};
    }
  }

  /** When Close has returned, every connection ever opened is closed, with its stale channel, no worker is left,
      and nothing is installed. */
  lemma CloseLeavesNothing(s0: State, steps: seq<Step>)
    requires Init(s0) && CanRun(s0, steps) && Exec(s0, steps).closer.Returned?
    ensures var s := Exec(s0, steps);
      s.sc.None? && s.workers == {} && s.stale == s.shut == s.born
  {
    ReachableInv(s0, steps);
  }

  // One step neither reopens the DurConn nor a connection, nor forgets a subscription.
  lemma Monotone(s: State, st: Step)
    requires Enabled(s, st)
    ensures var s' := Apply(s, st);
      (s.closed ==> s'.closed) && s.born <= s'.born && s.shut <= s'.shut && s.stale <= s'.stale
      && s.subs <= s'.subs && s.subLog <= s'.subLog
  {
  }

  // The run `later` continues the run `steps`.
  lemma {:induction false} LaterState(s0: State, steps: seq<Step>, later: seq<Step>)
    requires CanRun(s0, later) && steps <= later
    ensures CanRun(s0, steps)
    ensures var s, t := Exec(s0, steps), Exec(s0, later);
      (s.closed ==> t.closed) && s.born <= t.born && s.shut <= t.shut && s.stale <= t.stale
      && s.subs <= t.subs && s.subLog <= t.subLog
  {
    if steps != later {
      LaterState(s0, steps, Front(later));
      Monotone(Exec(s0, Front(later)), Last(later));
    }
  }

  /** Once closed, no connection is ever installed again. */
  lemma ClosedForever(s0: State, steps: seq<Step>, later: seq<Step>)
    requires Init(s0) && CanRun(s0, later) && steps <= later
    requires CanRun(s0, steps) && Exec(s0, steps).closed
    ensures Exec(s0, later).closed && Exec(s0, later).sc.None?
  {
    LaterState(s0, steps, later);
    ReachableInv(s0, later);
  }

  // ----- reconnecting -----

  /** Reconnect is never forgotten: while not closed, a missing connection means a connect task is alive, and a lost
      installed connection means one has not reached its reset step yet. */
  lemma ReconnectNotForgotten(s0: State, steps: seq<Step>)
    requires Init(s0) && CanRun(s0, steps) && !Exec(s0, steps).closed
    ensures var s := Exec(s0, steps);
      && (s.sc.None? ==> 0 < s.waiting || s.active.Resetting? || Busy(s.active))
      && (s.sc.Some? && s.sc.value in s.lost ==> 0 < s.waiting || s.active.Resetting?)
  {
    ReachableInv(s0, steps);
  }

  // ----- subscriptions -----

  /** Resubscription completeness: on the installed connection every known key is subscribed, or on the worker's list. */
  lemma {:induction false} ResubscriptionComplete(s0: State, steps: seq<Step>, k: Key)
    requires Init(s0) && CanRun(s0, steps)
    requires var s := Exec(s0, steps); s.sc.Some? && k in s.subs
    ensures var s := Exec(s0, steps);
      || (s.sc.value, k) in s.subLog
      || ((s.sc.value, k) in s.todo && s.sc.value in s.workers)
      || (s.active.Spawning? && s.active.conn == s.sc.value && k in s.active.snapshot)
  {
    ReachableInv(s0, steps);
  }

  /** A worker may drop its list only when its connection can never be the installed one again. */
  lemma {:induction false} DroppedWorkIsNeverNeeded(s0: State, steps: seq<Step>, later: seq<Step>, c: Conn)
    requires Init(s0) && CanRun(s0, later) && steps <= later
    requires CanRun(s0, steps) && Enabled(Exec(s0, steps), WorkerStale(c))
    ensures Exec(s0, later).sc != Some(c)
  {
    LaterState(s0, steps, later);
    ReachableInv(s0, later);
  }

  /** At most one successful subscription for each (subject, queue) on each connection. */
  lemma NoDuplicateSubscription(s0: State, steps: seq<Step>)
    requires Init(s0) && CanRun(s0, steps)
    ensures NoDup(Exec(s0, steps).subLog)
    ensures forall w :: w in Exec(s0, steps).subLog ==> w.1 in Exec(s0, steps).subs
  {
    ReachableInv(s0, steps);
  }

  // ----- healing -----

  // Nothing is under way.
  predicate Quiet(s: State) {
    s.waiting == 0 && s.active.Free? && s.workers == {}
  }

  /** At rest and not closed, a connection is installed that was not reported lost, it is the only open one, and
      every subscription ever accepted is subscribed on it. */
  lemma QuietIsHealthy(s: State, k: Key)
    requires Inv(s) && Quiet(s) && !s.closed
    ensures s.sc.Some? && s.sc.value !in s.lost && s.born - s.shut == {s.sc.value}
    ensures k in s.subs ==> (s.sc.value, k) in s.subLog
  {
    assert forall c :: c in s.born - s.shut <==> Owns(s.sc, s.active, s.closer, c);
  }

  function ActiveWork(closed: bool, active: Active, subs: set<Key>): nat {
    match active
    case Free => 0
    case Resetting => if closed then 1 else 7 + |subs|
    case Releasing(_) => 6 + |subs|
    case ReleasingStale(_) => 5 + |subs|
    case Connecting => 4 + |subs|
    case Connected(_) => 3 + |subs|
    case Spawning(_, snapshot) => 2 + |snapshot|
    case Discarding(_) => 2
    case DiscardingStale(_) => 1
  }

  // A waiting connect task of a closed DurConn only notices that it is closed.
  function TaskWork(s: State): nat {
    if s.closed then 2 else 8 + |s.subs|
  }

  // What is left to do when the library calls succeed and nobody calls Subscribe or Close.
  function Work(s: State): nat {
    s.waiting * TaskWork(s) + ActiveWork(s.closed, s.active, s.subs) + |s.workers| + |s.todo|
  }

  // Steps of a DurConn whose library calls succeed; once it is closed a connect call need not.
  predicate Helpful(closed: bool, st: Step) {
    (if closed then st.ConnectFail? else st.ConnectOk?) ||
    st.Lock? || st.Reset? || st.CloseOld? || st.CloseOldStale? || st.Install? || st.Spawn? ||
    st.Discard? || st.DiscardStale? || (st.WorkerSubscribe? && st.ok) || st.WorkerDone?
  }

  // What the users of the DurConn asked for did not change.
  predicate SameUse(s: State, t: State) {
    t.closed == s.closed && t.subs == s.subs && t.closer == s.closer && (s.closed ==> t.born == s.born && t.sc == s.sc)
  }

  lemma FreshConn(born: set<Conn>) returns (c: Conn)
    ensures c !in born && forall b :: b in born ==> b < c
  {
    if born == {} {
      c := 0;
    } else {
      var b :| b in born;
      var c' := FreshConn(born - {b});
      c := if b < c' then c' else b + 1;
      assert forall x :: x in born ==> x == b || x in born - {b};
    }
  }

  lemma PairsSize(c: Conn, keys: set<Key>)
    ensures |set k | k in keys :: (c, k)| <= |keys|
  {
    if keys != {} {
      var k :| k in keys;
      PairsSize(c, keys - {k});
      var rest := set x | x in keys - {k} :: (c, x);
      assert (set x | x in keys :: (c, x)) == rest + {(c, k)};
    }
  }

  // A step by which the connect tasks and workers get closer to being at rest.
  lemma Heal(s: State) returns (st: Step)
    requires Inv(s) && !Quiet(s)
    ensures Enabled(s, st) && Helpful(s.closed, st)
    ensures SameUse(s, Apply(s, st)) && Work(Apply(s, st)) < Work(s)
  {
    if s.active.Free? {
      st := HealFree(s);
    } else if s.active.Spawning? {
      var c := s.active.conn;
      PairsSize(c, s.active.snapshot);
      st := Spawn;
      assert |s.workers + {c}| == |s.workers| + 1;
    } else {
      st := HealTask(s);
    }
  }

  lemma HealTask(s: State) returns (st: Step)
    requires Lifecycle(s) && !s.active.Free? && !s.active.Spawning?
    ensures Enabled(s, st) && Helpful(s.closed, st)
    ensures SameUse(s, Apply(s, st)) && Work(Apply(s, st)) < Work(s)
  {
    match s.active
    case Resetting => st := Reset;
    case Releasing(_) => st := CloseOld;
    case ReleasingStale(_) => st := CloseOldStale;
    case Connecting =>
      if s.closed {
        st := ConnectFail;
      } else {
        var c := FreshConn(s.born);
        st := ConnectOk(c);
      }
    case Connected(_) => st := Install;
    case Discarding(_) => st := Discard;
    case DiscardingStale(_) => st := DiscardStale;
  }

  lemma HealFree(s: State) returns (st: Step)
    requires Lifecycle(s) && s.active.Free? && !Quiet(s)
    ensures Enabled(s, st) && Helpful(s.closed, st)
    ensures SameUse(s, Apply(s, st)) && Work(Apply(s, st)) < Work(s)
  {
    if 0 < s.waiting {
      st := Lock;
      var each := TaskWork(s);
      assert s.waiting * each == (s.waiting - 1) * each + each;
    } else {
      var c :| c in s.workers;
      if WorkOf(s, c) == {} {
        st := WorkerDone(c);
      } else {
        var w :| w in WorkOf(s, c);
        st := WorkerSubscribe(c, w.1, true);
        assert w == (c, w.1);
      }
    }
  }

  lemma {:induction false} RunFrom(s: State, st: Step, rest: seq<Step>)
    requires Enabled(s, st) && CanRun(Apply(s, st), rest)
    ensures CanRun(s, [st] + rest) && Exec(s, [st] + rest) == Exec(Apply(s, st), rest)
  {
    if rest == [] {
      assert [st] + rest == [st] && Front([st]) == [] && CanRun(s, []) && Exec(s, []) == s;
    } else {
      RunFrom(s, st, Front(rest));
      assert Front([st] + rest) == [st] + Front(rest);
    }
  }

  // Runs can be continued by runs.
  lemma {:induction false} RunOn(s: State, steps: seq<Step>, more: seq<Step>)
    requires CanRun(s, steps) && CanRun(Exec(s, steps), more)
    ensures CanRun(s, steps + more) && Exec(s, steps + more) == Exec(Exec(s, steps), more)
  {
    if more == [] {
      assert steps + more == steps;
    } else {
      RunOn(s, steps, Front(more));
      assert Front(steps + more) == steps + Front(more);
    }
  }

  lemma NoSteps(s: State)
    ensures CanRun(s, []) && Exec(s, []) == s
  {
  }

  /** The connect tasks and workers come to rest in finitely many steps if their library calls succeed; once the DurConn is
      closed, without another connection. */
  lemma {:induction false} Settles(s: State) returns (steps: seq<Step>)
    requires Inv(s)
    ensures CanRun(s, steps) && |steps| <= Work(s)
    ensures forall st :: st in steps ==> Helpful(s.closed, st)
    ensures var t := Exec(s, steps); Inv(t) && Quiet(t) && SameUse(s, t)
    decreases Work(s)
  {
    if Quiet(s) {
      NoSteps(s);
      steps := [];
    } else {
      var st := Heal(s);
      KeepInv(s, st);
      var rest := Settles(Apply(s, st));
      RunFrom(s, st, rest);
      steps := [st] + rest;
    }
  }

  /** Self-healing: from every reachable state that is not closed, finitely many successful library calls lead to
      rest, where an unlost connection carries every subscription. */
  lemma Heals(s: State) returns (steps: seq<Step>)
    requires Inv(s) && !s.closed
    ensures CanRun(s, steps) && forall st :: st in steps ==> Helpful(s.closed, st)
    ensures var t := Exec(s, steps);
      Inv(t) && Quiet(t) && t.subs == s.subs && t.sc.Some? && t.sc.value !in t.lost && forall k :: k in s.subs ==> (t.sc.value, k) in t.subLog
  {
    steps := Settles(s);
    var t := Exec(s, steps);
    QuietIsHealthy(t, ("", ""));
    forall k | k in s.subs ensures (t.sc.value, k) in t.subLog { QuietIsHealthy(t, k); }
  }

  /** A subscription takes hold: from every reachable open state, connected or not, subscribing a new key, if the library
      accepts it, and successful library calls afterwards lead to rest, where the connection carries the key. */
  lemma SubscriptionTakesHold(s: State, k: Key) returns (steps: seq<Step>)
    requires Inv(s) && !s.closed && k !in s.subs
    ensures CanRun(s, [Subscribe(k, true)] + steps) && forall st :: st in steps ==> Helpful(s.closed, st)
    ensures var t := Exec(s, [Subscribe(k, true)] + steps);
      Quiet(t) && t.sc.Some? && t.sc.value !in t.lost && (t.sc.value, k) in t.subLog && t.subs == s.subs + {k}
  {
    KeepInv(s, Subscribe(k, true));
    steps := Heals(Apply(s, Subscribe(k, true)));
    RunFrom(s, Subscribe(k, true), steps);
  }

  /** Close can always return: once it waits for the goroutines, they can finish. */
  lemma CloseCanReturn(s: State) returns (steps: seq<Step>)
    requires Inv(s) && s.closer.Draining?
    ensures CanRun(s, steps) && Enabled(Exec(s, steps), CloserReturn)
    ensures Inv(Exec(s, steps)) && SameUse(s, Exec(s, steps))
  {
    steps := Settles(s);
  }
}
