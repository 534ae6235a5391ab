/** The loop of a resubscribing worker, and how it refines the worker's steps of the transition system. */
module Resubscribe {
  import opened Seqs
  import opened DurModel
  import opened DurInvariant
  import opened DurTheorems

  // One call of subscribe, for the subscription at this index.
  datatype Attempt = Attempt(index: nat, ok: bool)

  datatype Outcome = AllSubscribed | StaleSeen | StillRunning

  ghost function Tries(log: seq<Attempt>, i: nat): nat {
    if log == [] then 0 else Tries(Front(log), i) + if Last(log).index == i then 1 else 0
  }

  // An index that succeeded is never tried again.
  ghost predicate NeverRetried(log: seq<Attempt>) {
    forall i, j :: 0 <= i < j < |log| && log[i].ok ==> log[i].index != log[j].index
  }

  lemma TriesNext(log: seq<Attempt>, a: Attempt)
    ensures forall i :: Tries(log + [a], i) == Tries(log, i) + if a.index == i then 1 else 0
  {
    assert Front(log + [a]) == log;
  }

  // The number of leading indices below `upto` that are marked.
  ghost function Marked(success: seq<bool>, upto: nat): nat
    requires upto <= |success|
  {
    if upto == 0 then 0 else Marked(success, upto - 1) + if success[upto - 1] then 1 else 0
  }

  lemma {:induction false} AllMarked(success: seq<bool>, upto: nat)
    requires upto <= |success|
    ensures Marked(success, upto) <= upto
    ensures Marked(success, upto) == upto <==> forall i :: 0 <= i < upto ==> success[i]
  {
    if upto != 0 { AllMarked(success, upto - 1); }
  }

  lemma {:induction false} MarkedFrame(success: seq<bool>, i: nat, b: bool, upto: nat)
    requires upto <= i < |success|
    ensures Marked(success[i := b], upto) == Marked(success, upto)
  {
    if upto != 0 { MarkedFrame(success, i, b, upto - 1); }
  }

  // The marks tell exactly which indices have succeeded, and no attempt was wasted.
  ghost predicate Faithful(log: seq<Attempt>, success: seq<bool>) {
    && (forall a :: a in log ==> a.index < |success|)
    && NeverRetried(log)
    && (forall i :: 0 <= i < |success| ==> (success[i] <==> Attempt(i, true) in log))
  }

  // Before index i of a pass, the indices not marked were tried once more than those from i on.
  ghost predicate TriedSoFar(log: seq<Attempt>, success: seq<bool>, pass: nat, i: nat) {
    forall k :: 0 <= k < |success| && !success[k] ==> Tries(log, k) == if k < i then pass + 1 else pass
  }

  lemma AttemptFaithful(log: seq<Attempt>, success: seq<bool>, i: nat, ok: bool)
    requires i < |success| && !success[i] && Faithful(log, success)
    ensures Faithful(log + [Attempt(i, ok)], if ok then success[i := true] else success)
  {
    var log' := log + [Attempt(i, ok)];
    forall k, l | 0 <= k < l < |log'| && log'[k].ok ensures log'[k].index != log'[l].index {
      if l == |log| { assert log'[k] in log && log'[k] == Attempt(log'[k].index, true); }
    }
  }

  lemma AttemptTried(log: seq<Attempt>, success: seq<bool>, pass: nat, i: nat, ok: bool)
    requires i < |success| && TriedSoFar(log, success, pass, i)
    ensures TriedSoFar(log + [Attempt(i, ok)], if ok then success[i := true] else success, pass, i + 1)
  {
    TriesNext(log, Attempt(i, ok));
  }

  // What the world does to the loop: whether the subscribe call of this number succeeds, and whether the look at the
  // stale channel of this number finds it closed.
  datatype World = World(subscribes: nat -> bool, stale: nat -> bool)

  // The attempts ended as the library answered them.
  ghost predicate AsAnswered(log: seq<Attempt>, world: World) {
    log == [] || (AsAnswered(Front(log), world) && Last(log).ok == world.subscribes(|log| - 1))
  }

  ghost predicate NotStaleBefore(world: World, looks: nat) {
    forall i: nat :: i < looks ==> !world.stale(i)
  }

  function Successes(log: seq<Attempt>): nat {
    if log == [] then 0 else Successes(Front(log)) + if Last(log).ok then 1 else 0
  }

  lemma AttemptAnswered(log: seq<Attempt>, world: World, a: Attempt)
    requires AsAnswered(log, world) && a.ok == world.subscribes(|log|)
    ensures AsAnswered(log + [a], world)
    ensures Successes(log + [a]) == Successes(log) + if a.ok then 1 else 0
  {
    assert Front(log + [a]) == log;
  }

  // One call of subscribe, for the subscription at index i.
  method TryOne(world: World, success0: seq<bool>, log0: seq<Attempt>, ghost pass: nat, i: nat)
    returns (success: seq<bool>, log: seq<Attempt>, ok: bool)
    requires i < |success0| && !success0[i] && Faithful(log0, success0) && TriedSoFar(log0, success0, pass, i) && AsAnswered(log0, world)
    ensures |success| == |success0| && Faithful(log, success) && TriedSoFar(log, success, pass, i + 1) && AsAnswered(log, world)
    ensures Successes(log) == Successes(log0) + if ok then 1 else 0
    ensures Marked(success, i + 1) == Marked(success0, i) + if ok then 1 else 0
  {
    ok := world.subscribes(|log0|);
    AttemptFaithful(log0, success0, i, ok);
    AttemptTried(log0, success0, pass, i, ok);
    AttemptAnswered(log0, world, Attempt(i, ok));
    MarkedFrame(success0, i, ok, i);
    log := log0 + [Attempt(i, ok)];
    success := if ok then success0[i := true] else success0;
  }

  // One pass over the subscriptions; n counts those that are subscribed at its end.  After each success it looks at the
  // stale channel.
  method Pass(world: World, success0: seq<bool>, log0: seq<Attempt>, looks0: nat, ghost pass: nat)
    returns (success: seq<bool>, log: seq<Attempt>, looks: nat, n: nat, stale: bool)
    requires Faithful(log0, success0) && TriedSoFar(log0, success0, pass, 0)
    requires AsAnswered(log0, world) && NotStaleBefore(world, looks0)
    ensures |success| == |success0| && Faithful(log, success) && AsAnswered(log, world)
    ensures looks - Successes(log) == looks0 - Successes(log0)
    ensures if stale then 0 < looks && NotStaleBefore(world, looks - 1) && world.stale(looks - 1) else NotStaleBefore(world, looks)
    ensures !stale ==> TriedSoFar(log, success, pass + 1, 0)
    ensures !stale ==> n == Marked(success, |success|)
  {
    success, log, looks, n, stale := success0, log0, looks0, 0, false;
    for i := 0 to |success|
      invariant |success| == |success0| && Faithful(log, success) && AsAnswered(log, world)
      invariant TriedSoFar(log, success, pass, i)
      invariant n == Marked(success, i)
      invariant looks - Successes(log) == looks0 - Successes(log0) && NotStaleBefore(world, looks)
      invariant !stale
    {
      if success[i] {
        n := n + 1;
        continue;
      }
      var ok;
      success, log, ok := TryOne(world, success, log, pass, i);
      if !ok { continue; }
      n := n + 1;
      stale := world.stale(looks);
      looks := looks + 1;
      if stale { return; }
    }
  }

  /** subscribeAll over `count` subscriptions, watched for at most `passes` passes.  Nothing is tried again after success; it
      returns exactly when all are subscribed or at the first look that finds the stale channel closed, with one
      look after each success and one in each wait between passes; and each pass tries everything that is left. */
  method SubscribeAll(count: nat, passes: nat, world: World) returns (outcome: Outcome, log: seq<Attempt>, looks: nat)
    ensures forall a :: a in log ==> a.index < count
    ensures NeverRetried(log) && AsAnswered(log, world)
    ensures if outcome.StaleSeen? then 0 < looks && world.stale(looks - 1) && NotStaleBefore(world, looks - 1)
            else NotStaleBefore(world, looks)
    ensures outcome.AllSubscribed? ==> forall i :: 0 <= i < count ==> Attempt(i, true) in log
    ensures outcome.StillRunning? ==> looks == Successes(log) + passes
    ensures outcome.StillRunning? ==> forall i :: 0 <= i < count ==>
      Attempt(i, true) in log || Tries(log, i) == passes
    ensures outcome.StillRunning? && passes != 0 ==> exists i :: 0 <= i < count && Attempt(i, true) !in log
  {
    var success: seq<bool> := seq(count, _ => false);
    log, looks := [], 0;
    for pass := 0 to passes
      invariant |success| == count && Faithful(log, success) && AsAnswered(log, world)
      invariant TriedSoFar(log, success, pass, 0)
      invariant looks == Successes(log) + pass && NotStaleBefore(world, looks)
      invariant pass != 0 ==> false in success
    {
      var n, stale;
      success, log, looks, n, stale := Pass(world, success, log, looks, pass);
      if stale { return StaleSeen, log, looks; }
      AllMarked(success, count);
      if count <= n { return AllSubscribed, log, looks; }
      stale := world.stale(looks);
      looks := looks + 1;
      if stale { return StaleSeen, log, looks; }
    }
    return StillRunning, log, looks;
  }

  // ----- refinement of the transition system -----

  ghost function StepsOf(c: Conn, keys: seq<Key>, log: seq<Attempt>): seq<Step>
    requires forall a :: a in log ==> a.index < |keys|
  {
    seq(|log|, i requires 0 <= i < |log| => assert log[i] in log; WorkerSubscribe(c, keys[log[i].index], log[i].ok))
  }

  // What the worker of c has left after these attempts.
  ghost predicate Remaining(s: State, c: Conn, keys: seq<Key>, log: seq<Attempt>) {
    forall k :: (c, k) in s.todo <==> exists i :: 0 <= i < |keys| && keys[i] == k && Attempt(i, true) !in log
  }

  // The steps of the worker of c.
  predicate IsOwn(st: Step, c: Conn) {
    (st.WorkerSubscribe? || st.WorkerStale? || st.WorkerDone?) && st.conn == c
  }

  function Own(c: Conn, steps: seq<Step>): seq<Step> {
    if steps == [] then [] else Own(c, Front(steps)) + if IsOwn(Last(steps), c) then [Last(steps)] else []
  }

  /** A new worker's list is the snapshot it was given. */
  lemma SpawnedWork(s: State, keys: seq<Key>)
    requires Inv(s) && s.active.Spawning? && forall k :: k in keys <==> k in s.active.snapshot
    ensures var c := s.active.conn; c in Apply(s, Spawn).workers && Remaining(Apply(s, Spawn), c, keys, [])
  {
    var c, t := s.active.conn, Apply(s, Spawn);
    forall k ensures (c, k) in t.todo <==> exists i :: 0 <= i < |keys| && keys[i] == k && Attempt(i, true) !in [] {
      assert k in keys <==> exists i :: 0 <= i < |keys| && keys[i] == k && Attempt(i, true) !in [];
    }
  }

  // The worker has made exactly these attempts, in a run that may hold any other steps.
  ghost predicate Attempted(s: State, c: Conn, keys: seq<Key>, log: seq<Attempt>, steps: seq<Step>) {
    && CanRun(s, steps)
    && (forall a :: a in log ==> a.index < |keys|)
    && Own(c, steps) == StepsOf(c, keys, log)
  }

  lemma OwnAttempt(t: State, st: Step, c: Conn, keys: seq<Key>, log: seq<Attempt>)
    requires Inv(t) && c in t.workers && NoDup(keys) && log != [] && Last(log).index < |keys|
    requires Remaining(t, c, keys, Front(log))
    requires st == WorkerSubscribe(c, keys[Last(log).index], Last(log).ok) && Enabled(t, st)
    ensures c in Apply(t, st).workers && Remaining(Apply(t, st), c, keys, log)
  {
    assert Front(log) + [Last(log)] == log;
    RemainingAfter(t, c, keys, Front(log), Last(log));
  }

  lemma {:induction false} ListAfterAttempts(s: State, c: Conn, keys: seq<Key>, log: seq<Attempt>, steps: seq<Step>)
    requires Inv(s) && c in s.workers && NoDup(keys) && Remaining(s, c, keys, []) && Attempted(s, c, keys, log, steps)
    ensures var t := Exec(s, steps); Inv(t) && c in t.workers && Remaining(t, c, keys, log)
    decreases |steps|
  {
    if steps != [] {
      var before, st := Front(steps), Last(steps);
      var mid := Exec(s, before);
      if IsOwn(st, c) {
        assert Front(Own(c, steps)) == Own(c, before) && Last(Own(c, steps)) == st;
        StepsOfFront(c, keys, log);
        ListAfterAttempts(s, c, keys, Front(log), before);
        OwnAttempt(mid, st, c, keys, log);
      } else {
        ListAfterAttempts(s, c, keys, log, before);
        OthersKeepWork(mid, st, c);
      }
      KeepInv(mid, st);
    }
  }

  /** The loop refines the worker, whatever else happens between its attempts: in a run in which the worker has made
      exactly these attempts, its list holds the keys that have not succeeded, and its next step is possible: an
      attempt exactly for such a key, the end of the loop exactly if there is none, and giving up exactly if the stale
      channel is closed. */
  lemma {:induction false} LoopRefinesWorker(s: State, c: Conn, keys: seq<Key>, log: seq<Attempt>, steps: seq<Step>)
    requires Inv(s) && c in s.workers && NoDup(keys) && Remaining(s, c, keys, []) && Attempted(s, c, keys, log, steps)
    ensures var t := Exec(s, steps);
      && Remaining(t, c, keys, log)
      && (forall i, ok :: 0 <= i < |keys| ==> (Enabled(t, WorkerSubscribe(c, keys[i], ok)) <==> Attempt(i, true) !in log))
      && (Enabled(t, WorkerDone(c)) <==> forall i :: 0 <= i < |keys| ==> Attempt(i, true) in log)
      && (Enabled(t, WorkerStale(c)) <==> c in t.stale)
  {
    ListAfterAttempts(s, c, keys, log, steps);
    NextStep(Exec(s, steps), c, keys, log);
  }

  lemma NextStep(t: State, c: Conn, keys: seq<Key>, log: seq<Attempt>)
    requires !t.crashed && c in t.workers && NoDup(keys) && Remaining(t, c, keys, log)
    ensures forall i, ok :: 0 <= i < |keys| ==> (Enabled(t, WorkerSubscribe(c, keys[i], ok)) <==> Attempt(i, true) !in log)
    ensures Enabled(t, WorkerDone(c)) <==> forall i :: 0 <= i < |keys| ==> Attempt(i, true) in log
  {
    if w :| w in WorkOf(t, c) {
      assert w == (c, w.1);
    } else {
      forall i | 0 <= i < |keys| ensures Attempt(i, true) in log {
        assert (c, keys[i]) !in WorkOf(t, c);
      }
    }
  }

  lemma StepsOfFront(c: Conn, keys: seq<Key>, log: seq<Attempt>)
    requires log != [] && forall a :: a in log ==> a.index < |keys|
    ensures forall a :: a in Front(log) ==> a.index < |keys|
    ensures Front(StepsOf(c, keys, log)) == StepsOf(c, keys, Front(log))
    ensures Last(StepsOf(c, keys, log)) == WorkerSubscribe(c, keys[Last(log).index], Last(log).ok)
  {
    assert forall a :: a in Front(log) ==> a in log;
    assert Last(log) in log;
  }

  lemma RemainingAfter(t: State, c: Conn, keys: seq<Key>, before: seq<Attempt>, a: Attempt)
    requires !t.crashed && c in t.workers && NoDup(keys) && Remaining(t, c, keys, before)
    requires a.index < |keys| && Attempt(a.index, true) !in before
    ensures Enabled(t, WorkerSubscribe(c, keys[a.index], a.ok))
    ensures !Apply(t, WorkerSubscribe(c, keys[a.index], a.ok)).crashed && c in Apply(t, WorkerSubscribe(c, keys[a.index], a.ok)).workers
    ensures Remaining(Apply(t, WorkerSubscribe(c, keys[a.index], a.ok)), c, keys, before + [a])
  {
    var t' := Apply(t, WorkerSubscribe(c, keys[a.index], a.ok));
    forall k ensures (c, k) in t'.todo <==> exists i :: 0 <= i < |keys| && keys[i] == k && Attempt(i, true) !in before + [a] {
      if a.ok {
        if (c, k) in t'.todo {
          var i :| 0 <= i < |keys| && keys[i] == k && Attempt(i, true) !in before;
          assert Attempt(i, true) !in before + [a];
        }
      } else {
        assert forall i :: Attempt(i, true) in before + [a] <==> Attempt(i, true) in before;
      }
    }
  }

  /** Nobody else touches the list of a live worker, so its attempts may be interleaved with any other steps. */
  lemma OthersKeepWork(s: State, st: Step, c: Conn)
    requires Inv(s) && Enabled(s, st) && c in s.workers
    requires !(st.WorkerSubscribe? && st.conn == c) && !(st.WorkerStale? && st.conn == c) && !(st.WorkerDone? && st.conn == c)
    ensures c in Apply(s, st).workers
    ensures forall k :: (c, k) in Apply(s, st).todo <==> (c, k) in s.todo
  {
  }
}
