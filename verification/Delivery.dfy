/**
  No state is a dead end for a message: whatever has happened to pipe, publisher and subscriber, there is a run in which
  the library calls succeed and the message is handled.
*/
module Delivery {
  import opened Wrappers
  import opened Seqs
  import P = PipeModel
  import PI = PipeInvariant
  import PT = PipeTheorems
  import D = DurModel
  import DI = DurInvariant
  import DT = DurTheorems
  import opened EndToEnd

  // ----- the DurConns by themselves -----

  function SubSteps(ds: seq<D.Step>): seq<Step> {
    seq(|ds|, i requires 0 <= i < |ds| => SubStep(ds[i]))
  }

  function PubSteps(ds: seq<D.Step>): seq<Step> {
    seq(|ds|, i requires 0 <= i < |ds| => PubStep(ds[i]))
  }

  // A run of the subscriber is a run of the whole; it may make further queues durable.
  lemma {:induction false} LiftSub(s: State, ds: seq<D.Step>)
    requires D.CanRun(s.sub, ds)
    ensures CanRun(s, SubSteps(ds))
    ensures var t := Exec(s, SubSteps(ds));
      t == s.(sub := D.Exec(s.sub, ds), durables := t.durables) && s.durables <= t.durables
  {
    if ds != [] {
      LiftSub(s, Front(ds));
      assert Front(SubSteps(ds)) == SubSteps(Front(ds));
    }
  }

  lemma {:induction false} LiftPub(s: State, ds: seq<D.Step>)
    requires D.CanRun(s.pub, ds)
    ensures CanRun(s, PubSteps(ds)) && Exec(s, PubSteps(ds)) == s.(pub := D.Exec(s.pub, ds))
  {
    if ds != [] {
      LiftPub(s, Front(ds));
      assert Front(PubSteps(ds)) == PubSteps(Front(ds));
    }
  }

  // The subscriber has an open connection that carries every subscription.
  ghost predicate Healthy(d: D.State) {
    d.sc.Some? && d.sc.value !in d.shut && forall k :: k in d.subs ==> (d.sc.value, k) in d.subLog
  }

  lemma HealSub(s: State) returns (t: State, steps: seq<Step>)
    requires Inv(s) && !s.sub.closed
    ensures CanRun(s, steps) && t == Exec(s, steps) && Inv(t)
    ensures t == s.(sub := t.sub, durables := t.durables) && s.durables <= t.durables
    ensures t.sub.subs == s.sub.subs && Healthy(t.sub)
  {
    var ds := DT.Heals(s.sub);
    LiftSub(s, ds);
    steps := SubSteps(ds);
    t := Exec(s, steps);
    RunKeepsInv(s, steps);
    assert DI.Owns(t.sub.sc, t.sub.active, t.sub.closer, t.sub.sc.value);
  }

  lemma HealPub(s: State) returns (t: State, steps: seq<Step>)
    requires Inv(s) && !s.pub.closed
    ensures CanRun(s, steps) && t == Exec(s, steps) && Inv(t)
    ensures t == s.(pub := t.pub) && t.pub.sc.Some? && !t.pub.closed
  {
    var ds := DT.Heals(s.pub);
    LiftPub(s, ds);
    steps := PubSteps(ds);
    t := Exec(s, steps);
    RunKeepsInv(s, steps);
  }

  // ----- from the broker to the handler -----

  // Delivered, handled, acknowledged.
  lemma Hand(s: State, k: D.Key, r: P.Row) returns (t: State, steps: seq<Step>)
    requires (k, r) in s.pending && k in s.sub.subs && Healthy(s.sub)
    ensures CanRun(s, steps) && t == Exec(s, steps)
    ensures (k, r) in t.handled && (k, r) !in t.pending && t.pipe == s.pipe
  {
    NoSteps(s);
    t, steps := Then(s, s, [], Deliver(k, r, s.sub.sc.value));
    t, steps := Then(s, t, steps, Handle(k, r, true));
    t, steps := Then(s, t, steps, Ack(k, r, false));
  }

  /** What the broker holds can be handled: from every reachable state of an open subscriber, connected or not, there is
      a run in which a held message of a subscription is handled and acknowledged. */
  lemma HeldIsDeliverable(s: State, k: D.Key, r: P.Row) returns (steps: seq<Step>)
    requires Inv(s) && !s.sub.closed && k in s.sub.subs && (k, r) in s.pending
    ensures CanRun(s, steps)
    ensures var t := Exec(s, steps); (k, r) in t.handled && (k, r) !in t.pending && t.pipe == s.pipe
  {
    var healed, heal := HealSub(s);
    var t, hand := Hand(healed, k, r);
    RunOn(s, heal, hand);
    steps := heal + hand;
  }

  // ----- from the table to the broker -----

  // A step towards the end of the iteration that deletes nothing.
  lemma StopStep(p: P.State) returns (st: P.Step)
    requires PI.Inv(p) && p.dbOpen
    ensures P.Enabled(p, st) && PT.Work(P.Apply(p, st)) < PT.Work(p)
    ensures (st.Callback? ==> !st.ok) && (st.Settle? ==> !st.deleteOk)
    ensures var p' := P.Apply(p, st); p'.log == p.log && p'.tables == p.tables && !p'.phase.Stopped?
  {
    if p.phase.FullDump? || p.phase.IncrDump? {
      st := P.Abort;
    } else {
      st := PT.DeadlockFree(p);
      if st.Callback? { st := P.Callback(st.row, false); }
      if st.Settle? { st := P.Settle(false); }
    }
    PT.InternalStepsDecreaseWork(p, st);
    StopsQuietly(p, st);
  }

  lemma StopsQuietly(p: P.State, st: P.Step)
    requires P.Enabled(p, st) && PT.Internal(st) && !p.phase.Stopped? && (st.Settle? ==> !st.deleteOk)
    ensures var p' := P.Apply(p, st); p'.log == p.log && p'.tables == p.tables && !p'.phase.Stopped?
  {
    if P.ByProducer(st) {
      P.ProducerTouches(p, st);
    } else if P.ByCallback(st) {
      P.CallbackTouches(p, st);
    } else {
      P.PostTouches(p, st);
    }
  }

  // The step of the whole that makes this step of the pipe; a failed callback comes from the library or at once.
  function StopStepOf(s: State, st: P.Step): Step {
    if st.Callback? then (if st.row in s.sent then PubFail(st.row) else Refuse(st.row)) else PipeStep(st)
  }

  lemma StopStepMoves(s: State, st: P.Step)
    requires P.Enabled(s.pipe, st) && (st.Callback? ==> !st.ok)
    ensures Enabled(s, StopStepOf(s, st))
    ensures var t := Apply(s, StopStepOf(s, st)); t == s.(pipe := P.Apply(s.pipe, st), sent := t.sent, confirmable := t.confirmable)
  {
  }

  lemma StopOnce(s: State) returns (st: Step)
    requires Inv(s) && s.pipe.dbOpen
    ensures Enabled(s, st) && PT.Work(Apply(s, st).pipe) < PT.Work(s.pipe)
    ensures var t := Apply(s, st);
      && Inv(t) && t == s.(pipe := t.pipe, sent := t.sent, confirmable := t.confirmable)
      && t.pipe.log == s.pipe.log && t.pipe.tables == s.pipe.tables && !t.pipe.phase.Stopped?
  {
    var p := StopStep(s.pipe);
    st := StopStepOf(s, p);
    StopStepMoves(s, p);
    KeepInv(s, st);
  }

  lemma {:induction false} StopPipe(s: State) returns (t: State, steps: seq<Step>)
    requires Inv(s) && !s.pipe.phase.Stopped?
    ensures CanRun(s, steps) && t == Exec(s, steps) && Inv(t) && t.pipe.phase.Idle?
    ensures t == s.(pipe := t.pipe, sent := t.sent, confirmable := t.confirmable)
    ensures t.pipe.log == s.pipe.log && t.pipe.tables == s.pipe.tables
    decreases PT.Work(s.pipe)
  {
    if s.pipe.dbOpen {
      var first := StopOnce(s);
      OneStep(s, first);
      var rest;
      t, rest := StopPipe(Apply(s, first));
      RunOn(s, [first], rest);
      steps := [first] + rest;
    } else {
      NoSteps(s);
      t, steps := s, [];
    }
  }

  lemma ListOf(rows: set<P.Row>) returns (listing: seq<P.Row>)
    ensures NoDup(listing) && forall r :: r in listing <==> r in rows
  {
    if rows == {} {
      listing := [];
    } else {
      var r :| r in rows;
      var rest := ListOf(rows - {r});
      listing := [r] + rest;
    }
  }

  // Between iterations nothing is in flight and all quota is free.
  lemma IdleIsEmpty(p: P.State)
    requires PI.Inv(p) && p.phase.Idle?
    ensures p.inflight == multiset{} && p.ctrl == 0 && !p.crashed
  {
    assert |p.inflight| == 0;
  }

  // A new iteration starts with a snapshot of this very moment, in which the row comes first.
  lemma StartWith(p: P.State, r: P.Row) returns (st: P.Step)
    requires PI.Inv(p) && p.phase.Idle? && P.MsgRow(p, r) && r in P.Replay(p.log)
    ensures P.Enabled(p, st) && st.Start?
    ensures var p' := P.Apply(p, st); P.Enabled(p', P.Flush) && r in P.Apply(p', P.Flush).inflight
  {
    IdleIsEmpty(p);
    var rest := ListOf((set x | x in P.Replay(p.log) && P.MsgRow(p, x)) - {r});
    assert p.log[..|p.log|] == p.log;
    st := P.Start(|p.log|, [r] + rest);
  }

  lemma StartAndFlush(s: State, r: P.Row) returns (t: State, steps: seq<Step>)
    requires Inv(s) && s.pipe.phase.Idle? && P.MsgRow(s.pipe, r) && r in P.Replay(s.pipe.log)
    ensures CanRun(s, steps) && t == Exec(s, steps) && Inv(t)
    ensures t == s.(pipe := t.pipe) && r in t.pipe.inflight && r !in t.sent && t.pipe.log == s.pipe.log
  {
    IdleIsEmpty(s.pipe);
    var st := StartWith(s.pipe, r);
    NoSteps(s);
    t, steps := Then(s, s, [], PipeStep(st));
    t, steps := Then(s, t, steps, PipeStep(P.Flush));
    RunKeepsInv(s, steps);
  }

  lemma Republish(s: State, k: D.Key, r: P.Row) returns (t: State, steps: seq<Step>)
    requires Inv(s) && s.pipe.phase.Idle? && !s.pub.closed && P.MsgRow(s.pipe, r) && r in P.Replay(s.pipe.log)
    requires k in s.durables && Wants(s, k, r)
    ensures CanRun(s, steps) && t == Exec(s, steps)
    ensures (k, r) in t.pending && t.sub == s.sub
  {
    t, steps := StartAndFlush(s, r);
    var healed, heal := HealPub(t);
    RunOn(s, steps, heal);
    t, steps := healed, steps + heal;
    t, steps := Then(s, t, steps, Send(r));
    t, steps := Then(s, t, steps, Store(r));
  }

  // ----- from the table to the handler -----

  /** A message in its table can be handled: from every reachable state in which nothing is closed for good, there is a run
      that ends the iteration, reconnects both DurConns, republishes the message and hands it to its handler. */
  lemma LiveIsDeliverable(s: State, k: D.Key, r: P.Row) returns (steps: seq<Step>)
    requires Inv(s) && !s.pub.closed && !s.sub.closed && !s.pipe.phase.Stopped?
    requires k in s.sub.subs && Wants(s, k, r) && P.MsgRow(s.pipe, r) && r in P.Replay(s.pipe.log)
    ensures CanRun(s, steps) && (k, r) in Exec(s, steps).handled
  {
    var t, more;
    t, steps := HealSub(s);
    assert (t.sub.sc.value, k) in t.sub.subLog;
    var idle, stop := StopPipe(t);
    RunOn(s, steps, stop);
    steps := steps + stop;
    t, more := Republish(idle, k, r);
    RunOn(s, steps, more);
    steps := steps + more;
    t, more := Hand(t, k, r);
    RunOn(s, steps, more);
    steps := steps + more;
  }

  /** Eventual delivery is always possible: in every reachable state in which nothing is closed for good, each inserted
      message that was inserted after its durable queue, or is secured for it otherwise, has been handled or can be. */
  lemma AlwaysDeliverable(s0: State, steps: seq<Step>, k: D.Key, r: P.Row) returns (more: seq<Step>)
    requires Init(s0) && CanRun(s0, steps)
    requires var s := Exec(s0, steps);
      && !s.pub.closed && !s.sub.closed && !s.pipe.phase.Stopped?
      && k in s.sub.subs && Wants(s, k, r) && Secured(s, k, r)
      && P.Insert(r) in s.pipe.log && P.MsgRow(s.pipe, r)
    ensures CanRun(Exec(s0, steps), more) && (k, r) in Exec(Exec(s0, steps), more).handled
  {
    var s := Exec(s0, steps);
    ReachableInv(s0, steps);
    if (k, r) in s.handled {
      NoSteps(s);
      more := [];
    } else if (k, r) in s.pending {
      more := HeldIsDeliverable(s, k, r);
    } else {
      PI.ReplayIsInsertedNotDeleted(s.pipe.log, r);
      more := LiveIsDeliverable(s, k, r);
    }
  }
}
