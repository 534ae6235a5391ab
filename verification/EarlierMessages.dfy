/**
  The limit of the guarantee: a broker keeps nothing for a durable queue that does not exist yet.  So a message may be lost for a
  queue exactly if its deletion from the table was already due when the queue came to exist.
*/
module EarlierMessages {
  import opened Wrappers
  import opened Seqs
  import P = PipeModel
  import PI = PipeInvariant
  import PT = PipeTheorems
  import D = DurModel
  import DI = DurInvariant
  import DT = DurTheorems
  import opened EndToEnd
  import opened Delivery

  // How far a due deletion is from happening.
  function DueWork(s: State, r: P.Row): nat {
    4 * |s.pipe.queue| + PT.PostWork(s.pipe.post) + if r in s.confirmable then 5 else 0
  }

  // The post-processor's next step, in which the row itself is deleted and others are not.
  function PostStep(p: P.State, r: P.Row): P.Step {
    match p.post
    case Holding(e) => P.Settle(e == P.Entry(r, true))
    case Releasing => P.Release
    case _ => P.Receive
  }

  ghost predicate Closer(p: P.State, p': P.State, r: P.Row) {
    && DeletionDueInPipe(p', r) && P.Insert(r) in p'.log
    && 4 * |p'.queue| + PT.PostWork(p'.post) < 4 * |p.queue| + PT.PostWork(p.post)
  }

  lemma SettleBringsDeletionOn(p: P.State, r: P.Row)
    requires !p.crashed && p.dbOpen && p.post.Holding? && r in P.Replay(p.log)
    requires DeletionDueInPipe(p, r) && P.Insert(r) in p.log && P.Delete(r) !in p.log
    ensures P.Enabled(p, PostStep(p, r)) && Closer(p, P.Apply(p, PostStep(p, r)), r)
  {
    if p.post.entry == P.Entry(r, true) {
      assert P.Apply(p, P.Settle(true)).log == p.log + [P.Delete(r)];
    } else {
      assert P.Apply(p, P.Settle(false)).log == p.log;
    }
  }

  lemma ReceiveBringsDeletionOn(p: P.State, r: P.Row)
    requires PI.Inv(p) && !p.post.Holding? && DeletionDueInPipe(p, r) && P.Insert(r) in p.log && P.Delete(r) !in p.log
    ensures P.Enabled(p, PostStep(p, r)) && Closer(p, P.Apply(p, PostStep(p, r)), r)
  {
    if p.post.Receiving? { assert p.queue == [p.queue[0]] + p.queue[1..]; }
  }

  lemma PostBringsDeletionOn(p: P.State, r: P.Row)
    requires PI.Inv(p) && DeletionDueInPipe(p, r) && P.Insert(r) in p.log && P.Delete(r) !in p.log
    ensures P.Enabled(p, PostStep(p, r)) && Closer(p, P.Apply(p, PostStep(p, r)), r)
  {
    if p.post.Holding? {
      PI.ReplayIsInsertedNotDeleted(p.log, r);
      SettleBringsDeletionOn(p, r);
    } else {
      ReceiveBringsDeletionOn(p, r);
    }
  }

  lemma DueStep(s: State, k: D.Key, r: P.Row) returns (st: Step)
    requires Inv(s) && DeletionDue(s, r) && !HeldOrHandled(s, k, r)
    requires P.Insert(r) in s.pipe.log && P.Delete(r) !in s.pipe.log
    ensures Enabled(s, st) && DueWork(Apply(s, st), r) < DueWork(s, r)
    ensures var t := Apply(s, st); DeletionDue(t, r) && !HeldOrHandled(t, k, r) && P.Insert(r) in t.pipe.log
  {
    if r in s.confirmable {
      st := PubAck(r);
    } else {
      PostBringsDeletionOn(s.pipe, r);
      st := PipeStep(PostStep(s.pipe, r));
    }
  }

  ghost predicate Loses(s: State, k: D.Key, r: P.Row, steps: seq<Step>) {
    CanRun(s, steps) && Lost(Exec(s, steps), k, r)
  }

  // A due deletion can happen before anything else does.
  lemma {:induction false} Lose(s: State, k: D.Key, r: P.Row) returns (steps: seq<Step>)
    requires Inv(s) && P.Insert(r) in s.pipe.log && DeletionDue(s, r) && !HeldOrHandled(s, k, r)
    ensures Loses(s, k, r, steps)
    decreases DueWork(s, r)
  {
    if P.Delete(r) in s.pipe.log {
      PI.ReplayIsInsertedNotDeleted(s.pipe.log, r);
      NoSteps(s);
      steps := [];
    } else {
      var st := DueStep(s, k, r);
      KeepInv(s, st);
      OneStep(s, st);
      var rest := Lose(Apply(s, st), k, r);
      RunOn(s, [st], rest);
      steps := [st] + rest;
    }
  }

  /** Exactly the secured messages are safe: for an inserted message and a durable queue of its subject, some run
      loses the message for the queue if and only if its deletion is due and the broker neither holds it for the queue
      nor has had it handled. */
  lemma {:induction false} MayBeLostIffNotSecured(s: State, k: D.Key, r: P.Row)
    requires Inv(s) && P.Insert(r) in s.pipe.log && k in s.durables && Wants(s, k, r)
    ensures (exists steps :: Loses(s, k, r, steps)) <==> !Secured(s, k, r)
  {
    if Secured(s, k, r) {
      forall steps | Loses(s, k, r, steps) ensures false { RunKeepsSecured(s, steps, k, r); }
    } else {
      var steps := Lose(s, k, r);
    }
  }

  // ----- a message stored before its queue existed -----

  // The only message is inserted and accepted by the pipe.
  lemma Accept(s0: State, r: P.Row) returns (t: State, steps: seq<Step>)
    requires Init(s0) && P.MsgRow(s0.pipe, r)
    ensures CanRun(s0, steps) && t == Exec(s0, steps) && t == s0.(pipe := t.pipe)
    ensures r in t.pipe.inflight && P.Insert(r) in t.pipe.log
  {
    ReachableInv(s0, []);
    OneStep(s0, PipeStep(P.AppInsert(r)));
    var mid, more := Apply(s0, PipeStep(P.AppInsert(r))), [];
    KeepInv(s0, PipeStep(P.AppInsert(r)));
    assert mid.pipe.log == [P.Insert(r)];
    PI.ReplayIsInsertedNotDeleted(mid.pipe.log, r);
    t, more := StartAndFlush(mid, r);
    steps := [PipeStep(P.AppInsert(r))] + more;
    RunOn(s0, [PipeStep(P.AppInsert(r))], more);
  }

  // ... and published, while no durable queue exists.
  lemma StoreEarly(s0: State, r: P.Row) returns (t: State, steps: seq<Step>)
    requires Init(s0) && P.MsgRow(s0.pipe, r)
    ensures CanRun(s0, steps) && t == Exec(s0, steps)
    ensures t == s0.(pipe := t.pipe, pub := t.pub, sent := t.sent, stored := t.stored, confirmable := t.confirmable)
    ensures r in t.confirmable && P.Insert(r) in t.pipe.log
  {
    t, steps := Accept(s0, r);
    ReachableInv(s0, steps);
    var healed, heal := HealPub(t);
    RunOn(s0, steps, heal);
    t, steps := healed, steps + heal;
    t, steps := Then(s0, t, steps, Send(r));
    t, steps := Then(s0, t, steps, Store(r));
    assert t.onWire == {};
  }

  // A subscription makes its queue durable.
  lemma QueueComes(s: State, k: D.Key) returns (t: State, steps: seq<Step>)
    requires Inv(s) && !s.sub.closed && s.sub.sc.None? && k !in s.sub.subs
    ensures CanRun(s, steps) && t == Exec(s, steps) && Inv(t)
    ensures t == s.(sub := t.sub, durables := t.durables) && k in t.durables
  {
    NoSteps(s);
    var mid, heal;
    mid, steps := Then(s, s, [], SubStep(D.Subscribe(k, true)));
    RunKeepsInv(s, steps);
    t, heal := HealSub(mid);
    RunOn(s, steps, heal);
    steps := steps + heal;
    assert (t.sub.sc.value, k) in t.sub.subLog;
  }

  lemma LoseEarly(s0: State, k: D.Key, r: P.Row) returns (steps: seq<Step>)
    requires Init(s0) && P.MsgRow(s0.pipe, r) && Wants(s0, k, r)
    ensures Loses(s0, k, r, steps) && k in Exec(s0, steps).durables && Wants(Exec(s0, steps), k, r)
  {
    var s, t, more;
    s, steps := StoreEarly(s0, r);
    ReachableInv(s0, steps);
    t, more := QueueComes(s, k);
    RunOn(s0, steps, more);
    steps := steps + more;
    more := Lose(t, k, r);
    RunOn(s0, steps, more);
    StaysDurable(t, more, k);
    steps := steps + more;
  }

  /** A run that loses a message for a queue that came to exist after the broker had stored it. */
  lemma EarlierMessageMayBeLost() returns (s0: State, steps: seq<Step>, k: D.Key, r: P.Row)
    ensures Init(s0) && CanRun(s0, steps)
    ensures var s := Exec(s0, steps); k in s.durables && Wants(s, k, r) && Lost(s, k, r)
  {
    var pipe := P.State(1, {("app", "msgs")}, [], false, false, false, true, P.Idle, 0, 0, 0, multiset{}, [], P.Exited, false,
                        0, {}, 0, [], {}, [], multiset{}, multiset{}, multiset{});
    var conn := D.State(false, {}, None, 1, D.Free, {}, {}, D.NotCalled, 1, false, {}, {}, {}, {}, []);
    s0 := State(_ => "greetings", pipe, conn, conn, {}, {}, {}, {}, {}, {}, {}, {}, {});
    k, r := ("greetings", "workers"), P.Row("app", "msgs", 1);
    steps := LoseEarly(s0, k, r);
  }

  lemma {:induction false} StaysDurable(s: State, steps: seq<Step>, k: D.Key)
    requires CanRun(s, steps) && k in s.durables
    ensures k in Exec(s, steps).durables && Exec(s, steps).subjectOf == s.subjectOf
  {
    if steps != [] { StaysDurable(s, Front(steps), k); }
  }
}
