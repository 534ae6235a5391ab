/**
  The whole path of messages: tables, pipe, publishing DurConn, broker, subscribing DurConn, handlers.

  The broker stores a published message before it acknowledges it, keeps it for every durable queue of its subject
  that exists at that time, and forgets it for a queue only when that queue acknowledges it.
*/
module EndToEnd {
  import opened Seqs
  import P = PipeModel
  import PI = PipeInvariant
  import D = DurModel
  import DI = DurInvariant

  datatype State = State(
    subjectOf: P.Row -> string,
    pipe: P.State,
    pub: D.State,                     // the DurConn the pipe publishes through
    sub: D.State,                     // the DurConn of the subscriber
    sent: set<P.Row>,                 // publications the library has not answered yet
    confirmable: set<P.Row>,          // ... of which the broker has stored the message
    onWire: set<P.Row>,               // messages the broker may still store
    stored: set<P.Row>,               // messages the broker has stored, ever
    durables: set<D.Key>,             // durable queues that exist
    pending: set<(D.Key, P.Row)>,     // held for the queue, not acknowledged
    tasks: set<(D.Key, P.Row)>,       // delivered to a handler task
    toAck: set<(D.Key, P.Row)>,       // the handler returned nil, not acknowledged yet
    handled: set<(D.Key, P.Row)>)     // a handler call returned nil, ever

  datatype Step =
    | PipeStep(p: P.Step)             // any step of the pipe but a callback
    | PubStep(d: D.Step) | SubStep(d: D.Step)
    | Send(row: P.Row)                // PublishAsync hands the message to the installed connection
    | Refuse(row: P.Row)              // PublishAsync returns an error
    | Store(row: P.Row)
    | PubAck(row: P.Row) | PubFail(row: P.Row)
    | Deliver(key: D.Key, row: P.Row, conn: D.Conn)
    | Handle(key: D.Key, row: P.Row, ok: bool)   // not ok: an error, a panic, or a message that cannot be decoded
    | Ack(key: D.Key, row: P.Row, lost: bool)

  predicate Wants(s: State, k: D.Key, r: P.Row) {
    k.0 == s.subjectOf(r)
  }

  ghost predicate Enabled(s: State, st: Step) {
    match st
    case PipeStep(p) => !p.Callback? && P.Enabled(s.pipe, p)
    case PubStep(d) => D.Enabled(s.pub, d)
    case SubStep(d) => D.Enabled(s.sub, d)
    case Send(r) => r in s.pipe.inflight && r !in s.sent && !s.pub.closed && s.pub.sc.Some?
    case Refuse(r) => r !in s.sent && P.Enabled(s.pipe, P.Callback(r, false))
    case Store(r) => r in s.onWire
    case PubAck(r) => r in s.confirmable && P.Enabled(s.pipe, P.Callback(r, true))
    case PubFail(r) => r in s.sent && P.Enabled(s.pipe, P.Callback(r, false))
    case Deliver(k, r, c) => (k, r) in s.pending && (c, k) in s.sub.subLog && c !in s.sub.shut
    case Handle(k, r, _) => (k, r) in s.tasks
    case Ack(k, r, _) => (k, r) in s.toAck
  }

  // The queue a step of the subscriber subscribes on the server, if it does.
  function Subscribed(d: D.State, st: D.Step): set<D.Key> {
    match st
    case WorkerSubscribe(_, k, true) => {k}
    case Subscribe(k, true) => if !d.closed && k !in d.subs && d.sc.Some? then {k} else {}
    case _ => {}
  }

  ghost function Apply(s: State, st: Step): State
    requires Enabled(s, st)
  {
    match st
    case PipeStep(p) => s.(pipe := P.Apply(s.pipe, p))
    case PubStep(d) => s.(pub := D.Apply(s.pub, d))
    case SubStep(d) =>
      s.(sub := D.Apply(s.sub, d), durables := s.durables + Subscribed(s.sub, d))
    case Send(r) => s.(sent := s.sent + {r}, onWire := s.onWire + {r})
    case Refuse(r) => s.(pipe := P.Apply(s.pipe, P.Callback(r, false)))
    case Store(r) =>
      s.(stored := s.stored + {r}, confirmable := if r in s.sent then s.confirmable + {r} else s.confirmable,
         onWire := s.onWire - {r}, pending := s.pending + set k | k in s.durables && Wants(s, k, r) :: (k, r))
    case PubAck(r) =>
      s.(pipe := P.Apply(s.pipe, P.Callback(r, true)), sent := s.sent - {r}, confirmable := s.confirmable - {r})
    case PubFail(r) =>
      s.(pipe := P.Apply(s.pipe, P.Callback(r, false)), sent := s.sent - {r}, confirmable := s.confirmable - {r})
    case Deliver(k, r, _) => s.(tasks := s.tasks + {(k, r)})
    case Handle(k, r, ok) =>
      if ok then s.(tasks := s.tasks - {(k, r)}, toAck := s.toAck + {(k, r)}, handled := s.handled + {(k, r)})
      else s.(tasks := s.tasks - {(k, r)})
    case Ack(k, r, lost) =>
      s.(toAck := s.toAck - {(k, r)}, pending := if lost then s.pending else s.pending - {(k, r)})
  }

  ghost predicate Init(s: State) {
    && P.Init(s.pipe) && D.Init(s.pub) && D.Init(s.sub)
    && s.sent == s.confirmable == s.onWire == s.stored == {} && s.durables == {}
    && s.pending == s.tasks == s.toAck == s.handled == {}
  }

  // ----- the invariant -----

  // What has reached the broker was inserted.
  ghost predicate Sourced(log: seq<P.Event>, onWire: set<P.Row>, stored: set<P.Row>) {
    forall r :: r in onWire || r in stored ==> P.Insert(r) in log
  }

  ghost predicate Fits(s: State, w: (D.Key, P.Row)) {
    w.1 in s.stored && Wants(s, w.0, w.1)
  }

  // Nothing on the way to a handler was made up.
  ghost predicate Genuine(s: State) {
    && Sourced(s.pipe.log, s.onWire, s.stored)
    && (forall w :: w in s.pending || w in s.tasks || w in s.toAck || w in s.handled ==> Fits(s, w))
  }

  // The library owes the pipe a callback for each message it was given; it confirms only what is stored; queues
  // acknowledge only what was handled; and each successful subscription has made its queue durable.
  ghost predicate Bookkeeping(s: State) {
    && (forall r :: r in s.sent ==> r in s.pipe.inflight)
    && s.confirmable <= s.sent
    && s.confirmable <= s.stored
    && s.toAck <= s.handled
    && (forall w :: w in s.sub.subLog ==> w.1 in s.durables)
  }

  ghost predicate Inv(s: State) {
    PI.Inv(s.pipe) && DI.Inv(s.pub) && DI.Inv(s.sub) && Genuine(s) && Bookkeeping(s)
  }

  // The pipe's part in a step.
  function PipePart(st: Step): seq<P.Step> {
    match st
    case PipeStep(p) => [p]
    case Refuse(r) => [P.Callback(r, false)]
    case PubAck(r) => [P.Callback(r, true)]
    case PubFail(r) => [P.Callback(r, false)]
    case _ => []
  }

  lemma PipeMoves(s: State, st: Step)
    requires Enabled(s, st)
    ensures var ps := PipePart(st);
      if ps == [] then Apply(s, st).pipe == s.pipe else P.Enabled(s.pipe, ps[0]) && Apply(s, st).pipe == P.Apply(s.pipe, ps[0])
  {
  }

  lemma ComponentsKeepInv(s: State, st: Step)
    requires PI.Inv(s.pipe) && DI.Inv(s.pub) && DI.Inv(s.sub) && Enabled(s, st)
    ensures var s' := Apply(s, st); PI.Inv(s'.pipe) && DI.Inv(s'.pub) && DI.Inv(s'.sub)
  {
    PipeMoves(s, st);
    if PipePart(st) != [] { PI.KeepInv(s.pipe, PipePart(st)[0]); }
    if st.PubStep? { DI.KeepInv(s.pub, st.d); }
    if st.SubStep? { DI.KeepInv(s.sub, st.d); }
  }

  lemma InflightWasInserted(p: P.State, r: P.Row)
    requires PI.Inv(p) && r in p.inflight
    ensures P.Insert(r) in p.log
  {
    assert r in multiset(p.accepted);
  }

  lemma LogGrows(s: State, st: Step)
    requires Enabled(s, st)
    ensures s.pipe.log <= Apply(s, st).pipe.log
  {
    PipeMoves(s, st);
    if PipePart(st) != [] { P.LogOnlyGrows(s.pipe, PipePart(st)[0]); }
  }

  lemma KeepSourced(s: State, st: Step)
    requires PI.Inv(s.pipe) && Sourced(s.pipe.log, s.onWire, s.stored) && Enabled(s, st)
    ensures var s' := Apply(s, st); Sourced(s'.pipe.log, s'.onWire, s'.stored)
  {
    LogGrows(s, st);
    if st.Send? { InflightWasInserted(s.pipe, st.row); }
  }

  lemma KeepGenuine(s: State, st: Step)
    requires PI.Inv(s.pipe) && Genuine(s) && Enabled(s, st)
    ensures Genuine(Apply(s, st))
  {
    KeepSourced(s, st);
    forall w | Fits(s, w) ensures Fits(Apply(s, st), w) {}
  }

  // Only a callback takes an entry out of flight, and only its own.
  lemma InflightKept(p: P.State, st: P.Step, r: P.Row)
    requires P.Enabled(p, st) && r in p.inflight && !(st.Callback? && st.row == r)
    ensures r in P.Apply(p, st).inflight
  {
    if st.Callback? {
      assert r in p.inflight - multiset{st.row};
    } else if P.ByProducer(st) {
      assert p.inflight <= P.Apply(p, st).inflight;
    } else if P.ByPost(st) {
      P.PostTouches(p, st);
    }
  }

  lemma KeepBookkeeping(s: State, st: Step)
    requires Bookkeeping(s) && Enabled(s, st)
    ensures Bookkeeping(Apply(s, st))
  {
    PipeMoves(s, st);
    forall r | r in Apply(s, st).sent ensures r in Apply(s, st).pipe.inflight {
      if PipePart(st) != [] && r in s.sent { InflightKept(s.pipe, PipePart(st)[0], r); }
    }
    if st.SubStep? { SubscriptionsKnown(s, st); }
  }

  lemma SubscriptionsKnown(s: State, st: Step)
    requires Bookkeeping(s) && Enabled(s, st) && st.SubStep?
    ensures forall w :: w in Apply(s, st).sub.subLog ==> w.1 in Apply(s, st).durables
  {
    if !st.d.WorkerSubscribe? && !st.d.Subscribe? { assert D.Apply(s.sub, st.d).subLog == s.sub.subLog; }
  }

  lemma KeepInv(s: State, st: Step)
    requires Inv(s) && Enabled(s, st)
    ensures Inv(Apply(s, st))
  {
    ComponentsKeepInv(s, st);
    KeepGenuine(s, st);
    KeepBookkeeping(s, st);
  }

  // ----- runs -----

  /** The steps can be taken one after the other, starting in s. */
  ghost predicate CanRun(s: State, steps: seq<Step>)
    decreases |steps|, 0
  {
    steps == [] || (CanRun(s, Front(steps)) && Enabled(Exec(s, Front(steps)), Last(steps)))
  }

  ghost function Exec(s: State, steps: seq<Step>): State
    requires CanRun(s, steps)
    decreases |steps|, 1
  {
    if steps == [] then s else Apply(Exec(s, Front(steps)), Last(steps))
  }

  lemma {:induction false} RunKeepsInv(s: State, steps: seq<Step>)
    requires Inv(s) && CanRun(s, steps)
    ensures Inv(Exec(s, steps))
    decreases |steps|
  {
    if steps != [] {
      RunKeepsInv(s, Front(steps));
      KeepInv(Exec(s, Front(steps)), Last(steps));
    }
  }

  lemma ReachableInv(s: State, steps: seq<Step>)
    requires Init(s) && CanRun(s, steps)
    ensures Inv(Exec(s, steps))
  {
    PI.InitInv(s.pipe);
    DI.InitInv(s.pub);
    DI.InitInv(s.sub);
    RunKeepsInv(s, steps);
  }

  // Runs can be continued by runs.
  lemma {:induction false} RunOn(s: State, steps: seq<Step>, more: seq<Step>)
    requires CanRun(s, steps) && CanRun(Exec(s, steps), more)
    ensures CanRun(s, steps + more) && Exec(s, steps + more) == Exec(Exec(s, steps), more)
  {
    if more == [] {
      assert steps + more == steps;
    } else {
      RunOn(s, steps, Front(more));
      assert Front(steps + more) == steps + Front(more);
    }
  }

  lemma OneStep(s: State, st: Step)
    requires Enabled(s, st)
    ensures CanRun(s, [st]) && Exec(s, [st]) == Apply(s, st)
  {
    assert Front([st]) == [] && CanRun(s, []) && Exec(s, []) == s;
  }

  lemma NoSteps(s: State)
    ensures CanRun(s, []) && Exec(s, []) == s
  {
  }

  // A run that goes on with one more step.
  lemma Then(s: State, t: State, steps: seq<Step>, st: Step) returns (t': State, steps': seq<Step>)
    requires CanRun(s, steps) && t == Exec(s, steps) && Enabled(t, st)
    ensures CanRun(s, steps') && t' == Exec(s, steps') == Apply(t, st)
  {
    OneStep(t, st);
    RunOn(s, steps, [st]);
    t', steps' := Apply(t, st), steps + [st];
  }

  // ----- no loss -----

  // The row's deletion from its table has happened, or a positive result that may lead to it is on its way.
  ghost predicate DeletionDue(s: State, r: P.Row) {
    r in s.confirmable || DeletionDueInPipe(s.pipe, r)
  }

  ghost predicate DeletionDueInPipe(p: P.State, r: P.Row) {
    P.Delete(r) in p.log || P.Entry(r, true) in p.queue || p.post == P.Holding(P.Entry(r, true))
  }

  // The broker holds the message for the queue, or a handler call has returned nil for it.
  predicate HeldOrHandled(s: State, k: D.Key, r: P.Row) {
    (k, r) in s.pending || (k, r) in s.handled
  }

  ghost predicate Secured(s: State, k: D.Key, r: P.Row) {
    DeletionDue(s, r) ==> HeldOrHandled(s, k, r)
  }

  // The message was inserted, is in no table, and nobody will hand it to the queue's handler.
  ghost predicate Lost(s: State, k: D.Key, r: P.Row) {
    P.Insert(r) in s.pipe.log && r !in P.Replay(s.pipe.log) && !HeldOrHandled(s, k, r)
  }

  lemma DueByPost(p: P.State, st: P.Step, r: P.Row)
    requires P.Enabled(p, st) && P.ByPost(st) && DeletionDueInPipe(P.Apply(p, st), r)
    ensures DeletionDueInPipe(p, r)
  {
    match st
    case Settle(_) =>
    case Receive => P.LogOnlyGrows(p, st);
    case Release => P.LogOnlyGrows(p, st);
    case PostExit => P.LogOnlyGrows(p, st);
  }

  lemma DueByCallbackOnly(p: P.State, st: P.Step, r: P.Row)
    requires P.Enabled(p, st) && P.ByCallback(st) && DeletionDueInPipe(P.Apply(p, st), r)
    ensures DeletionDueInPipe(p, r) || st == P.Callback(r, true)
  {
    P.CallbackTouches(p, st);
  }

  // A deletion becomes due only by a positive callback.
  lemma DueByCallback(p: P.State, st: P.Step, r: P.Row)
    requires P.Enabled(p, st) && DeletionDueInPipe(P.Apply(p, st), r)
    ensures DeletionDueInPipe(p, r) || st == P.Callback(r, true)
  {
    if P.ByProducer(st) {
      P.ProducerTouches(p, st);
    } else if P.ByRunOrWorld(st) {
      P.RunOrWorldTouches(p, st);
    } else if P.ByCallback(st) {
      DueByCallbackOnly(p, st, r);
    } else {
      DueByPost(p, st, r);
    }
  }

  lemma KeepSecured(s: State, st: Step, k: D.Key, r: P.Row)
    requires s.toAck <= s.handled && Enabled(s, st) && k in s.durables && Wants(s, k, r) && Secured(s, k, r)
    ensures Secured(Apply(s, st), k, r)
  {
    PipeMoves(s, st);
    if PipePart(st) != [] && DeletionDueInPipe(Apply(s, st).pipe, r) { DueByCallback(s.pipe, PipePart(st)[0], r); }
  }

  lemma {:induction false} RunKeepsSecured(s: State, steps: seq<Step>, k: D.Key, r: P.Row)
    requires Inv(s) && CanRun(s, steps) && k in s.durables && Wants(s, k, r) && Secured(s, k, r)
    ensures var t := Exec(s, steps); Inv(t) && k in t.durables && Wants(t, k, r) && Secured(t, k, r) && !Lost(t, k, r)
    decreases |steps|
  {
    if steps != [] {
      RunKeepsSecured(s, Front(steps), k, r);
      KeepSecured(Exec(s, Front(steps)), Last(steps), k, r);
    }
    RunKeepsInv(s, steps);
    PI.ReplayIsInsertedNotDeleted(Exec(s, steps).pipe.log, r);
  }

  lemma EntryWasInserted(p: P.State, e: P.Entry)
    requires PI.Inv(p) && (e in p.queue || p.post == P.Holding(e))
    ensures P.Insert(e.row) in p.log
  {
    if e in p.queue {
      var i :| 0 <= i < |p.queue| && p.queue[i] == e;
      assert PI.Rows(p.queue)[i] == e.row;
      assert e.row in multiset(PI.Rows(p.queue));
    }
    assert e.row in multiset(p.accepted);
  }

  // What has not been inserted is secured.
  lemma NewIsSecured(s: State, k: D.Key, r: P.Row)
    requires Inv(s) && P.Insert(r) !in s.pipe.log
    ensures Secured(s, k, r)
  {
    if P.Entry(r, true) in s.pipe.queue || s.pipe.post == P.Holding(P.Entry(r, true)) {
      EntryWasInserted(s.pipe, P.Entry(r, true));
    }
  }

  /** No loss, end to end: a message inserted after its durable queue came to exist is, in every state from then on, still in
      its table, or held for the queue, or a handler call of the queue has returned nil for it; over any number of
      restarts, reconnects, failures and panics. */
  lemma {:induction false} NoLoss(s0: State, steps: seq<Step>, later: seq<Step>, k: D.Key, r: P.Row)
    requires Init(s0) && CanRun(s0, steps) && CanRun(Exec(s0, steps), later)
    requires var s := Exec(s0, steps); k in s.durables && Wants(s, k, r) && P.Insert(r) !in s.pipe.log
    ensures var t := Exec(Exec(s0, steps), later);
      P.Insert(r) in t.pipe.log ==> r in P.Replay(t.pipe.log) || (k, r) in t.pending || (k, r) in t.handled
  {
    ReachableInv(s0, steps);
    NewIsSecured(Exec(s0, steps), k, r);
    RunKeepsSecured(Exec(s0, steps), later, k, r);
  }

  /** No invention: a handler is only ever called for an inserted message of its queue's subject. */
  lemma {:induction false} HandledWasInserted(s0: State, steps: seq<Step>, r: P.Row, k: D.Key)
    requires Init(s0) && CanRun(s0, steps)
    requires var s := Exec(s0, steps); (k, r) in s.tasks || (k, r) in s.handled
    ensures var s := Exec(s0, steps); P.Insert(r) in s.pipe.log && Wants(s, k, r)
  {
    ReachableInv(s0, steps);
    assert Fits(Exec(s0, steps), (k, r));
  }
}
