/** The inductive invariant of the durable connection. */
module DurInvariant {
  import opened Wrappers
  import opened Seqs
  import opened DurModel

  // The connect task is between taking the old connection out and installing (or giving up) a new one.
  predicate Busy(active: Active) {
    !active.Free? && !active.Resetting? && !active.Spawning?
  }

  // Somebody has this connection and is to close it, or may still use it.
  predicate Owns(sc: Option<Conn>, active: Active, closer: Closer, c: Conn) {
    || sc == Some(c)
    || active == Releasing(c) || active == Connected(c) || active == Discarding(c)
    || closer == ClosingConn(c)
  }

  // Somebody is about to close this connection's stale channel.
  predicate AboutToGoStale(active: Active, closer: Closer, c: Conn) {
    active == ReleasingStale(c) || active == DiscardingStale(c) || closer == ClosingStale(c)
  }

  // Every open connection has an owner, and there is at most one of them.
  ghost predicate Ownership(born: set<Conn>, shut: set<Conn>, sc: Option<Conn>, active: Active, closer: Closer) {
    && (forall c :: c in shut ==> c in born)
    && (forall c :: c in born && c !in shut <==> Owns(sc, active, closer, c))
    && (Busy(active) ==> sc.None? && !closer.ClosingConn? && !closer.ClosingStale?)
    && (closer.ClosingConn? || closer.ClosingStale? ==> sc.None?)
  }

  ghost predicate StaleChannels(shut: set<Conn>, stale: set<Conn>, active: Active, closer: Closer) {
    && (forall c :: c in stale ==> c in shut)
    && (forall c :: c in shut && c !in stale <==> AboutToGoStale(active, closer, c))
  }

  ghost predicate Lifecycle(s: State) {
    && (s.closed <==> !s.closer.NotCalled?)
    && (s.closed ==> s.sc.None?)
    && (s.active.Discarding? || s.active.DiscardingStale? ==> s.closed)
    && (s.active.Spawning? && !s.closed ==> s.sc == Some(s.active.conn))
    && (s.closer.Returned? ==> !Busy(s.active) && !s.active.Spawning? && s.workers == {})
    && s.wg == s.waiting + (if s.active.Free? then 0 else 1) + |s.workers|
    && s.workers <= s.born
    && s.lost <= s.born
    && !s.crashed
  }

  // A connect task is on its way to notice that there is no connection, or that the connection is lost.
  ghost predicate Reconnecting(closed: bool, sc: Option<Conn>, waiting: nat, active: Active, lost: set<Conn>) {
    && (!closed && sc.None? ==> 0 < waiting || active.Resetting? || Busy(active))
    && (sc.Some? && sc.value in lost ==> 0 < waiting || active.Resetting?)
    && (active.Connected? && active.conn in lost ==> 0 < waiting)
  }

  // Every known subscription is subscribed on the installed connection, or on the list of its worker.
  ghost predicate Complete(subs: set<Key>, sc: Option<Conn>, active: Active, todo: set<(Conn, Key)>, subLog: seq<(Conn, Key)>) {
    sc.Some? ==>
      forall k :: k in subs ==>
        || (sc.value, k) in subLog
        || (sc.value, k) in todo
        || (active.Spawning? && active.conn == sc.value && k in active.snapshot)
  }

  // What is still to be subscribed has not been subscribed, and belongs to a live worker.
  ghost predicate Fresh(s: State) {
    && NoDup(s.subLog)
    && (forall w :: w in s.subLog ==> w.0 in s.born && w.1 in s.subs)
    && (forall w :: w in s.todo ==> w.0 in s.workers && w.1 in s.subs && w !in s.subLog)
    && (s.active.Connected? ==> Untouched(s, s.active.conn))
    && (s.active.Discarding? ==> Untouched(s, s.active.conn))
    && (s.active.Spawning? ==>
         && s.active.conn in s.born
         && s.active.conn !in s.workers
         && s.active.snapshot <= s.subs
         && forall k :: k in s.active.snapshot ==> (s.active.conn, k) !in s.subLog)
  }

  // Nothing has been subscribed on this connection.
  ghost predicate Untouched(s: State, c: Conn) {
    c !in s.workers && forall k :: (c, k) !in s.subLog
  }

  ghost predicate Inv(s: State) {
    && OwnershipAt(s)
    && StaleAt(s)
    && Lifecycle(s)
    && Reconnecting(s.closed, s.sc, s.waiting, s.active, s.lost)
    && Complete(s.subs, s.sc, s.active, s.todo, s.subLog)
    && Fresh(s)
  }

  lemma InitInv(s: State)
    requires Init(s)
    ensures Inv(s)
  {
  }

  ghost predicate OwnershipAt(s: State) {
    Ownership(s.born, s.shut, s.sc, s.active, s.closer)
  }

  ghost predicate StaleAt(s: State) {
    StaleChannels(s.shut, s.stale, s.active, s.closer)
  }

  predicate ClosesConn(st: Step) {
    st.CloseOld? || st.Discard? || st.CloserConn?
  }

  predicate ClosesStaleCh(st: Step) {
    st.CloseOldStale? || st.DiscardStale? || st.CloserStale?
  }

  // A connection passes from the fields to a goroutine, or from a goroutine to the fields.
  lemma PassOwnership(s: State, st: Step)
    requires OwnershipAt(s) && Enabled(s, st) && !ClosesConn(st) && !st.ConnectOk?
    requires s.closed ==> s.sc.None?
    requires s.closed <==> !s.closer.NotCalled?
    ensures OwnershipAt(Apply(s, st))
  {
  }

  // A connection is opened or closed.
  lemma OpenOrCloseOwnership(s: State, st: Step)
    requires OwnershipAt(s) && Enabled(s, st) && (ClosesConn(st) || st.ConnectOk?)
    ensures OwnershipAt(Apply(s, st))
  {
  }

  lemma KeepOwnership(s: State, st: Step)
    requires OwnershipAt(s) && Lifecycle(s) && Enabled(s, st)
    ensures OwnershipAt(Apply(s, st))
  {
    if ClosesConn(st) || st.ConnectOk? {
      OpenOrCloseOwnership(s, st);
    } else {
      PassOwnership(s, st);
    }
  }

  lemma CloseKeepsStale(s: State, st: Step)
    requires OwnershipAt(s) && StaleAt(s) && Enabled(s, st) && (ClosesConn(st) || ClosesStaleCh(st))
    ensures StaleAt(Apply(s, st))
  {
  }

  lemma OthersKeepStale(s: State, st: Step)
    requires OwnershipAt(s) && StaleAt(s) && Enabled(s, st) && !ClosesConn(st) && !ClosesStaleCh(st)
    requires s.closed <==> !s.closer.NotCalled?
    ensures StaleAt(Apply(s, st))
  {
  }

  lemma KeepStale(s: State, st: Step)
    requires OwnershipAt(s) && StaleAt(s) && Lifecycle(s) && Enabled(s, st)
    ensures StaleAt(Apply(s, st))
  {
    if ClosesConn(st) || ClosesStaleCh(st) {
      CloseKeepsStale(s, st);
    } else {
      OthersKeepStale(s, st);
    }
  }

  lemma KeepLifecycle(s: State, st: Step)
    requires Inv(s) && Enabled(s, st)
    ensures Lifecycle(Apply(s, st))
  {
    if st.Spawn? || st.WorkerStale? || st.WorkerDone? {
      WorkersCounted(s, st);
    }
  }

  // The wait group counts the live workers.
  lemma WorkersCounted(s: State, st: Step)
    requires Lifecycle(s) && Enabled(s, st) && (st.Spawn? || st.WorkerStale? || st.WorkerDone?)
    requires s.active.Spawning? ==> s.active.conn in s.born && s.active.conn !in s.workers
    ensures Lifecycle(Apply(s, st))
  {
    if !st.Spawn? { assert |s.workers| == |s.workers - {st.conn}| + 1; }
  }

  lemma KeepReconnecting(s: State, st: Step)
    requires Lifecycle(s) && Reconnecting(s.closed, s.sc, s.waiting, s.active, s.lost) && Enabled(s, st)
    ensures var s' := Apply(s, st); Reconnecting(s'.closed, s'.sc, s'.waiting, s'.active, s'.lost)
  {
  }

  lemma KeepComplete(s: State, st: Step)
    requires Inv(s) && Enabled(s, st)
    ensures var s' := Apply(s, st); Complete(s'.subs, s'.sc, s'.active, s'.todo, s'.subLog)
  {
  }

  lemma WorkerEndsFresh(s: State, st: Step)
    requires Fresh(s) && Enabled(s, st) && (st.WorkerStale? || st.WorkerDone?)
    ensures Fresh(Apply(s, st))
  {
    assert forall w :: w in s.todo && w.0 == st.conn ==> w in WorkOf(s, st.conn);
  }

  lemma SubscribeFresh(s: State, st: Step)
    requires Fresh(s) && Enabled(s, st) && (st.WorkerSubscribe? || st.Subscribe?)
    requires s.workers <= s.born && (s.sc.Some? ==> s.sc.value in s.born)
    requires s.active.Connected? || s.active.Discarding? ==> s.sc.None?
    ensures Fresh(Apply(s, st))
  {
  }

  // A new connection is untouched, and its worker starts with every known subscription.
  lemma ConnectFresh(s: State, st: Step)
    requires Fresh(s) && s.workers <= s.born && Enabled(s, st)
    requires s.active.Connected? ==> s.active.conn in s.born
    requires st.ConnectOk? || st.Install? || st.Spawn?
    ensures Fresh(Apply(s, st))
  {
  }

  lemma OtherFresh(s: State, st: Step)
    requires Fresh(s) && Enabled(s, st)
    requires !st.WorkerStale? && !st.WorkerDone? && !st.WorkerSubscribe? && !st.Subscribe?
    requires !st.ConnectOk? && !st.Install? && !st.Spawn?
    ensures Fresh(Apply(s, st))
  {
  }

  lemma KeepFresh(s: State, st: Step)
    requires Inv(s) && Enabled(s, st)
    ensures Fresh(Apply(s, st))
  {
    if st.WorkerStale? || st.WorkerDone? {
      WorkerEndsFresh(s, st);
    } else if st.WorkerSubscribe? || st.Subscribe? {
      SubscribeFresh(s, st);
    } else if st.ConnectOk? || st.Install? || st.Spawn? {
      ConnectFresh(s, st);
    } else {
      OtherFresh(s, st);
    }
  }

  /** The invariant is inductive. */
  lemma KeepInv(s: State, st: Step)
    requires Inv(s) && Enabled(s, st)
    ensures Inv(Apply(s, st))
  {
    KeepOwnership(s, st);
    KeepStale(s, st);
    KeepLifecycle(s, st);
    KeepReconnecting(s, st);
    KeepComplete(s, st);
    KeepFresh(s, st);
  }

  lemma {:induction false} ReachableInv(s: State, steps: seq<Step>)
    requires Init(s) && CanRun(s, steps)
    ensures Inv(Exec(s, steps))
  {
    if steps == [] {
      InitInv(s);
    } else {
      ReachableInv(s, Front(steps));
      KeepInv(Exec(s, Front(steps)), Last(steps));
    }
  }
}
