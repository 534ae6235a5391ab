/**
  The code of stanmsg's DurConn, as methods over its mutable fields.

  As in MsgPipeCode, the ghost field `s` is the state of the transition system and `trace` the steps taken so far;
  Valid() says that replaying the trace gives `s`, and that the four mutable fields agree with it.
  Interference by the other goroutines is let in wherever the code holds no lock on the fields.
*/
module DurConnCode {
  import opened Wrappers
  import opened Seqs
  import opened DurModel
  import opened DurInvariant
  import opened DurTheorems

  datatype Error = ErrClosed | ErrDupSubscription | ErrNotConnected | EncodeError | LibraryError

  // How a connect task ends.
  datatype Outcome = FoundClosed | Retrying | Installed(conn: Conn) | Discarded(conn: Conn)

  datatype Published = Refused(error: Error) | Forwarded(conn: Conn)

  // A subscription is known by its handler here.
  type Handler = nat

  class DurConn {
    var closed: bool
    var subs: map<Key, Handler>
    var sc: Option<Conn>
    var scStaleCh: Option<Conn>   // pairs with sc

    var next: Conn                // the library's next connection

    ghost var s: State
    ghost var start: State
    ghost var trace: seq<Step>

    ghost predicate Valid()
      reads this
    {
      && Init(start) && CanRun(start, trace) && s == Exec(start, trace)
      && s.closed == closed && s.subs == subs.Keys && s.sc == sc && scStaleCh == sc
      && forall c :: c in s.born ==> c < next
    }

    twostate predicate Took(st: Step)
      reads this
    {
      && old(Enabled(s, st)) && s == Apply(old(s), st)
      && trace == old(trace) + [st] && start == old(start)
    }

    // Steps were taken, and no subscription was dropped or replaced.
    twostate predicate Progressed()
      reads this
    {
      && Valid() && start == old(start) && old(trace) <= trace && (old(closed) ==> closed)
      && forall k :: k in old(subs) ==> k in subs && subs[k] == old(subs)[k]
    }

    // What has happened stays so.
    twostate lemma Grown()
      requires Progressed() && old(Valid())
      ensures old(s.born) <= s.born && old(s.shut) <= s.shut && old(s.stale) <= s.stale
    {
      LaterState(start, old(trace), trace);
    }

    lemma Facts()
      requires Valid()
      ensures !s.crashed
      ensures Inv(s)
    {
      ReachableInv(start, trace);
    }

    ghost method Record(st: Step)
      requires Init(start) && CanRun(start, trace) && s == Exec(start, trace) && Enabled(s, st)
      modifies `s, `trace
      ensures Took(st) && CanRun(start, trace) && s == Exec(start, trace)
    {
      trace := trace + [st];
      assert Front(trace) == old(trace);
      s := Apply(s, st);
    }

    constructor ()
      ensures Valid() && !closed && subs == map[] && sc.None? && trace == []
    {
      closed, subs, sc, scStaleCh, next := false, map[], None, None, 0;
      var s0 := State(false, {}, None, 1, Free, {}, {}, NotCalled, 1, false, {}, {}, {}, {}, []);
      s, start, trace := s0, s0, [];
    }

    // ----- other goroutines -----

    // Steps that touch no field: workers, loss reports, and the library calls made by Close.
    predicate Invisible(st: Step) {
      st.WorkerSubscribe? || st.WorkerStale? || st.WorkerDone? || st.Lost? || st.CloserConn? || st.CloserStale?
    }

    lemma InvisibleSteps(t: State, st: Step)
      requires Enabled(t, st) && Invisible(st)
      ensures var t' := Apply(t, st);
        t'.closed == t.closed && t'.subs == t.subs && t'.sc == t.sc && t'.born == t.born && t'.active == t.active
    {
    }

    ghost method Elsewhere(st: Step)
      requires Valid()
      modifies `s, `trace
      ensures Progressed() && s.active == old(s.active)
    {
      if Enabled(s, st) && Invisible(st) {
        InvisibleSteps(s, st);
        Record(st);
      }
    }

    // Whatever may happen while a connect task holds connectMu but not the lock on the fields.
    method Interfere()
      requires Valid()
      modifies this
      ensures Progressed() && s.active == old(s.active) && (closed || sc == old(sc))
    {
      var n: nat := *;
      while n != 0
        invariant Progressed() && s.active == old(s.active) && (closed || sc == old(sc))
      {
        if {
          case true =>
            ghost var st: Step := *;
            Elsewhere(st);
          case true =>
            var key: Key := *;
            var handler: Handler := *;
            var subscribes: bool := *;
            var _ := SubscribeOne(key, handler, subscribes);
          case true =>
            var _ := CloseRegion();
        }
        n := n - 1;
      }
    }

    // ----- Subscribe -----

    // The library is asked only if there is a connection; without one the subscription is stored for the next.
    method SubscribeOne(key: Key, handler: Handler, subscribes: bool) returns (err: Option<Error>)
      requires Valid()
      modifies this
      ensures Progressed() && s.active == old(s.active)
      ensures closed == old(closed) && sc == old(sc)
      ensures Took(Subscribe(key, subscribes))
      ensures err == if closed then Some(ErrClosed)
                     else if key in old(subs) then Some(ErrDupSubscription)
                     else if sc.Some? && !subscribes then Some(LibraryError)
                     else None
      ensures subs == if err.None? then old(subs)[key := handler] else old(subs)
      ensures s.subLog == if err.None? && sc.Some? then old(s.subLog) + [(sc.value, key)] else old(s.subLog)
    {
      Facts();
      Record(Subscribe(key, subscribes));
      if closed {
        return Some(ErrClosed);
      }
      if key in subs {
        return Some(ErrDupSubscription);
      }
      if sc.Some? {
        if !subscribes {
          return Some(LibraryError);
        }
      }
      subs := subs[key := handler];
      return None;
    }

    // ----- publishing -----

    // The message, if it was encoded, goes to the installed connection, which is open.
    method PublishAsync(encoded: bool) returns (r: Published)
      requires Valid()
      ensures r.Forwarded? <==> encoded && !closed && sc.Some?
      ensures r.Forwarded? ==> sc == Some(r.conn) && r.conn in s.born - s.shut
      ensures r.Refused? ==> r.error == if !encoded then EncodeError else if closed then ErrClosed else ErrNotConnected
    {
      Facts();
      if !encoded {
        return Refused(EncodeError);
      }
      if closed {
        return Refused(ErrClosed);
      }
      match sc
      case None => return Refused(ErrNotConnected);
      case Some(c) => return Forwarded(c);
    }

    // ----- connect -----

    // A connect task that got connectMu.  Unless the DurConn is closed, the old connection is gone for good; then
    // there is a new connection whose worker has every subscription on its list, or a new connect task, or it was
    // closed meanwhile and the new connection is gone too.
    method Connect(connects: bool) returns (r: Outcome)
      requires Valid() && s.active.Free? && 0 < s.waiting
      modifies this
      ensures Progressed() && s.active.Free?
      ensures r.FoundClosed? || r.Discarded? ==> closed
      ensures !r.FoundClosed? ==> (r.Retrying? <==> !connects)
      ensures !r.FoundClosed? && old(sc).Some? ==> old(sc).value in s.stale
      ensures r.Retrying? ==> 0 < s.waiting
      ensures r.Installed? ==> r.conn !in old(s.born) && r.conn in s.workers && forall k :: k in old(subs) ==> (r.conn, k) in s.todo
      ensures r.Discarded? ==> r.conn !in old(s.born) && r.conn in s.stale
    {
      AcquireLock();
      Interfere();
      var proceed := ResetConnection();
      if !proceed { return FoundClosed; }
      label reset:
      assert old(sc).Some? ==> old(sc).value in s.stale;
      Grown();
      var c := ConnectCall(connects);
      Grown@reset();
      if c.None? { return Retrying; }
      var installed := UpdateConnection(c.value);
      Grown@reset();
      r := if installed then Installed(c.value) else Discarded(c.value);
    }

    // Releases the old connection, unless the DurConn is closed.
    method ResetConnection() returns (proceed: bool)
      requires Valid() && s.active.Resetting?
      modifies this
      ensures Progressed() && s.active == if proceed then Connecting else Free
      ensures if proceed then !old(closed) else closed
      ensures proceed && old(sc).Some? ==> old(sc).value in s.stale
    {
      var taken;
      proceed, taken := ResetRegion();
      if proceed {
        Interfere();
        if taken.Some? { CloseOldConn(taken.value); }
      }
    }

    // Installs the new connection and starts its worker, or discards it.
    method UpdateConnection(c: Conn) returns (installed: bool)
      requires Valid() && s.active == Connected(c)
      modifies this
      ensures Progressed() && s.active.Free?
      ensures installed ==> c in s.workers && forall k :: k in old(subs) ==> (c, k) in s.todo
      ensures !installed ==> closed && c in s.stale
    {
      Interfere();
      installed := InstallRegion(c);
      Interfere();
      if installed { StartWorker(); } else { DiscardConn(c); }
    }

    method AcquireLock()
      requires Valid() && s.active.Free? && 0 < s.waiting
      modifies this
      ensures Progressed() && s.active.Resetting? && sc == old(sc)
    {
      Facts();
      Record(Lock);
    }

    // Takes the old connection out of the fields.
    method ResetRegion() returns (proceed: bool, out: Option<Conn>)
      requires Valid() && s.active.Resetting?
      modifies this
      ensures Progressed() && Took(Reset)
      ensures proceed == !closed && out == old(sc) && sc.None?
      ensures s.active == if !proceed then Free else if out.Some? then Releasing(out.value) else Connecting
    {
      Facts();
      Record(Reset);
      out := sc;
      if closed { return false, out; }
      sc, scStaleCh := None, None;
      return true, out;
    }

    method CloseOldConn(c: Conn)
      requires Valid() && s.active == Releasing(c)
      modifies this
      ensures Progressed() && s.active.Connecting? && c in s.stale
    {
      Facts();
      Record(CloseOld);
      Interfere();
      Facts();
      KeepLifecycle(s, CloseOldStale);
      Record(CloseOldStale);
      label closed:
      Interfere();
      Grown@closed();
    }

    // stan.Connect hands out a connection that never existed before, or fails.
    method ConnectCall(connects: bool) returns (c: Option<Conn>)
      requires Valid() && s.active.Connecting?
      modifies this
      ensures Progressed()
      ensures s.active == if c.Some? then Connected(c.value) else Free
      ensures c.Some? <==> connects
      ensures c.Some? ==> c.value !in old(s.born)
      ensures c.None? ==> 0 < s.waiting
    {
      Facts();
      if connects {
        c := Some(next);
        Record(ConnectOk(next));
        next := next + 1;
      } else {
        c := None;
        Record(ConnectFail);
      }
    }

    method InstallRegion(c: Conn) returns (installed: bool)
      requires Valid() && s.active == Connected(c)
      modifies this
      ensures Progressed() && Took(Install)
      ensures installed == !closed
      ensures installed ==> sc == Some(c) && s.active == Spawning(c, subs.Keys)
      ensures !installed ==> sc == old(sc) && s.active == Discarding(c)
    {
      Facts();
      Record(Install);
      if closed { return false; }
      sc, scStaleCh := Some(c), Some(c);
      return true;
    }

    method StartWorker()
      requires Valid() && s.active.Spawning?
      modifies this
      ensures Progressed() && Took(Spawn) && s.active.Free?
    {
      Facts();
      Record(Spawn);
    }

    method DiscardConn(c: Conn)
      requires Valid() && s.active == Discarding(c)
      modifies this
      ensures Progressed() && s.active.Free? && c in s.stale
    {
      Facts();
      Record(Discard);
      Interfere();
      Facts();
      Record(DiscardStale);
    }

    // ----- Close -----

    // The region of Close under the lock; only the first caller goes on.
    method CloseRegion() returns (first: bool)
      requires Valid()
      modifies this
      ensures Progressed() && Took(Step.Close) && s.active == old(s.active)
      ensures first == !old(closed) && closed && sc.None?
      ensures first ==> s.closer == if old(sc).Some? then ClosingConn(old(sc).value) else Draining
      ensures !first ==> s == old(s)
    {
      Facts();
      Record(Step.Close);
      if closed { return false; }
      sc, scStaleCh, closed := None, None, true;
      return true;
    }

    // Once closed, no step changes a field any more.
    lemma ClosedFields(t: State, st: Step)
      requires t.closed && t.sc.None? && Enabled(t, st)
      ensures var t' := Apply(t, st); t'.closed && t'.sc.None? && t'.subs == t.subs
    {
    }

    lemma NothingInstalled()
      requires Valid()
      ensures closed ==> sc.None?
    {
      Facts();
    }

    // Any steps but those of Close itself, after it has closed the DurConn.
    method InterfereWhenClosed()
      requires Valid() && closed
      modifies this
      ensures Progressed() && s.closer == old(s.closer)
    {
      var n: nat := *;
      while n != 0
        invariant Progressed() && s.closer == old(s.closer)
      {
        next := next + 1;
        ghost var st: Step := *;
        if Enabled(s, st) && !st.CloserConn? && !st.CloserStale? && !st.CloserReturn? && (st.ConnectOk? ==> st.conn < next) {
          NothingInstalled();
          ClosedFields(s, st);
          Record(st);
        }
        n := n - 1;
      }
    }

    // runner.Close and wg.Wait: the other goroutines run to their end, as CloseCanReturn shows they can.
    ghost method AwaitGoroutines()
      requires Valid() && closed && s.closer.Draining?
      modifies `s, `trace
      ensures Valid() && start == old(start) && old(trace) <= trace
      ensures s.closer.Draining? && s.wg == 0
    {
      Facts();
      var steps := CloseCanReturn(s);
      RunOn(start, trace, steps);
      trace := trace + steps;
      s := Exec(s, steps);
    }

    // The library calls of Close, outside the lock.
    method CloseInstalled()
      requires Valid() && closed && s.closer.ClosingConn?
      modifies this
      ensures Progressed() && s.closer.Draining?
    {
      Facts();
      Record(CloserConn);
      InterfereWhenClosed();
      Facts();
      KeepLifecycle(s, CloserStale);
      Record(CloserStale);
    }

    method Close()
      requires Valid()
      modifies this
      ensures Progressed() && closed && sc.None?
      ensures old(closed) ==> s == old(s)
      ensures !old(closed) ==> s.closer.Returned? && s.workers == {} && s.stale == s.shut == s.born
    {
      var taken := sc;
      var first := CloseRegion();
      if !first { return; }
      InterfereWhenClosed();
      if taken.Some? { CloseInstalled(); }
      InterfereWhenClosed();
      AwaitGoroutines();
      Facts();
      Record(CloserReturn);
      CloseLeavesNothing(start, trace);
    }
  }
}
