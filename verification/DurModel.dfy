/**
  The durable connection of stanmsg as a transition system.

  The goroutines are: connect tasks (any number waiting for connectMu, at most one holding it), one resubscribing
  worker for each installed connection, callers of Subscribe, the caller of Close, and the streaming client
  library, which may report a connection lost at any time.  A step is one region under the lock `mu`, or one
  library call outside of it.
*/
module DurModel {
  import opened Wrappers
  import opened Seqs

  // Connections are numbered in the order the library hands them out; the channel scStaleCh of a connection
  // bears the same number.
  type Conn = nat

  // (subject, queue)
  type Key = (string, string)

  // Where the connect task that holds connectMu stands.
  datatype Active =
    | Free
    | Resetting
    | Releasing(conn: Conn)          // took the old connection out, about to close it
    | ReleasingStale(conn: Conn)     // about to close the old connection's stale channel
    | Connecting
    | Connected(conn: Conn)          // has a new connection, not yet installed
    | Discarding(conn: Conn)         // found the DurConn closed, about to close the new connection
    | DiscardingStale(conn: Conn)
    | Spawning(conn: Conn, snapshot: set<Key>)  // installed, about to start the worker

  datatype Closer = NotCalled | ClosingConn(conn: Conn) | ClosingStale(conn: Conn) | Draining | Returned

  datatype State = State(
    closed: bool,
    subs: set<Key>,
    sc: Option<Conn>,
    waiting: nat,               // connect tasks that have not got connectMu yet
    active: Active,
    workers: set<Conn>,         // live workers
    todo: set<(Conn, Key)>,     // what they have not subscribed yet
    closer: Closer,
    wg: nat,
    crashed: bool,              // a channel was closed twice, or the wait group went negative
    // History
    born: set<Conn>,          // connections ever handed out
    shut: set<Conn>,            // connections closed
    stale: set<Conn>,           // stale channels closed
    lost: set<Conn>,            // connections reported lost
    subLog: seq<(Conn, Key)>)   // successful subscriptions

  datatype Step =
    // connect
    | Lock | Reset | CloseOld | CloseOldStale | ConnectOk(conn: Conn) | ConnectFail
    | Install | Discard | DiscardStale | Spawn
    // workers
    | WorkerSubscribe(conn: Conn, key: Key, ok: bool) | WorkerStale(conn: Conn) | WorkerDone(conn: Conn)
    // Subscribe, Close, and the library
    | Subscribe(key: Key, ok: bool) | Close | CloserConn | CloserStale | CloserReturn
    | Lost(conn: Conn)

  predicate Enabled(s: State, st: Step) {
    && !s.crashed
    && match st
       case Lock => s.active.Free? && 0 < s.waiting
       case Reset => s.active.Resetting?
       case CloseOld => s.active.Releasing?
       case CloseOldStale => s.active.ReleasingStale?
       case ConnectOk(c) => s.active.Connecting? && c !in s.born
       case ConnectFail => s.active.Connecting?
       case Install => s.active.Connected?
       case Discard => s.active.Discarding?
       case DiscardStale => s.active.DiscardingStale?
       case Spawn => s.active.Spawning?
       case WorkerSubscribe(c, k, _) => c in s.workers && (c, k) in s.todo
       case WorkerStale(c) => c in s.workers && c in s.stale
       case WorkerDone(c) => c in s.workers && WorkOf(s, c) == {}
       case Subscribe(_, _) => true
       case Close => true
       case CloserConn => s.closer.ClosingConn?
       case CloserStale => s.closer.ClosingStale?
       case CloserReturn => s.closer.Draining? && s.wg == 0
       case Lost(c) => c in s.born && c !in s.lost
  }

  function WorkOf(s: State, c: Conn): set<(Conn, Key)> {
    set w | w in s.todo && w.0 == c
  }

  // A goroutine ends.
  function Done(s: State): State {
    if s.wg == 0 then s.(crashed := true) else s.(wg := s.wg - 1)
  }

  function CloseStaleCh(s: State, c: Conn): State {
    if c in s.stale then s.(crashed := true) else s.(stale := s.stale + {c})
  }

  // goConnect
  function GoConnect(s: State): State {
    s.(waiting := s.waiting + 1, wg := s.wg + 1)
  }

  function Apply(s: State, st: Step): State
    requires Enabled(s, st)
  {
    match st
    case Lock => s.(active := Resetting, waiting := s.waiting - 1)
    case Reset =>
      if s.closed then Done(s.(active := Free))
      else s.(sc := None, active := if s.sc.Some? then Releasing(s.sc.value) else Connecting)
    case CloseOld => s.(shut := s.shut + {s.active.conn}, active := ReleasingStale(s.active.conn))
    case CloseOldStale => CloseStaleCh(s.(active := Connecting), s.active.conn)
    case ConnectOk(c) => s.(born := s.born + {c}, active := Connected(c))
    case ConnectFail => Done(GoConnect(s.(active := Free)))
    case Install =>
      if s.closed then s.(active := Discarding(s.active.conn))
      else s.(sc := Some(s.active.conn), active := Spawning(s.active.conn, s.subs))
    case Discard => s.(shut := s.shut + {s.active.conn}, active := DiscardingStale(s.active.conn))
    case DiscardStale => Done(CloseStaleCh(s.(active := Free), s.active.conn))
    case Spawn =>
      Done(s.(workers := s.workers + {s.active.conn}, wg := s.wg + 1, active := Free,
              todo := s.todo + set k | k in s.active.snapshot :: (s.active.conn, k)))
    case WorkerSubscribe(c, k, ok) =>
      if ok then s.(todo := s.todo - {(c, k)}, subLog := s.subLog + [(c, k)]) else s
    case WorkerStale(c) => Done(s.(workers := s.workers - {c}, todo := s.todo - WorkOf(s, c)))
    case WorkerDone(c) => Done(s.(workers := s.workers - {c}))
    case Subscribe(k, ok) =>
      if s.closed || k in s.subs then s
      else if s.sc.None? then s.(subs := s.subs + {k})
      else if ok then s.(subs := s.subs + {k}, subLog := s.subLog + [(s.sc.value, k)])
      else s
    case Close =>
      if s.closed then s
      else s.(closed := true, sc := None, closer := if s.sc.Some? then ClosingConn(s.sc.value) else Draining)
    case CloserConn => s.(shut := s.shut + {s.closer.conn}, closer := ClosingStale(s.closer.conn))
    case CloserStale => CloseStaleCh(s.(closer := Draining), s.closer.conn)
    case CloserReturn => s.(closer := Returned)
    case Lost(c) => GoConnect(s.(lost := s.lost + {c}))
  }

  // NewDurConn starts the first connect task.
  ghost predicate Init(s: State) {
    && !s.closed && s.subs == {} && s.sc == None && s.waiting == s.wg == 1 && s.active == Free
    && s.workers == {} && s.todo == {} && s.closer == NotCalled && !s.crashed
    && s.born == s.shut == s.stale == s.lost == {} && s.subLog == []
  }

  /** The steps can be taken one after the other, starting in s. */
  ghost predicate CanRun(s: State, steps: seq<Step>)
    decreases |steps|, 0
  {
    steps == [] || (CanRun(s, Front(steps)) && Enabled(Exec(s, Front(steps)), Last(steps)))
  }

  ghost function Exec(s: State, steps: seq<Step>): State
    requires CanRun(s, steps)
    decreases |steps|, 1
  {
    if steps == [] then s else Apply(Exec(s, Front(steps)), Last(steps))
  }
}
