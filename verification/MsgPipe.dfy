/**
  The code of binlogmsg's MsgPipe, as methods over its channels, wait groups and contexts.

  The ghost field `s` is the state of the transition system and `trace` the steps taken so far; Valid() says that
  replaying the trace gives `s`, and that the real fields agree with it.  So every method is a run of the
  transition system, and each theorem about runs holds of this code.
  A Go select is a nondeterministic `if`.  Where the code waits, Others() lets the other goroutines move; wherever else
  it may be preempted, Interfere() or InterfereKeeping() lets them, the application and the caller of Run move.
*/
module MsgPipeCode {
  import opened Wrappers
  import opened Seqs
  import opened PipeModel
  import opened PipeInvariant
  import opened PipeTheorems

  // The two kinds of downstream that NewMsgPipe admits.
  datatype Downstream = Async | Sync

  // What the world does to one iteration.
  datatype Env = Env(
    connects: bool,              // the database can be opened
    lag: nat,                    // how far the snapshot is behind the log
    failsAt: Option<nat>,        // the full dump's queries fail before the row of this number, or at the end
    events: nat,                 // how many events the binlog dump hands over before it ends by itself
    answers: Row -> bool)        // downstream returns nil for the row

  function SnapshotAt(log: seq<Event>, lag: nat): nat {
    if lag <= |log| then |log| - lag else 0
  }

  // Every message row of the snapshot, each once.
  ghost predicate IsListing(listing: seq<Row>, tables: set<(string, string)>, log: seq<Event>) {
    NoDup(listing) && forall r :: r in listing <==> (r.schema, r.table) in tables && r in Replay(log)
  }

  // Iterations among the first n that can open the database.
  function Connecting(envs: nat -> Env, n: nat): nat {
    if n == 0 then 0 else Connecting(envs, n - 1) + if envs(n - 1).connects then 1 else 0
  }

  lemma OrderedIsRead(tables: set<(string, string)>, log: seq<Event>, origin: nat, read: nat, listing: seq<Row>, accepted: seq<Row>)
    requires Ordered(tables, log, origin, listing, accepted, IncrDump(origin + read))
    ensures HasRead(tables, log, origin, read, listing, accepted)
  {
  }

  lemma Halves(front: seq<Row>, rest: seq<Row>, all: seq<Row>, n: nat)
    requires front + rest == all && n <= |all| && |rest| == |all| - n
    ensures front == all[..n] && rest == all[n..]
  {
  }

  lemma StaysInTrace(before: seq<Step>, mid: seq<Step>, after: seq<Step>, st: Step)
    requires before <= mid <= after && st in mid[|before|..]
    ensures st in after[|before|..]
  {
    var i :| |before| <= i < |mid| && mid[i] == st;
    assert after[|before|..][i - |before|] == st;
  }

  // After `base`, the message rows of `read` events of the log have been accepted.
  ghost predicate HasRead(tables: set<(string, string)>, log: seq<Event>, origin: nat, read: nat, base: seq<Row>, accepted: seq<Row>) {
    origin + read <= |log| && accepted == base + MessageRows(tables, log, origin, read)
  }

  lemma {:induction false} ReadStays(tables: set<(string, string)>, log: seq<Event>, log': seq<Event>, origin: nat, read: nat,
                                     base: seq<Row>, accepted: seq<Row>)
    requires HasRead(tables, log, origin, read, base, accepted) && log <= log'
    ensures HasRead(tables, log', origin, read, base, accepted)
  {
    SameRows(tables, log, log', origin, read);
  }

  // What one iteration has done: it accepted the rows of the snapshot in the listing's order, then those of the log from
  // there, all of them unless the databases fail or the pipe is to stop.
  ghost predicate Dumped(env: Env, tables: set<(string, string)>, log0: seq<Event>, log: seq<Event>, origin: nat, accepted: seq<Row>,
                         mayStop: bool, listing: seq<Row>, flushed: nat, read: nat) {
    && origin == SnapshotAt(log0, env.lag) <= |log0|
    && IsListing(listing, tables, log0[..origin])
    && flushed <= |listing| && HasRead(tables, log, origin, read, listing[..flushed], accepted)
    && (env.failsAt.Some? ==> flushed <= env.failsAt.value)
    && (flushed < |listing| ==> env.failsAt == Some(flushed) || mayStop)
    && (flushed < |listing| || env.failsAt == Some(flushed) ==> read == 0)
    && (read < env.events ==> env.failsAt == Some(flushed) || mayStop || |log0| <= origin + read)
  }

  class MsgPipe {
    const maxInflight: nat
    const tables: set<(string, string)>
    const downstream: Downstream

    var log: seq<Event>           // the database
    var parentDone: bool
    var cancelled: bool
    var dbOpen: bool
    var entriesClosed: bool
    var ctrlCh: nat               // tokens in the channel
    var pubCbWg: nat
    var undone: nat
    var inflight: multiset<Row>   // what downstream still owes a callback for
    var entryCh: seq<Entry>
    var post: Post                // the post-processing goroutine

    ghost var s: State
    ghost var start: State
    ghost var trace: seq<Step>
    ghost var made: seq<Entry>    // callbacks the pipe itself made, for downstream

    ghost predicate Valid()
      reads this
    {
      && Init(start) && CanRun(start, trace) && s == Exec(start, trace)
      && Agrees(s)
    }

    ghost predicate Agrees(t: State)
      reads this
    {
      && t.maxInflight == maxInflight && t.tables == tables
      && t.log == log && t.parentDone == parentDone && t.cancelled == cancelled && t.dbOpen == dbOpen
      && t.entriesClosed == entriesClosed && t.ctrl == ctrlCh && t.wg == pubCbWg && t.undone == undone
      && t.inflight == inflight && t.queue == entryCh && t.post == post
    }

    // The state moved by exactly this step.
    twostate predicate Took(st: Step)
      reads this
    {
      && old(Enabled(s, st)) && s == Apply(old(s), st)
      && trace == old(trace) + [st] && start == old(start) && made == old(made)
    }

    // Steps were taken.
    twostate predicate Progressed()
      reads this
    {
      Valid() && start == old(start) && old(trace) <= trace && old(log) <= log
    }

    // Steps were taken within one iteration.
    twostate predicate SameIteration()
      reads this
    {
      && Progressed()
      && s.origin == old(s.origin) && s.listing == old(s.listing) && s.iterations == old(s.iterations)
      && old(s.pubFailed) <= s.pubFailed && (old(parentDone) ==> parentDone)
    }

    // Steps were taken, none of them by the producer.
    twostate predicate ProducerStayed()
      reads this
    {
      SameIteration() && s.phase == old(s.phase) && s.accepted == old(s.accepted)
    }

    // ... nor by the producer's goroutine in any other way.
    twostate predicate OthersMoved()
      reads this
    {
      ProducerStayed() && made == old(made)
    }

    // The callbacks the pipe makes itself for a row: the result of a synchronous downstream, and the error that an
    // asynchronous one returns at once.
    function AtOnce(row: Row, accepts: bool): seq<Entry> {
      if downstream.Sync? || !accepts then [Entry(row, accepts)] else []
    }

    // The iteration may stop: the caller of Run is done, or a publication failed.
    ghost predicate MayStop()
      reads this
    {
      parentDone || s.pubFailed != multiset{}
    }

    // Exactly those callbacks were made.
    twostate predicate CalledBack(row: Row, accepts: bool)
      reads this
    {
      && made == old(made) + AtOnce(row, accepts)
      && |old(trace)| <= |trace| && (downstream.Sync? || !accepts ==> Callback(row, accepts) in trace[|old(trace)|..])
    }

    // The parts of the invariant the code itself relies on.
    lemma Facts()
      requires Valid()
      ensures !s.crashed
      ensures inflight != multiset{} ==> !entriesClosed && |entryCh| < maxInflight
      ensures 0 < undone ==> 0 < pubCbWg
      ensures post.Holding? ==> dbOpen
      ensures post.Releasing? ==> 0 < ctrlCh
    {
      ReachableInv(start, trace);
    }

    lemma IdleState()
      requires Valid()
      ensures !s.crashed
    {
      ReachableInv(start, trace);
    }

    lemma Counts()
      requires Valid()
      ensures Counting(s) && Lifecycle(s)
    {
      ReachableInv(start, trace);
    }

    // Before the deferred calls only a failed publication cancels the context.
    lemma Cancelled()
      requires Valid() && Dumping(s.phase)
      ensures cancelled <==> s.pubFailed != multiset{}
    {
      ReachableInv(start, trace);
    }

    // Records a step whose effect on the fields has taken place.
    ghost method Record(st: Step)
      requires Init(start) && CanRun(start, trace) && s == Exec(start, trace) && Enabled(s, st)
      requires Agrees(Apply(s, st))
      modifies `s, `trace
      ensures Took(st) && Valid()
    {
      trace := trace + [st];
      assert Front(trace) == old(trace);
      s := Apply(s, st);
    }

    constructor (maxInflight: nat, tables: set<(string, string)>, downstream: Downstream)
      requires 1 <= maxInflight
      ensures Valid() && s.phase.Idle? && trace == []
      ensures this.maxInflight == maxInflight && this.tables == tables && this.downstream == downstream
    {
      this.maxInflight, this.tables, this.downstream := maxInflight, tables, downstream;
      log, parentDone, cancelled, dbOpen, entriesClosed := [], false, false, false, true;
      ctrlCh, pubCbWg, undone, inflight, entryCh, post := 0, 0, 0, multiset{}, [], Exited;
      var s0 := State(maxInflight, tables, [], false, false, false, true, Idle, 0, 0, 0, multiset{}, [], Exited, false,
                      0, {}, 0, [], {}, [], multiset{}, multiset{}, multiset{});
      s, start, trace, made := s0, s0, [], [];
    }

    // ----- the callback given to downstream -----

    // The result is recorded and sent; the select's default branch would panic.
    method SendResult(row: Row, ok: bool)
      requires Valid() && row in inflight
      modifies this
      ensures Took(Callback(row, ok)) && Valid()
      ensures entryCh == old(entryCh) + [Entry(row, ok)]
    {
      Facts();
      inflight := inflight - multiset{row};
      if !entriesClosed && |entryCh| < maxInflight {
        entryCh := entryCh + [Entry(row, ok)];
      } else {
        assert false;  // panic("Unexpected branch")
      }
      undone := undone + 1;
      Record(Callback(row, ok));
    }

    method DoneCallback()
      requires Valid() && 0 < undone
      modifies this
      ensures Took(CallbackDone) && Valid() && undone == old(undone) - 1
    {
      Facts();
      pubCbWg := pubCbWg - 1;
      undone := undone - 1;
      Record(CallbackDone);
    }

    // ----- the post-processing goroutine -----

    method ReceiveEntry()
      requires Valid() && post.Receiving? && entryCh != []
      modifies this
      ensures Took(Receive) && Valid()
      ensures post == Holding(old(entryCh)[0]) && entryCh == old(entryCh)[1..]
    {
      Facts();
      post := Holding(entryCh[0]);
      entryCh := entryCh[1..];
      Record(Receive);
    }

    // The row is deleted if its publication succeeded, otherwise the context is cancelled.  The error of delMsg is dropped.
    method ProcessEntry(deletes: bool) returns (ghost st: Step)
      requires Valid() && post.Holding?
      modifies this
      ensures Took(st) && st == Settle(old(post.entry.ok) && deletes) && Valid()
      ensures var e := old(post.entry);
        && log == (if e.ok && deletes && e.row in Replay(old(log)) then old(log) + [Delete(e.row)] else old(log))
        && cancelled == (old(cancelled) || !e.ok)
        && post.Releasing? && entryCh == old(entryCh) && ctrlCh == old(ctrlCh)
    {
      if post.entry.ok {
        DeleteMsg(deletes);
      } else {
        PublishFailed();
      }
      st := Settle(old(post.entry.ok) && deletes);
    }

    // The DELETE of a row that is gone succeeds, too.
    method DeleteMsg(ok: bool)
      requires Valid() && post.Holding? && post.entry.ok
      modifies this
      ensures Took(Settle(ok)) && Valid()
      ensures log == if ok && old(post.entry.row) in Replay(old(log)) then old(log) + [Delete(old(post.entry.row))] else old(log)
      ensures post.Releasing? && entryCh == old(entryCh) && ctrlCh == old(ctrlCh) && cancelled == old(cancelled)
    {
      Facts();
      if ok && post.entry.row in Replay(log) {
        log := log + [Delete(post.entry.row)];
      }
      post := Releasing;
      Record(Settle(ok));
    }

    method PublishFailed()
      requires Valid() && post.Holding? && !post.entry.ok
      modifies this
      ensures Took(Settle(false)) && Valid()
      ensures log == old(log) && cancelled && post.Releasing? && entryCh == old(entryCh) && ctrlCh == old(ctrlCh)
    {
      Facts();
      cancelled := true;
      post := Releasing;
      Record(Settle(false));
    }

    method PutBackQuota()
      requires Valid() && post.Releasing?
      modifies this
      ensures Took(Release) && Valid()
      ensures ctrlCh == old(ctrlCh) - 1 && post.Receiving? && entryCh == old(entryCh)
    {
      Facts();
      ctrlCh := ctrlCh - 1;
      post := Receiving;
      Record(Release);
    }

    method PostProcessEnds()
      requires Valid() && post.Receiving? && entryCh == [] && entriesClosed
      modifies this
      ensures Took(PostExit) && Valid() && post.Exited? && cancelled
    {
      Facts();
      post := Exited;
      cancelled := true;
      Record(PostExit);
    }

    // ----- the world outside -----

    method ApplicationInserts(row: Row)
      requires Valid() && Insert(row) !in log
      modifies this
      ensures Took(AppInsert(row)) && Valid()
    {
      Facts();
      log := log + [Insert(row)];
      Record(AppInsert(row));
    }

    // Transaction marks, and statements on other tables.
    method OtherEvent()
      requires Valid()
      modifies this
      ensures Took(AppOther) && Valid()
    {
      Facts();
      log := log + [Other];
      Record(AppOther);
    }

    method CallerCancels()
      requires Valid()
      modifies this
      ensures Took(ParentCancel) && Valid()
    {
      Facts();
      parentDone := true;
      Record(ParentCancel);
    }

    // ----- interleaving -----

    method CallbackMoves() returns (ghost st: Step)
      requires Valid() && (inflight != multiset{} || undone != 0)
      modifies this
      ensures Took(st) && Valid() && (st.Callback? || st.CallbackDone?)
    {
      if {
        case inflight != multiset{} =>
          var row :| row in inflight;
          var ok: bool := *;
          SendResult(row, ok);
          st := Callback(row, ok);
        case undone != 0 =>
          DoneCallback();
          st := CallbackDone;
      }
    }

    method PostProcessMoves() returns (ghost st: Step)
      requires Valid()
      requires post.Holding? || post.Releasing? || (post.Receiving? && (entryCh != [] || entriesClosed))
      modifies this
      ensures Took(st) && Valid() && (st.Receive? || st.Settle? || st.Release? || st.PostExit?)
    {
      match post
      case Holding(_) =>
        var deletes: bool := *;
        st := ProcessEntry(deletes);
      case Releasing =>
        PutBackQuota();
        st := Release;
      case Receiving =>
        if entryCh != [] {
          ReceiveEntry();
          st := Receive;
        } else {
          PostProcessEnds();
          st := PostExit;
        }
    }

    // A callback, or the post-processing goroutine, makes one step.
    method Others()
      requires Valid()
      requires inflight != multiset{} || undone != 0 || post.Holding? || post.Releasing? ||
               (post.Receiving? && (entryCh != [] || entriesClosed))
      modifies this
      ensures OthersMoved()
      ensures Work(s) < old(Work(s))
    {
      Counts();
      ghost var st;
      if {
        case inflight != multiset{} || undone != 0 =>
          st := CallbackMoves();
        case post.Holding? || post.Releasing? || (post.Receiving? && (entryCh != [] || entriesClosed)) =>
          st := PostProcessMoves();
      }
      OthersStep(st);
    }

    twostate lemma OthersStep(st: Step)
      requires Took(st) && Valid() && old(Counting(s) && Lifecycle(s)) && old(s.log == log && s.parentDone == parentDone)
      requires st.Callback? || st.CallbackDone? || st.Receive? || st.Settle? || st.Release? || st.PostExit?
      ensures OthersMoved() && Work(s) < old(Work(s))
    {
      InternalStepsDecreaseWork(old(s), st);
      OthersKeepProducer(old(s), st);
    }

    // Any number of steps by anyone but the producer.
    method Interfere()
      requires Valid()
      modifies this
      ensures OthersMoved()
    {
      InterfereKeeping(multiset{}, 0);
    }

    // The same, except that downstream has not been given `kept` or gives no callback for it, and that `keptDone`
    // callbacks have been preempted before they call Done.
    method InterfereKeeping(kept: multiset<Row>, keptDone: nat)
      requires Valid() && kept <= inflight && keptDone <= undone
      modifies this
      ensures OthersMoved() && kept <= inflight && keptDone <= undone
    {
      var n: nat := *;
      while n != 0
        invariant OthersMoved() && kept <= inflight && keptDone <= undone
      {
        AnyoneMoves(kept, keptDone);
        n := n - 1;
      }
    }

    method AnyoneMoves(kept: multiset<Row>, keptDone: nat)
      requires Valid() && kept <= inflight && keptDone <= undone
      modifies this
      ensures OthersMoved() && kept <= inflight && keptDone <= undone
    {
      if {
        case row: Row :| row in inflight && kept[row] < inflight[row] =>
          var ok: bool := *;
          CallbackSends(row, ok);
        case keptDone < undone =>
          CallbackReturns();
        case post.Holding? || post.Releasing? || (post.Receiving? && (entryCh != [] || entriesClosed)) =>
          PostProcessStays();
        case true =>
          WorldMoves();
      }
    }

    // The parts of a callback.
    method CallbackSends(row: Row, ok: bool)
      requires Valid() && row in inflight
      modifies this
      ensures OthersMoved() && inflight == old(inflight) - multiset{row} && undone == old(undone) + 1
      ensures Callback(row, ok) in trace[|old(trace)|..]
    {
      SendResult(row, ok);
      OthersKeepProducer(old(s), Callback(row, ok));
      assert trace[|old(trace)|] == Callback(row, ok);
    }

    method CallbackReturns()
      requires Valid() && 0 < undone
      modifies this
      ensures OthersMoved() && inflight == old(inflight) && undone == old(undone) - 1
    {
      DoneCallback();
      OthersKeepProducer(old(s), CallbackDone);
    }

    method PostProcessStays()
      requires Valid()
      requires post.Holding? || post.Releasing? || (post.Receiving? && (entryCh != [] || entriesClosed))
      modifies this
      ensures OthersMoved() && inflight == old(inflight) && undone == old(undone)
    {
      ghost var st := PostProcessMoves();
      OthersKeepProducer(old(s), st);
    }

    // The application writes to the database, or the caller of Run cancels.
    method WorldMoves()
      requires Valid()
      modifies this
      ensures OthersMoved() && inflight == old(inflight) && undone == old(undone)
    {
      if {
        case true =>
          var row: Row := *;
          if Insert(row) !in log { ApplicationInserts(row); }
        case true => OtherEvent();
        case true => CallerCancels();
      }
    }

    // ----- the producer -----

    ghost function AfterFlush(phase: Phase): Phase
      requires phase.IncrDump? || (phase.FullDump? && phase.todo != [])
    {
      if phase.FullDump? then FullDump(phase.todo[1..]) else IncrDump(phase.next + 1)
    }

    // The flush closure: wait for quota or cancellation, then hand the entry downstream.
    method Flush(row: Row, env: Env) returns (refused: bool)
      requires Valid() && AtRow(s) && RowAt(s) == row
      modifies this
      ensures SameIteration()
      ensures refused ==> MayStop() && s.phase == old(s.phase) && s.accepted == old(s.accepted) && made == old(made)
      ensures !refused ==> s.phase == AfterFlush(old(s.phase)) && s.accepted == old(s.accepted) + [row]
      ensures !refused ==> CalledBack(row, env.answers(row))
    {
      Interfere();
      AwaitQuota();
      if {
        case cancelled || parentDone =>
          Cancelled();
          return true;
        case ctrlCh < maxInflight =>
          HandDownstream(row, env.answers(row));
          return false;
      }
    }

    // Quota is free: take it and publish.
    method HandDownstream(row: Row, accepts: bool)
      requires Valid() && AtRow(s) && RowAt(s) == row && ctrlCh < maxInflight
      modifies this
      ensures SameIteration() && CalledBack(row, accepts)
      ensures s.phase == AfterFlush(old(s.phase)) && s.accepted == old(s.accepted) + [row]
    {
      TakeQuota(row);
      FlushMsgEntry(row, accepts);
      Interfere();
    }

    // The select blocks while the context is live and ctrlCh is full.
    method AwaitQuota()
      requires Valid()
      modifies this
      ensures OthersMoved() && (cancelled || parentDone || ctrlCh < maxInflight)
    {
      while !cancelled && !parentDone && ctrlCh == maxInflight
        invariant OthersMoved()
        decreases Work(s)
      {
        Counts();
        Others();
      }
      Counts();
    }

    method TakeQuota(row: Row)
      requires Valid() && AtRow(s) && RowAt(s) == row && ctrlCh < maxInflight
      modifies this
      ensures Took(Step.Flush) && Valid() && row in inflight
    {
      Facts();
      ctrlCh, pubCbWg, inflight := ctrlCh + 1, pubCbWg + 1, inflight + multiset{row};
      Record(Step.Flush);
    }

    // Downstream returns nil (accepts) or an error.  The entry gets exactly that as its callback from here if downstream is
    // synchronous, and the error if it is asynchronous; if an asynchronous one returns nil, it owes the callback or
    // has given it already.
    method FlushMsgEntry(row: Row, accepts: bool)
      requires Valid() && row in inflight
      modifies this
      ensures ProducerStayed() && CalledBack(row, accepts)
    {
      match downstream
      case Async =>
        if accepts {
          Interfere();
        } else {
          InterfereKeeping(multiset{row}, 0);
          CallBack(row, false);
        }
      case Sync =>
        InterfereKeeping(multiset{row}, 0);
        CallBack(row, accepts);
    }

    method CallBack(row: Row, ok: bool)
      requires Valid() && row in inflight
      modifies this
      ensures ProducerStayed() && made == old(made) + [Entry(row, ok)]
      ensures Callback(row, ok) in trace[|old(trace)|..]
    {
      CallbackSends(row, ok);
      ghost var sent := trace;
      InterfereKeeping(multiset{}, 1);
      CallbackReturns();
      StaysInTrace(old(trace), sent, trace, Callback(row, ok));
      made := made + [Entry(row, ok)];
    }

    // The callback of fulldump.FullDump: flush every row of the snapshot, in order, until a query fails or a flush is refused.
    method FullDumpRows(listing: seq<Row>, env: Env) returns (failed: bool, flushed: nat)
      requires Valid() && s.phase == FullDump(listing) && s.listing == listing
      modifies this
      ensures SameIteration()
      ensures flushed <= |listing| && s.phase == FullDump(listing[flushed..]) && s.accepted == listing[..flushed]
      ensures env.failsAt.Some? ==> flushed <= env.failsAt.value
      ensures if failed then env.failsAt == Some(flushed) || MayStop() else flushed == |listing| && env.failsAt != Some(flushed)
    {
      failed, flushed := FlushListing(listing, env);
      Standing(listing, flushed);
    }

    method FlushListing(listing: seq<Row>, env: Env) returns (failed: bool, flushed: nat)
      requires Valid() && s.phase == FullDump(listing) && s.listing == listing
      modifies this
      ensures SameIteration()
      ensures flushed <= |listing| && s.phase.FullDump? && |s.phase.todo| == |listing| - flushed
      ensures env.failsAt.Some? ==> flushed <= env.failsAt.value
      ensures if failed then env.failsAt == Some(flushed) || MayStop() else flushed == |listing| && env.failsAt != Some(flushed)
    {
      flushed := 0;
      while flushed < |listing|
        invariant SameIteration()
        invariant flushed <= |listing| && s.phase.FullDump? && |s.phase.todo| == |listing| - flushed
        invariant env.failsAt.Some? ==> flushed <= env.failsAt.value
      {
        if env.failsAt == Some(flushed) { return true, flushed; }
        Standing(listing, flushed);
        var refused := Flush(listing[flushed], env);
        if refused { return true, flushed; }
        flushed := flushed + 1;
      }
      return env.failsAt == Some(flushed), flushed;
    }

    // How many rows are left tells which.
    lemma Standing(listing: seq<Row>, flushed: nat)
      requires Valid() && s.listing == listing && flushed <= |listing| && s.phase.FullDump? && |s.phase.todo| == |listing| - flushed
      ensures s.accepted == listing[..flushed] && s.phase.todo == listing[flushed..]
      ensures flushed < |listing| ==> s.phase.todo[0] == listing[flushed]
    {
      InOrder();
      Halves(s.accepted, s.phase.todo, listing, flushed);
    }

    // What has been accepted follows from where the dump stands.
    lemma InOrder()
      requires Valid()
      ensures Ordered(tables, log, s.origin, s.listing, s.accepted, s.phase)
    {
      ReachableInv(start, trace);
    }

    // The dump hands its events to the callback, until it ends by itself, has nothing more to read, or a flush is refused.
    method IncrDumpEvents(origin: nat, env: Env) returns (read: nat)
      requires Valid() && s.phase == IncrDump(origin) && s.origin == origin
      modifies this
      ensures SameIteration() && s.phase == IncrDump(origin + read) && HasRead(tables, log, origin, read, s.listing, s.accepted)
      ensures read <= env.events && (read < env.events ==> MayStop() || |old(log)| <= origin + read)
    {
      read := ReadEvents(origin, env);
      ReadInOrder(origin, read);
    }

    lemma ReadInOrder(origin: nat, read: nat)
      requires Valid() && s.phase == IncrDump(origin + read) && s.origin == origin
      ensures HasRead(tables, log, origin, read, s.listing, s.accepted)
    {
      InOrder();
      OrderedIsRead(tables, log, origin, read, s.listing, s.accepted);
    }

    method ReadEvents(origin: nat, env: Env) returns (read: nat)
      requires Valid() && s.phase == IncrDump(origin)
      modifies this
      ensures SameIteration() && s.phase == IncrDump(origin + read)
      ensures read <= env.events && (read < env.events ==> MayStop() || |old(log)| <= origin + read)
    {
      read := 0;
      while read < env.events
        invariant SameIteration() && s.phase == IncrDump(origin + read)
        invariant read <= env.events
      {
        var more := NextEvent(origin + read, env);
        if !more { return; }
        read := read + 1;
      }
    }

    method NextEvent(next: nat, env: Env) returns (more: bool)
      requires Valid() && s.phase == IncrDump(next)
      modifies this
      ensures SameIteration() && s.phase == IncrDump(if more then next + 1 else next)
      ensures more || MayStop() || |old(log)| <= next
    {
      Interfere();
      Positions();
      if next == |log| { return false; }
      var refused := HandleEvent(next, env);
      return !refused;
    }

    // The callback of incrdump.IncrDump: flush an insertion into a message table, skip anything else.
    method HandleEvent(next: nat, env: Env) returns (refused: bool)
      requires Valid() && s.phase == IncrDump(next) && next < |log|
      modifies this
      ensures SameIteration()
      ensures refused ==> MayStop() && s.phase == IncrDump(next) && s.accepted == old(s.accepted)
      ensures !refused ==> s.phase == IncrDump(next + 1) && s.accepted == old(s.accepted) + MessageRow(tables, old(log)[next])
    {
      var event := log[next];
      if event.Insert? && (event.row.schema, event.row.table) in tables {
        refused := Flush(event.row, env);
      } else {
        SkipEvent();
        refused := false;
      }
    }

    method SkipEvent()
      requires Valid() && s.phase.IncrDump? && s.phase.next < |log| && !AtMessage(s)
      modifies this
      ensures Took(Skip) && SameIteration() && s.accepted == old(s.accepted)
    {
      Facts();
      Record(Skip);
    }

    lemma Positions()
      requires Valid()
      ensures s.phase.IncrDump? ==> s.phase.next <= |log|
    {
      ReachableInv(start, trace);
    }

    // pubCbWg.Wait: the callbacks and the post-processor move until no callback is owed.
    method AwaitCallbacks()
      requires Valid() && (s.phase.FullWait? || s.phase.IncrWait?)
      modifies this
      ensures SameIteration() && s.accepted == old(s.accepted)
      ensures s.phase == if old(s.phase) == FullWait(false) then IncrDump(s.origin) else CloseEntries
    {
      while pubCbWg != 0
        invariant ProducerStayed()
        decreases Work(s)
      {
        Counts();
        Others();
      }
      Facts();
      Record(WaitCallbacks);
    }

    // The deferred calls, last registered first: close entryCh, cancel, wait for the post-processor, close the db.
    method RunDeferred()
      requires Valid() && s.phase.CloseEntries?
      modifies this
      ensures SameIteration() && s.accepted == old(s.accepted) && s.phase.Idle?
    {
      CloseAndCancel();
      JoinAndClose();
    }

    method JoinAndClose()
      requires Valid() && s.phase.JoinPost?
      modifies this
      ensures SameIteration() && s.accepted == old(s.accepted) && s.phase.Idle?
    {
      JoinPostProcess();
      Interfere();
      CloseDatabase();
    }

    method CloseAndCancel()
      requires Valid() && s.phase.CloseEntries?
      modifies this
      ensures SameIteration() && s.accepted == old(s.accepted) && s.phase.JoinPost?
    {
      CloseEntryCh();
      Interfere();
      CancelContext();
    }

    method CloseEntryCh()
      requires Valid() && s.phase.CloseEntries?
      modifies this
      ensures Took(DoClose) && Valid()
    {
      Facts();
      entriesClosed := true;
      Record(DoClose);
    }

    method CancelContext()
      requires Valid() && s.phase.CancelCtx?
      modifies this
      ensures Took(DoCancel) && Valid()
    {
      Facts();
      cancelled := true;
      Record(DoCancel);
    }

    method JoinPostProcess()
      requires Valid() && s.phase.JoinPost?
      modifies this
      ensures SameIteration() && s.accepted == old(s.accepted) && s.phase.CloseDb?
    {
      while !post.Exited?
        invariant ProducerStayed()
        decreases Work(s)
      {
        Counts();
        Others();
      }
      Facts();
      Record(DoJoin);
    }

    method CloseDatabase()
      requires Valid() && s.phase.CloseDb?
      modifies this
      ensures Took(DoCloseDb) && Valid()
    {
      Facts();
      dbOpen := false;
      Record(DoCloseDb);
    }

    // fulldump's snapshot: every message row found at the position, each once, in some order.
    method Snapshot(at: nat) returns (listing: seq<Row>)
      requires at <= |log|
      ensures IsListing(listing, tables, log[..at])
    {
      var rest := set r | r in Replay(log[..at]) && (r.schema, r.table) in tables;
      ghost var all := rest;
      listing := [];
      while rest != {}
        invariant NoDup(listing)
        invariant forall r :: r in all <==> r in rest || r in listing
        invariant forall r :: r in listing ==> r !in rest
      {
        var r :| r in rest;
        rest := rest - {r};
        listing := listing + [r];
      }
    }

    ghost predicate DumpedHere(env: Env, log0: seq<Event>, listing: seq<Row>, flushed: nat, read: nat)
      reads this
    {
      Dumped(env, tables, log0, log, s.origin, s.accepted, MayStop(), listing, flushed, read)
    }

    // One call of run: an iteration if the database can be opened, or else nothing.
    method RunOnce(env: Env) returns (listing: seq<Row>, flushed: nat, read: nat)
      requires Valid() && s.phase.Idle?
      modifies this
      ensures Progressed() && s.phase.Idle? && AllSettled(s) && ctrlCh == 0
      ensures forall r :: r in s.accepted ==>
        (r in Replay(log) <==> r !in s.goneBefore && (r in s.delFailed || r in s.pubFailed))
      ensures !env.connects ==> trace == old(trace)
      ensures env.connects ==> s.iterations == old(s.iterations) + 1 && DumpedHere(env, old(log), listing, flushed, read)
    {
      listing, flushed, read := [], 0, 0;
      if env.connects { listing, flushed, read := Iterate(env); }
      SettledWhenIdle();
    }

    // The body of run once the database is open.
    method Iterate(env: Env) returns (listing: seq<Row>, flushed: nat, read: nat)
      requires Valid() && s.phase.Idle?
      modifies this
      ensures Progressed() && s.phase.Idle? && s.iterations == old(s.iterations) + 1
      ensures DumpedHere(env, old(log), listing, flushed, read)
    {
      listing, flushed, read := Dump(env);
      ghost var log1 := log;
      RunDeferred();
      ReadStays(tables, log1, log, s.origin, read, listing[..flushed], s.accepted);
    }

    // ... up to the deferred calls.
    method Dump(env: Env) returns (listing: seq<Row>, flushed: nat, read: nat)
      requires Valid() && s.phase.Idle?
      modifies this
      ensures Progressed() && s.phase.CloseEntries? && s.iterations == old(s.iterations) + 1
      ensures DumpedHere(env, old(log), listing, flushed, read)
    {
      var at, failed;
      at, listing, failed, flushed := FullDumpPhase(env);
      AwaitCallbacks();
      read := 0;
      if failed {
        assert s.accepted + [] == s.accepted;
      } else {
        read := IncrDumpPhase(at, env);
        assert listing[..flushed] == listing;
      }
    }

    method IncrDumpPhase(at: nat, env: Env) returns (read: nat)
      requires Valid() && s.phase == IncrDump(at) && s.origin == at
      modifies this
      ensures SameIteration() && s.phase.CloseEntries? && HasRead(tables, log, at, read, s.listing, s.accepted)
      ensures read < env.events ==> MayStop() || |old(log)| <= at + read
    {
      read := IncrDumpEvents(at, env);
      IncrDumpReturns();
      ghost var log1 := log;
      AwaitCallbacks();
      ReadStays(tables, log1, log, at, read, s.listing, s.accepted);
    }

    method FullDumpPhase(env: Env) returns (at: nat, listing: seq<Row>, failed: bool, flushed: nat)
      requires Valid() && s.phase.Idle?
      modifies this
      ensures Progressed() && s.phase == FullWait(failed) && s.iterations == old(s.iterations) + 1
      ensures s.listing == listing && s.origin == at == SnapshotAt(old(log), env.lag) && IsListing(listing, tables, old(log)[..at])
      ensures flushed <= |listing| && s.accepted == listing[..flushed]
      ensures env.failsAt.Some? ==> flushed <= env.failsAt.value
      ensures if failed then env.failsAt == Some(flushed) || MayStop() else flushed == |listing| && env.failsAt != Some(flushed)
    {
      at, listing := OpenFullDump(env);
      failed, flushed := FullDumpRows(listing, env);
      FullDumpReturns(failed);
    }

    method OpenFullDump(env: Env) returns (at: nat, listing: seq<Row>)
      requires Valid() && s.phase.Idle?
      modifies this
      ensures Progressed() && s.phase == FullDump(listing) && s.listing == listing && s.iterations == old(s.iterations) + 1
      ensures s.origin == at == SnapshotAt(old(log), env.lag) && IsListing(listing, tables, old(log)[..at])
    {
      at := SnapshotAt(log, env.lag);
      listing := Snapshot(at);
      StartIteration(at, listing);
    }

    method StartIteration(at: nat, listing: seq<Row>)
      requires Valid() && s.phase.Idle? && at <= |log| && NoDup(listing)
      requires IsListing(listing, tables, log[..at])
      modifies this
      ensures Took(Start(at, listing)) && Progressed()
      ensures s.phase == FullDump(listing) && s.listing == listing && s.origin == at && s.iterations == old(s.iterations) + 1
    {
      IdleState();
      cancelled, dbOpen, entriesClosed, post := false, true, false, Receiving;
      Record(Start(at, listing));
    }

    method FullDumpReturns(failed: bool)
      requires Valid() && s.phase.FullDump? && (!failed ==> s.phase.todo == [])
      modifies this
      ensures Took(if failed then Abort else FullEnd) && SameIteration() && s.accepted == old(s.accepted)
      ensures s.phase == FullWait(failed)
    {
      Facts();
      if failed { Record(Abort); } else { Record(FullEnd); }
    }

    method IncrDumpReturns()
      requires Valid() && s.phase.IncrDump?
      modifies this
      ensures Took(Abort) && SameIteration() && s.accepted == old(s.accepted) && s.phase.IncrWait?
    {
      Facts();
      Record(Abort);
    }

    lemma SettledWhenIdle()
      requires Valid() && s.phase.Idle?
      ensures AllSettled(s) && ctrlCh == 0
      ensures forall r :: r in s.accepted ==>
        (r in Replay(log) <==> r !in s.goneBefore && (r in s.delFailed || r in s.pubFailed))
    {
      ReachableInv(start, trace);
      forall r | r in s.accepted
        ensures r in Replay(log) <==> r !in s.goneBefore && (r in s.delFailed || r in s.pubFailed)
      {
        SettledRowsInTable(s, r);
      }
    }

    // Run: iterations until the caller's context is done; here followed for a given number of rounds.
    method Run(rounds: nat, envs: nat -> Env) returns (done: nat)
      requires Valid() && s.phase.Idle?
      modifies this
      ensures Progressed()
      ensures done <= rounds && s.iterations == old(s.iterations) + Connecting(envs, done)
      ensures done < rounds ==> s.phase.Stopped?
      ensures s.phase.Stopped? ==> parentDone
      ensures forall r :: Delete(r) in log ==> Callback(r, true) in trace
    {
      done := 0;
      while done < rounds
        invariant Progressed() && s.phase.Idle?
        invariant done <= rounds && s.iterations == old(s.iterations) + Connecting(envs, done)
      {
        var _, _, _ := RunOnce(envs(done));
        done := done + 1;
        var stop := AwaitRetry();
        if stop { break; }
      }
      DeletionsAcked();
    }

    lemma DeletionsAcked()
      requires Valid()
      ensures forall r :: Delete(r) in log ==> Callback(r, true) in trace
    {
      forall r | Delete(r) in log ensures Callback(r, true) in trace {
        DeletedOnlyAfterAck(start, trace, r);
      }
    }

    // The select between the end of the caller's context and the retry wait.
    method AwaitRetry() returns (stop: bool)
      requires Valid() && s.phase.Idle?
      modifies this
      ensures Progressed() && s.iterations == old(s.iterations)
      ensures if stop then s.phase.Stopped? && parentDone else s.phase.Idle?
    {
      Interfere();
      if {
        case parentDone =>
          ReturnFromRun();
          return true;
        case true =>
          return false;
      }
    }

    ghost method ReturnFromRun()
      requires Valid() && s.phase.Idle? && parentDone
      modifies `s, `trace
      ensures Took(ReturnRun) && Valid()
    {
      Facts();
      Record(ReturnRun);
    }
  }
}
