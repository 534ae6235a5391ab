/** What the pipe promises, over every interleaving and any number of restarts. */
module PipeTheorems {
  import opened Seqs
  import opened PipeModel
  import opened PipeInvariant

  // ----- quota -----

  /** Quota conservation: tokens are the entries in flight, queued, or held by the post-processor;
      so at most maxInflight entries are in flight and no goroutine ever panics. */
  lemma {:induction false} QuotaConservation(s0: State, steps: seq<Step>)
    requires Init(s0) && CanRun(s0, steps)
    ensures var s := Exec(s0, steps);
      && s.ctrl == |s.inflight| + |s.queue| + Busy(s.post)
      && |s.inflight| <= s.ctrl <= s.maxInflight
      && !s.crashed
  {
    ReachableInv(s0, steps);
  }

  /** The send in a callback always finds room in an open channel. */
  lemma {:induction false} CallbackNeverPanics(s0: State, steps: seq<Step>, r: Row, ok: bool)
    requires Init(s0) && CanRun(s0, steps) && Enabled(Exec(s0, steps), Callback(r, ok))
    ensures var s := Exec(s0, steps);
      && !s.entriesClosed && |s.queue| < s.maxInflight
      && Apply(s, Callback(r, ok)).queue == s.queue + [Entry(r, ok)]
  {
    ReachableInv(s0, steps);
  }

  // ----- at least once -----

  lemma {:induction false} AckedHadCallback(s0: State, steps: seq<Step>, r: Row)
    requires Init(s0) && CanRun(s0, steps) && r in Exec(s0, steps).acked
    ensures Callback(r, true) in steps
  {
    var before := Front(steps);
    assert steps == before + [Last(steps)];
    AckedByCallback(Exec(s0, before), Last(steps));
    if Last(steps) != Callback(r, true) {
      AckedHadCallback(s0, before, r);
    }
  }

  // Only a positive callback acknowledges a row.
  lemma AckedByCallback(s: State, st: Step)
    requires Enabled(s, st)
    ensures Apply(s, st).acked == if st.Callback? && st.ok then s.acked + {st.row} else s.acked
  {
    if ByProducer(st) {
      ProducerTouches(s, st);
    } else if ByPost(st) {
      PostTouches(s, st);
    } else if ByRunOrWorld(st) {
      RunOrWorldTouches(s, st);
    }
  }

  /** At least once: the pipe deletes a row only after downstream called back nil for that very row. */
  lemma {:induction false} DeletedOnlyAfterAck(s0: State, steps: seq<Step>, r: Row)
    requires Init(s0) && CanRun(s0, steps) && Delete(r) in Exec(s0, steps).log
    ensures Callback(r, true) in steps
  {
    ReachableInv(s0, steps);
    AckedHadCallback(s0, steps, r);
  }

  /** No loss at the pipe: an inserted row is in its table until downstream has called back nil for it. */
  lemma {:induction false} InsertedIsLiveOrAcked(s0: State, steps: seq<Step>, r: Row)
    requires Init(s0) && CanRun(s0, steps) && Insert(r) in Exec(s0, steps).log
    ensures r in Replay(Exec(s0, steps).log) || Callback(r, true) in steps
  {
    ReachableInv(s0, steps);
    ReplayIsInsertedNotDeleted(Exec(s0, steps).log, r);
    if Delete(r) in Exec(s0, steps).log { DeletedOnlyAfterAck(s0, steps, r); }
  }

  // ----- snapshot and binlog -----

  /** Hand-over: once the binlog dump has consumed the log up to q, every message row live at q was accepted. */
  lemma {:induction false} HandoverComplete(s0: State, steps: seq<Step>, r: Row)
    requires Init(s0) && CanRun(s0, steps)
    requires var s := Exec(s0, steps);
      s.phase.IncrDump? && s.phase.next <= |s.log| && MsgRow(s, r) && r in Replay(s.log[..s.phase.next])
    ensures r in Exec(s0, steps).accepted
  {
    ReachableInv(s0, steps);
    LiveIsAccepted(Exec(s0, steps), r);
  }

  lemma LiveIsAccepted(s: State, r: Row)
    requires Inv(s) && s.phase.IncrDump? && MsgRow(s, r) && r in Replay(s.log[..s.phase.next])
    ensures r in s.accepted
  {
    LiveInHandover(s.tables, s.log, s.origin, s.accepted, s.phase.next, r);
  }

  lemma LiveInHandover(tables: set<(string, string)>, log: seq<Event>, origin: nat, accepted: seq<Row>, q: nat, r: Row)
    requires GoodLog(log) && Handover(tables, log, origin, accepted, IncrDump(q))
    requires (r.schema, r.table) in tables && r in Replay(log[..q])
    ensures r in accepted
  {
    GoodPrefix(log, q);
    ReplayIsInsertedNotDeleted(log[..q], r);
    assert log[..q] == log[..origin] + log[origin..q];
    if Insert(r) in log[..origin] {
      GoodPrefix(log, origin);
      ReplayIsInsertedNotDeleted(log[..origin], r);
      assert InSnapshot(tables, log, origin, r);
    }
  }

  /** No row is accepted twice in one iteration, and only message rows that were inserted are accepted. */
  lemma {:induction false} AcceptedOnce(s0: State, steps: seq<Step>)
    requires Init(s0) && CanRun(s0, steps)
    ensures var s := Exec(s0, steps);
      && NoDup(s.accepted)
      && (forall r :: r in s.accepted ==> MsgRow(s, r) && Insert(r) in s.log)
  {
    ReachableInv(s0, steps);
  }

  /** Order: the full dump accepts the rows of its snapshot in the order it lists them, and the binlog dump those of the
      log's insertions in the order of the log, none left out. */
  lemma {:induction false} AcceptedInOrder(s0: State, steps: seq<Step>)
    requires Init(s0) && CanRun(s0, steps)
    ensures var s := Exec(s0, steps); Ordered(s.tables, s.log, s.origin, s.listing, s.accepted, s.phase)
  {
    ReachableInv(s0, steps);
  }

  // ----- settlement -----

  // No accepted entry is on its way.
  ghost predicate AllSettled(s: State) {
    s.inflight == multiset{} && s.queue == [] && HeldRows(s.post) == multiset{}
  }

  /** Orderly shutdown: once entryCh is closed no callback is owed, and the database is closed only
      after every accepted entry is settled and every token is back. */
  lemma OrderlyShutdown(s0: State, steps: seq<Step>)
    requires Init(s0) && CanRun(s0, steps)
    ensures var s := Exec(s0, steps);
      && (s.entriesClosed ==> s.inflight == multiset{} && s.undone == 0)
      && (!s.dbOpen ==> AllSettled(s) && s.post.Exited? && s.ctrl == 0)
      && (s.post.Holding? ==> s.dbOpen)
  {
    ReachableInv(s0, steps);
  }

  /** When every accepted entry is settled, each has exactly one outcome, and an accepted row is still in its
      table exactly if it was not deleted before this iteration and its publication or its DELETE failed. */
  lemma SettledRowsInTable(s: State, r: Row)
    requires Inv(s) && AllSettled(s) && r in s.accepted
    ensures s.deleted[r] + s.delFailed[r] + s.pubFailed[r] == 1
    ensures r in Replay(s.log) <==> r !in s.goneBefore && (r in s.delFailed || r in s.pubFailed)
  {
    MultiplicityOfNoDup(s.accepted, r);
    assert Rows(s.queue) == [];
    assert multiset(s.accepted)[r] == Settled(s)[r];
    ReplayIsInsertedNotDeleted(s.log, r);
  }

  lemma {:induction false} Settlement(s0: State, steps: seq<Step>, r: Row)
    requires Init(s0) && CanRun(s0, steps)
    requires var s := Exec(s0, steps); s.phase.Idle? && r in s.accepted
    ensures var s := Exec(s0, steps);
      && s.deleted[r] + s.delFailed[r] + s.pubFailed[r] == 1
      && (r in Replay(s.log) <==> r !in s.goneBefore && (r in s.delFailed || r in s.pubFailed))
  {
    ReachableInv(s0, steps);
    SettledRowsInTable(Exec(s0, steps), r);
  }

  /** The context of an iteration is cancelled by the pipe itself, before the deferred calls, exactly when a publication
      failed; and the goroutines are only waited for once it is cancelled. */
  lemma {:induction false} CancelledExactly(s0: State, steps: seq<Step>)
    requires Init(s0) && CanRun(s0, steps)
    ensures var s := Exec(s0, steps);
      && (Dumping(s.phase) ==> (s.cancelled <==> s.pubFailed != multiset{}))
      && (s.phase.JoinPost? || s.phase.CloseDb? ==> s.cancelled)
  {
    ReachableInv(s0, steps);
  }

  // ----- progress -----

  // Steps the goroutines of one iteration take by themselves; Abort is left to the databases.
  predicate Internal(st: Step) {
    !st.AppInsert? && !st.AppOther? && !st.ParentCancel? && !st.Start? && !st.ReturnRun?
  }

  // Each log event costs the producer one step, and each message row six more.
  function EventWork(tables: set<(string, string)>, log: seq<Event>): nat {
    if log == [] then 0
    else EventWork(tables, Front(log)) +
         if Last(log).Insert? && (Last(log).row.schema, Last(log).row.table) in tables then 7 else 1
  }

  // The work the log holds from position n on.
  function LogWork(tables: set<(string, string)>, log: seq<Event>, n: nat): nat {
    if n <= |log| then EventWork(tables, log[n..]) else 0
  }

  function PhaseWork(tables: set<(string, string)>, log: seq<Event>, origin: nat, phase: Phase): nat {
    match phase
    case FullDump(todo) => LogWork(tables, log, origin) + 7 * |todo| + 9
    case FullWait(failed) => if failed then 6 else LogWork(tables, log, origin) + 8
    case IncrDump(q) => LogWork(tables, log, q) + 7
    case IncrWait => 6
    case CloseEntries => 5
    case CancelCtx => 4
    case JoinPost => 3
    case CloseDb => 2
    case Idle => 1
    case Stopped => 0
  }

  function PostWork(post: Post): nat {
    match post
    case Exited => 0
    case Receiving => 1
    case Releasing => 2
    case Holding(_) => 4
  }

  // How much this iteration has left to do if nothing more is inserted.
  function Work(s: State): nat {
    PhaseWork(s.tables, s.log, s.origin, s.phase) + 6 * |s.inflight| + s.undone + 4 * |s.queue| + PostWork(s.post)
  }

  lemma {:induction false} EventWorkTail(tables: set<(string, string)>, log: seq<Event>)
    requires log != []
    ensures EventWork(tables, log) == EventWork(tables, [log[0]]) + EventWork(tables, log[1..])
  {
    if |log| == 1 {
      assert log == [log[0]] && log[1..] == [];
    } else {
      EventWorkTail(tables, Front(log));
      assert Front(log[1..]) == Front(log)[1..];
    }
  }

  lemma LogWorkNext(tables: set<(string, string)>, log: seq<Event>, n: nat)
    requires n < |log|
    ensures LogWork(tables, log, n) == LogWork(tables, log, n + 1) +
            if log[n].Insert? && (log[n].row.schema, log[n].row.table) in tables then 7 else 1
  {
    EventWorkTail(tables, log[n..]);
    assert log[n..][1..] == log[n + 1..];
    assert Front([log[n]]) == [];
  }

  lemma LogWorkDelete(tables: set<(string, string)>, log: seq<Event>, n: nat, r: Row)
    ensures LogWork(tables, log + [Delete(r)], n) <= LogWork(tables, log, n) + 1
  {
    if n <= |log| {
      assert Front((log + [Delete(r)])[n..]) == log[n..];
    } else if n == |log| + 1 {
      assert (log + [Delete(r)])[n..] == [];
    }
  }

  lemma PhaseWorkDelete(tables: set<(string, string)>, log: seq<Event>, origin: nat, phase: Phase, r: Row)
    ensures PhaseWork(tables, log + [Delete(r)], origin, phase) <= PhaseWork(tables, log, origin, phase) + 1
  {
    LogWorkDelete(tables, log, origin, r);
    if phase.IncrDump? { LogWorkDelete(tables, log, phase.next, r); }
  }

  lemma FlushWork(s: State, st: Step)
    requires Enabled(s, st) && (st.Flush? || st.Skip?)
    ensures Work(Apply(s, st)) < Work(s)
  {
    if s.phase.IncrDump? { LogWorkNext(s.tables, s.log, s.phase.next); }
  }

  lemma SettleWork(s: State, st: Step)
    requires Enabled(s, st) && st.Settle?
    ensures Work(Apply(s, st)) < Work(s)
  {
    var s' := Apply(s, st);
    PostTouches(s, st);
    assert s'.log == s.log || s'.log == s.log + [Delete(s.post.entry.row)];
    PhaseWorkDelete(s.tables, s.log, s.origin, s.phase, s.post.entry.row);
    assert PhaseWork(s'.tables, s'.log, s'.origin, s'.phase) <= PhaseWork(s.tables, s.log, s.origin, s.phase) + 1;
    assert s'.post == Releasing;
  }

  lemma PassWork(s: State, st: Step)
    requires Enabled(s, st) && (st.Callback? || st.CallbackDone? || st.Receive? || st.Release? || st.PostExit?)
    requires !Apply(s, st).crashed
    ensures Work(Apply(s, st)) < Work(s)
  {
  }

  lemma PhaseStepWork(s: State, st: Step)
    requires Enabled(s, st)
    requires st.FullEnd? || st.Abort? || st.WaitCallbacks? || st.DoClose? || st.DoCancel? || st.DoJoin? || st.DoCloseDb?
    ensures Work(Apply(s, st)) < Work(s)
  {
  }

  /** Every internal step strictly decreases Work: an iteration cannot run on its own forever. */
  lemma InternalStepsDecreaseWork(s: State, st: Step)
    requires Counting(s) && Lifecycle(s) && Enabled(s, st) && Internal(st)
    ensures Work(Apply(s, st)) < Work(s)
  {
    KeepLifecycle(s, st);
    if st.Settle? {
      SettleWork(s, st);
    } else if st.Flush? || st.Skip? {
      FlushWork(s, st);
    } else if st.Callback? || st.CallbackDone? || st.Receive? || st.Release? || st.PostExit? {
      PassWork(s, st);
    } else {
      PhaseStepWork(s, st);
    }
  }

  // Callbacks and the post-processor leave the producer alone.
  lemma OthersKeepProducer(s: State, st: Step)
    requires Enabled(s, st) && (st.Callback? || st.CallbackDone? || st.Receive? || st.Settle? || st.Release? || st.PostExit?)
    ensures var s' := Apply(s, st);
      && s'.phase == s.phase && s'.accepted == s.accepted && s'.origin == s.origin && s'.listing == s.listing && s'.iterations == s.iterations
      && s.log <= s'.log && s.pubFailed <= s'.pubFailed && s'.parentDone == s.parentDone
  {
    LogOnlyGrows(s, st);
    if ByCallback(st) { CallbackTouches(s, st); } else { PostTouches(s, st); }
  }

  // The iteration has consumed the whole log and settled everything: it waits for new events.
  ghost predicate CaughtUp(s: State) {
    s.phase == IncrDump(|s.log|) && AllSettled(s) && s.undone == 0 && s.post.Receiving?
  }

  /** Deadlock freedom: unless it is caught up, a running iteration can take an internal step, without
      waiting for a failure of the dumps.  In particular a producer waiting for quota is owed a callback
      or meets an enabled step of the post-processor. */
  lemma DeadlockFree(s: State) returns (st: Step)
    requires Inv(s) && s.dbOpen && !CaughtUp(s)
    ensures Internal(st) && st != Abort && Enabled(s, st)
  {
    if s.inflight != multiset{} {
      var r :| r in s.inflight;
      return Callback(r, true);
    } else if s.undone != 0 {
      return CallbackDone;
    } else if s.post.Holding? {
      return Settle(true);
    } else if s.post.Releasing? {
      return Release;
    } else if s.queue != [] {
      return Receive;
    } else if s.post.Receiving? && s.entriesClosed {
      return PostExit;
    } else {
      // Nothing is under way: all tokens are back and the producer can move.
      assert s.ctrl == 0 && s.wg == 0;
      match s.phase
      case FullDump(todo) => return if todo == [] then FullEnd else Flush;
      case FullWait(_) => return WaitCallbacks;
      case IncrWait => return WaitCallbacks;
      case IncrDump(q) => return if AtMessage(s) then Flush else Skip;
      case CloseEntries => return DoClose;
      case CancelCtx => return DoCancel;
      case JoinPost => return DoJoin;
      case CloseDb => return DoCloseDb;
    }
  }

  // One step on the way to being caught up.
  lemma Advance(s: State) returns (st: Step)
    requires Inv(s) && s.dbOpen && !CaughtUp(s)
    ensures Internal(st) && st != Abort && Enabled(s, st)
    ensures Inv(Apply(s, st)) && Work(Apply(s, st)) < Work(s)
  {
    st := DeadlockFree(s);
    InternalStepsDecreaseWork(s, st);
    KeepInv(s, st);
  }

  lemma NoSteps(s: State)
    ensures CanRun(s, []) && Exec(s, []) == s
  {
  }

  lemma ClosedOnlyByCloseDb(s: State, st: Step)
    requires Enabled(s, st) && Internal(st) && s.dbOpen && !Apply(s, st).dbOpen
    ensures Apply(s, st).phase.Idle?
  {
  }

  /** From every reachable state of a running iteration, internal steps alone lead to being caught up or to the
      end of the iteration, in at most Work(s) steps. */
  lemma {:induction false} Drains(s: State) returns (steps: seq<Step>)
    requires Inv(s) && s.dbOpen
    ensures CanRun(s, steps) && |steps| <= Work(s)
    ensures forall st :: st in steps ==> Internal(st) && st != Abort
    ensures CaughtUp(Exec(s, steps)) || Exec(s, steps).phase.Idle?
    decreases Work(s)
  {
    if CaughtUp(s) {
      NoSteps(s);
      return [];
    }
    var st := Advance(s);
    var rest := [];
    if Apply(s, st).dbOpen {
      rest := Drains(Apply(s, st));
    } else {
      NoSteps(Apply(s, st));
      ClosedOnlyByCloseDb(s, st);
    }
    RunFrom(s, st, rest);
    steps := [st] + rest;
  }

  lemma {:induction false} RunFrom(s: State, st: Step, rest: seq<Step>)
    requires Enabled(s, st) && CanRun(Apply(s, st), rest)
    ensures CanRun(s, [st] + rest) && Exec(s, [st] + rest) == Exec(Apply(s, st), rest)
  {
    if rest == [] {
      assert [st] + rest == [st] && Front([st]) == [] && CanRun(s, []) && Exec(s, []) == s;
    } else {
      RunFrom(s, st, Front(rest));
      assert Front([st] + rest) == [st] + Front(rest);
    }
  }

  lemma {:induction false} RunOn(s: State, steps: seq<Step>, more: seq<Step>)
    requires CanRun(s, steps) && CanRun(Exec(s, steps), more)
    ensures CanRun(s, steps + more) && Exec(s, steps + more) == Exec(Exec(s, steps), more)
  {
    if more == [] {
      assert steps + more == steps;
    } else {
      RunOn(s, steps, Front(more));
      assert Front(steps + more) == steps + Front(more) && Last(steps + more) == Last(more);
    }
  }

  /** Caught up, the message tables hold exactly the rows whose publication or DELETE failed in this iteration
      (among those not deleted before it); with no failure they are empty. */
  lemma CaughtUpTables(s: State, r: Row)
    requires Inv(s) && CaughtUp(s) && MsgRow(s, r)
    ensures r in Replay(s.log) <==> r in s.accepted && r !in s.goneBefore && (r in s.delFailed || r in s.pubFailed)
  {
    assert s.log[..|s.log|] == s.log;
    if r in Replay(s.log) { LiveIsAccepted(s, r); }
    if r in s.accepted { SettledRowsInTable(s, r); }
  }
}
