/**
  A snapshot may be older than the pipe's own deletions, because it is taken from a replica.  Then a row that is
  already gone is accepted and published again, and if that fails it is still not in its table: without the
  exception for rows deleted before the iteration, PipeTheorems.Settlement would not hold.
*/
module PipeStaleSnapshot {
  import opened Seqs
  import opened PipeModel
  import opened PipeInvariant
  import opened PipeTheorems

  // Between iterations, with r the first row ever inserted.
  ghost predicate Ready(s: State, r: Row) {
    && !s.crashed && s.phase.Idle? && 1 <= s.maxInflight && s.ctrl == s.wg == s.undone == 0
    && s.inflight == multiset{} && s.queue == [] && s.post == Exited
    && MsgRow(s, r) && [Insert(r)] <= s.log
  }

  // The iteration's only row has been called back for.
  ghost predicate Answered(s: State, t: State, r: Row, ok: bool) {
    && !t.crashed && t.phase == FullDump([]) && t.ctrl == 1 && t.wg == t.undone == 0 && t.inflight == multiset{}
    && t.queue == [Entry(r, ok)] && t.post == Receiving && t.maxInflight == s.maxInflight && t.tables == s.tables
    && !t.entriesClosed && t.dbOpen && t.accepted == [r] && t.pubFailed == multiset{} && t.log == s.log
  }

  // The iteration's only row has been processed.
  ghost predicate Processed(s: State, t: State, r: Row, ok: bool) {
    && !t.crashed && t.phase == FullDump([]) && t.ctrl == t.wg == t.undone == 0 && t.inflight == multiset{}
    && t.queue == [] && t.post == Receiving && t.maxInflight == s.maxInflight && t.tables == s.tables
    && !t.entriesClosed && t.accepted == [r]
    && t.pubFailed == (if ok then multiset{} else multiset{r})
    && t.log == if ok && r in Replay(s.log) then s.log + [Delete(r)] else s.log
  }

  lemma StartOne(s: State, r: Row)
    requires Ready(s, r)
    ensures Enabled(s, Start(1, [r]))
  {
    assert s.log[..1] == [Insert(r)] && Front([Insert(r)]) == [];
    assert Replay(s.log[..1]) == {r};
  }

  lemma Publish(s: State, r: Row, ok: bool) returns (t: State, steps: seq<Step>)
    requires Ready(s, r)
    ensures CanRun(s, steps) && t == Exec(s, steps) && Answered(s, t, r, ok)
  {
    StartOne(s, r);
    var rest;
    t, rest := FlushOne(Apply(s, Start(1, [r])), r, ok);
    RunFrom(s, Start(1, [r]), rest);
    steps := [Start(1, [r])] + rest;
  }

  lemma FlushOne(s: State, r: Row, ok: bool) returns (t: State, steps: seq<Step>)
    requires !s.crashed && s.phase == FullDump([r]) && 1 <= s.maxInflight && s.ctrl == s.wg == s.undone == 0
    requires s.inflight == multiset{} && s.queue == [] && s.post == Receiving && !s.entriesClosed && s.dbOpen
    requires s.accepted == [] && s.pubFailed == multiset{}
    ensures CanRun(s, steps) && t == Exec(s, steps) && Answered(s, t, r, ok)
  {
    var mid := Apply(s, Flush);
    assert mid.inflight == multiset{r};
    var rest;
    t, rest := AnswerOne(mid, r, ok);
    RunFrom(s, Flush, rest);
    steps := [Flush] + rest;
  }

  lemma AnswerOne(s: State, r: Row, ok: bool) returns (t: State, steps: seq<Step>)
    requires !s.crashed && s.phase == FullDump([]) && 1 <= s.maxInflight && s.ctrl == s.wg == 1 && s.undone == 0
    requires s.inflight == multiset{r} && s.queue == [] && s.post == Receiving && !s.entriesClosed && s.dbOpen
    requires s.accepted == [r] && s.pubFailed == multiset{}
    ensures CanRun(s, steps) && t == Exec(s, steps) && Answered(s, t, r, ok)
  {
    var mid := Apply(s, Callback(r, ok));
    t := Apply(mid, CallbackDone);
    NoSteps(t);
    RunFrom(mid, CallbackDone, []);
    RunFrom(s, Callback(r, ok), [CallbackDone] + []);
    steps := [Callback(r, ok)] + ([CallbackDone] + []);
  }

  lemma Process(s: State, mid: State, r: Row, ok: bool) returns (t: State, steps: seq<Step>)
    requires Answered(s, mid, r, ok)
    ensures CanRun(mid, steps) && t == Exec(mid, steps) && Processed(s, t, r, ok)
  {
    var s1 := Apply(mid, Receive);
    var s2 := Apply(s1, Settle(ok));
    t := Apply(s2, Release);
    assert s1.queue == [] && s2.queue == [] && s2.log == t.log;
    NoSteps(t);
    RunFrom(s2, Release, []);
    RunFrom(s1, Settle(ok), [Release] + []);
    RunFrom(mid, Receive, [Settle(ok)] + ([Release] + []));
    steps := [Receive] + ([Settle(ok)] + ([Release] + []));
  }

  // One iteration over the snapshot [r], whose publication succeeds or fails, up to the return of the full dump.
  lemma PublishOne(s: State, r: Row, ok: bool) returns (t: State, steps: seq<Step>)
    requires Ready(s, r)
    ensures CanRun(s, steps) && t == Exec(s, steps) && Processed(s, t, r, ok)
  {
    var mid, first := Publish(s, r, ok);
    var second;
    t, second := Process(s, mid, r, ok);
    RunOn(s, first, second);
    steps := first + second;
  }

  // The full dump fails after its last row, and the iteration ends.
  lemma EndIteration(s: State, r: Row) returns (t: State, steps: seq<Step>)
    requires !s.crashed && s.phase == FullDump([]) && s.ctrl == s.wg == s.undone == 0 && s.inflight == multiset{} && s.queue == []
    requires s.post == Receiving && 1 <= s.maxInflight && !s.entriesClosed && MsgRow(s, r) && [Insert(r)] <= s.log
    ensures CanRun(s, steps) && t == Exec(s, steps) && Ready(t, r)
    ensures t.log == s.log && t.accepted == s.accepted && t.pubFailed == s.pubFailed
  {
    var s1 := Apply(s, Abort);
    var s2 := Apply(s1, WaitCallbacks);
    var s3 := Apply(s2, DoClose);
    var rest;
    t, rest := ShutDown(s3, r);
    RunFrom(s2, DoClose, rest);
    RunFrom(s1, WaitCallbacks, [DoClose] + rest);
    RunFrom(s, Abort, [WaitCallbacks] + ([DoClose] + rest));
    steps := [Abort] + ([WaitCallbacks] + ([DoClose] + rest));
  }

  lemma ShutDown(s: State, r: Row) returns (t: State, steps: seq<Step>)
    requires !s.crashed && s.phase == CancelCtx && s.ctrl == s.wg == s.undone == 0 && s.inflight == multiset{} && s.queue == []
    requires s.post == Receiving && 1 <= s.maxInflight && s.entriesClosed && MsgRow(s, r) && [Insert(r)] <= s.log
    ensures CanRun(s, steps) && t == Exec(s, steps) && Ready(t, r)
    ensures t.log == s.log && t.accepted == s.accepted && t.pubFailed == s.pubFailed
  {
    var s1 := Apply(s, PostExit);
    var s2 := Apply(s1, DoCancel);
    var s3 := Apply(s2, DoJoin);
    t := Apply(s3, DoCloseDb);
    NoSteps(t);
    RunFrom(s3, DoCloseDb, []);
    RunFrom(s2, DoJoin, [DoCloseDb] + []);
    RunFrom(s1, DoCancel, [DoJoin] + ([DoCloseDb] + []));
    RunFrom(s, PostExit, [DoCancel] + ([DoJoin] + ([DoCloseDb] + [])));
    steps := [PostExit] + ([DoCancel] + ([DoJoin] + ([DoCloseDb] + [])));
  }

  lemma Iteration(s: State, r: Row, ok: bool) returns (t: State, steps: seq<Step>)
    requires Ready(s, r)
    ensures CanRun(s, steps) && t == Exec(s, steps) && Ready(t, r) && t.accepted == [r]
    ensures t.pubFailed == if ok then multiset{} else multiset{r}
    ensures t.log == if ok && r in Replay(s.log) then s.log + [Delete(r)] else s.log
  {
    var mid, first := PublishOne(s, r, ok);
    var second;
    t, second := EndIteration(mid, r);
    RunOn(s, first, second);
    steps := first + second;
  }

  // The row is published and deleted; then it is accepted again, and not published.
  lemma TwoIterations(s: State, r: Row) returns (t: State, steps: seq<Step>)
    requires Ready(s, r) && s.log == [Insert(r)]
    ensures CanRun(s, steps) && t == Exec(s, steps)
    ensures t.phase.Idle? && r in t.accepted && r in t.pubFailed && r !in Replay(t.log)
  {
    var mid, first := Iteration(s, r, true);
    var second;
    t, second := Iteration(mid, r, false);
    RunOn(s, first, second);
    steps := first + second;
    Gone(s.log, t.log, r);
  }

  lemma InsertFirst(s0: State, r: Row)
    requires Init(s0) && MsgRow(s0, r)
    ensures Enabled(s0, AppInsert(r))
    ensures var s := Apply(s0, AppInsert(r)); Ready(s, r) && s.log == [Insert(r)]
  {
  }

  lemma PublishTwice(s0: State, r: Row) returns (steps: seq<Step>)
    requires Init(s0) && MsgRow(s0, r)
    ensures CanRun(s0, steps)
    ensures var s := Exec(s0, steps); s.phase.Idle? && r in s.accepted && r in s.pubFailed && r !in Replay(s.log)
  {
    InsertFirst(s0, r);
    var t, rest := TwoIterations(Apply(s0, AppInsert(r)), r);
    RunFrom(s0, AppInsert(r), rest);
    steps := [AppInsert(r)] + rest;
  }

  lemma Gone(log: seq<Event>, log': seq<Event>, r: Row)
    requires log == [Insert(r)] && log' == if r in Replay(log) then log + [Delete(r)] else log
    ensures r !in Replay(log')
  {
    assert Front(log) == [];
    assert Front(log + [Delete(r)]) == log;
  }

  /** There is a run after which an accepted row whose publication failed is not in its table. */
  lemma FailedRowMayBeGone() returns (s0: State, steps: seq<Step>, r: Row)
    ensures Init(s0) && CanRun(s0, steps)
    ensures var s := Exec(s0, steps); s.phase.Idle? && r in s.accepted && r in s.pubFailed && r !in Replay(s.log)
  {
    r := Row("app", "msgs", 1);
    s0 := State(1, {("app", "msgs")}, [], false, false, false, true, Idle, 0, 0, 0, multiset{}, [], Exited, false,
                0, {}, 0, [], {}, [], multiset{}, multiset{}, multiset{});
    steps := PublishTwice(s0, r);
  }
}
