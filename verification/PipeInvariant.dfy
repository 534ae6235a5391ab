/** The inductive invariant of the pipe: what every step of every party keeps. */
module PipeInvariant {
  import opened Seqs
  import opened PipeModel

  function Busy(post: Post): nat {
    if post.Holding? || post.Releasing? then 1 else 0
  }

  // The counting argument behind the non-blocking send in the callback.
  ghost predicate Counting(s: State) {
    && 1 <= s.maxInflight
    && s.ctrl == |s.inflight| + |s.queue| + Busy(s.post)
    && s.ctrl <= s.maxInflight
    && s.wg == |s.inflight| + s.undone
  }

  // Which resources exist in which phase: the effect of the order of the deferred calls.
  ghost predicate Lifecycle(s: State) {
    && (s.entriesClosed <==> s.phase.CancelCtx? || s.phase.JoinPost? || s.phase.CloseDb? || s.phase.Idle? || s.phase.Stopped?)
    && (s.dbOpen <==> !s.phase.Idle? && !s.phase.Stopped?)
    && (s.phase.CloseEntries? || s.entriesClosed ==> s.wg == 0)
    && (s.post.Exited? ==> s.entriesClosed && s.queue == [])
    && (s.phase.CloseDb? || s.phase.Idle? || s.phase.Stopped? ==> s.post.Exited?)
    && !s.crashed
  }

  // A message row that a snapshot at log position `at` shows.
  predicate InSnapshot(tables: set<(string, string)>, log: seq<Event>, at: nat, r: Row)
    requires at <= |log|
  {
    (r.schema, r.table) in tables && r in Replay(log[..at])
  }

  // What has been accepted, relative to the snapshot and the binlog position.
  ghost predicate Handover(tables: set<(string, string)>, log: seq<Event>, origin: nat, accepted: seq<Row>, phase: Phase) {
    && origin <= |log|
    && NoDup(accepted)
    && (forall r :: r in accepted ==> (r.schema, r.table) in tables && Insert(r) in log)
    && match phase
       case FullDump(todo) =>
         && NoDup(accepted + todo)
         && forall r :: r in accepted + todo <==> InSnapshot(tables, log, origin, r)
       case FullWait(failed) => !failed ==> forall r :: r in accepted <==> InSnapshot(tables, log, origin, r)
       case IncrDump(q) =>
         && origin <= q <= |log|
         && forall r :: r in accepted <==>
              InSnapshot(tables, log, origin, r) || ((r.schema, r.table) in tables && Insert(r) in log[origin..q])
       case _ => true
  }

  function Rows(queue: seq<Entry>): seq<Row> {
    seq(|queue|, i requires 0 <= i < |queue| => queue[i].row)
  }

  function HeldRows(post: Post): multiset<Row> {
    if post.Holding? then multiset{post.entry.row} else multiset{}
  }

  // Every accepted entry is in exactly one place.
  ghost predicate Conserved(accepted: seq<Row>, inflight: multiset<Row>, queue: seq<Entry>, post: Post, settled: multiset<Row>) {
    multiset(accepted) == inflight + multiset(Rows(queue)) + HeldRows(post) + settled
  }

  // A positive result is only on record once downstream has called back nil for that row.
  ghost predicate ResultsAcked(acked: set<Row>, queue: seq<Entry>, post: Post, delFailed: multiset<Row>) {
    && (forall e :: e in queue && e.ok ==> e.row in acked)
    && (post.Holding? && post.entry.ok ==> post.entry.row in acked)
    && (forall r :: r in delFailed ==> r in acked)
  }

  // Rows deleted so far were acknowledged, and were deleted before this iteration or by it.
  ghost predicate DeletionsExplained(log: seq<Event>, acked: set<Row>, goneBefore: set<Row>, deleted: multiset<Row>) {
    forall r ::
      && (Delete(r) in log ==> r in acked)
      && (Delete(r) in log <==> r in goneBefore || r in deleted)
  }

  ghost function Settled(s: State): multiset<Row> {
    s.deleted + s.delFailed + s.pubFailed
  }

  ghost predicate Inv(s: State) {
    && Counting(s)
    && Lifecycle(s)
    && DeletionsAt(s)
    && HandoverAt(s)
    && ConservedAt(s)
    && ResultsAckedAt(s)
    && CancelledForAt(s)
    && OrderedAt(s)
  }

  // ----- the database -----

  lemma GoodPrefix(log: seq<Event>, n: nat)
    requires GoodLog(log) && n <= |log|
    ensures GoodLog(log[..n])
  {
    forall i | 0 <= i < n && log[i].Delete? ensures Insert(log[i].row) in log[..n][..i] {
      assert log[..n][..i] == log[..i];
    }
  }

  /** In a good log, the rows found by replaying it are those inserted and not deleted. */
  lemma {:induction false} ReplayIsInsertedNotDeleted(log: seq<Event>, r: Row)
    requires GoodLog(log)
    ensures r in Replay(log) <==> Insert(r) in log && Delete(r) !in log
  {
    if log != [] {
      var before := Front(log);
      GoodPrefix(log, |before|);
      ReplayIsInsertedNotDeleted(before, r);
      assert log == before + [Last(log)];
    }
  }

  lemma GoodLogExtends(log: seq<Event>, e: Event)
    requires GoodLog(log)
    requires e.Insert? ==> e !in log
    requires e.Delete? ==> Insert(e.row) in log
    ensures GoodLog(log + [e])
  {
    var log' := log + [e];
    forall i | 0 <= i < |log'| && log'[i].Delete? ensures Insert(log'[i].row) in log'[..i] {
      assert log'[..i] == if i < |log| then log[..i] else log;
    }
    forall i, j | 0 <= i < j < |log'| && log'[i].Insert? && log'[j].Insert? ensures log'[i].row != log'[j].row {
      if j == |log| { assert log'[i] == log[i] && log[i] in log; }
    }
  }

  lemma SnapshotWasInserted(tables: set<(string, string)>, log: seq<Event>, at: nat, r: Row)
    requires GoodLog(log) && at <= |log| && InSnapshot(tables, log, at, r)
    ensures Insert(r) in log[..at] && Insert(r) in log
  {
    GoodPrefix(log, at);
    ReplayIsInsertedNotDeleted(log[..at], r);
  }

  // ----- initial state -----

  lemma InitInv(s: State)
    requires Init(s)
    ensures Inv(s)
  {
    assert Rows(s.queue) == [];
  }

  // ----- counting and life cycle -----

  lemma CountProducer(s: State, st: Step)
    requires Counting(s) && Enabled(s, st) && ByProducer(st)
    ensures Counting(Apply(s, st))
  {
  }

  lemma CountCallback(s: State, st: Step)
    requires Counting(s) && Lifecycle(s) && Enabled(s, st) && st.Callback?
    ensures Counting(Apply(s, st))
  {
    assert 1 <= |s.inflight| && |s.inflight - multiset{st.row}| == |s.inflight| - 1;
  }

  lemma CountPost(s: State, st: Step)
    requires Counting(s) && Enabled(s, st) && ByPost(st)
    ensures Counting(Apply(s, st))
  {
  }

  lemma CountRest(s: State, st: Step)
    requires Counting(s) && Lifecycle(s) && Enabled(s, st) && (st.CallbackDone? || ByRunOrWorld(st))
    ensures Counting(Apply(s, st))
  {
  }

  lemma KeepCounting(s: State, st: Step)
    requires Counting(s) && Lifecycle(s) && Enabled(s, st)
    ensures Counting(Apply(s, st))
  {
    if ByProducer(st) {
      CountProducer(s, st);
    } else if st.Callback? {
      CountCallback(s, st);
    } else if ByPost(st) {
      CountPost(s, st);
    } else {
      CountRest(s, st);
    }
  }

  lemma ProducerLives(s: State, st: Step)
    requires Counting(s) && Lifecycle(s) && Enabled(s, st) && ByProducer(st)
    ensures Lifecycle(Apply(s, st))
  {
  }

  // The channel has room and is open, and the wait group is positive.
  lemma CallbackLives(s: State, st: Step)
    requires Counting(s) && Lifecycle(s) && Enabled(s, st) && ByCallback(st)
    ensures Lifecycle(Apply(s, st))
  {
  }

  lemma PostLives(s: State, st: Step)
    requires Counting(s) && Lifecycle(s) && Enabled(s, st) && ByPost(st)
    ensures Lifecycle(Apply(s, st))
  {
  }

  // In particular no step panics.
  lemma KeepLifecycle(s: State, st: Step)
    requires Counting(s) && Lifecycle(s) && Enabled(s, st)
    ensures Lifecycle(Apply(s, st))
  {
    if ByProducer(st) {
      ProducerLives(s, st);
    } else if ByCallback(st) {
      CallbackLives(s, st);
    } else if ByPost(st) {
      PostLives(s, st);
    } else {
      RunLives(s, st);
    }
  }

  lemma RunLives(s: State, st: Step)
    requires Counting(s) && Lifecycle(s) && Enabled(s, st) && ByRunOrWorld(st)
    ensures Lifecycle(Apply(s, st))
  {
  }

  // ----- hand-over -----

  // The log growing at its end changes nothing the hand-over speaks about.
  lemma HandoverFrame(tables: set<(string, string)>, log: seq<Event>, log': seq<Event>, origin: nat, accepted: seq<Row>, phase: Phase)
    requires Handover(tables, log, origin, accepted, phase) && log <= log'
    ensures Handover(tables, log', origin, accepted, phase)
  {
    assert log'[..origin] == log[..origin];
    if phase.IncrDump? { assert log'[origin..phase.next] == log[origin..phase.next]; }
  }

  lemma HandoverFlushFull(tables: set<(string, string)>, log: seq<Event>, origin: nat, accepted: seq<Row>, todo: seq<Row>)
    requires GoodLog(log) && todo != [] && Handover(tables, log, origin, accepted, FullDump(todo))
    ensures Handover(tables, log, origin, accepted + [todo[0]], FullDump(todo[1..]))
  {
    var all := accepted + todo;
    var accepted' := accepted + [todo[0]];
    assert accepted' + todo[1..] == all;
    assert all[|accepted|] == todo[0] && todo[0] in all;
    SnapshotWasInserted(tables, log, origin, todo[0]);
    assert forall i :: 0 <= i < |accepted'| ==> accepted'[i] == all[i];
  }

  lemma HandoverFlushIncr(tables: set<(string, string)>, log: seq<Event>, origin: nat, accepted: seq<Row>, q: nat)
    requires GoodLog(log) && Handover(tables, log, origin, accepted, IncrDump(q))
    requires q < |log| && log[q].Insert? && (log[q].row.schema, log[q].row.table) in tables
    ensures Handover(tables, log, origin, accepted + [log[q].row], IncrDump(q + 1))
  {
    var r := log[q].row;
    assert log[origin..q + 1] == log[origin..q] + [log[q]];
    assert r !in accepted by {
      if InSnapshot(tables, log, origin, r) { SnapshotWasInserted(tables, log, origin, r); }
    }
  }

  lemma HandoverSkip(tables: set<(string, string)>, log: seq<Event>, origin: nat, accepted: seq<Row>, q: nat)
    requires Handover(tables, log, origin, accepted, IncrDump(q))
    requires q < |log| && !(log[q].Insert? && (log[q].row.schema, log[q].row.table) in tables)
    ensures Handover(tables, log, origin, accepted, IncrDump(q + 1))
  {
    assert log[origin..q + 1] == log[origin..q] + [log[q]];
  }

  // Steps that append to the log.
  predicate GrowsLog(st: Step) {
    st.AppInsert? || st.AppOther? || st.Settle?
  }

  ghost predicate HandoverAt(s: State) {
    Handover(s.tables, s.log, s.origin, s.accepted, s.phase)
  }

  lemma HandoverFlush(s: State, st: Step)
    requires GoodLog(s.log) && HandoverAt(s) && Enabled(s, st) && st.Flush?
    ensures HandoverAt(Apply(s, st))
  {
    if s.phase.FullDump? {
      HandoverFlushFull(s.tables, s.log, s.origin, s.accepted, s.phase.todo);
    } else {
      HandoverFlushIncr(s.tables, s.log, s.origin, s.accepted, s.phase.next);
    }
  }

  lemma SkipHandover(s: State, st: Step)
    requires HandoverAt(s) && Enabled(s, st) && st.Skip?
    ensures HandoverAt(Apply(s, st))
  {
    HandoverSkip(s.tables, s.log, s.origin, s.accepted, s.phase.next);
  }

  lemma HandoverGrow(s: State, st: Step)
    requires HandoverAt(s) && Enabled(s, st) && GrowsLog(st)
    ensures HandoverAt(Apply(s, st))
  {
    var s' := Apply(s, st);
    HandoverFrame(s.tables, s.log, s'.log, s.origin, s.accepted, s.phase);
  }

  // The producer's other steps.
  lemma HandoverMove(s: State, st: Step)
    requires HandoverAt(s) && Enabled(s, st) && ByProducer(st) && !st.Flush? && !st.Skip?
    ensures HandoverAt(Apply(s, st))
  {
    if st.FullEnd? { assert s.accepted + [] == s.accepted; }
    if st.WaitCallbacks? { assert s.log[s.origin..s.origin] == []; }
  }

  lemma HandoverOther(s: State, st: Step)
    requires HandoverAt(s) && Enabled(s, st) && !GrowsLog(st) && !ByProducer(st)
    ensures HandoverAt(Apply(s, st))
  {
    if st.Start? { assert [] + st.listing == st.listing; }
  }

  lemma KeepHandover(s: State, st: Step)
    requires GoodLog(s.log) && HandoverAt(s) && Enabled(s, st)
    ensures HandoverAt(Apply(s, st))
  {
    if st.Flush? {
      HandoverFlush(s, st);
    } else if st.Skip? {
      SkipHandover(s, st);
    } else if GrowsLog(st) {
      HandoverGrow(s, st);
    } else if ByProducer(st) {
      HandoverMove(s, st);
    } else {
      HandoverOther(s, st);
    }
  }

  // ----- conservation -----

  lemma RowsOfQueue(queue: seq<Entry>, e: Entry)
    ensures Rows(queue + [e]) == Rows(queue) + [e.row]
    ensures queue != [] ==> Rows(queue) == [queue[0].row] + Rows(queue[1..])
  {
  }

  lemma ConservedReceive(accepted: seq<Row>, inflight: multiset<Row>, queue: seq<Entry>, settled: multiset<Row>)
    requires queue != [] && Conserved(accepted, inflight, queue, Receiving, settled)
    ensures Conserved(accepted, inflight, queue[1..], Holding(queue[0]), settled)
  {
    RowsOfQueue(queue, queue[0]);
    assert multiset(Rows(queue)) == multiset{queue[0].row} + multiset(Rows(queue[1..]));
  }

  lemma ConservedCallback(accepted: seq<Row>, inflight: multiset<Row>, queue: seq<Entry>, post: Post, settled: multiset<Row>, e: Entry)
    requires e.row in inflight && Conserved(accepted, inflight, queue, post, settled)
    ensures Conserved(accepted, inflight - multiset{e.row}, queue + [e], post, settled)
  {
    RowsOfQueue(queue, e);
    assert multiset(Rows(queue + [e])) == multiset(Rows(queue)) + multiset{e.row};
  }

  lemma ConservedSettle(accepted: seq<Row>, inflight: multiset<Row>, queue: seq<Entry>, e: Entry, settled: multiset<Row>)
    requires Conserved(accepted, inflight, queue, Holding(e), settled)
    ensures Conserved(accepted, inflight, queue, Releasing, settled + multiset{e.row})
  {
  }

  ghost predicate ConservedAt(s: State) {
    Conserved(s.accepted, s.inflight, s.queue, s.post, Settled(s))
  }

  lemma CallbackConserved(s: State, st: Step)
    requires ConservedAt(s) && Enabled(s, st) && st.Callback? && !Apply(s, st).crashed
    ensures ConservedAt(Apply(s, st))
  {
    ConservedCallback(s.accepted, s.inflight, s.queue, s.post, Settled(s), Entry(st.row, st.ok));
  }

  lemma ReceiveConserved(s: State, st: Step)
    requires ConservedAt(s) && Enabled(s, st) && st.Receive?
    ensures ConservedAt(Apply(s, st))
  {
    ConservedReceive(s.accepted, s.inflight, s.queue, Settled(s));
  }

  lemma SettleConserved(s: State, st: Step)
    requires ConservedAt(s) && Enabled(s, st) && st.Settle?
    ensures ConservedAt(Apply(s, st))
  {
    SettledGrows(s, st);
    ConservedSettle(s.accepted, s.inflight, s.queue, s.post.entry, Settled(s));
  }

  lemma SettledGrows(s: State, st: Step)
    requires Enabled(s, st) && st.Settle?
    ensures Settled(Apply(s, st)) == Settled(s) + multiset{s.post.entry.row}
  {
  }

  lemma FlushConserved(s: State, st: Step)
    requires ConservedAt(s) && Enabled(s, st) && ByProducer(st)
    ensures ConservedAt(Apply(s, st))
  {
  }

  lemma StartConserved(s: State, st: Step)
    requires ConservedAt(s) && Counting(s) && Lifecycle(s) && Enabled(s, st) && st.Start?
    ensures ConservedAt(Apply(s, st))
  {
    assert Rows(s.queue) == [];
  }

  lemma RestConserved(s: State, st: Step)
    requires ConservedAt(s) && Enabled(s, st)
    requires st.CallbackDone? || st.Release? || st.PostExit? || (ByRunOrWorld(st) && !st.Start?)
    ensures ConservedAt(Apply(s, st))
  {
    match st
    case CallbackDone => CallbackTouches(s, st);
    case Release =>
    case PostExit =>
    case AppInsert(_) =>
    case AppOther =>
    case ParentCancel =>
    case ReturnRun =>
  }

  lemma KeepConserved(s: State, st: Step)
    requires ConservedAt(s) && Counting(s) && Lifecycle(s) && Enabled(s, st)
    ensures ConservedAt(Apply(s, st))
  {
    if ByProducer(st) {
      FlushConserved(s, st);
    } else if st.Callback? {
      KeepLifecycle(s, st);
      CallbackConserved(s, st);
    } else if st.Receive? {
      ReceiveConserved(s, st);
    } else if st.Settle? {
      SettleConserved(s, st);
    } else if st.Start? {
      StartConserved(s, st);
    } else {
      RestConserved(s, st);
    }
  }

  // ----- acknowledgements and deletions -----

  ghost predicate ResultsAckedAt(s: State) {
    ResultsAcked(s.acked, s.queue, s.post, s.delFailed)
  }

  lemma CallbackAcked(s: State, st: Step)
    requires ResultsAckedAt(s) && Enabled(s, st) && ByCallback(st)
    ensures ResultsAckedAt(Apply(s, st))
  {
  }

  lemma PostAcked(s: State, st: Step)
    requires ResultsAckedAt(s) && Enabled(s, st) && ByPost(st)
    ensures ResultsAckedAt(Apply(s, st))
  {
  }

  lemma RestAcked(s: State, st: Step)
    requires ResultsAckedAt(s) && Enabled(s, st) && (ByProducer(st) || ByRunOrWorld(st))
    ensures ResultsAckedAt(Apply(s, st))
  {
  }

  lemma KeepResultsAcked(s: State, st: Step)
    requires ResultsAckedAt(s) && Enabled(s, st)
    ensures ResultsAckedAt(Apply(s, st))
  {
    if ByCallback(st) {
      CallbackAcked(s, st);
    } else if ByPost(st) {
      PostAcked(s, st);
    } else {
      RestAcked(s, st);
    }
  }

  // The row the post-processor holds was accepted, hence inserted.
  lemma HeldWasInserted(s: State)
    requires Inv(s) && s.post.Holding?
    ensures Insert(s.post.entry.row) in s.log
  {
    assert s.post.entry.row in multiset(s.accepted);
  }

  ghost predicate DeletionsAt(s: State) {
    GoodLog(s.log) && DeletionsExplained(s.log, s.acked, s.goneBefore, s.deleted)
  }

  lemma SettleExplained(s: State, st: Step)
    requires Inv(s) && Enabled(s, st) && st.Settle?
    ensures DeletionsAt(Apply(s, st))
  {
    HeldWasInserted(s);
    GoodLogExtends(s.log, Delete(s.post.entry.row));
    ReplayIsInsertedNotDeleted(s.log, s.post.entry.row);
  }

  lemma RunExplained(s: State, st: Step)
    requires DeletionsAt(s) && Enabled(s, st) && ByRunOrWorld(st)
    ensures DeletionsAt(Apply(s, st))
  {
    if st.AppInsert? { GoodLogExtends(s.log, Insert(st.row)); }
    if st.AppOther? { GoodLogExtends(s.log, Other); }
    if st.Start? { GoneBefore(s, st); }
  }

  lemma ProducerExplained(s: State, st: Step)
    requires DeletionsAt(s) && Enabled(s, st) && ByProducer(st)
    ensures DeletionsAt(Apply(s, st))
  {
    ProducerTouches(s, st);
  }

  lemma CallbackExplained(s: State, st: Step)
    requires DeletionsAt(s) && Enabled(s, st) && ByCallback(st)
    ensures DeletionsAt(Apply(s, st))
  {
    CallbackTouches(s, st);
  }

  lemma PostExplained(s: State, st: Step)
    requires DeletionsAt(s) && Enabled(s, st) && ByPost(st) && !st.Settle?
    ensures DeletionsAt(Apply(s, st))
  {
    assert Apply(s, st).log == s.log;
  }

  lemma KeepDeletions(s: State, st: Step)
    requires Inv(s) && Enabled(s, st)
    ensures DeletionsAt(Apply(s, st))
  {
    if st.Settle? {
      SettleExplained(s, st);
    } else if ByRunOrWorld(st) {
      RunExplained(s, st);
    } else if ByProducer(st) {
      ProducerExplained(s, st);
    } else if ByCallback(st) {
      CallbackExplained(s, st);
    } else {
      PostExplained(s, st);
    }
  }

  lemma GoneBefore(s: State, st: Step)
    requires Enabled(s, st) && st.Start?
    ensures forall r :: r in Apply(s, st).goneBefore <==> Delete(r) in s.log
  {
    forall r | Delete(r) in s.log ensures r in Apply(s, st).goneBefore {
      assert Delete(r).Delete? && Delete(r).row == r;
    }
  }

  // ----- order -----

  // The row that the pipe is to publish for an event, if there is one.
  function MessageRow(tables: set<(string, string)>, e: Event): seq<Row> {
    if e.Insert? && (e.row.schema, e.row.table) in tables then [e.row] else []
  }

  // The rows to be published for so many events of the log from this position on.
  function MessageRows(tables: set<(string, string)>, log: seq<Event>, origin: nat, read: nat): seq<Row>
    requires origin + read <= |log|
  {
    if read == 0 then [] else MessageRows(tables, log, origin, read - 1) + MessageRow(tables, log[origin + read - 1])
  }

  lemma {:induction false} SameRows(tables: set<(string, string)>, log: seq<Event>, log': seq<Event>, origin: nat, read: nat)
    requires log <= log' && origin + read <= |log|
    ensures MessageRows(tables, log', origin, read) == MessageRows(tables, log, origin, read)
  {
    if read != 0 { SameRows(tables, log, log', origin, read - 1); }
  }

  // In which order rows have been accepted.
  ghost predicate Ordered(tables: set<(string, string)>, log: seq<Event>, origin: nat, listing: seq<Row>, accepted: seq<Row>, phase: Phase) {
    match phase
    case FullDump(todo) => accepted + todo == listing
    case FullWait(failed) => failed || accepted == listing
    case IncrDump(q) => origin <= q <= |log| && accepted == listing + MessageRows(tables, log, origin, q - origin)
    case _ => true
  }

  ghost predicate OrderedAt(s: State) {
    Ordered(s.tables, s.log, s.origin, s.listing, s.accepted, s.phase)
  }

  lemma OrderedFlushFull(tables: set<(string, string)>, log: seq<Event>, origin: nat, listing: seq<Row>, accepted: seq<Row>, todo: seq<Row>)
    requires todo != [] && Ordered(tables, log, origin, listing, accepted, FullDump(todo))
    ensures Ordered(tables, log, origin, listing, accepted + [todo[0]], FullDump(todo[1..]))
  {
    assert accepted + [todo[0]] + todo[1..] == accepted + todo;
  }

  lemma OrderedNext(tables: set<(string, string)>, log: seq<Event>, origin: nat, listing: seq<Row>, accepted: seq<Row>, q: nat)
    requires q < |log| && Ordered(tables, log, origin, listing, accepted, IncrDump(q))
    ensures Ordered(tables, log, origin, listing, accepted + MessageRow(tables, log[q]), IncrDump(q + 1))
  {
    var rows := MessageRows(tables, log, origin, q - origin);
    assert listing + rows + MessageRow(tables, log[q]) == listing + (rows + MessageRow(tables, log[q]));
  }

  lemma OrderedGrow(tables: set<(string, string)>, log: seq<Event>, log': seq<Event>, origin: nat, listing: seq<Row>, accepted: seq<Row>, phase: Phase)
    requires Ordered(tables, log, origin, listing, accepted, phase) && log <= log'
    ensures Ordered(tables, log', origin, listing, accepted, phase)
  {
    if phase.IncrDump? { SameRows(tables, log, log', origin, phase.next - origin); }
  }

  lemma ReadOrdered(s: State, st: Step)
    requires OrderedAt(s) && Enabled(s, st) && (st.Flush? || st.Skip?)
    ensures OrderedAt(Apply(s, st))
  {
    if s.phase.FullDump? {
      OrderedFlushFull(s.tables, s.log, s.origin, s.listing, s.accepted, s.phase.todo);
    } else {
      OrderedNext(s.tables, s.log, s.origin, s.listing, s.accepted, s.phase.next);
      assert st.Skip? ==> s.accepted + [] == s.accepted;
    }
  }

  lemma MoveOrdered(s: State, st: Step)
    requires OrderedAt(s) && s.origin <= |s.log| && Enabled(s, st) && ByProducer(st) && !st.Flush? && !st.Skip?
    ensures OrderedAt(Apply(s, st))
  {
    match st
    case FullEnd => assert s.accepted + [] == s.accepted;
    case Abort =>
    case WaitCallbacks => assert s.listing + [] == s.listing;
    case DoClose => case DoCancel => case DoJoin => case DoCloseDb =>
  }

  lemma RunOrdered(s: State, st: Step)
    requires OrderedAt(s) && Enabled(s, st) && ByRunOrWorld(st)
    ensures OrderedAt(Apply(s, st))
  {
    match st
    case Start(_, listing) => assert [] + listing == listing;
    case AppInsert(r) => OrderedGrow(s.tables, s.log, s.log + [Insert(r)], s.origin, s.listing, s.accepted, s.phase);
    case AppOther => OrderedGrow(s.tables, s.log, s.log + [Other], s.origin, s.listing, s.accepted, s.phase);
    case ParentCancel => case ReturnRun =>
  }

  lemma KeepOrdered(s: State, st: Step)
    requires OrderedAt(s) && s.origin <= |s.log| && Enabled(s, st)
    ensures OrderedAt(Apply(s, st))
  {
    if st.Flush? || st.Skip? {
      ReadOrdered(s, st);
    } else if ByProducer(st) {
      MoveOrdered(s, st);
    } else if ByRunOrWorld(st) {
      RunOrdered(s, st);
    } else if ByCallback(st) {
      CallbackTouches(s, st);
    } else {
      PostTouches(s, st);
      LogOnlyGrows(s, st);
      OrderedGrow(s.tables, s.log, Apply(s, st).log, s.origin, s.listing, s.accepted, s.phase);
    }
  }

  // ----- cancellation -----

  predicate Dumping(phase: Phase) {
    phase.FullDump? || phase.FullWait? || phase.IncrDump? || phase.IncrWait? || phase.CloseEntries?
  }

  // What the iteration's context is cancelled for: a failed publication, the end of the post-processor, the deferred call.
  ghost predicate CancelledFor(phase: Phase, cancelled: bool, post: Post, pubFailed: multiset<Row>) {
    && (pubFailed != multiset{} ==> cancelled)
    && (Dumping(phase) && cancelled ==> pubFailed != multiset{})
    && (phase.CancelCtx? && cancelled ==> pubFailed != multiset{} || post.Exited?)
    && (phase.JoinPost? || phase.CloseDb? || (phase.CancelCtx? && post.Exited?) ==> cancelled)
  }

  ghost predicate CancelledForAt(s: State) {
    CancelledFor(s.phase, s.cancelled, s.post, s.pubFailed)
  }

  lemma ProducerCancels(s: State, st: Step)
    requires CancelledForAt(s) && Lifecycle(s) && Enabled(s, st) && ByProducer(st)
    ensures CancelledForAt(Apply(s, st))
  {
    match st
    case Flush => case Skip => case FullEnd => case Abort => case WaitCallbacks =>
    case DoClose => case DoCancel => case DoJoin => case DoCloseDb =>
  }

  lemma PostCancels(s: State, st: Step)
    requires CancelledForAt(s) && Lifecycle(s) && Enabled(s, st) && ByPost(st)
    ensures CancelledForAt(Apply(s, st))
  {
    match st
    case Receive => case Settle(_) => case Release => case PostExit =>
  }

  lemma KeepCancelledFor(s: State, st: Step)
    requires CancelledForAt(s) && Lifecycle(s) && Enabled(s, st)
    ensures CancelledForAt(Apply(s, st))
  {
    if ByProducer(st) {
      ProducerCancels(s, st);
    } else if ByPost(st) {
      PostCancels(s, st);
    } else if ByCallback(st) {
      CallbackTouches(s, st);
    }
  }

  /** The invariant is inductive. */
  lemma KeepInv(s: State, st: Step)
    requires Inv(s) && Enabled(s, st)
    ensures Inv(Apply(s, st))
  {
    KeepCounting(s, st);
    KeepLifecycle(s, st);
    KeepHandover(s, st);
    KeepConserved(s, st);
    KeepResultsAcked(s, st);
    KeepDeletions(s, st);
    KeepCancelledFor(s, st);
    KeepOrdered(s, st);
  }

  lemma {:induction false} ReachableInv(s: State, steps: seq<Step>)
    requires Init(s) && CanRun(s, steps)
    ensures Inv(Exec(s, steps))
  {
    if steps == [] {
      InitInv(s);
    } else {
      ReachableInv(s, Front(steps));
      KeepInv(Exec(s, Front(steps)), Last(steps));
    }
  }
}
