/**
  The message pipe of binlogmsg as a transition system.

  One State holds everything the four parties share: the producer (full dump, then binlog dump),
  the downstream with its owed callbacks, the post-processing goroutine, and the database.
  One Step is one channel operation, one wait-group operation or one database statement, so a
  sequence of steps is an interleaving of the goroutines over any number of pipe restarts.
*/
module PipeModel {
  import opened Seqs

  // A stored message: the primary key of its table row.  Ids are never reused.
  datatype Row = Row(schema: string, table: string, id: nat)

  // The binary log of the database.  Other covers transaction marks and rows the pipe does not look at.
  datatype Event = Insert(row: Row) | Delete(row: Row) | Other

  // A message entry carrying the result of its publication.
  datatype Entry = Entry(row: Row, ok: bool)

  // Where the post-processing goroutine stands.
  datatype Post = Receiving | Holding(entry: Entry) | Releasing | Exited

  // Where the producer stands; Idle is the wait between two iterations of Run.
  datatype Phase =
    | Idle
    | FullDump(todo: seq<Row>)
    | FullWait(failed: bool)
    | IncrDump(next: nat)
    | IncrWait
    | CloseEntries
    | CancelCtx
    | JoinPost
    | CloseDb
    | Stopped

  datatype State = State(
    maxInflight: nat,
    tables: set<(string, string)>,
    log: seq<Event>,
    parentDone: bool,           // the context given to Run is done
    cancelled: bool,            // the context of this iteration is cancelled
    dbOpen: bool,
    entriesClosed: bool,        // entryCh is closed (or no iteration is alive)
    phase: Phase,
    ctrl: nat,                  // tokens in ctrlCh
    wg: nat,                    // counter of pubCbWg
    undone: nat,                // callbacks that have sent their entry but not yet called Done
    inflight: multiset<Row>,    // entries handed downstream whose callback has not sent yet
    queue: seq<Entry>,          // contents of entryCh
    post: Post,
    crashed: bool,              // a Go panic happened
    // History, never read by a step except to extend it.
    iterations: nat,            // iterations started
    acked: set<Row>,            // rows downstream has called back nil for, ever
    origin: nat,                // log position of this iteration's snapshot
    listing: seq<Row>,          // ... and its rows, in the order of the full dump
    goneBefore: set<Row>,       // rows already deleted when this iteration started
    accepted: seq<Row>,         // rows that were given quota in this iteration
    deleted: multiset<Row>,     // ... and whose DELETE succeeded
    delFailed: multiset<Row>,   // ... and whose DELETE failed
    pubFailed: multiset<Row>)   // ... and whose publication failed

  datatype Step =
    // The outside world: applications writing to the database, and the caller of Run.
    | AppInsert(row: Row) | AppOther | ParentCancel
    // Run
    | Start(at: nat, listing: seq<Row>) | ReturnRun
    // The producer
    | Flush | FullEnd | Skip | Abort
    | WaitCallbacks | DoClose | DoCancel | DoJoin | DoCloseDb
    // Downstream callbacks
    | Callback(row: Row, ok: bool) | CallbackDone
    // The post-processing goroutine
    | Receive | Settle(deleteOk: bool) | Release | PostExit

  // ----- the database -----

  /** The rows a reader of the log up to its end finds in the database. */
  function Replay(log: seq<Event>): set<Row> {
    if log == [] then {}
    else
      var before := Replay(log[..|log| - 1]);
      match log[|log| - 1]
      case Insert(r) => before + {r}
      case Delete(r) => before - {r}
      case Other => before
  }

  predicate MsgRow(s: State, r: Row) {
    (r.schema, r.table) in s.tables
  }

  // A row is inserted at most once, and deleted only after that.
  ghost predicate GoodLog(log: seq<Event>) {
    && (forall i, j :: 0 <= i < j < |log| && log[i].Insert? && log[j].Insert? ==> log[i].row != log[j].row)
    && (forall i :: 0 <= i < |log| && log[i].Delete? ==> Insert(log[i].row) in log[..i])
  }

  // ----- steps -----

  predicate ByProducer(st: Step) {
    || st.Flush? || st.FullEnd? || st.Skip? || st.Abort?
    || st.WaitCallbacks? || st.DoClose? || st.DoCancel? || st.DoJoin? || st.DoCloseDb?
  }

  predicate ByCallback(st: Step) {
    st.Callback? || st.CallbackDone?
  }

  predicate ByPost(st: Step) {
    st.Receive? || st.Settle? || st.Release? || st.PostExit?
  }

  predicate ByRunOrWorld(st: Step) {
    st.AppInsert? || st.AppOther? || st.ParentCancel? || st.Start? || st.ReturnRun?
  }

  ghost predicate Enabled(s: State, st: Step) {
    && !s.crashed
    && match st
       case AppInsert(r) => Insert(r) !in s.log
       case AppOther => true
       case ParentCancel => true
       case Start(at, listing) =>
         && s.phase.Idle?
         && at <= |s.log|
         && NoDup(listing)
         && (forall r :: r in listing <==> MsgRow(s, r) && r in Replay(s.log[..at]))
       case ReturnRun => s.phase.Idle? && s.parentDone
       case Flush => AtRow(s) && s.ctrl < s.maxInflight
       case FullEnd => s.phase.FullDump? && s.phase.todo == []
       case Skip => s.phase.IncrDump? && s.phase.next < |s.log| && !AtMessage(s)
       case Abort => s.phase.FullDump? || s.phase.IncrDump?
       case WaitCallbacks => (s.phase.FullWait? || s.phase.IncrWait?) && s.wg == 0
       case DoClose => s.phase.CloseEntries?
       case DoCancel => s.phase.CancelCtx?
       case DoJoin => s.phase.JoinPost? && s.post.Exited?
       case DoCloseDb => s.phase.CloseDb?
       case Callback(r, _) => r in s.inflight
       case CallbackDone => 0 < s.undone
       case Receive => s.post.Receiving? && s.queue != []
       case Settle(deleteOk) => s.post.Holding? && (deleteOk ==> s.dbOpen)
       case Release => s.post.Releasing? && 0 < s.ctrl
       case PostExit => s.post.Receiving? && s.queue == [] && s.entriesClosed
  }

  // The binlog dump stands before an insertion into a message table.
  predicate AtMessage(s: State) {
    s.phase.IncrDump? && s.phase.next < |s.log| && s.log[s.phase.next].Insert? && MsgRow(s, s.log[s.phase.next].row)
  }

  // The producer stands at a message row: the next of the listing, or the next event of the log.
  predicate AtRow(s: State) {
    (s.phase.FullDump? && s.phase.todo != []) || AtMessage(s)
  }

  function RowAt(s: State): Row
    requires AtRow(s)
  {
    if s.phase.FullDump? then s.phase.todo[0] else s.log[s.phase.next].row
  }

  function Apply(s: State, st: Step): State
    requires Enabled(s, st)
  {
    match st
    case AppInsert(r) => s.(log := s.log + [Insert(r)])
    case AppOther => s.(log := s.log + [Other])
    case ParentCancel => s.(parentDone := true)
    case Start(at, listing) =>
      s.(cancelled := false, dbOpen := true, entriesClosed := false, phase := FullDump(listing), post := Receiving,
         iterations := s.iterations + 1, origin := at, listing := listing, goneBefore := set e | e in s.log && e.Delete? :: e.row,
         accepted := [], deleted := multiset{}, delFailed := multiset{}, pubFailed := multiset{})
    case ReturnRun => s.(phase := Stopped)
    case Flush =>
      // The quota of one entry is taken and the entry is handed downstream.
      var r := RowAt(s);
      s.(ctrl := s.ctrl + 1, wg := s.wg + 1, inflight := s.inflight + multiset{r}, accepted := s.accepted + [r],
         phase := if s.phase.FullDump? then FullDump(s.phase.todo[1..]) else IncrDump(s.phase.next + 1))
    case FullEnd => s.(phase := FullWait(false))
    case Skip => s.(phase := IncrDump(s.phase.next + 1))
    case Abort => s.(phase := if s.phase.FullDump? then FullWait(true) else IncrWait)
    case WaitCallbacks => s.(phase := if s.phase == FullWait(false) then IncrDump(s.origin) else CloseEntries)
    case DoClose => s.(entriesClosed := true, phase := CancelCtx)
    case DoCancel => s.(cancelled := true, phase := JoinPost)
    case DoJoin => s.(phase := CloseDb)
    case DoCloseDb => s.(dbOpen := false, phase := Idle)
    case Callback(r, ok) =>
      var s' := s.(inflight := s.inflight - multiset{r}, acked := if ok then s.acked + {r} else s.acked);
      // The send is a select with a default branch that panics; sending on a closed channel panics too.
      if s.entriesClosed || s.maxInflight <= |s.queue| then s'.(crashed := true)
      else s'.(queue := s.queue + [Entry(r, ok)], undone := s.undone + 1)
    case CallbackDone =>
      // A negative wait-group counter panics.
      if s.wg == 0 then s.(crashed := true) else s.(wg := s.wg - 1, undone := s.undone - 1)
    case Receive => s.(post := Holding(s.queue[0]), queue := s.queue[1..])
    case Settle(deleteOk) =>
      var r := s.post.entry.row;
      var s' := s.(post := Releasing);
      if !s.post.entry.ok then s'.(cancelled := true, pubFailed := s.pubFailed + multiset{r})
      else if !deleteOk then s'.(delFailed := s.delFailed + multiset{r})
      else s'.(deleted := s.deleted + multiset{r}, log := if r in Replay(s.log) then s.log + [Delete(r)] else s.log)
    case Release => s.(ctrl := s.ctrl - 1, post := Receiving)
    case PostExit => s.(post := Exited, cancelled := true)
  }

  ghost predicate Init(s: State) {
    && 1 <= s.maxInflight
    && s.log == [] && !s.parentDone && !s.cancelled && !s.dbOpen && s.entriesClosed
    && s.phase == Idle && s.ctrl == s.wg == s.undone == 0 && s.inflight == multiset{} && s.queue == []
    && s.post == Exited && !s.crashed
    && s.iterations == 0 && s.acked == {} && s.origin == 0 && s.listing == [] && s.goneBefore == {} && s.accepted == []
    && s.deleted == s.delFailed == s.pubFailed == multiset{}
  }

  /** The steps can be taken one after the other, starting in s. */
  ghost predicate CanRun(s: State, steps: seq<Step>)
    decreases |steps|, 0
  {
    steps == [] || (CanRun(s, Front(steps)) && Enabled(Exec(s, Front(steps)), Last(steps)))
  }

  ghost function Exec(s: State, steps: seq<Step>): State
    requires CanRun(s, steps)
    decreases |steps|, 1
  {
    if steps == [] then s else Apply(Exec(s, Front(steps)), Last(steps))
  }

  // ----- what each party touches -----

  lemma ProducerTouches(s: State, st: Step)
    requires Enabled(s, st) && ByProducer(st)
    ensures var t := Apply(s, st);
      t == s.(ctrl := t.ctrl, wg := t.wg, inflight := t.inflight, accepted := t.accepted, phase := t.phase,
              entriesClosed := t.entriesClosed, cancelled := t.cancelled, dbOpen := t.dbOpen)
  {
  }

  lemma CallbackTouches(s: State, st: Step)
    requires Enabled(s, st) && ByCallback(st)
    ensures var t := Apply(s, st);
      t == s.(inflight := t.inflight, queue := t.queue, wg := t.wg, undone := t.undone, acked := t.acked, crashed := t.crashed)
  {
    match st
    case Callback(_, _) =>
    case CallbackDone =>
  }

  lemma PostTouches(s: State, st: Step)
    requires Enabled(s, st) && ByPost(st)
    ensures var t := Apply(s, st);
      t == s.(queue := t.queue, ctrl := t.ctrl, post := t.post, cancelled := t.cancelled, log := t.log,
              deleted := t.deleted, delFailed := t.delFailed, pubFailed := t.pubFailed)
  {
    match st
    case Receive =>
    case Settle(_) =>
    case Release =>
    case PostExit =>
  }

  lemma RunOrWorldTouches(s: State, st: Step)
    requires Enabled(s, st) && ByRunOrWorld(st)
    ensures var t := Apply(s, st);
      t == s.(log := t.log, parentDone := t.parentDone, phase := t.phase, cancelled := t.cancelled, dbOpen := t.dbOpen,
              entriesClosed := t.entriesClosed, post := t.post, iterations := t.iterations, origin := t.origin, listing := t.listing, goneBefore := t.goneBefore,
              accepted := t.accepted, deleted := t.deleted, delFailed := t.delFailed, pubFailed := t.pubFailed)
  {
  }

  lemma LogOnlyGrows(s: State, st: Step)
    requires Enabled(s, st)
    ensures s.log <= Apply(s, st).log
    ensures !st.Settle? && !st.AppInsert? && !st.AppOther? ==> Apply(s, st).log == s.log
  {
    if ByProducer(st) { ProducerTouches(s, st); }
    if ByCallback(st) { CallbackTouches(s, st); }
  }
}
