/**
  Asynchronous publishers and the contract on their callback.

  A publisher is a function of the request and of the callback it is given.  Its outcome is the error it returns
  at once, and the effects that follow on its behalf, now or later.  What a callback does is a sequence of effects
  too, so a publisher that calls back contains what the callback did.
*/
module AsyncPublisher {
  import opened Wrappers

  type Error = string
  type Bytes = seq<bv8>
  type MD = map<string, seq<Bytes>>
  type SpanCtx = Bytes

  datatype Request = Request(md: MD, span: Option<SpanCtx>, subject: string, msg: Bytes)

  datatype Effect = Called(err: Option<Error>) | SpanFinished(err: Option<Error>)

  type Callback = Option<Error> -> seq<Effect>

  datatype Outcome = Outcome(err: Option<Error>, effects: seq<Effect>)

  type Publisher = (Request, Callback) -> Outcome

  type Middleware = Publisher -> Publisher

  // ----- the contract -----

  // Nothing here stems from a callback of the caller.
  ghost predicate Quiet(effects: seq<Effect>) {
    forall x :: x in effects ==> x.SpanFinished?
  }

  // The callback ran exactly once.
  ghost predicate CalledOnce(effects: seq<Effect>, cb: Callback) {
    exists pre, e, post :: effects == pre + cb(e) + post && Quiet(pre) && Quiet(post)
  }

  /** The contract of MsgAsyncPublisher: the callback is called exactly once if nil is returned, and never
      if an error is returned. */
  ghost predicate Contract(p: Publisher) {
    forall req: Request, cb: Callback ::
      var out := p(req, cb);
      if out.err.None? then CalledOnce(out.effects, cb) else Quiet(out.effects)
  }

  ghost predicate Preserves(mw: Middleware) {
    forall p: Publisher :: Contract(p) ==> Contract(mw(p))
  }

  lemma CalledAt(pre: seq<Effect>, e: Option<Error>, post: seq<Effect>, cb: Callback)
    requires Quiet(pre) && Quiet(post)
    ensures CalledOnce(pre + cb(e) + post, cb)
  {
  }

  // The callback that only records that it was called.
  const observe: Callback := e => [Called(e)]

  function Calls(effects: seq<Effect>): seq<Option<Error>> {
    if effects == [] then []
    else (if effects[0].Called? then [effects[0].err] else []) + Calls(effects[1..])
  }

  lemma {:induction false} CallsAppend(a: seq<Effect>, b: seq<Effect>)
    ensures Calls(a + b) == Calls(a) + Calls(b)
  {
    if a == [] {
      assert a + b == b;
    } else {
      var first := if a[0].Called? then [a[0].err] else [];
      CallsAppend(a[1..], b);
      assert (a + b)[1..] == a[1..] + b;
      assert Calls(a + b) == first + Calls((a + b)[1..]);
      assert first + (Calls(a[1..]) + Calls(b)) == (first + Calls(a[1..])) + Calls(b);
    }
  }

  lemma {:induction false} QuietHasNoCalls(effects: seq<Effect>)
    requires Quiet(effects)
    ensures Calls(effects) == []
  {
    if effects != [] {
      assert effects[0] in effects && forall x :: x in effects[1..] ==> x in effects;
      QuietHasNoCalls(effects[1..]);
    }
  }

  /** Counting: a publisher that keeps the contract calls back once on nil and not at all on error. */
  lemma ContractCounts(p: Publisher, req: Request)
    requires Contract(p)
    ensures |Calls(p(req, observe).effects)| == if p(req, observe).err.None? then 1 else 0
  {
    var out := p(req, observe);
    if out.err.None? {
      var pre, e, post :| out.effects == pre + observe(e) + post && Quiet(pre) && Quiet(post);
      CallsAppend(pre + observe(e), post);
      CallsAppend(pre, observe(e));
      QuietHasNoCalls(pre);
      QuietHasNoCalls(post);
    } else {
      QuietHasNoCalls(out.effects);
    }
  }

  // ----- middlewares -----

  ghost function FoldRight(mws: seq<Middleware>, p: Publisher): Publisher {
    if mws == [] then p else mws[0](FoldRight(mws[1..], p))
  }

  // Each publisher of the chain is the next one, wrapped by the middleware between them.
  ghost predicate IsChain(chain: seq<Publisher>, mws: seq<Middleware>, innermost: Publisher) {
    && |chain| == |mws| + 1
    && chain[|mws|] == innermost
    && forall i :: 0 <= i < |mws| ==> chain[i] == mws[i](chain[i + 1])
  }

  /** The loop from the last middleware to the first applies every middleware once, the first one outermost; which is
      the right fold. */
  method NewMsgAsyncPublisherWithMWs(publisher: Publisher, mws: seq<Middleware>) returns (p: Publisher, ghost chain: seq<Publisher>)
    ensures IsChain(chain, mws, publisher) && p == chain[0]
    ensures p == FoldRight(mws, publisher)
  {
    p := publisher;
    chain := [p];
    var i := |mws|;
    while 0 < i
      invariant 0 <= i <= |mws|
      invariant IsChain(chain, mws[i..], publisher) && p == chain[0]
      invariant p == FoldRight(mws[i..], publisher)
    {
      i := i - 1;
      assert mws[i..] == [mws[i]] + mws[i + 1..];
      p := mws[i](p);
      chain := [p] + chain;
    }
    assert mws[0..] == mws;
  }

  /** A stack is one such chain, so no middleware is left out and none is applied twice. */
  lemma {:induction false} ChainIsFold(chain: seq<Publisher>, mws: seq<Middleware>, innermost: Publisher)
    requires IsChain(chain, mws, innermost)
    ensures chain[0] == FoldRight(mws, innermost)
  {
    if mws != [] { ChainIsFold(chain[1..], mws[1..], innermost); }
  }

  /** Stacking distributes over list concatenation. */
  lemma {:induction false} FoldAppend(a: seq<Middleware>, b: seq<Middleware>, p: Publisher)
    ensures FoldRight(a + b, p) == FoldRight(a, FoldRight(b, p))
  {
    if a == [] {
      assert a + b == b;
    } else {
      FoldAppend(a[1..], b, p);
      assert (a + b)[1..] == a[1..] + b;
    }
  }

  /** Any stack of contract-preserving middlewares keeps the contract. */
  lemma {:induction false} StackKeepsContract(mws: seq<Middleware>, p: Publisher)
    requires Contract(p) && forall i :: 0 <= i < |mws| ==> Preserves(mws[i])
    ensures Contract(FoldRight(mws, p))
  {
    if mws != [] {
      assert Preserves(mws[0]);
      StackKeepsContract(mws[1..], p);
    }
  }

  // ----- tracing -----

  datatype Tracer = Tracer(
    extract: MD -> Result<Option<SpanCtx>, Error>,
    inject: (SpanCtx, MD) -> Result<MD, Error>,
    start: (SpanCtx, string) -> SpanCtx)

  /** WrapMsgAsyncPublisher: the span follows the one in the metadata (as a pipe's downstream) or in the context. */
  function WrapMsgAsyncPublisher(tracer: Tracer, downstream: bool): Middleware {
    (next: Publisher) => (req: Request, cb: Callback) => Traced(tracer, downstream, next, req, cb)
  }

  function Traced(tracer: Tracer, downstream: bool, next: Publisher, req: Request, cb: Callback): Outcome {
    var parent := if downstream then tracer.extract(req.md) else Success(req.span);
    match parent
    case Failure(e) => Outcome(Some(e), [])
    case Success(None) => next(req, cb)
    case Success(Some(parentCtx)) =>
      match tracer.inject(tracer.start(parentCtx, req.subject), req.md)
      case Failure(e) => Outcome(Some(e), [])
      case Success(md) =>
        var out := next(req.(md := md), e => cb(e) + [SpanFinished(e)]);
        if out.err.None? then out else Outcome(out.err, out.effects + [SpanFinished(out.err)])
  }

  /** Tracing keeps the callback contract, whatever the tracer does. */
  lemma TracingKeepsContract(tracer: Tracer, downstream: bool)
    ensures Preserves(WrapMsgAsyncPublisher(tracer, downstream))
  {
    forall next: Publisher | Contract(next)
      ensures Contract(WrapMsgAsyncPublisher(tracer, downstream)(next))
    {
      var p := WrapMsgAsyncPublisher(tracer, downstream)(next);
      forall req: Request, cb: Callback
        ensures var out := p(req, cb); if out.err.None? then CalledOnce(out.effects, cb) else Quiet(out.effects)
      {
        TracedKeepsContract(tracer, downstream, next, req, cb);
      }
    }
  }

  // The callback that next is given: the caller's, after which the span is finished with the same result.
  ghost predicate FinishesAfter(cb': Callback, cb: Callback) {
    forall e :: cb'(e) == cb(e) + [SpanFinished(e)]
  }

  ghost predicate PassedOn(out: Outcome, next: Publisher, req: Request, cb: Callback) {
    var passed := next(req, cb);
    out == Outcome(passed.err, passed.effects + if passed.err.None? then [] else [SpanFinished(passed.err)])
  }

  /** Tracing passes messages on as they are: without a span to follow the call is next's own; otherwise next gets the same
      subject and message, with the injected metadata and the caller's callback, and its answer is returned, after the
      span was finished with it if it is an error; and if the tracer fails, its error is returned and nothing is called. */
  lemma TracingPassesOn(tracer: Tracer, downstream: bool, next: Publisher, req: Request, cb: Callback)
    ensures var out := WrapMsgAsyncPublisher(tracer, downstream)(next)(req, cb);
      var parent := if downstream then tracer.extract(req.md) else Success(req.span);
      && (parent.Failure? ==> out == Outcome(Some(parent.error), []))
      && (parent == Success(None) ==> out == next(req, cb))
      && (parent.Success? && parent.value.Some? ==>
           var md := tracer.inject(tracer.start(parent.value.value, req.subject), req.md);
           && (md.Failure? ==> out == Outcome(Some(md.error), []))
           && (md.Success? ==>
                exists cb' :: FinishesAfter(cb', cb) && PassedOn(out, next, Request(md.value, req.span, req.subject, req.msg), cb')))
  {
    var parent := if downstream then tracer.extract(req.md) else Success(req.span);
    if parent.Success? && parent.value.Some? {
      var md := tracer.inject(tracer.start(parent.value.value, req.subject), req.md);
      if md.Success? {
        var cb' := e => cb(e) + [SpanFinished(e)];
        var passed := next(req.(md := md.value), cb');
        assert passed.effects + [] == passed.effects;
        assert FinishesAfter(cb', cb) && PassedOn(Traced(tracer, downstream, next, req, cb), next, req.(md := md.value), cb');
      }
    }
  }

  // Finishing a span after the callback does not count as another call.
  lemma FinishingIsQuiet(effects: seq<Effect>, cb: Callback, cb': Callback)
    requires CalledOnce(effects, cb')
    requires forall e :: cb'(e) == cb(e) + [SpanFinished(e)]
    ensures CalledOnce(effects, cb)
  {
    var pre, e, post :| effects == pre + cb'(e) + post && Quiet(pre) && Quiet(post);
    var post' := [SpanFinished(e)] + post;
    CalledAt(pre, e, post', cb);
    assert effects == pre + cb(e) + post';
  }

  lemma TracedKeepsContract(tracer: Tracer, downstream: bool, next: Publisher, req: Request, cb: Callback)
    requires Contract(next)
    ensures var out := Traced(tracer, downstream, next, req, cb);
      if out.err.None? then CalledOnce(out.effects, cb) else Quiet(out.effects)
  {
    var parent := if downstream then tracer.extract(req.md) else Success(req.span);
    if parent.Success? && parent.value.Some? {
      var injected := tracer.inject(tracer.start(parent.value.value, req.subject), req.md);
      if injected.Success? {
        var cb' := e => cb(e) + [SpanFinished(e)];
        var out := next(req.(md := injected.value), cb');
        assert if out.err.None? then CalledOnce(out.effects, cb') else Quiet(out.effects);
        if out.err.None? { FinishingIsQuiet(out.effects, cb, cb'); }
      }
    } else if parent.Success? {
      assert Traced(tracer, downstream, next, req, cb) == next(req, cb);
    }
  }

  // ----- the durable connection as a publisher -----

  /** The publisher of a DurConn: checks and encoding first, then the connection installed at that moment, if any. */
  function DurConnPublisher(encode: Request -> Result<Bytes, Error>, closed: bool, sc: Option<Publisher>): Publisher {
    (req: Request, cb: Callback) =>
      match encode(req)
      case Failure(e) => Outcome(Some(e), [])
      case Success(data) =>
        if closed then Outcome(Some("stanmsg.DurConn closed"), [])
        else if sc.None? then Outcome(Some("stanmsg.DurConn not connected"), [])
        else sc.value(req.(msg := data), cb)
  }

  /** It forwards the encoded message, with the caller's callback, to the installed connection, exactly if the message can
      be encoded, the DurConn is open and a connection is installed; otherwise it returns an error and calls nothing. */
  lemma DurConnForwards(encode: Request -> Result<Bytes, Error>, closed: bool, sc: Option<Publisher>, req: Request, cb: Callback)
    ensures var out := DurConnPublisher(encode, closed, sc)(req, cb);
      if encode(req).Success? && !closed && sc.Some?
      then out == sc.value(Request(req.md, req.span, req.subject, encode(req).value), cb)
      else out == Outcome(Some(if encode(req).Failure? then encode(req).error
                               else if closed then "stanmsg.DurConn closed" else "stanmsg.DurConn not connected"), [])
  {
  }

  /** It keeps the contract if the streaming library does. */
  lemma DurConnKeepsContract(encode: Request -> Result<Bytes, Error>, closed: bool, sc: Option<Publisher>)
    requires sc.Some? ==> Contract(sc.value)
    ensures Contract(DurConnPublisher(encode, closed, sc))
  {
    var p := DurConnPublisher(encode, closed, sc);
    forall req: Request, cb: Callback
      ensures var out := p(req, cb); if out.err.None? then CalledOnce(out.effects, cb) else Quiet(out.effects)
    {
      if encode(req).Success? && !closed && sc.Some? {
        assert p(req, cb) == sc.value(req.(msg := encode(req).value), cb);
      }
    }
  }

  // ----- callers -----

  /** Publish waits for the callback or the end of the context.  The channel it waits on is closed at most once
      (closing it twice would panic), and without an end of the context the callback's error is returned. */
  method Publish(fn: Publisher, req: Request, ctxEnd: Option<Error>) returns (r: Option<Error>, closes: nat)
    requires Contract(fn)
    ensures closes <= 1
    ensures var out := fn(req, observe);
      if out.err.Some? then r == out.err && closes == 0
      else closes == 1 && (Calls(out.effects) == [r] || (ctxEnd.Some? && r == ctxEnd))
  {
    var out := fn(req, observe);
    ContractCounts(fn, req);
    var err: Option<Error> := None;
    closes := 0;
    var i := 0;
    while i < |out.effects|
      invariant 0 <= i <= |out.effects|
      invariant closes + |Calls(out.effects[i..])| == |Calls(out.effects)|
      invariant closes == 0 ==> Calls(out.effects[i..]) == Calls(out.effects)
      invariant closes == 1 ==> Calls(out.effects) == [err]
    {
      var rest := out.effects[i..];
      assert rest[0] == out.effects[i] && rest[1..] == out.effects[i + 1..];
      if out.effects[i].Called? {
        // the closure: err = err2; close(errc)
        err := out.effects[i].err;
        closes := closes + 1;
      }
      i := i + 1;
    }
    if out.err.Some? {
      return out.err, closes;
    }
    if {
      case ctxEnd.Some? => return ctxEnd, closes;
      case closes != 0 => return err, closes;
    }
  }

  /** The pipe's flushMsgEntry for an asynchronous downstream: an error returned at once goes to the callback too. */
  function FlushMsgEntry(downstream: Publisher, req: Request, cb: Callback): seq<Effect> {
    var out := downstream(req, cb);
    if out.err.Some? then out.effects + cb(out.err) else out.effects
  }

  /** So every flushed entry gets exactly one callback: downstream's if it returns nil, or else its error. */
  lemma FlushCallsBackOnce(downstream: Publisher, req: Request, cb: Callback)
    requires Contract(downstream)
    ensures CalledOnce(FlushMsgEntry(downstream, req, cb), cb)
    ensures downstream(req, cb).err.None? ==> FlushMsgEntry(downstream, req, cb) == downstream(req, cb).effects
    ensures downstream(req, cb).err.Some? ==>
      exists pre :: Quiet(pre) && FlushMsgEntry(downstream, req, cb) == pre + cb(downstream(req, cb).err)
  {
    var out := downstream(req, cb);
    assert if out.err.None? then CalledOnce(out.effects, cb) else Quiet(out.effects);
    if out.err.Some? {
      CalledAt(out.effects, out.err, [], cb);
      assert FlushMsgEntry(downstream, req, cb) == out.effects + cb(out.err) + [];
    }
  }
}
