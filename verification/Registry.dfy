/** The registry of natsrpc's ServerConn: services, their subscriptions, and their method maps. */
module Registry {
  import opened Wrappers
  import opened Seqs

  // ----- specification -----

  // What has been registered: for each service with a subscription, its methods.
  datatype Reg<Info> = Reg(closed: bool, services: map<string, map<string, Info>>)

  // A call of RegistHandler (a missing info is a nil handler; subscribeOk is whether subscribing and flushing
  // succeed, if they are needed) or of Close.
  datatype Op<Info> = Regist(svc: string, method_: string, info: Option<Info>, subscribeOk: bool) | CloseOp

  predicate Accepts<Info>(r: Reg<Info>, op: Op<Info>) {
    !r.closed && (op.Regist? ==> op.svc in r.services || op.subscribeOk)
  }

  function Do<Info>(r: Reg<Info>, op: Op<Info>): Reg<Info> {
    if !Accepts(r, op) then r
    else match op
      case CloseOp => r.(closed := true)
      case Regist(svc, m, info, _) =>
        var methods := if svc in r.services then r.services[svc] else map[];
        r.(services := r.services[svc := if info.Some? then methods[m := info.value] else methods - {m}])
  }

  function Find<Info>(r: Reg<Info>, svc: string, m: string): Option<Info> {
    if svc in r.services && m in r.services[svc] then Some(r.services[svc][m]) else None
  }

  ghost function Run<Info>(ops: seq<Op<Info>>): Reg<Info> {
    if ops == [] then Reg(false, map[]) else Do(Run(Front(ops)), Last(ops))
  }

  // ----- what a history of calls leaves registered -----

  // The i-th call registered something: no Close came before it, and its service could be subscribed, now or earlier.
  ghost predicate Took<Info>(ops: seq<Op<Info>>, i: nat)
    decreases i
  {
    && i < |ops| && ops[i].Regist?
    && CloseOp !in ops[..i]
    && (ops[i].subscribeOk || exists j: nat :: j < i && ops[j].Regist? && ops[j].svc == ops[i].svc && Took(ops, j))
  }

  // The last call that registered something under this name decides.
  ghost function Winner<Info>(ops: seq<Op<Info>>, svc: string, m: string): Option<Info> {
    if ops == [] then None
    else
      var last := Last(ops);
      if Took(ops, |ops| - 1) && last.svc == svc && last.method_ == m then last.info else Winner(Front(ops), svc, m)
  }

  lemma {:induction false} TookInPrefix<Info>(ops: seq<Op<Info>>, n: nat, i: nat)
    requires i < n <= |ops|
    ensures Took(ops[..n], i) <==> Took(ops, i)
    decreases i
  {
    assert ops[..n][..i] == ops[..i];
    forall j: nat | j < i ensures Took(ops[..n], j) <==> Took(ops, j) {
      TookInPrefix(ops, n, j);
    }
  }

  lemma {:induction false} ClosedByClose<Info>(ops: seq<Op<Info>>)
    ensures Run(ops).closed <==> CloseOp in ops
  {
    if ops != [] {
      ClosedByClose(Front(ops));
      assert ops == Front(ops) + [Last(ops)];
    }
  }

  // The last call takes effect exactly if the registry accepts it.
  lemma {:induction false} LastTook<Info>(ops: seq<Op<Info>>)
    requires ops != []
    ensures Took(ops, |ops| - 1) <==> Last(ops).Regist? && Accepts(Run(Front(ops)), Last(ops))
    decreases |ops|, 0
  {
    var before := Front(ops);
    ClosedByClose(before);
    if Last(ops).Regist? {
      ServiceKnown(before, Last(ops).svc);
      forall j: nat | j < |before| ensures Took(before, j) <==> Took(ops, j) {
        TookInPrefix(ops, |before|, j);
      }
    }
  }

  /** A service is subscribed exactly if some call for it took effect. */
  lemma {:induction false} ServiceKnown<Info>(ops: seq<Op<Info>>, svc: string)
    ensures svc in Run(ops).services <==> exists i: nat :: Took(ops, i) && ops[i].svc == svc
    decreases |ops|, 1
  {
    if ops != [] {
      var before := Front(ops);
      ServiceKnown(before, svc);
      LastTook(ops);
      forall i: nat | i < |before| ensures Took(before, i) <==> Took(ops, i) {
        TookInPrefix(ops, |before|, i);
      }
    }
  }

  /** Lookup finds what the last effective registration of that name left: its handler, or nothing if it was nil. */
  lemma {:induction false} LookupIsWinner<Info>(ops: seq<Op<Info>>, svc: string, m: string)
    ensures Find(Run(ops), svc, m) == Winner(ops, svc, m)
  {
    if ops != [] {
      LookupIsWinner(Front(ops), svc, m);
      LastTook(ops);
    }
  }

  // ----- the code -----

  class MethodMap<Info> {
    var v: map<string, Info>

    constructor ()
      ensures v == map[]
    {
      v := map[];
    }

    method Lookup(methodName: string) returns (info: Option<Info>)
      ensures info == if methodName in v then Some(v[methodName]) else None
    {
      if methodName in v { info := Some(v[methodName]); } else { info := None; }
    }

    // A nil handler deregisters.
    method Regist(methodName: string, info: Option<Info>)
      modifies this
      ensures v == if info.Some? then old(v)[methodName := info.value] else old(v) - {methodName}
    {
      match info
      case None => v := v - {methodName};
      case Some(i) => v := v[methodName := i];
    }
  }

  datatype Error = ErrClosed | SubscribeError | FlushError

  class ServerConn<Info> {
    var closed: bool
    var subs: set<string>                         // services with a subscription
    var methodMaps: map<string, MethodMap<Info>>
    var live: set<string>                         // subscriptions that NATS has

    // The two tables have the same keys, each service has its own method map, and NATS has exactly these
    // subscriptions, or none any more.
    ghost predicate Valid()
      reads this
    {
      && subs == methodMaps.Keys
      && (forall a, b :: a in methodMaps && b in methodMaps && a != b ==> methodMaps[a] != methodMaps[b])
      && live == if closed then {} else subs
    }

    ghost function Abs(): Reg<Info>
      reads this, methodMaps.Values
    {
      Reg(closed, map svc | svc in methodMaps :: methodMaps[svc].v)
    }

    constructor ()
      ensures Valid() && Abs() == Reg(false, map[])
      ensures methodMaps == map[]
    {
      closed, subs, methodMaps, live := false, {}, map[], {};
    }

    // QueueSubscribe and Flush, which may fail; a subscription that is not known to be on the server is taken back.
    method SubscribeService(svc: string, subscribes: bool, flushes: bool) returns (err: Option<Error>)
      requires svc !in live
      modifies `live
      ensures err == if !subscribes then Some(SubscribeError) else if !flushes then Some(FlushError) else None
      ensures live == if err.None? then old(live) + {svc} else old(live)
    {
      if !subscribes {
        return Some(SubscribeError);
      }
      live := live + {svc};
      if !flushes {
        live := live - {svc};
        return Some(FlushError);
      }
      return None;
    }

    // A method map, once made, is never replaced: the message handler that captured it sees later registrations.
    method RegistHandler(svc: string, methodName: string, info: Option<Info>, subscribes: bool, flushes: bool) returns (err: Option<Error>)
      requires Valid()
      modifies this, methodMaps.Values
      ensures Valid()
      ensures Abs() == Do(old(Abs()), Op.Regist(svc, methodName, info, subscribes && flushes))
      ensures err == if old(closed) then Some(ErrClosed)
                     else if svc in old(methodMaps) then None
                     else if !subscribes then Some(SubscribeError)
                     else if !flushes then Some(FlushError)
                     else None
      ensures err.None? <==> Accepts(old(Abs()), Op.Regist(svc, methodName, info, subscribes && flushes))
      ensures forall s :: s in old(methodMaps) ==> s in methodMaps && methodMaps[s] == old(methodMaps)[s]
      ensures forall s :: s in methodMaps && s !in old(methodMaps) ==> fresh(methodMaps[s])
    {
      if closed {
        return Some(ErrClosed);
      }
      if svc !in subs {
        var mm := new MethodMap<Info>();
        err := SubscribeService(svc, subscribes, flushes);
        if err.Some? { return; }
        subs := subs + {svc};
        methodMaps := methodMaps[svc := mm];
      }
      methodMaps[svc].Regist(methodName, info);
      assert Abs().services == old(Abs()).services[svc := methodMaps[svc].v];
      return None;
    }

    // The subscriptions end, but what was registered stays for messages already delivered.
    method Close() returns (err: Option<Error>)
      requires Valid()
      modifies this
      ensures Valid() && closed && methodMaps == old(methodMaps)
      ensures Abs() == Do(old(Abs()), CloseOp)
      ensures err == if old(closed) then Some(ErrClosed) else None
    {
      if closed {
        return Some(ErrClosed);
      }
      closed := true;
      var rest := subs;
      while rest != {}
        invariant rest <= subs && live == rest
        invariant subs == old(subs) && methodMaps == old(methodMaps) && closed
        invariant Abs() == old(Abs()).(closed := true)
      {
        var svc :| svc in rest;
        live := live - {svc};  // Unsubscribe
        rest := rest - {svc};
      }
      return None;
    }
  }
}
