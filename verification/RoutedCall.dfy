/** A call by subject: routing, registry and handler together. */
module RoutedCall {
  import opened Wrappers
  import opened Encoding
  import opened MetaData
  import opened Subjects
  import opened Registry
  import opened Rpc

  ghost predicate ProperServices(reg: Reg<MethodInfo>) {
    forall svc :: svc in reg.services ==> IsName(svc)
  }

  // The subscription of this service gets the message.
  predicate Delivered(subjectPrefix: string, svc: string, subject: string) {
    Matches(Tokens(SubjectFormat(subjectPrefix, svc, ">")), Tokens(subject))
  }

  /** A formatted subject is delivered to its own service, and to no other. */
  lemma DeliveredToOwnServiceOnly(subjectPrefix: string, svc: string, m: string, other: string)
    requires IsName(subjectPrefix) && IsName(svc) && IsName(other)
    ensures Delivered(subjectPrefix, other, SubjectFormat(subjectPrefix, svc, m)) <==> other == svc
  {
    var subject := SubjectFormat(subjectPrefix, svc, m);
    if Delivered(subjectPrefix, other, subject) {
      DeliveredIsParsed(subjectPrefix, other, subject);
      NameIsToken(subjectPrefix);
      NameIsToken(svc);
      NameIsToken(other);
      ParserInvertsFormatter(subjectPrefix, svc, subject, m);
      OneServicePerSubject(subjectPrefix, svc, subjectPrefix, other, subject);
    }
    if other == svc { OwnSubjectMatches(subjectPrefix, svc, m); }
  }

  lemma OwnSubjectMatches(subjectPrefix: string, svc: string, m: string)
    requires IsName(subjectPrefix) && IsName(svc)
    ensures Delivered(subjectPrefix, svc, SubjectFormat(subjectPrefix, svc, m))
  {
    NameIsToken(subjectPrefix);
    NameIsToken(svc);
    PatternTokens(subjectPrefix, svc);
    var rest := svc + "." + m;
    assert SubjectFormat(subjectPrefix, svc, m) == subjectPrefix + "." + rest;
    FirstToken("", subjectPrefix, rest);
    FirstToken("", svc, m);
    assert "" + subjectPrefix == subjectPrefix && "" + svc == svc;
    var ts := Tokens(SubjectFormat(subjectPrefix, svc, m));
    var pattern := [subjectPrefix, svc, ">"];
    assert pattern[1..] == [svc, ">"] && pattern[1..][1..] == [">"];
    assert ts[1..] == Tokens(rest) && ts[1..][1..] == Tokens(m);
    var name, tail := SplitFirst("", m);
    assert Matches([">"], Tokens(m));
    assert Matches(pattern[1..], ts[1..]);
  }

  // The network between a client and a server that went through this history of registrations.
  ghost function Network(server: Server, subjectPrefix: string, reg: Reg<MethodInfo>, subject: string, data: Bytes): NetResult {
    if !reg.closed && exists svc :: svc in reg.services && Delivered(subjectPrefix, svc, subject) then
      var svc :| svc in reg.services && Delivered(subjectPrefix, svc, subject);
      match SubjectParser(subjectPrefix, svc, subject)
      case None => NetFailed("nats: timeout")  // the handler panics
      case Some(m) =>
        var replies := Publish(server.wire, Serve(server, svc, m, Find(reg, svc, m), data));
        if |replies| == 1 then Replied(replies[0]) else NetFailed("nats: timeout")
    else NetFailed("nats: no responders")
  }

  /** Addressed by subject, a call reaches the handler that the last effective registration of its method left. */
  lemma CallFindsLastRegistration(server: Server, subjectPrefix: string, ops: seq<Op<MethodInfo>>, spec: Spec, info: MethodInfo, data: Bytes)
    requires IsName(subjectPrefix) && IsName(spec.svcName) && ProperServices(Run(ops)) && CloseOp !in ops
    requires Winner(ops, spec.svcName, spec.methodName) == Some(info)
    ensures Network(server, subjectPrefix, Run(ops), SubjectFormat(subjectPrefix, spec.svcName, spec.methodName), data) ==
            Direct(server, spec, Some(info), data)
  {
    var reg := Run(ops);
    var subject := SubjectFormat(subjectPrefix, spec.svcName, spec.methodName);
    ClosedByClose(ops);
    LookupIsWinner(ops, spec.svcName, spec.methodName);
    ParserInvertsFormatter(subjectPrefix, spec.svcName, subject, spec.methodName);
    forall svc | svc in reg.services ensures Delivered(subjectPrefix, svc, subject) <==> svc == spec.svcName {
      DeliveredToOwnServiceOnly(subjectPrefix, spec.svcName, spec.methodName, svc);
    }
  }

  /** Routed transparency: addressed by subject, through NATS and whatever the registry went through, a call gives
      what calling the last effectively registered handler gives, exactly if the formats meet. */
  lemma RoutedTransparency(client: Client, server: Server, subjectPrefix: string, ops: seq<Op<MethodInfo>>, spec: Spec, info: MethodInfo,
                           md: MD, remaining: Option<int>, input: Data)
    requires IsName(subjectPrefix) && IsName(spec.svcName) && ProperServices(Run(ops)) && CloseOp !in ops
    requires Winner(ops, spec.svcName, spec.methodName) == Some(info)
    requires Agree(client, server, spec, info) && Callable(client, spec, info, md, remaining, input)
    requires Answerable(client, server, info, CallFormat(client, input), info.handler(RemoteCtx(server, client, md, remaining), input))
    ensures var subject := SubjectFormat(subjectPrefix, spec.svcName, spec.methodName);
      var handled := info.handler(RemoteCtx(server, client, md, remaining), input);
      Call(client, spec, data => Network(server, subjectPrefix, Run(ops), subject, data), md, remaining, input) == LocalCall(handled)
      <==> FormatsMeet(info, CallFormat(client, input), handled)
  {
    var data := client.wire.marshalRequest(MakeRequest(client, spec, md, remaining, input).value).value;
    CallFindsLastRegistration(server, subjectPrefix, ops, spec, info, data);
    Transparency(client, server, spec, info, md, remaining, input);
  }
}
