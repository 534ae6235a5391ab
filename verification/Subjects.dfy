/** Subjects of natsrpc: formatting, parsing, and the wildcard subscription of a service. */
module Subjects {
  import opened Wrappers

  function SubjectFormat(subjectPrefix: string, svcName: string, methodName: string): string {
    subjectPrefix + "." + svcName + "." + methodName
  }

  // subjectParser: the method name, if the subject belongs to the service.
  function SubjectParser(subjectPrefix: string, svcName: string, subject: string): Option<string> {
    var methodName := TrimPrefix(subject, subjectPrefix + "." + svcName + ".");
    if methodName == subject then None else Some(methodName)
  }

  function TrimPrefix(s: string, prefix: string): string {
    if prefix <= s then s[|prefix|..] else s
  }

  predicate DotFree(name: string) {
    '.' !in name
  }

  // The regular expressions for service names and for the subject prefix admit nothing else.
  predicate IsName(name: string) {
    name != "" && forall c :: c in name ==> 'a' <= c <= 'z' || 'A' <= c <= 'Z' || '0' <= c <= '9' || c == '-' || c == '_'
  }

  // So a name is one token, and not a wildcard.
  lemma NameIsToken(name: string)
    requires IsName(name)
    ensures DotFree(name) && name != ">" && name != "*"
  {
    assert name[0] in name;
  }

  /** The parser accepts exactly the subjects the formatter makes for the service, and returns the method name. */
  lemma ParserInvertsFormatter(subjectPrefix: string, svcName: string, subject: string, methodName: string)
    ensures SubjectParser(subjectPrefix, svcName, subject) == Some(methodName)
       <==> subject == SubjectFormat(subjectPrefix, svcName, methodName)
  {
    var prefix := subjectPrefix + "." + svcName + ".";
    assert SubjectFormat(subjectPrefix, svcName, methodName) == prefix + methodName;
    if prefix <= subject { assert subject == prefix + subject[|prefix|..]; }
  }

  // Two decompositions at the first dot agree.
  lemma FirstDot(a: string, b: string, x: string, y: string)
    requires DotFree(a) && DotFree(b) && a + "." + x == b + "." + y
    ensures a == b && x == y
  {
    var s := a + "." + x;
    assert s[|a|] == '.' && s[|b|] == '.';
    assert a == s[..|a|] && b == s[..|b|];
    assert x == s[|a| + 1..] && y == s[|b| + 1..];
  }

  /** A subject names at most one service and method: with dot-free prefix and service names, two services that
      both accept a subject are the same, and so is the method. */
  lemma OneServicePerSubject(prefix1: string, svc1: string, prefix2: string, svc2: string, subject: string)
    requires DotFree(prefix1) && DotFree(svc1) && DotFree(prefix2) && DotFree(svc2)
    requires SubjectParser(prefix1, svc1, subject).Some? && SubjectParser(prefix2, svc2, subject).Some?
    ensures prefix1 == prefix2 && svc1 == svc2
    ensures SubjectParser(prefix1, svc1, subject) == SubjectParser(prefix2, svc2, subject)
  {
    var m1, m2 := SubjectParser(prefix1, svc1, subject).value, SubjectParser(prefix2, svc2, subject).value;
    ParserInvertsFormatter(prefix1, svc1, subject, m1);
    ParserInvertsFormatter(prefix2, svc2, subject, m2);
    FormatInTwo(prefix1, svc1, m1);
    FormatInTwo(prefix2, svc2, m2);
    FirstDot(prefix1, prefix2, svc1 + "." + m1, svc2 + "." + m2);
    FirstDot(svc1, svc2, m1, m2);
  }

  lemma FormatInTwo(subjectPrefix: string, svcName: string, methodName: string)
    ensures SubjectFormat(subjectPrefix, svcName, methodName) == subjectPrefix + "." + (svcName + "." + methodName)
  {
  }

  // ----- what NATS delivers -----

  function Tokens(subject: string): seq<string> {
    TokensFrom("", subject)
  }

  function TokensFrom(token: string, rest: string): seq<string>
    decreases |rest|
  {
    if rest == "" then [token]
    else if rest[0] == '.' then [token] + TokensFrom("", rest[1..])
    else TokensFrom(token + [rest[0]], rest[1..])
  }

  // The matching rule of NATS: `*` matches any one token, `>` one or more tokens at the end.
  predicate Matches(pattern: seq<string>, subject: seq<string>) {
    if pattern == [">"] then subject != []
    else if pattern == [] || subject == [] then pattern == subject
    else (pattern[0] == "*" || pattern[0] == subject[0]) && Matches(pattern[1..], subject[1..])
  }

  lemma {:induction false} FirstToken(token: string, name: string, rest: string)
    requires DotFree(name)
    ensures TokensFrom(token, name + "." + rest) == [token + name] + Tokens(rest)
    decreases |name|
  {
    var s := name + "." + rest;
    if name == "" {
      assert s == "." + rest && s[1..] == rest && token + name == token;
    } else {
      assert s[1..] == name[1..] + "." + rest;
      FirstToken(token + [name[0]], name[1..], rest);
      assert token + [name[0]] + name[1..] == token + name;
    }
  }

  // A subject starts with its first token; if there are more tokens, a dot and the rest follow.
  lemma {:induction false} SplitFirst(token: string, rest: string) returns (name: string, tail: string)
    ensures var ts := TokensFrom(token, rest);
      && ts != [] && ts[0] == token + name
      && (1 < |ts| ==> rest == name + "." + tail && ts[1..] == Tokens(tail))
    decreases |rest|
  {
    if rest == "" {
      name, tail := "", "";
    } else if rest[0] == '.' {
      name, tail := "", rest[1..];
      assert rest == "." + tail && token + "" == token;
    } else {
      name, tail := SplitFirst(token + [rest[0]], rest[1..]);
      assert token + [rest[0]] + name == token + ([rest[0]] + name);
      assert 1 < |TokensFrom(token, rest)| ==> rest == [rest[0]] + (name + "." + tail);
      name := [rest[0]] + name;
    }
  }

  /** A message delivered on a service's wildcard subscription is always accepted by the parser, so the handler's
      panic on an unexpected subject is unreachable. */
  lemma DeliveredIsParsed(subjectPrefix: string, svcName: string, subject: string)
    requires IsName(subjectPrefix) && IsName(svcName)
    requires Matches(Tokens(SubjectFormat(subjectPrefix, svcName, ">")), Tokens(subject))
    ensures SubjectParser(subjectPrefix, svcName, subject).Some?
  {
    NameIsToken(subjectPrefix);
    NameIsToken(svcName);
    PatternTokens(subjectPrefix, svcName);
    MatchesService(subjectPrefix, svcName, Tokens(subject));
    var prefix, rest := SplitFirst("", subject);
    var svc, tail := SplitFirst("", rest);
    assert "" + prefix == prefix && "" + svc == svc;
    assert subject == SubjectFormat(subjectPrefix, svcName, tail);
    ParserInvertsFormatter(subjectPrefix, svcName, subject, tail);
  }

  lemma MatchesService(subjectPrefix: string, svcName: string, ts: seq<string>)
    requires subjectPrefix != ">" && subjectPrefix != "*" && svcName != ">" && svcName != "*"
    requires Matches([subjectPrefix, svcName, ">"], ts)
    ensures 3 <= |ts| && ts[0] == subjectPrefix && ts[1..][0] == svcName
  {
    var pattern := [subjectPrefix, svcName, ">"];
    assert pattern[1..] == [svcName, ">"] && pattern[1..][1..] == [">"];
    assert |pattern| == 3 && |pattern[1..]| == 2;
    assert Matches(pattern[1..], ts[1..]);
    assert Matches([">"], ts[1..][1..]);
  }

  lemma PatternTokens(subjectPrefix: string, svcName: string)
    requires DotFree(subjectPrefix) && DotFree(svcName)
    ensures Tokens(SubjectFormat(subjectPrefix, svcName, ">")) == [subjectPrefix, svcName, ">"]
  {
    var rest := svcName + "." + ">";
    FormatInTwo(subjectPrefix, svcName, ">");
    FirstToken("", subjectPrefix, rest);
    FirstToken("", svcName, ">");
    assert ">"[1..] == "" && "" + [">"[0]] == ">";
    assert TokensFrom("", ">") == TokensFrom(">", "");
    assert Tokens(">") == [">"];
    assert "" + subjectPrefix == subjectPrefix && "" + svcName == svcName;
  }
}
