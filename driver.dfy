/** The program's entry point: the argument checks, the query for the
    requested name and type, the three hops run once more by hand, and the
    CNAME chase when the first Answer record of the authoritative reply is an
    alias. */
module MyDig {
  import opened DnsMessage
  import opened ServerWalk
  import opened Iterative

  /** The 13 root server addresses, in the order they are tried. */
  const RootServers: seq<ServerId> := [
    "198.41.0.4", "199.9.14.201", "192.33.4.12",
    "199.7.91.13", "192.203.230.10", "192.5.5.241",
    "192.112.36.4", "198.97.190.53", "192.36.148.17",
    "192.58.128.30", "193.0.14.129", "199.7.83.42", "202.12.27.33"]

  /** The query type names the program accepts without a warning. */
  const KnownTypes: seq<string> := ["A", "MX", "NS", "CNAME"]

  /** The two warnings printed to the error stream. Neither stops the run. */
  datatype Warning = WrongArgCount | UnknownType

  /** The question asked for the target of an alias: always of type A and
      class IN, whatever type the original question had. */
  function CanonicalQuery(alias: Record): Message
  {
    NewQuery(alias.rdata, A, IN)
  }

  /** The resolution part of the entry point for an already built query. */
  function Resolution(query: Message, roots: seq<ServerId>, send: Transport): Outcome
  {
    var root := RootWalk(roots, query, send).outcome;
    if root.Fault? then Fault
    else
      var tld := LevelWalk(query, root.msg, send).outcome;
      if tld.Fault? then Fault
      else
        var auth := LevelWalk(query, tld.msg, send).outcome;
        // the first Answer record is read without checking that there is one
        if auth.Fault? || |auth.msg.answer| == 0 then Fault
        else if auth.msg.answer[0].rtype == CNAME then
          // a level walk over the alias reply's referral, whose result is discarded
          if LevelWalk(query, auth.msg, send).outcome.Fault? then Fault
          else
            var original := CnameResolver(query, roots, send);
            var canonical := CnameResolver(CanonicalQuery(auth.msg.answer[0]), roots, send);
            if original.Fault? || canonical.Fault? || |canonical.msg.answer| == 0 then Fault
            else Done(original.msg.(answer := original.msg.answer + [canonical.msg.answer[0]]))
        else LevelWalk(query, tld.msg, send).outcome
  }

  /** The entry point. `typeValue` stands for the DNS library's mapping from
      a type name to its code (negative for a name it does not know). */
  method Dig(args: seq<string>, typeValue: string -> int, send: Transport)
    returns (warnings: seq<Warning>, r: Outcome)
    ensures warnings == (if |args| != 2 then [WrongArgCount] else [])
                      + (if |args| >= 2 && args[1] !in KnownTypes then [UnknownType] else [])
    ensures |args| < 2 ==> r == Fault
    ensures |args| >= 2 && typeValue(args[1]) < 0 ==> r == Fault
    ensures |args| >= 2 && typeValue(args[1]) >= 0 ==>
      r == Resolution(NewQuery(args[0], typeValue(args[1]) as nat, IN), RootServers, send)
  {
    warnings := [];
    if |args| != 2 {
      warnings := warnings + [WrongArgCount];
    }
    if |args| < 2 {
      // args[1] is out of range
      return warnings, Fault;
    }
    if args[1] !in KnownTypes {
      warnings := warnings + [UnknownType];
    }
    var queryType := typeValue(args[1]);
    if queryType < 0 {
      // the query record cannot be built for an unknown type code
      return warnings, Fault;
    }
    var queryMsg := NewQuery(args[0], queryType as nat, IN);

    var rootResult, _ := ResolveRoot(RootServers, queryMsg, send);
    if rootResult.Fault? {
      return warnings, Fault;
    }
    var tldResult, _ := ResolveLevel(queryMsg, rootResult.msg, send);
    if tldResult.Fault? {
      return warnings, Fault;
    }
    var authResult, _ := ResolveLevel(queryMsg, tldResult.msg, send);
    if authResult.Fault? || |authResult.msg.answer| == 0 {
      return warnings, Fault;
    }

    var queryResult: Message;
    if authResult.msg.answer[0].rtype == CNAME {
      var discarded, _ := ResolveLevel(queryMsg, authResult.msg, send);
      if discarded.Fault? {
        return warnings, Fault;
      }
      var cnameQueryMsg := CanonicalQuery(authResult.msg.answer[0]);
      var original := CnameResolver(queryMsg, RootServers, send);
      if original.Fault? {
        return warnings, Fault;
      }
      var canonical := CnameResolver(cnameQueryMsg, RootServers, send);
      if canonical.Fault? || |canonical.msg.answer| == 0 {
        return warnings, Fault;
      }
      var answer := canonical.msg.answer[0];
      queryResult := original.msg.(answer := original.msg.answer + [answer]);
    } else {
      var plain, _ := ResolveLevel(queryMsg, tldResult.msg, send);
      if plain.Fault? {
        return warnings, Fault;
      }
      queryResult := plain.msg;
    }
    r := Done(queryResult);
  }

  /** The first Answer record of the authoritative reply is read without a
      check: a fault in the hops, or an empty Answer section, ends the run. */
  lemma EmptyAnswerFaults(query: Message, roots: seq<ServerId>, send: Transport)
    ensures var auth := CnameResolver(query, roots, send);
      auth.Fault? || |auth.msg.answer| == 0 ==> Resolution(query, roots, send) == Fault
  {
  }

  /** Without an alias the result is the authoritative reply: the walk from
      the TLD reply is repeated, and with the same transport it selects the
      same message. */
  lemma PlainBranch(query: Message, roots: seq<ServerId>, send: Transport)
    requires CnameResolver(query, roots, send).Done?
    requires var auth := CnameResolver(query, roots, send).msg;
      |auth.answer| > 0 && auth.answer[0].rtype != CNAME
    ensures Resolution(query, roots, send) == CnameResolver(query, roots, send)
  {
  }

  /** With an alias first in the Answer section, the result is the
      authoritative reply with the first Answer record for the alias's
      target, asked as type A, appended after all of its own records. */
  lemma CnameBranch(query: Message, roots: seq<ServerId>, send: Transport)
    requires CnameResolver(query, roots, send).Done?
    requires var auth := CnameResolver(query, roots, send).msg;
      && |auth.answer| > 0 && auth.answer[0].rtype == CNAME
      && LevelWalk(query, auth, send).outcome.Done?
      && CnameResolver(CanonicalQuery(auth.answer[0]), roots, send).Done?
      && |CnameResolver(CanonicalQuery(auth.answer[0]), roots, send).msg.answer| > 0
    ensures var auth := CnameResolver(query, roots, send).msg;
      var target := CnameResolver(CanonicalQuery(auth.answer[0]), roots, send).msg;
      var r := Resolution(query, roots, send);
      && r.Done?
      && r.msg.answer == auth.answer + [target.answer[0]]
      && r.msg.answer[0] == auth.answer[0]
      && r.msg.answer[|r.msg.answer| - 1] == target.answer[0]
      && r.msg.question == auth.question && r.msg.authority == auth.authority
      && r.msg.additional == auth.additional && r.msg.size == auth.size
  {
  }

  /** The first Answer record for the alias's target is read without a
      check either: the chase faults when that lookup faults or has no
      Answer record. */
  lemma CanonicalEmptyAnswerFaults(query: Message, roots: seq<ServerId>, send: Transport)
    requires CnameResolver(query, roots, send).Done?
    requires var auth := CnameResolver(query, roots, send).msg;
      && |auth.answer| > 0 && auth.answer[0].rtype == CNAME
      && var target := CnameResolver(CanonicalQuery(auth.answer[0]), roots, send);
         target.Fault? || |target.msg.answer| == 0
    ensures Resolution(query, roots, send) == Fault
  {
  }

  /** A plain lookup through one TLD server and one authoritative server:
      the result is the authoritative reply, and no chase happens. */
  lemma PlainScenario(query: Message, roots: seq<ServerId>, send: Transport,
                      tldServer: ServerId, authServer: ServerId,
                      rootReply: Message, tldReply: Message, authReply: Message)
    requires |roots| > 0
    requires send(roots[0], query) == Reply(rootReply) && rootReply.size > 0
    requires |rootReply.authority| == 1 && rootReply.authority[0].rdata == tldServer
    requires send(tldServer, query) == Reply(tldReply) && tldReply.size > 0
    requires |tldReply.authority| == 1 && tldReply.authority[0].rdata == authServer
    requires send(authServer, query) == Reply(authReply) && authReply.size > 0
    requires |authReply.answer| == 1 && authReply.answer[0].rtype == A
    ensures Resolution(query, roots, send) == Done(authReply)
  {
    ScenarioHops(query, roots, send, tldServer, authServer, rootReply, tldReply, authReply);
  }

  /** The same referral chain, with the authoritative Answer a single alias
      whose target resolves through its own chain to an A record: the result
      holds the alias, then that A record. */
  lemma AliasScenario(query: Message, roots: seq<ServerId>, send: Transport,
                      tldServer: ServerId, authServer: ServerId,
                      rootReply: Message, tldReply: Message, authReply: Message,
                      alias: Record,
                      targetTld: ServerId, targetAuth: ServerId,
                      targetRoot: Message, targetTldReply: Message, targetReply: Message,
                      address: Record)
    requires |roots| > 0
    requires send(roots[0], query) == Reply(rootReply) && rootReply.size > 0
    requires |rootReply.authority| == 1 && rootReply.authority[0].rdata == tldServer
    requires send(tldServer, query) == Reply(tldReply) && tldReply.size > 0
    requires |tldReply.authority| == 1 && tldReply.authority[0].rdata == authServer
    requires send(authServer, query) == Reply(authReply) && authReply.size > 0
    requires authReply.answer == [alias] && alias.rtype == CNAME && authReply.authority == []
    requires send(roots[0], CanonicalQuery(alias)) == Reply(targetRoot) && targetRoot.size > 0
    requires |targetRoot.authority| == 1 && targetRoot.authority[0].rdata == targetTld
    requires send(targetTld, CanonicalQuery(alias)) == Reply(targetTldReply) && targetTldReply.size > 0
    requires |targetTldReply.authority| == 1 && targetTldReply.authority[0].rdata == targetAuth
    requires send(targetAuth, CanonicalQuery(alias)) == Reply(targetReply) && targetReply.size > 0
    requires targetReply.answer == [address] && address.rtype == A
    ensures Resolution(query, roots, send) == Done(authReply.(answer := [alias, address]))
  {
    ScenarioHops(query, roots, send, tldServer, authServer, rootReply, tldReply, authReply);
    ScenarioHops(CanonicalQuery(alias), roots, send, targetTld, targetAuth, targetRoot, targetTldReply, targetReply);
  }

  /** The hops of a referral chain that runs through the first candidate of
      each level. */
  lemma ScenarioHops(query: Message, roots: seq<ServerId>, send: Transport,
                     tldServer: ServerId, authServer: ServerId,
                     rootReply: Message, tldReply: Message, authReply: Message)
    requires |roots| > 0
    requires send(roots[0], query) == Reply(rootReply) && rootReply.size > 0
    requires |rootReply.authority| == 1 && rootReply.authority[0].rdata == tldServer
    requires send(tldServer, query) == Reply(tldReply) && tldReply.size > 0
    requires |tldReply.authority| == 1 && tldReply.authority[0].rdata == authServer
    requires send(authServer, query) == Reply(authReply) && authReply.size > 0
    ensures RootWalk(roots, query, send).outcome == Done(rootReply)
    ensures LevelWalk(query, rootReply, send).outcome == Done(tldReply)
    ensures LevelWalk(query, tldReply, send).outcome == Done(authReply)
    ensures CnameResolver(query, roots, send) == Done(authReply)
  {
    FirstCandidateDecides(roots, query, send);
    FirstCandidateDecides(Candidates(rootReply.authority), query, send);
    FirstCandidateDecides(Candidates(tldReply.authority), query, send);
  }
}
