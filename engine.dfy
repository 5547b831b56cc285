/** The three-hop resolution engine (cnameResolver): the root walk, then a
    level walk over the root reply's referral (the TLD servers), then a level
    walk over the TLD reply's referral (the authoritative servers). Every hop
    sends the same query message. */
module Iterative {
  import opened DnsMessage
  import opened ServerWalk

  /** An uncaught fault in any hop ends the run; otherwise each hop takes the
      message the previous one selected. */
  function CnameResolver(query: Message, roots: seq<ServerId>, send: Transport): Outcome
  {
    var root := RootWalk(roots, query, send).outcome;
    if root.Fault? then Fault
    else
      var tld := LevelWalk(query, root.msg, send).outcome;
      if tld.Fault? then Fault
      else LevelWalk(query, tld.msg, send).outcome
  }

  /** The sentinel has no Authority records, so a level walk from it tries
      nothing and yields the sentinel again. */
  lemma SentinelIsFixedPoint(query: Message, send: Transport)
    ensures LevelWalk(query, Sentinel, send) == Walk(Done(Sentinel), [])
  {
  }

  /** A hop that selects a message without Authority records (the sentinel
      among them) makes every later hop yield the sentinel: the engine
      degrades to the sentinel instead of failing. */
  lemma EngineDegrades(query: Message, roots: seq<ServerId>, send: Transport)
    requires RootWalk(roots, query, send).outcome.Done?
    requires var root := RootWalk(roots, query, send).outcome.msg;
      || |root.authority| == 0
      || (LevelWalk(query, root, send).outcome.Done? && |LevelWalk(query, root, send).outcome.msg.authority| == 0)
    ensures CnameResolver(query, roots, send) == Done(Sentinel)
  {
  }

  /** What the engine returns is the sentinel or a reply that some server
      gave to this very query. */
  lemma EngineRepliesToQuery(query: Message, roots: seq<ServerId>, send: Transport)
    ensures var r := CnameResolver(query, roots, send);
      r.Done? ==> r.msg == Sentinel || exists s :: send(s, query) == Reply(r.msg)
  {
    var root := RootWalk(roots, query, send).outcome;
    if root.Done? {
      var tld := LevelWalk(query, root.msg, send).outcome;
      if tld.Done? && |tld.msg.authority| > 0 {
        var ids := Candidates(tld.msg.authority);
        WalkOrigin(ids, query, send, 0, Sentinel);
        var r := LevelWalk(query, tld.msg, send).outcome;
        if r.Done? && r.msg != Sentinel {
          var k :| 0 <= k < |ids| && send(ids[k], query) == Reply(r.msg);
          assert send(ids[k], query) == Reply(r.msg);
        }
      }
    }
  }

  /** With a transport whose replies all come off the wire (size above 0),
      the engine never faults: each hop tries only its first candidate,
      which either answers or fails, and a level with no candidates yields
      the sentinel. */
  lemma WireEngineNeverFaults(query: Message, roots: seq<ServerId>, send: Transport)
    requires WireReplies(send)
    requires |roots| > 0
    ensures CnameResolver(query, roots, send).Done?
  {
    FirstCandidateDecides(roots, query, send);
    var root := RootWalk(roots, query, send).outcome.msg;
    if |root.authority| > 0 {
      FirstCandidateDecides(Candidates(root.authority), query, send);
    }
    var tld := LevelWalk(query, root, send).outcome.msg;
    if |tld.authority| > 0 {
      FirstCandidateDecides(Candidates(tld.authority), query, send);
    }
  }
}
