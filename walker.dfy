/** The two server-list walkers of the resolver: the root walker, over the
    fixed list of root server addresses, and the level walker, over the names
    found in the Authority section of the reply from the level above.

    Both run the same loop: while the message held so far has size 0, look
    up the next candidate and send it the query. The loop stops at the first
    reply with a non-zero size. An error from lookup or send is caught outside
    the loop, so it ends the whole walk and the message held so far is the
    result. The index is never checked against the list's length, so running
    out of candidates is an uncaught fault. */
module ServerWalk {
  import opened DnsMessage

  /** A walk's outcome and the candidates it tried, in the order tried. */
  datatype Walk = Walk(outcome: Outcome, attempted: seq<ServerId>)

  /** The loop from candidate `i` on, holding `last`. */
  function WalkFrom(servers: seq<ServerId>, query: Message, send: Transport, i: nat, last: Message): (w: Walk)
    requires i <= |servers|
    ensures |w.attempted| <= |servers| - i
    decreases |servers| - i
  {
    if last.size != 0 then Walk(Done(last), [])
    else if i == |servers| then Walk(Fault, [])
    else
      match send(servers[i], query)
      case Error => Walk(Done(last), [servers[i]])
      case Reply(m) =>
        After([servers[i]], WalkFrom(servers, query, send, i + 1, m))
  }

  /** The servers a walk tries are the next ones of the list, in index
      order; a walk that faults has tried all of them. */
  lemma {:induction false} WalkTriesInOrder(servers: seq<ServerId>, query: Message, send: Transport, i: nat, last: Message)
    requires i <= |servers|
    ensures var w := WalkFrom(servers, query, send, i, last);
      && w.attempted == servers[i..i + |w.attempted|]
      && (w.outcome.Fault? ==> w.attempted == servers[i..])
    decreases |servers| - i
  {
    if last.size != 0 || i == |servers| {
    } else if send(servers[i], query).Reply? {
      var rest := WalkFrom(servers, query, send, i + 1, send(servers[i], query).msg);
      WalkTriesInOrder(servers, query, send, i + 1, send(servers[i], query).msg);
      assert [servers[i]] + servers[i + 1..i + 1 + |rest.attempted|] == servers[i..i + 1 + |rest.attempted|];
    }
  }

  /** `w` with `tried` put in front of the candidates it tried. */
  function After(tried: seq<ServerId>, w: Walk): Walk
  {
    Walk(w.outcome, tried + w.attempted)
  }

  /** resolveDNSRoot: the walk over the root servers from the sentinel. */
  function RootWalk(roots: seq<ServerId>, query: Message, send: Transport): Walk
  {
    WalkFrom(roots, query, send, 0, Sentinel)
  }

  /** The candidate servers of a level: the data of the Authority records,
      in section order. */
  function Candidates(authority: seq<Record>): (ids: seq<ServerId>)
    ensures |ids| == |authority|
    ensures forall k :: 0 <= k < |authority| ==> ids[k] == authority[k].rdata
  {
    if authority == [] then [] else [authority[0].rdata] + Candidates(authority[1..])
  }

  /** nsResolver: the walk over the candidates named by the upper level's
      reply, or the sentinel at once when it has no Authority records. */
  function LevelWalk(query: Message, upper: Message, send: Transport): Walk
  {
    if |upper.authority| == 0 then Walk(Done(Sentinel), [])
    else WalkFrom(Candidates(upper.authority), query, send, 0, Sentinel)
  }

  /** One turn of the loop, taken by candidate `i` while the message held
      has size 0, seen from the walk that started before it. */
  lemma WalkStep(tried: seq<ServerId>, servers: seq<ServerId>, query: Message, send: Transport, i: nat, last: Message)
    requires i < |servers| && last.size == 0
    ensures send(servers[i], query).Error? ==>
      After(tried, WalkFrom(servers, query, send, i, last)) == Walk(Done(last), tried + [servers[i]])
    ensures send(servers[i], query).Reply? ==>
      After(tried, WalkFrom(servers, query, send, i, last))
        == After(tried + [servers[i]], WalkFrom(servers, query, send, i + 1, send(servers[i], query).msg))
  {
  }

  /** resolveDNSRoot as the source runs it: an index loop over the roots. */
  method ResolveRoot(roots: seq<ServerId>, query: Message, send: Transport)
    returns (r: Outcome, ghost attempted: seq<ServerId>)
    ensures r == RootWalk(roots, query, send).outcome
    ensures attempted == RootWalk(roots, query, send).attempted
  {
    var result := Sentinel;
    var count := 0;
    attempted := [];
    while result.size == 0
      invariant count <= |roots|
      invariant RootWalk(roots, query, send) == After(attempted, WalkFrom(roots, query, send, count, result))
      decreases |roots| - count
    {
      if count == |roots| {
        // rootServers[rootServerCount] is out of range
        return Fault, attempted;
      }
      var reply := send(roots[count], query);
      WalkStep(attempted, roots, query, send, count, result);
      attempted := attempted + [roots[count]];
      match reply {
        case Error =>
          return Done(result), attempted;
        case Reply(m) =>
          result := m;
      }
      count := count + 1;
    }
    r := Done(result);
  }

  /** nsResolver as the source runs it: an index loop over the Authority
      records of `upper`, reading each one's data when it is tried. */
  method ResolveLevel(query: Message, upper: Message, send: Transport)
    returns (r: Outcome, ghost attempted: seq<ServerId>)
    ensures r == LevelWalk(query, upper, send).outcome
    ensures attempted == LevelWalk(query, upper, send).attempted
    ensures |upper.authority| == 0 ==> r == Done(Sentinel) && attempted == []
  {
    var serverList := upper.authority;
    ghost var ids := Candidates(serverList);
    var result := Sentinel;
    var count := 0;
    attempted := [];
    while result.size == 0
      invariant count <= |serverList|
      invariant serverList == [] ==> count == 0 && result == Sentinel && attempted == []
      invariant serverList != [] ==>
        LevelWalk(query, upper, send) == After(attempted, WalkFrom(ids, query, send, count, result))
      decreases |serverList| - count
    {
      if |serverList| != 0 {
        if count == |serverList| {
          // serverList[serverCount] is out of range
          return Fault, attempted;
        }
        var reply := send(serverList[count].rdata, query);
        assert ids[count] == serverList[count].rdata;
        WalkStep(attempted, ids, query, send, count, result);
        attempted := attempted + [serverList[count].rdata];
        match reply {
          case Error =>
            return Done(result), attempted;
          case Reply(m) =>
            result := m;
        }
        count := count + 1;
      } else {
        break;
      }
    }
    r := Done(result);
  }

  /** Each candidate from `i` up to `k` answered with a size-0 reply, so the
      loop went on past it. */
  ghost predicate SilentBetween(servers: seq<ServerId>, query: Message, send: Transport, i: nat, k: nat)
    requires i <= k <= |servers|
  {
    forall j :: i <= j < k ==> EmptyReply(send(servers[j], query))
  }

  /** First reply wins: the walk returns the first non-empty reply, and no
      candidate after that one is tried. */
  lemma {:induction false} FirstReplyWins(servers: seq<ServerId>, query: Message, send: Transport, i: nat, last: Message, k: nat)
    requires i <= k < |servers|
    requires last.size == 0
    requires SilentBetween(servers, query, send, i, k)
    requires send(servers[k], query).Reply? && send(servers[k], query).msg.size != 0
    ensures WalkFrom(servers, query, send, i, last) == Walk(Done(send(servers[k], query).msg), servers[i..k + 1])
    decreases k - i
  {
    if i < k {
      FirstReplyWins(servers, query, send, i + 1, send(servers[i], query).msg, k);
      assert [servers[i]] + servers[i + 1..k + 1] == servers[i..k + 1];
    }
  }

  /** An error ends the whole walk: no later candidate is tried, and the
      result is the message held when the error came, which is the starting
      message or the size-0 reply of the candidate before. */
  lemma {:induction false} ErrorEndsWalk(servers: seq<ServerId>, query: Message, send: Transport, i: nat, last: Message, k: nat)
    requires i <= k < |servers|
    requires last.size == 0
    requires SilentBetween(servers, query, send, i, k)
    requires send(servers[k], query).Error?
    ensures WalkFrom(servers, query, send, i, last)
         == Walk(Done(if k == i then last else send(servers[k - 1], query).msg), servers[i..k + 1])
    decreases k - i
  {
    if i < k {
      ErrorEndsWalk(servers, query, send, i + 1, send(servers[i], query).msg, k);
      assert [servers[i]] + servers[i + 1..k + 1] == servers[i..k + 1];
    }
  }

  /** When every remaining candidate gives a size-0 reply, the index runs
      past the end of the list: the walk faults after trying them all. */
  lemma {:induction false} ExhaustedFaults(servers: seq<ServerId>, query: Message, send: Transport, i: nat, last: Message)
    requires i <= |servers|
    requires last.size == 0
    requires SilentBetween(servers, query, send, i, |servers|)
    ensures WalkFrom(servers, query, send, i, last) == Walk(Fault, servers[i..])
    decreases |servers| - i
  {
    if i < |servers| {
      ExhaustedFaults(servers, query, send, i + 1, send(servers[i], query).msg);
      assert [servers[i]] + servers[i + 1..] == servers[i..];
    }
  }

  /** The converse: a walk faults only when it started from a size-0
      message and every remaining candidate gave a size-0 reply. */
  lemma {:induction false} FaultOnlyWhenExhausted(servers: seq<ServerId>, query: Message, send: Transport, i: nat, last: Message)
    requires i <= |servers|
    requires WalkFrom(servers, query, send, i, last).outcome.Fault?
    ensures last.size == 0 && SilentBetween(servers, query, send, i, |servers|)
    decreases |servers| - i
  {
    if i < |servers| {
      FaultOnlyWhenExhausted(servers, query, send, i + 1, send(servers[i], query).msg);
    }
  }

  /** A walk's message is the one it started with or a reply that one of its
      candidates gave to this very query. */
  lemma {:induction false} WalkOrigin(servers: seq<ServerId>, query: Message, send: Transport, i: nat, last: Message)
    requires i <= |servers|
    ensures var o := WalkFrom(servers, query, send, i, last).outcome;
      o.Done? ==> o.msg == last || exists k :: i <= k < |servers| && send(servers[k], query) == Reply(o.msg)
    decreases |servers| - i
  {
    if last.size == 0 && i < |servers| && send(servers[i], query).Reply? {
      var m := send(servers[i], query).msg;
      WalkOrigin(servers, query, send, i + 1, m);
      var o := WalkFrom(servers, query, send, i + 1, m).outcome;
      if o.Done? && o.msg == m {
        assert send(servers[i], query) == Reply(o.msg);
      }
    }
  }

  /** Failover never happens once the first candidate answers with a
      non-empty reply or fails: only that candidate is tried, and an error
      yields the sentinel. */
  lemma FirstCandidateDecides(servers: seq<ServerId>, query: Message, send: Transport)
    requires |servers| > 0
    requires !EmptyReply(send(servers[0], query))
    ensures WalkFrom(servers, query, send, 0, Sentinel)
         == Walk(Done(if send(servers[0], query).Error? then Sentinel else send(servers[0], query).msg), [servers[0]])
  {
  }

  /** nsResolver's candidates are the Authority records' data in section
      order: the first non-empty reply among them wins and is the last one
      tried. */
  lemma LevelFirstReplyWins(query: Message, upper: Message, send: Transport, k: nat)
    requires k < |upper.authority|
    requires forall j :: 0 <= j < k ==> EmptyReply(send(upper.authority[j].rdata, query))
    requires send(upper.authority[k].rdata, query).Reply? && send(upper.authority[k].rdata, query).msg.size != 0
    ensures LevelWalk(query, upper, send)
         == Walk(Done(send(upper.authority[k].rdata, query).msg), Candidates(upper.authority)[..k + 1])
  {
    var ids := Candidates(upper.authority);
    assert SilentBetween(ids, query, send, 0, k);
    FirstReplyWins(ids, query, send, 0, Sentinel, k);
  }

  /** nsResolver: an error from the k-th Authority name ends the level walk. */
  lemma LevelErrorEndsWalk(query: Message, upper: Message, send: Transport, k: nat)
    requires k < |upper.authority|
    requires forall j :: 0 <= j < k ==> send(upper.authority[j].rdata, query).Reply? && send(upper.authority[j].rdata, query).msg.size == 0
    requires send(upper.authority[k].rdata, query).Error?
    ensures LevelWalk(query, upper, send)
         == Walk(Done(if k == 0 then Sentinel else send(upper.authority[k - 1].rdata, query).msg),
                 Candidates(upper.authority)[..k + 1])
  {
    var ids := Candidates(upper.authority);
    assert SilentBetween(ids, query, send, 0, k);
    ErrorEndsWalk(ids, query, send, 0, Sentinel, k);
  }

  /** nsResolver faults exactly when the Authority section is non-empty and
      every name in it gives a size-0 reply. */
  lemma LevelFaultIff(query: Message, upper: Message, send: Transport)
    ensures LevelWalk(query, upper, send).outcome.Fault?
        <==> |upper.authority| > 0 && forall j :: 0 <= j < |upper.authority| ==> EmptyReply(send(upper.authority[j].rdata, query))
  {
    var ids := Candidates(upper.authority);
    if |upper.authority| > 0 {
      if LevelWalk(query, upper, send).outcome.Fault? {
        FaultOnlyWhenExhausted(ids, query, send, 0, Sentinel);
      }
      if forall j :: 0 <= j < |upper.authority| ==> EmptyReply(send(upper.authority[j].rdata, query)) {
        assert SilentBetween(ids, query, send, 0, |ids|);
        ExhaustedFaults(ids, query, send, 0, Sentinel);
      }
    }
  }
}
