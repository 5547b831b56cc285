/** DNS messages as far as the iterative resolver looks into them, and the
    abstract transport that carries one query to one server.

    A message has the four record sections of section 4.1 of RFC 1035
    (Question, Answer, Authority, Additional) and the byte size it had on the
    wire.  A message built locally and never sent or received has size 0; the
    resolver uses such an empty message as its "no reply" sentinel. */
module DnsMessage {

  /** TYPE codes of section 3.2.2 of RFC 1035. */
  const A: nat := 1
  const NS: nat := 2
  const CNAME: nat := 5
  const MX: nat := 15

  /** CLASS code IN of section 3.2.4 of RFC 1035. */
  const IN: nat := 1

  /** A resource record: owner name, TYPE, CLASS and the record data in
      presentation form (for NS and CNAME records, a domain name). A question
      entry is a record with empty data. */
  datatype Record = Record(name: string, rtype: nat, rclass: nat, rdata: string)

  datatype Message = Message(
    question: seq<Record>,
    answer: seq<Record>,
    authority: seq<Record>,
    additional: seq<Record>,
    size: nat)

  /** A freshly constructed message: no records and size 0. */
  const Sentinel: Message := Message([], [], [], [], 0)

  /** The query message for one question; it has not been on the wire yet. */
  function NewQuery(name: string, qtype: nat, qclass: nat): Message
  {
    Message([Record(name, qtype, qclass, "")], [], [], [], 0)
  }

  /** A server as the resolver names it: a literal address or a host name. */
  type ServerId = string

  /** What one attempt to reach one server yields: the parsed reply, or an
      error (the name of the server could not be resolved to an address, or
      sending the query failed). */
  datatype Reply = Reply(msg: Message) | Error

  /** The network, as an oracle: server and query message to reply. */
  type Transport = (ServerId, Message) -> Reply

  /** A reply that the resolver's loops treat as "nothing received yet". */
  predicate EmptyReply(rep: Reply)
  {
    rep.Reply? && rep.msg.size == 0
  }

  /** A transport whose every reply came off the wire, so has a non-zero size. */
  ghost predicate WireReplies(send: Transport)
  {
    forall s: ServerId, q: Message :: send(s, q).Reply? ==> send(s, q).msg.size > 0
  }

  /** The result of a step of the resolver: a message, or an exception that is
      not caught anywhere in the program (an array index out of range), which
      ends the run. */
  datatype Outcome = Done(msg: Message) | Fault
}
