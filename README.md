# MyDig iterative resolver, modelled in Dafny

MyDig is a small "dig"-like tool. Given a host name and a query type, it
resolves the name iteratively, in three hops. First it asks the 13 root
servers. Next it asks the servers named in the root reply's Authority
section (the TLD servers). Last it asks the servers named in the TLD reply's
Authority section (the authoritative servers). When the first Answer record
of the authoritative reply is a CNAME (TYPE 5), it resolves the alias's
target again from the root, as type A in class IN. It then appends the
target's first Answer record to the original Answer section.

This project models that control flow. The network is a parameter: a
function from a server and a query message to either a reply message or an
error. The model proves what the program does with the replies.

- `message.dfy`, module `DnsMessage`: records and messages with the four
  sections of section 4.1 of RFC 1035, plus a wire size. It also holds the
  size-0 sentinel (a freshly built message), the transport type and the
  outcome of a step. An outcome is a message, or a fault that nothing
  catches.
- `walker.dfy`, module `ServerWalk`: the root walker (`resolveDNSRoot`) and
  the level walker (`nsResolver`). Each is an index-loop method proved equal
  to a recursive function, `WalkFrom`. The walk also records, as a ghost
  trace, which candidates it tried and in what order. Lemmas describe the
  loop completely: first non-empty reply wins, an error ends the walk, and
  running out of candidates faults.
- `engine.dfy`, module `Iterative`: the three-hop engine (`cnameResolver`),
  written as a function composed from the two walks, with lemmas about how
  it degrades to the sentinel and where its result comes from.
- `driver.dfy`, module `MyDig`: the entry point (`main`). It covers the
  argument and type warnings, the query, the three hops run by hand, the
  CNAME chase and the non-CNAME branch. It also holds the end-to-end
  scenarios.

The model follows the code wherever the code differs from the design
intent:

- The `try` is wrapped around each whole loop. So an address-lookup or send
  error ends the walk at once, and no later candidate is tried. The result
  is the message held at that point: the sentinel, or an earlier size-0
  reply. The design intent was to skip the failed server and try the next.
  Under a transport whose replies all have non-zero size, every hop tries
  only its first candidate (`FirstCandidateDecides`).
- Neither loop checks its index against the list length. A walk in which
  every candidate gives a size-0 reply therefore ends in an uncaught
  out-of-range fault, not in the sentinel. The root walker faults on an
  empty root list too. The level walker returns the sentinel at once when
  the Authority section is empty.
- The first Answer record is read without an emptiness check, for the
  authoritative reply and again for the alias target's reply. An empty
  Answer section is therefore a fault, not an "empty result".
- The warnings for a wrong argument count or an unknown type name do not stop
  the run. With fewer than two arguments, reading the type argument itself
  faults.
- The walk at line 206, whose result is never used, is still run. It can
  fault, so it is modelled.
- The non-CNAME branch walks from the TLD reply a second time. Because the
  transport is a function, that walk selects the authoritative reply again
  (`PlainBranch`). So two runs with the same inputs always give the same
  result (the timing output is left out).

## Model

| member | source | states |
|---|---|---|
| `ServerWalk.ResolveRoot` | MyDig.java:28-66 | the root loop's outcome and the servers it tries are exactly those of the recursive walk from the sentinel |
| `ServerWalk.ResolveLevel` | MyDig.java:95-124 | the level loop's outcome and tried servers are exactly those of the walk over the Authority names; an empty Authority section gives the sentinel with no server tried |
| `ServerWalk.Candidates` | MyDig.java:101-106 | the level's candidates are the Authority records' data, one per record, in section order, duplicates kept |
| `ServerWalk.WalkTriesInOrder` | MyDig.java:41-54 | a walk tries a contiguous run of the next candidates in index order; a walk that faults has tried every remaining candidate |
| `ServerWalk.FirstReplyWins` | MyDig.java:41-54 | if the k-th candidate gives the first reply with non-zero size, the walk returns that reply and has tried exactly the candidates up to and including k |
| `ServerWalk.ErrorEndsWalk` | MyDig.java:34-63 | an error from the k-th candidate ends the walk after trying candidates up to k; the result is the starting message or the size-0 reply before it |
| `ServerWalk.ExhaustedFaults` | MyDig.java:41-44 | when every remaining candidate gives a size-0 reply, the walk tries them all and then faults on the out-of-range index |
| `ServerWalk.FaultOnlyWhenExhausted` | MyDig.java:41-44 | a walk faults only if it started from a size-0 message and every remaining candidate gave a size-0 reply |
| `ServerWalk.WalkOrigin` | MyDig.java:41-54 | a walk's message is the one it started with, or a reply that one of its candidates gave to the same query |
| `ServerWalk.FirstCandidateDecides` | MyDig.java:34-60 | if the first candidate fails or gives a non-empty reply, only it is tried: an error gives the sentinel, a reply is returned |
| `ServerWalk.LevelFirstReplyWins` | MyDig.java:101-116 | for nsResolver, the first Authority name whose reply has non-zero size wins, and exactly the names up to it are tried |
| `ServerWalk.LevelErrorEndsWalk` | MyDig.java:103-123 | for nsResolver, an error from the k-th Authority name ends the walk; the result is the sentinel or the (k-1)-th name's size-0 reply |
| `ServerWalk.LevelFaultIff` | MyDig.java:104-116 | nsResolver faults if and only if the Authority section is non-empty and every name in it gives a size-0 reply |
| `Iterative.SentinelIsFixedPoint` | MyDig.java:101-116 | a level walk from the sentinel tries nothing and yields the sentinel |
| `Iterative.EngineDegrades` | MyDig.java:81-85 | if the root or TLD hop selects a message without Authority records, the engine's result is the sentinel |
| `Iterative.EngineRepliesToQuery` | MyDig.java:75-86 | the engine's result is the sentinel or a reply some server gave to the original query |
| `Iterative.WireEngineNeverFaults` | MyDig.java:75-86 | with a non-empty root list and a transport whose replies all have non-zero size, the engine never faults |
| `MyDig.Dig` | MyDig.java:140-239 | the warnings are the argument-count and type-membership warnings; fewer than two arguments or an unknown type code faults; otherwise the run is the resolution of the query (name, type, IN) over the 13 root servers, whatever the warnings |
| `MyDig.EmptyAnswerFaults` | MyDig.java:187-198 | a fault in the three hops, or an authoritative reply with no Answer record, ends the run in a fault |
| `MyDig.PlainBranch` | MyDig.java:190-235 | when the first Answer record is not a CNAME, the final result equals the engine's authoritative result |
| `MyDig.CnameBranch` | MyDig.java:198-228 | when the first Answer record is a CNAME, the final Answer section is the authoritative Answer section followed by the first Answer record for the alias target asked as type A class IN, and the other sections are unchanged |
| `MyDig.CanonicalEmptyAnswerFaults` | MyDig.java:210-227 | in the CNAME branch, a fault or an empty Answer section for the alias target ends the run in a fault |
| `MyDig.PlainScenario` | MyDig.java:187-235 | root, TLD and authoritative servers each answering first, with one A record: the result is the authoritative reply, with no chase |
| `MyDig.AliasScenario` | MyDig.java:187-228 | the same chain ending in a single CNAME whose target resolves to one A record: the final Answer section is the CNAME then that A record |

## Left out

- Output formatting (`displayContents`), the date and the measured query time: console output and wall-clock reads. The fault that printing would raise on a result with an empty Question section is not modelled either.
- The network: `InetAddress.getByName` and `SimpleResolver.send` are one transport function. A lookup failure and a send failure are both the single `Error` reply. Timeouts and retries inside the library are not modelled.
- DNS wire format: `Message.newQuery`, `Record.newRecord` and `Message.addRecord` are datatype constructors and updates. The parse errors of `Name.fromString` are not modelled, because host names are taken as given. `Type.value` is the parameter `typeValue`. A negative code stands for the library rejecting the record.
- Messages are values. The in-place `addRecord` on the engine's result is a functional update, because nothing else holds a reference to that message.
- The text of the warnings and the stack traces printed for caught exceptions.
- Concurrency: the program is sequential.
- A deeper, loop-shaped delegation walk with a hop limit is a possible generalisation of the design. The program does not have it, so it is not modelled.
