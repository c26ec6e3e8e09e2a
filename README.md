# dns-hijinks in Dafny

dns-hijinks is a small DNS server that hides IPv4 destinations behind IPv6.
An AAAA question is answered by resolving the name's A records, walking
iteratively from one of the 13 root nameservers. Each IPv4 address found is
then rewritten as a 4-via-6 AAAA record: the fixed prefix
`fd7a:115c:a1e0:b1a:0:fe:` followed by the dotted quad. An A question gets an
empty answer section. Every other question is forwarded unchanged to
8.8.8.8. The repository holds two nearly identical copies of this logic:

- `cmd/dns-hijinks/main.go` follows an authority section headed by NS or SOA,
  and reports dead ends as "no nameserver found".
- `main.go` follows only an NS authority record. Any other record there fails
  Go's type assertion and panics. Dead ends read "break in the chain".

The Dafny project has these modules:

- `Dns` (`dns.dfy`): records, messages, the root list, and the outcome of a
  resolution. An outcome is `Ok`, `Err`, `Panic` (a Go run-time panic) or
  `OutOfFuel`. A resolution also carries the trace of the exchanges it made.
- `Address` (`address.dfy`): dotted-quad text and the 4-via-6 literal, with a
  parser that reads them back.
- `Referral` (`referral.dfy`): the scan of the additional section for its
  first A record.
- `Synthesis` (`synthesis.dfy`): the A-to-AAAA rewriting loop.
- `Forwarder` (`forwarder.dfy`): the single upstream exchange.
- `CmdHijinks` (`cmd_hijinks.dfy`) and `RootMain` (`root_main.dfy`): each
  file's `resolve`, `processTypeAAAA` and `getResponse`.

The network is a deterministic function from (server, query) to a reply or a
transport error. The random root pick is a chooser, a function from the index
of a draw to a root index below 13; the number of draws made is threaded
through every resolution. `resolve` is an imperative loop (`Resolve`, with
its loop body in `Iteration`). It is proved equal to the recursive
specification `Resolution`/`Walk`, and the properties are lemmas about that
specification. `Walk` asks one server and hands its reply to `OnReply`,
which follows the branches of the loop body. `Follows` states when one
exchange may come right after another given the reply to the first.
`WalkSound` collects what every walk guarantees, and `WalkTrace` proves it
of every walk, one branch lemma per way the loop can go on.

## Model

| member | source | states |
|---|---|---|
| Dns.AQuery | cmd/dns-hijinks/main.go:27-28 | the query of each iteration asks one question, type A, class IN, for the name, with recursion desired, a zero header otherwise and every other section empty |
| Dns.Conclude | cmd/dns-hijinks/main.go:144-163 | a helper's list becomes the answer section of a fresh message; a helper's error leaves the answer section empty and is returned beside it |
| Dns.AppendAnswers | cmd/dns-hijinks/main.go:148-150 | appending the records one by one leaves the answer section equal to the old one followed by the records, in order |
| Address.OctetText | cmd/dns-hijinks/main.go:100 | the text of an octet is one to three decimal digits without a leading zero |
| Address.OctetRoundTrip | cmd/dns-hijinks/main.go:100 | the digits written for an octet parse back to that octet |
| Address.OctetCanonical | cmd/dns-hijinks/main.go:100 | a text that parses to an octet is exactly the text written for it |
| Address.DottedQuadRoundTrip | cmd/dns-hijinks/main.go:100 | parsing the dotted-quad text of an address gives back the address |
| Address.DottedQuadCanonical | cmd/dns-hijinks/main.go:100 | only the text the formatter writes parses to a given address |
| Address.Via6RoundTrip | main.go:92 | stripping the 4-via-6 prefix and parsing the dotted quad gives back the four octets, and only the literal written for that address does so |
| Address.Via6Injective | main.go:92 | distinct IPv4 addresses get distinct 4-via-6 literals |
| Referral.FirstA | cmd/dns-hijinks/main.go:65-73 | no address exactly when the additional section holds no A record; otherwise the address of an A record preceded by no other A record |
| Referral.ScanExtra | cmd/dns-hijinks/main.go:65-76 | the found-flag scan finds a record exactly when an A record exists; the nameserver becomes the dotted quad of the first one, and is unchanged when none is found |
| Referral.FirstAAt | main.go:58-65 | an A record with none before it is the one the scan picks |
| Synthesis.Synthesize | cmd/dns-hijinks/main.go:92-110 | the append loop returns the synthesiser's output for the whole input (the loop at main.go:84-101 is the same) |
| Synthesis.SynthesizedAppend | cmd/dns-hijinks/main.go:93-108 | records are rewritten independently and in input order: the output for `a + b` is the output for `a` followed by that for `b` |
| Synthesis.SynthesizedRecords | cmd/dns-hijinks/main.go:92-110 | there are no more output records than input records; each is AAAA with the queried name, TTL 120, class IN, and the 4-via-6 address of an input A record, which stripping the prefix recovers |
| Synthesis.SynthesizedWithoutA | cmd/dns-hijinks/main.go:95-98 | input without A records gives an empty output |
| Synthesis.SynthesizedAllAccepted | cmd/dns-hijinks/main.go:93-108 | when every input is an A record the parser accepts, output k is the AAAA record for input k |
| Forwarder.ForwardQuery | cmd/dns-hijinks/main.go:115-117 | the upstream query is the request with its question list replaced by exactly the one question; every other field is copied |
| Forwarder.ProcessOther | cmd/dns-hijinks/main.go:113-130 | one exchange with 8.8.8.8: the answer section verbatim when non-empty, "not found" when empty, the transport error otherwise (main.go:104-121 is the same) |
| CmdHijinks.Resolve | cmd/dns-hijinks/main.go:21-81 | the loop that reassigns the nameserver computes exactly the outcome, draws and exchanges of the specification `Resolution` |
| CmdHijinks.Iteration | cmd/dns-hijinks/main.go:26-79 | one pass of the loop either settles the walk's result or leaves the rest of the walk to continue from the nameserver it picks |
| CmdHijinks.ChainedAppend | cmd/dns-hijinks/main.go:25-80 | two chains of exchanges joined by a justified step form one chain |
| CmdHijinks.WalkTrace | cmd/dns-hijinks/main.go:25-80 | every walk is sound (`WalkSound`) and makes an exchange exactly when it has fuel: a walk first asks its server about the name; each exchange follows from the reply to the one before; success is the last reply's answer section, non-empty and not headed by a CNAME; a transport error is the last exchange's failure; the only other error is "no nameserver found"; the draw counter never goes back |
| CmdHijinks.DelegationTrace | cmd/dns-hijinks/main.go:48-61 | the walk guarantees also hold when the walk continues through a resolution of the authority name |
| CmdHijinks.SoundAfter | cmd/dns-hijinks/main.go:25-80 | a chain of exchanges from a server, followed by a sound walk whose first exchange follows from the chain's last reply, is a sound walk from that server |
| CmdHijinks.CnameTrace | cmd/dns-hijinks/main.go:38-39 | a walk that restarts at a CNAME target is sound and makes at least one exchange |
| CmdHijinks.ExtraTrace | cmd/dns-hijinks/main.go:65-73 | a walk that moves on to the first A record of the additional section is sound and makes at least one exchange |
| CmdHijinks.SpinTrace | cmd/dns-hijinks/main.go:48-61 | a walk that asks the same server again after an authority record that is neither NS nor SOA is sound and makes at least one exchange |
| CmdHijinks.OnwardTrace | cmd/dns-hijinks/main.go:48-61 | a walk that continues from the first address of a resolved authority name is sound |
| CmdHijinks.DelegationSound | cmd/dns-hijinks/main.go:48-61 | the delegating exchange, a sound resolution of the authority name from a root, and a sound walk from the address it found form a sound walk |
| CmdHijinks.DelegationOnward | cmd/dns-hijinks/main.go:48-61 | when the resolution of the authority name succeeds with an A record first, the walk is that exchange, then the sub-resolution's exchanges, then the walk from that record's address |
| CmdHijinks.DelegationEnds | cmd/dns-hijinks/main.go:48-61 | any other sub-resolution ends the walk after its exchanges with no result; a successful sub-resolution that is empty or not headed by an A record panics; a failed one gives "no nameserver found"; a panic or an exhausted fuel budget is passed on |
| CmdHijinks.StartsAtRoot | cmd/dns-hijinks/main.go:13-22 | every resolution, including each one a CNAME or an authority record starts, first asks a freshly drawn root nameserver |
| CmdHijinks.SuccessIsLastAnswer | cmd/dns-hijinks/main.go:36-43 | a successful resolution is non-empty, not headed by a CNAME, and equal to the answer section of the last reply |
| CmdHijinks.NoExchangeAfterFailure | cmd/dns-hijinks/main.go:31-34 | no exchange follows a failed one, and a reported transport error is the failure of the last exchange |
| CmdHijinks.TransportErrorAborts | cmd/dns-hijinks/main.go:31-34 | a transport error ends the walk with that error after one exchange |
| CmdHijinks.AnswerReturned | cmd/dns-hijinks/main.go:36-43 | an answer section not headed by a CNAME is returned unchanged |
| CmdHijinks.CnameRestarts | cmd/dns-hijinks/main.go:38-39 | a CNAME first answer gives exactly the result of a fresh resolution of its target |
| CmdHijinks.ExtraWithoutAFails | cmd/dns-hijinks/main.go:62-76 | with no A record in the additional section (both sections empty included) the walk fails with "no nameserver found" |
| CmdHijinks.ExtraAdvances | cmd/dns-hijinks/main.go:65-73 | the walk continues at the address of the first A record of the additional section |
| CmdHijinks.DelegationStep | cmd/dns-hijinks/main.go:48-61 | an NS or SOA first authority record: a failed sub-resolution gives "no nameserver found"; a successful one is non-empty and the walk continues at its first record's address |
| CmdHijinks.OtherAuthoritySpins | cmd/dns-hijinks/main.go:48-61 | any other first authority record leaves the nameserver unchanged: the same query goes to the same server until the fuel is spent |
| CmdHijinks.ProcessTypeAAAA | cmd/dns-hijinks/main.go:83-111 | errors pass through, an empty list is "not found", otherwise the synthesiser's output for the resolved records |
| CmdHijinks.AAAAFromLastAnswer | cmd/dns-hijinks/main.go:83-111 | every synthesised record has the question's name, TTL 120, class IN, and the 4-via-6 address of an A record of the last reply's answer section; "not found" is never reported |
| CmdHijinks.AAAAWithoutARecords | cmd/dns-hijinks/main.go:92-110 | a resolution with no A record gives an empty list and no error |
| CmdHijinks.GetResponse | cmd/dns-hijinks/main.go:132-167 | no question: empty message; A: empty answer section; AAAA and others: the helper's list as answer section, or an empty section with the helper's error |
| RootMain.Resolve | main.go:20-73 | the loop that reassigns the nameserver computes exactly the outcome, draws and exchanges of the specification `Resolution` |
| RootMain.Iteration | main.go:25-71 | one pass of the loop either settles the walk's result or leaves the rest of the walk to continue from the nameserver it picks |
| RootMain.ChainedAppend | main.go:24-72 | two chains of exchanges joined by a justified step form one chain |
| RootMain.WalkTrace | main.go:24-72 | every walk is sound (`WalkSound`) and makes an exchange exactly when it has fuel: a walk first asks its server about the name; each exchange follows from the reply to the one before; success is the last reply's answer section, non-empty and not headed by a CNAME; a transport error is the last exchange's failure; the only other error is "break in the chain"; the draw counter never goes back |
| RootMain.DelegationTrace | main.go:47-53 | the walk guarantees also hold when the walk continues through a resolution of the NS name |
| RootMain.SoundAfter | main.go:24-72 | a chain of exchanges from a server, followed by a sound walk whose first exchange follows from the chain's last reply, is a sound walk from that server |
| RootMain.CnameTrace | main.go:37-39 | a walk that restarts at a CNAME target is sound and makes at least one exchange |
| RootMain.ExtraTrace | main.go:57-65 | a walk that moves on to the first A record of the additional section is sound and makes at least one exchange |
| RootMain.OnwardTrace | main.go:47-53 | a walk that continues from the first address of a resolved authority name is sound |
| RootMain.DelegationSound | main.go:47-53 | the delegating exchange, a sound resolution of the authority name from a root, and a sound walk from the address it found form a sound walk |
| RootMain.DelegationOnward | main.go:47-53 | when the resolution of the authority name succeeds with an A record first, the walk is that exchange, then the sub-resolution's exchanges, then the walk from that record's address |
| RootMain.DelegationEnds | main.go:47-53 | any other sub-resolution ends the walk after its exchanges with no result; a successful sub-resolution that is empty or not headed by an A record panics; a failed one gives "break in the chain"; a panic or an exhausted fuel budget is passed on |
| RootMain.StartsAtRoot | main.go:12-21 | every resolution, including each one a CNAME or an authority record starts, first asks a freshly drawn root nameserver |
| RootMain.SuccessIsLastAnswer | main.go:35-43 | a successful resolution is non-empty, not headed by a CNAME, and equal to the answer section of the last reply |
| RootMain.NoExchangeAfterFailure | main.go:30-33 | no exchange follows a failed one, and a reported transport error is the failure of the last exchange |
| RootMain.TransportErrorAborts | main.go:30-33 | a transport error ends the walk with that error after one exchange |
| RootMain.AnswerReturned | main.go:35-43 | an answer section not headed by a CNAME is returned unchanged |
| RootMain.CnameRestarts | main.go:37-39 | a CNAME first answer gives exactly the result of a fresh resolution of its target |
| RootMain.ExtraWithoutAFails | main.go:54-68 | with no A record in the additional section the walk fails with "break in the chain" |
| RootMain.ExtraAdvances | main.go:57-65 | the walk continues at the address of the first A record of the additional section |
| RootMain.DelegationStep | main.go:47-53 | an NS first authority record: a failed sub-resolution gives "break in the chain"; a successful one is non-empty and the walk continues at its first record's address |
| RootMain.NonNsAuthorityPanics | main.go:48 | any other first authority record panics after that one exchange |
| RootMain.ProcessTypeAAAA | main.go:75-102 | errors pass through, an empty list is "not found", otherwise the synthesiser's output for the resolved records |
| RootMain.AAAAFromLastAnswer | main.go:75-102 | every synthesised record has the question's name, TTL 120, class IN, and the 4-via-6 address of an A record of the last reply's answer section; "not found" is never reported |
| RootMain.AAAAWithoutARecords | main.go:84-101 | a resolution with no A record gives an empty list and no error |
| RootMain.GetResponse | main.go:123-154 | no question: empty message; A: empty answer section; AAAA and others: the helper's list as answer section, or an empty section with the helper's error |

## Left out

- `main` in both files is not modelled. This covers flag parsing, handler registration, the UDP listener, `SetReply`/`WriteMsg` and logging. All of it is I/O.
- The message printed for each synthesised address (cmd/dns-hijinks/main.go:106) is not modelled, because it is output only.
- `dns.Client.Exchange` is a deterministic function parameter `Network`. UDP, timeouts, the wire format, the random message id that `SetQuestion` picks and the `:53` port suffix are not modelled; servers are plain address strings.
- `rand.Intn` is a chooser parameter that yields a root index below 13. Uniformity is not modelled.
- `dns.Fqdn` is not modelled. The name is queried as given.
- `dns.NewRR` is a parameter that accepts or rejects the presentation line. When it accepts, the record is the one the line describes.
- `net.IP.String` is defined directly as the dotted quad of four octets.
- `Msg.CopyTo` is modelled as a value copy. Message fields outside id, opcode, recursion-desired and the four sections are not modelled.
- The server handles requests concurrently. Requests share only constants, so each is modelled on its own.
- CmdHijinks.Resolve and RootMain.Resolve: `resolve` need not terminate (cyclic delegations, or the spin described below). The model gives each call `fuel`: every iteration and every nested resolution uses one unit, and `OutOfFuel` is a model-only outcome. Nothing is claimed about termination.
- CmdHijinks.Walk: a first authority record that is neither NS nor SOA makes the loop ask the same server again, since neither branch fires. No error is raised: the loop sends the same query to the same server again, and since the network is a fixed function the walk repeats until the fuel is spent. `OtherAuthoritySpins` states this.
- CmdHijinks.AAAAWithoutARecords and RootMain.AAAAWithoutARecords: a resolution that succeeds without any A record gives an empty list with no error, not "not found". The code is followed here, and a reply to an AAAA question can have an empty answer section without an error.
- The `nsIP[0]` accesses (cmd/dns-hijinks/main.go:54,60; main.go:53) give `Panic` on an empty list. `DelegationEnds` states that a successful sub-resolution not headed by an A record ends in `Panic`, and `SuccessIsLastAnswer` shows that a successful resolution is never empty, so only the type assertion on a non-A first record can panic there.
