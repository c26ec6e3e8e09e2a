/** The upstream forwarder used for every question type other than A and AAAA. */
module Forwarder {
  import opened Dns

  /** The fixed general-purpose resolver (port 53 implied). */
  const UPSTREAM := "8.8.8.8"

  /** The message sent upstream: a copy of the request whose question list is
      replaced by the single question `q`. */
  function ForwardQuery(q: Question, request: Msg): (m: Msg)
    ensures m.question == [q]
    ensures m.id == request.id && m.opcode == request.opcode && m.recursionDesired == request.recursionDesired
    ensures m.answer == request.answer && m.ns == request.ns && m.extra == request.extra
  {
    request.(question := [q])
  }

  /** One exchange with the upstream resolver: its answer section verbatim when it
      is non-empty, "not found" when it is empty, the transport error otherwise;
      no retry, no other resolver. */
  function ProcessOther(net: Network, q: Question, request: Msg): (r: Outcome<seq<RR>>)
    ensures r.Ok? <==> net(UPSTREAM, ForwardQuery(q, request)).Reply?
                       && net(UPSTREAM, ForwardQuery(q, request)).msg.answer != []
    ensures r.Ok? ==> r.value == net(UPSTREAM, ForwardQuery(q, request)).msg.answer
    ensures net(UPSTREAM, ForwardQuery(q, request)).TransportError? ==>
              r == Err(Transport(net(UPSTREAM, ForwardQuery(q, request)).reason))
    ensures net(UPSTREAM, ForwardQuery(q, request)).Reply? && net(UPSTREAM, ForwardQuery(q, request)).msg.answer == [] ==>
              r == Err(Failure(NOT_FOUND))
  {
    var queryMsg := ForwardQuery(q, request);
    match net(UPSTREAM, queryMsg)
    case TransportError(reason) => Err(Transport(reason))
    case Reply(responseMsg) =>
      if |responseMsg.answer| > 0 then Ok(responseMsg.answer) else Err(Failure(NOT_FOUND))
  }
}
