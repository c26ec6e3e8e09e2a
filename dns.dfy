/** Values shared by both resolver programs: resource records, messages,
    the network oracle, the fixed root list and the outcome of a resolution. */
module Dns {

  datatype Option<+T> = None | Some(value: T)

  /** One byte of an IPv4 address. */
  type Octet = n: int | 0 <= n < 256

  datatype IPv4 = IPv4(a: Octet, b: Octet, c: Octet, d: Octet)

  /** DNS type and class codes used by the programs. */
  const TYPE_A: nat := 1
  const TYPE_AAAA: nat := 28
  const CLASS_INET: nat := 1

  /** Resource records, one constructor per record kind the programs tell apart. */
  datatype RR =
    | A(name: string, ip: IPv4)
    | AAAA(name: string, ttl: nat, rrclass: nat, addr: string)
    | CNAME(name: string, target: string)
    | NS(name: string, ns: string)
    | SOA(name: string, ns: string)
    | Other(name: string, rrtype: nat)

  datatype Question = Question(name: string, qtype: nat, qclass: nat)

  /** A DNS message: the header fields that matter here and the four sections. */
  datatype Msg = Msg(
    id: nat,
    opcode: nat,
    recursionDesired: bool,
    question: seq<Question>,
    answer: seq<RR>,
    ns: seq<RR>,
    extra: seq<RR>)

  /** A freshly allocated message: zero header, every section empty. */
  const EMPTY_MSG: Msg := Msg(0, 0, false, [], [], [], [])

  /** The query a resolver sends: recursion desired, one A question for `name`. */
  function AQuery(name: string): (m: Msg)
    ensures m.question == [Question(name, TYPE_A, CLASS_INET)]
    ensures m.recursionDesired && m.id == 0 && m.opcode == 0
    ensures m.answer == [] && m.ns == [] && m.extra == []
  {
    EMPTY_MSG.(recursionDesired := true, question := [Question(name, TYPE_A, CLASS_INET)])
  }

  /** What one UDP exchange yields. */
  datatype Exchanged = TransportError(reason: string) | Reply(msg: Msg)

  /** The network: the reply a server (an address, port 53 implied) gives to a query. */
  type Network = (string, Msg) -> Exchanged

  /** One exchange a program performed. */
  datatype Sent = Sent(server: string, query: Msg)

  predicate Failed(net: Network, s: Sent) {
    net(s.server, s.query).TransportError?
  }

  /** The last exchange of `t` got a reply whose answer section is `rs`, non-empty
      and not headed by a CNAME: the shape of every successful resolution. */
  predicate AnsweredBy(net: Network, t: seq<Sent>, rs: seq<RR>) {
    && t != []
    && net(t[|t| - 1].server, t[|t| - 1].query).Reply?
    && net(t[|t| - 1].server, t[|t| - 1].query).msg.answer == rs
    && rs != [] && !rs[0].CNAME?
  }

  /** The last exchange of `t` failed with `reason`. */
  predicate LastFailedWith(net: Network, t: seq<Sent>, reason: string) {
    t != [] && net(t[|t| - 1].server, t[|t| - 1].query) == TransportError(reason)
  }

  /** Exchanges made before a non-empty trace do not change which reply answered it. */
  lemma AnsweredAfter(net: Network, t: seq<Sent>, u: seq<Sent>, rs: seq<RR>)
    requires u != []
    ensures AnsweredBy(net, t + u, rs) <==> AnsweredBy(net, u, rs)
  {
    assert (t + u)[|t + u| - 1] == u[|u| - 1];
  }

  /** Exchanges made before a non-empty trace do not change how it failed. */
  lemma FailedAfter(net: Network, t: seq<Sent>, u: seq<Sent>, reason: string)
    requires u != []
    ensures LastFailedWith(net, t + u, reason) <==> LastFailedWith(net, u, reason)
  {
    assert (t + u)[|t + u| - 1] == u[|u| - 1];
  }

  /** The 13 root nameservers every resolution starts from. */
  const ROOT_NAMESERVERS: seq<string> := [
    "198.41.0.4", "199.9.14.201", "192.33.4.12", "199.7.91.13", "192.203.230.10",
    "192.5.5.241", "192.112.36.4", "198.97.190.53", "192.36.148.17", "192.58.128.30",
    "193.0.14.129", "199.7.83.42", "202.12.27.33"]

  /** An index the random source may draw: below the number of roots. */
  type RootIndex = i: int | 0 <= i < 13

  /** The random source: the root index drawn by the k-th draw. */
  type Chooser = nat -> RootIndex

  datatype Error = Transport(reason: string) | Failure(text: string)

  const NOT_FOUND := "not found"

  /** How a computation ends. `Panic` is a Go run-time panic (failed type
      assertion, index out of range); `OutOfFuel` exists only in the model. */
  datatype Outcome<+T> = Ok(value: T) | Err(error: Error) | Panic | OutOfFuel

  /** A resolution: its outcome, the number of random draws made so far, and
      the exchanges it performed in order. */
  datatype Run = Run(outcome: Outcome<seq<RR>>, draws: nat, trace: seq<Sent>)

  /** `r` preceded by the exchanges `t`. */
  function After(t: seq<Sent>, r: Run): (r': Run)
    ensures r'.outcome == r.outcome && r'.draws == r.draws
    ensures |r'.trace| == |t| + |r.trace| && r'.trace[..|t|] == t && r'.trace[|t|..] == r.trace
  {
    Run(r.outcome, r.draws, t + r.trace)
  }

  lemma AfterAfter(a: seq<Sent>, b: seq<Sent>, r: Run)
    ensures After(a, After(b, r)) == After(a + b, r)
  {
    assert a + (b + r.trace) == (a + b) + r.trace;
  }

  /** Each element of `t` is one `step` away from the element before it. */
  predicate Linked<T>(step: (T, T) -> bool, t: seq<T>)
    decreases |t|
  {
    |t| <= 1 || (step(t[0], t[1]) && Linked(step, t[1..]))
  }

  /** In a linked sequence, element `i + 1` is one step away from element `i`. */
  lemma {:induction false} LinkedAt<T>(step: (T, T) -> bool, t: seq<T>, i: nat)
    requires Linked(step, t) && i < |t| - 1
    ensures step(t[i], t[i + 1])
    decreases i
  {
    if i > 0 {
      LinkedAt(step, t[1..], i - 1);
      assert t[1..][i - 1] == t[i] && t[1..][i] == t[i + 1];
    }
  }

  /** Two linked sequences joined by a step form one linked sequence. */
  lemma {:induction false} LinkedAppend<T>(step: (T, T) -> bool, a: seq<T>, b: seq<T>)
    requires Linked(step, a) && Linked(step, b)
    requires a != [] && b != [] ==> step(a[|a| - 1], b[0])
    ensures Linked(step, a + b)
    decreases |a|
  {
    if a == [] {
      assert a + b == b;
    } else if b == [] {
      assert a + b == a;
    } else if |a| == 1 {
      assert (a + b)[1..] == b;
    } else {
      LinkedAppend(step, a[1..], b);
      assert (a + b)[1..] == a[1..] + b;
      assert a[1..][|a[1..]| - 1] == a[|a| - 1];
    }
  }

  /** What the request handler gives back to the listener. */
  datatype Handled = Replied(msg: Msg, err: Option<Error>) | Crashed | Exhausted

  /** The handler's boundary: a helper's list becomes the answer section of a fresh
      message; a helper's error leaves the answer section empty and is returned beside it. */
  function Conclude(p: Outcome<seq<RR>>): (h: Handled)
    ensures h.Replied? <==> p.Ok? || p.Err?
    ensures p.Ok? ==> h == Replied(EMPTY_MSG.(answer := p.value), None)
    ensures p.Err? ==> h == Replied(EMPTY_MSG, Some(p.error))
    ensures p.Panic? ==> h.Crashed?
  {
    match p
    case Ok(rs) => Replied(EMPTY_MSG.(answer := rs), None)
    case Err(e) => Replied(EMPTY_MSG, Some(e))
    case Panic => Crashed
    case OutOfFuel => Exhausted
  }

  /** Appends `rs` one record at a time to the answer section of `m`. */
  method AppendAnswers(m: Msg, rs: seq<RR>) returns (m': Msg)
    ensures m' == m.(answer := m.answer + rs)
  {
    m' := m;
    for i := 0 to |rs|
      invariant m' == m.(answer := m.answer + rs[..i])
    {
      m' := m'.(answer := m'.answer + [rs[i]]);
      assert rs[..i + 1] == rs[..i] + [rs[i]];
    }
    assert rs[..|rs|] == rs;
  }
}
