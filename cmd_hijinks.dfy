/** The resolver and request handler of cmd/dns-hijinks/main.go: an authority
    section headed by NS or SOA is followed, and a dead end reads "no nameserver found". */
module CmdHijinks {
  import opened Dns
  import opened Address
  import opened Referral
  import opened Synthesis
  import opened Forwarder

  const NO_NAMESERVER_FOUND := "no nameserver found"

  // ----- Specification of the delegation walk -----

  /** The loop of `resolve` from the point where `server` is the current nameserver,
      with `fuel` iterations left; nested resolutions get `fuel - 1`. */
  function Walk(net: Network, choose: Chooser, draws: nat, name: string, server: string, fuel: nat): Run
    decreases fuel, 1
  {
    if fuel == 0 then Run(OutOfFuel, draws, [])
    else
      match net(server, AQuery(name))
      case TransportError(reason) => Run(Err(Transport(reason)), draws, [Sent(server, AQuery(name))])
      case Reply(resp) => OnReply(net, choose, draws, name, server, resp, fuel)
  }

  /** The rest of an iteration once `server` has replied `resp`. */
  function OnReply(net: Network, choose: Chooser, draws: nat, name: string, server: string, resp: Msg, fuel: nat): Run
    requires fuel > 0
    decreases fuel, 0
  {
    var query := Sent(server, AQuery(name));
    if |resp.answer| > 0 then
      if resp.answer[0].CNAME? then
        After([query], Resolution(net, choose, draws, resp.answer[0].target, fuel - 1))
      else Run(Ok(resp.answer), draws, [query])
    else if |resp.extra| == 0 && |resp.ns| != 0 then
      if resp.ns[0].NS? || resp.ns[0].SOA? then
        var sub := Resolution(net, choose, draws, resp.ns[0].ns, fuel - 1);
        var t := [query] + sub.trace;
        (match sub.outcome
         case Ok(nsIP) =>
           if |nsIP| > 0 && nsIP[0].A? then
             After(t, Walk(net, choose, sub.draws, name, DottedQuad(nsIP[0].ip), fuel - 1))
           else Run(Panic, sub.draws, t)
         case Err(_) => Run(Err(Failure(NO_NAMESERVER_FOUND)), sub.draws, t)
         case Panic => Run(Panic, sub.draws, t)
         case OutOfFuel => Run(OutOfFuel, sub.draws, t))
      else
        // neither NS nor SOA: no branch fires, the same nameserver is asked again
        After([query], Walk(net, choose, draws, name, server, fuel - 1))
    else
      match FirstA(resp.extra)
      case Some(ip) => After([query], Walk(net, choose, draws, name, DottedQuad(ip), fuel - 1))
      case None => Run(Err(Failure(NO_NAMESERVER_FOUND)), draws, [query])
  }

  /** `resolve(name)`: draw a root, then walk from it. */
  function Resolution(net: Network, choose: Chooser, draws: nat, name: string, fuel: nat): Run
    decreases fuel, 2
  {
    Walk(net, choose, draws + 1, name, ROOT_NAMESERVERS[choose(draws)], fuel)
  }

  // ----- The resolver as the program runs it -----

  /** `resolve`: a loop that reassigns the current nameserver until an iteration
      settles the outcome. */
  method Resolve(net: Network, choose: Chooser, draws: nat, name: string, fuel: nat)
    returns (r: Outcome<seq<RR>>, drawn: nat, sent: seq<Sent>)
    ensures Run(r, drawn, sent) == Resolution(net, choose, draws, name, fuel)
    decreases fuel, 1
  {
    var nameserver := ROOT_NAMESERVERS[choose(draws)];
    drawn, sent := draws + 1, [];
    ghost var spec := Resolution(net, choose, draws, name, fuel);
    var steps: nat := fuel;
    while steps > 0
      invariant steps <= fuel
      invariant spec == After(sent, Walk(net, choose, drawn, name, nameserver, steps))
      decreases steps
    {
      ghost var before := sent;
      var done, stepSent;
      done, r, drawn, stepSent, nameserver := Iteration(net, choose, drawn, name, nameserver, steps);
      sent := sent + stepSent;
      if done {
        assert spec == Run(r, drawn, before + stepSent);
        return;
      }
      steps := steps - 1;
      ghost var rest := Walk(net, choose, drawn, name, nameserver, steps);
      AfterAfter(before, stepSent, rest);
    }
    r := OutOfFuel;
    assert sent + [] == sent;
  }

  /** One iteration of the loop of `resolve` at `nameserver`: either it settles
      the outcome (`done`), or it names the nameserver the next iteration asks. */
  method Iteration(net: Network, choose: Chooser, draws: nat, name: string, nameserver: string, steps: nat)
    returns (done: bool, r: Outcome<seq<RR>>, drawn: nat, sent: seq<Sent>, next: string)
    requires steps > 0
    ensures done ==> Run(r, drawn, sent) == Walk(net, choose, draws, name, nameserver, steps)
    ensures !done ==> Walk(net, choose, draws, name, nameserver, steps)
                      == After(sent, Walk(net, choose, drawn, name, next, steps - 1))
    decreases steps, 0
  {
    var m := AQuery(name);
    var exchanged := net(nameserver, m);
    done, r, drawn, sent, next := true, OutOfFuel, draws, [Sent(nameserver, m)], nameserver;
    if exchanged.TransportError? {
      r := Err(Transport(exchanged.reason));
      return;
    }
    var resp := exchanged.msg;
    if |resp.answer| > 0 {
      if resp.answer[0].CNAME? {
        var cnameSent;
        r, drawn, cnameSent := Resolve(net, choose, draws, resp.answer[0].target, steps - 1);
        sent := sent + cnameSent;
        return;
      }
      r := Ok(resp.answer);
      return;
    }
    if |resp.extra| == 0 && |resp.ns| != 0 {
      if resp.ns[0].NS? || resp.ns[0].SOA? {
        var nsIP, nsSent;
        nsIP, drawn, nsSent := Resolve(net, choose, draws, resp.ns[0].ns, steps - 1);
        sent := sent + nsSent;
        if nsIP.Err? {
          r := Err(Failure(NO_NAMESERVER_FOUND));
          return;
        }
        if !nsIP.Ok? {
          r := nsIP;
          return;
        }
        if |nsIP.value| == 0 || !nsIP.value[0].A? {
          r := Panic;
          return;
        }
        next := DottedQuad(nsIP.value[0].ip);
      }
      // neither NS nor SOA: the same nameserver is asked again
    } else {
      var found;
      found, next := ScanExtra(resp.extra, nameserver);
      if !found {
        r := Err(Failure(NO_NAMESERVER_FOUND));
        return;
      }
    }
    done := false;
  }

  // ----- What the trace of exchanges shows -----

  /** The exchange `next` may directly follow `prev`, given the reply to `prev`. */
  predicate Follows(net: Network, prev: Sent, next: Sent) {
    match net(prev.server, prev.query)
    case TransportError(_) => false
    case Reply(resp) =>
      if |resp.answer| > 0 then
        if resp.answer[0].CNAME? then
          next.server in ROOT_NAMESERVERS && next.query == AQuery(resp.answer[0].target)
        else
          // a nested resolution ended here; its caller moves on to the first record's address
          resp.answer[0].A? && next.server == DottedQuad(resp.answer[0].ip)
      else if |resp.extra| == 0 && |resp.ns| != 0 then
        if resp.ns[0].NS? || resp.ns[0].SOA? then
          next.server in ROOT_NAMESERVERS && next.query == AQuery(resp.ns[0].ns)
        else next == prev
      else
        FirstA(resp.extra).Some? && next == Sent(DottedQuad(FirstA(resp.extra).value), prev.query)
  }

  /** Each exchange of `t` follows the one before it. */
  predicate Chained(net: Network, t: seq<Sent>) {
    Linked((prev, next) => Follows(net, prev, next), t)
  }

  /** Two chains joined by an exchange that follows form one chain. */
  lemma ChainedAppend(net: Network, a: seq<Sent>, b: seq<Sent>)
    requires Chained(net, a) && Chained(net, b)
    requires a != [] && b != [] ==> Follows(net, a[|a| - 1], b[0])
    ensures Chained(net, a + b)
  {
    LinkedAppend((prev, next) => Follows(net, prev, next), a, b);
  }

  /** What a walk from `server` for `name` guarantees about its run `r`: its first
      exchange asks `server` about `name`; each exchange follows from the reply to
      the one before; a success returns, unchanged, the answer section of the last
      reply, which is non-empty and not headed by a CNAME; a transport error is the
      failure of the last exchange; the only other error is "no nameserver found";
      the draw counter never goes back. */
  predicate WalkSound(net: Network, name: string, server: string, draws: nat, r: Run) {
    && (r.trace != [] ==> r.trace[0] == Sent(server, AQuery(name)))
    && Chained(net, r.trace)
    && (r.outcome.Ok? ==> AnsweredBy(net, r.trace, r.outcome.value))
    && (r.outcome.Err? ==>
          if r.outcome.error.Transport? then LastFailedWith(net, r.trace, r.outcome.error.reason)
          else r.outcome.error == Failure(NO_NAMESERVER_FOUND))
    && r.draws >= draws
  }

  /** Exchanges `t` from `server`, then a sound walk whose first exchange follows
      the last of `t`: together, a sound walk from `server`. */
  lemma SoundAfter(net: Network, name: string, server: string, draws: nat, t: seq<Sent>,
                   name': string, server': string, draws': nat, r: Run)
    requires t != [] && t[0] == Sent(server, AQuery(name)) && Chained(net, t)
    requires WalkSound(net, name', server', draws', r) && draws' >= draws
    requires Follows(net, t[|t| - 1], Sent(server', AQuery(name')))
    ensures WalkSound(net, name, server, draws, After(t, r))
  {
    var all := t + r.trace;
    assert After(t, r) == Run(r.outcome, r.draws, all);
    assert all[0] == t[0];
    if r.trace != [] {
      assert r.trace[0] == Sent(server', AQuery(name'));
      match r.outcome
      case Ok(rs) => AnsweredAfter(net, t, r.trace, rs);
      case Err(Transport(reason)) => FailedAfter(net, t, r.trace, reason);
      case _ =>
    }
    ChainedAppend(net, t, r.trace);
  }

  /** Every walk is sound, and it makes an exchange exactly when it has fuel. */
  lemma {:induction false} WalkTrace(net: Network, choose: Chooser, draws: nat, name: string, server: string, fuel: nat)
    ensures (Walk(net, choose, draws, name, server, fuel).trace == []) <==> fuel == 0
    ensures WalkSound(net, name, server, draws, Walk(net, choose, draws, name, server, fuel))
    decreases fuel, 2
  {
    if fuel > 0 {
      match net(server, AQuery(name))
      case TransportError(_) =>
      case Reply(resp) =>
        if |resp.answer| > 0 {
          if resp.answer[0].CNAME? {
            CnameTrace(net, choose, draws, name, server, resp, fuel);
          }
        } else if |resp.extra| == 0 && |resp.ns| != 0 {
          if resp.ns[0].NS? || resp.ns[0].SOA? {
            DelegationTrace(net, choose, draws, name, server, resp, fuel);
          } else {
            SpinTrace(net, choose, draws, name, server, resp, fuel);
          }
        } else if FirstA(resp.extra).Some? {
          ExtraTrace(net, choose, draws, name, server, resp, fuel);
        }
    }
  }

  /** `WalkTrace` for a reply headed by a CNAME. */
  lemma {:induction false} CnameTrace(net: Network, choose: Chooser, draws: nat, name: string, server: string, resp: Msg, fuel: nat)
    requires fuel > 0 && net(server, AQuery(name)) == Reply(resp)
    requires resp.answer != [] && resp.answer[0].CNAME?
    ensures Walk(net, choose, draws, name, server, fuel).trace != []
    ensures WalkSound(net, name, server, draws, Walk(net, choose, draws, name, server, fuel))
    decreases fuel, 0
  {
    var target, root := resp.answer[0].target, ROOT_NAMESERVERS[choose(draws)];
    WalkTrace(net, choose, draws + 1, target, root, fuel - 1);
    SoundAfter(net, name, server, draws, [Sent(server, AQuery(name))],
               target, root, draws + 1, Resolution(net, choose, draws, target, fuel - 1));
  }

  /** `WalkTrace` for a reply whose additional section names the next nameserver. */
  lemma {:induction false} ExtraTrace(net: Network, choose: Chooser, draws: nat, name: string, server: string, resp: Msg, fuel: nat)
    requires fuel > 0 && net(server, AQuery(name)) == Reply(resp)
    requires resp.answer == [] && !(resp.extra == [] && resp.ns != []) && FirstA(resp.extra).Some?
    ensures Walk(net, choose, draws, name, server, fuel).trace != []
    ensures WalkSound(net, name, server, draws, Walk(net, choose, draws, name, server, fuel))
    decreases fuel, 0
  {
    var next := DottedQuad(FirstA(resp.extra).value);
    WalkTrace(net, choose, draws, name, next, fuel - 1);
    SoundAfter(net, name, server, draws, [Sent(server, AQuery(name))],
               name, next, draws, Walk(net, choose, draws, name, next, fuel - 1));
  }

  /** `WalkTrace` for a reply whose first authority record is neither NS nor SOA. */
  lemma {:induction false} SpinTrace(net: Network, choose: Chooser, draws: nat, name: string, server: string, resp: Msg, fuel: nat)
    requires fuel > 0 && net(server, AQuery(name)) == Reply(resp)
    requires resp.answer == [] && resp.extra == [] && resp.ns != [] && !resp.ns[0].NS? && !resp.ns[0].SOA?
    ensures Walk(net, choose, draws, name, server, fuel).trace != []
    ensures WalkSound(net, name, server, draws, Walk(net, choose, draws, name, server, fuel))
    decreases fuel, 0
  {
    WalkTrace(net, choose, draws, name, server, fuel - 1);
    SoundAfter(net, name, server, draws, [Sent(server, AQuery(name))],
               name, server, draws, Walk(net, choose, draws, name, server, fuel - 1));
  }

  /** `WalkTrace` for a reply that delegates through the first authority record. */
  lemma {:induction false} DelegationTrace(net: Network, choose: Chooser, draws: nat, name: string, server: string, resp: Msg, fuel: nat)
    requires fuel > 0 && net(server, AQuery(name)) == Reply(resp)
    requires resp.answer == [] && resp.extra == [] && resp.ns != [] && (resp.ns[0].NS? || resp.ns[0].SOA?)
    ensures Walk(net, choose, draws, name, server, fuel).trace != []
    ensures WalkSound(net, name, server, draws, Walk(net, choose, draws, name, server, fuel))
    decreases fuel, 1
  {
    var sub := Resolution(net, choose, draws, resp.ns[0].ns, fuel - 1);
    if sub.outcome.Ok? && |sub.outcome.value| > 0 && sub.outcome.value[0].A? {
      OnwardTrace(net, choose, draws, name, server, resp, fuel);
    } else {
      var query := Sent(server, AQuery(name));
      WalkTrace(net, choose, draws + 1, resp.ns[0].ns, ROOT_NAMESERVERS[choose(draws)], fuel - 1);
      DelegationEnds(net, choose, draws, name, server, resp, fuel);
      ChainedAppend(net, [query], sub.trace);
    }
  }

  /** `DelegationTrace` when the sub-resolution yields an A record first. */
  lemma {:induction false} OnwardTrace(net: Network, choose: Chooser, draws: nat, name: string, server: string, resp: Msg, fuel: nat)
    requires fuel > 0 && net(server, AQuery(name)) == Reply(resp)
    requires resp.answer == [] && resp.extra == [] && resp.ns != [] && (resp.ns[0].NS? || resp.ns[0].SOA?)
    requires var sub := Resolution(net, choose, draws, resp.ns[0].ns, fuel - 1);
      sub.outcome.Ok? && |sub.outcome.value| > 0 && sub.outcome.value[0].A?
    ensures Walk(net, choose, draws, name, server, fuel).trace != []
    ensures WalkSound(net, name, server, draws, Walk(net, choose, draws, name, server, fuel))
    decreases fuel, 0
  {
    var root := ROOT_NAMESERVERS[choose(draws)];
    var sub := Resolution(net, choose, draws, resp.ns[0].ns, fuel - 1);
    var next := DottedQuad(sub.outcome.value[0].ip);
    var cont := Walk(net, choose, sub.draws, name, next, fuel - 1);
    RunSound(net, choose, draws + 1, resp.ns[0].ns, root, fuel - 1, sub);
    RunSound(net, choose, sub.draws, name, next, fuel - 1, cont);
    DelegationOnward(net, choose, draws, name, server, resp, fuel);
    DelegationSound(net, name, server, draws, resp, root, draws + 1, sub, cont);
  }

  /** `WalkTrace`, stated of a run already named `r`. */
  lemma {:induction false} RunSound(net: Network, choose: Chooser, draws: nat, name: string, server: string, fuel: nat, r: Run)
    requires r == Walk(net, choose, draws, name, server, fuel)
    ensures WalkSound(net, name, server, draws, r)
    decreases fuel, 3
  {
    WalkTrace(net, choose, draws, name, server, fuel);
  }

  /** The exchange with `server`, a sound resolution `sub` of the authority name
      from a root, then a sound walk `cont` from the address `sub` found: together,
      a sound walk from `server`. */
  lemma DelegationSound(net: Network, name: string, server: string, draws: nat, resp: Msg,
                        root: string, subDraws: nat, sub: Run, cont: Run)
    requires net(server, AQuery(name)) == Reply(resp)
    requires resp.answer == [] && resp.extra == [] && resp.ns != [] && (resp.ns[0].NS? || resp.ns[0].SOA?)
    requires root in ROOT_NAMESERVERS && subDraws >= draws
    requires WalkSound(net, resp.ns[0].ns, root, subDraws, sub)
    requires sub.outcome.Ok? && sub.outcome.value[0].A?
    requires WalkSound(net, name, DottedQuad(sub.outcome.value[0].ip), sub.draws, cont)
    ensures WalkSound(net, name, server, draws, After([Sent(server, AQuery(name))] + sub.trace, cont))
  {
    var t := [Sent(server, AQuery(name))] + sub.trace;
    ChainedAppend(net, [Sent(server, AQuery(name))], sub.trace);
    assert t[|t| - 1] == sub.trace[|sub.trace| - 1];
    SoundAfter(net, name, server, draws, t, name, DottedQuad(sub.outcome.value[0].ip), sub.draws, cont);
  }

  /** A delegation whose sub-resolution yields an A record first: the walk goes on
      from that address after the sub-resolution's exchanges. */
  lemma DelegationOnward(net: Network, choose: Chooser, draws: nat, name: string, server: string, resp: Msg, fuel: nat)
    requires fuel > 0 && net(server, AQuery(name)) == Reply(resp)
    requires resp.answer == [] && resp.extra == [] && resp.ns != [] && (resp.ns[0].NS? || resp.ns[0].SOA?)
    requires var sub := Resolution(net, choose, draws, resp.ns[0].ns, fuel - 1);
      sub.outcome.Ok? && |sub.outcome.value| > 0 && sub.outcome.value[0].A?
    ensures var sub := Resolution(net, choose, draws, resp.ns[0].ns, fuel - 1);
      Walk(net, choose, draws, name, server, fuel)
      == After([Sent(server, AQuery(name))] + sub.trace,
               Walk(net, choose, sub.draws, name, DottedQuad(sub.outcome.value[0].ip), fuel - 1))
  {
  }

  /** Any other delegation ends with the sub-resolution's exchanges, without a
      result; its error, if any, is "no nameserver found". */
  lemma DelegationEnds(net: Network, choose: Chooser, draws: nat, name: string, server: string, resp: Msg, fuel: nat)
    requires fuel > 0 && net(server, AQuery(name)) == Reply(resp)
    requires resp.answer == [] && resp.extra == [] && resp.ns != [] && (resp.ns[0].NS? || resp.ns[0].SOA?)
    requires var sub := Resolution(net, choose, draws, resp.ns[0].ns, fuel - 1);
      !(sub.outcome.Ok? && |sub.outcome.value| > 0 && sub.outcome.value[0].A?)
    ensures var sub := Resolution(net, choose, draws, resp.ns[0].ns, fuel - 1);
      var r := Walk(net, choose, draws, name, server, fuel);
      r.trace == [Sent(server, AQuery(name))] + sub.trace && r.draws == sub.draws && !r.outcome.Ok?
      && (r.outcome.Err? ==> r.outcome.error == Failure(NO_NAMESERVER_FOUND))
      && (sub.outcome.Ok? ==> r.outcome == Panic)
      && (sub.outcome.Err? ==> r.outcome == Err(Failure(NO_NAMESERVER_FOUND)))
      && (sub.outcome.Panic? || sub.outcome.OutOfFuel? ==> r.outcome == sub.outcome)
  {
  }

  // ----- Properties of `resolve` -----

  /** Every resolution, and so every one a CNAME or an authority record starts,
      first asks a freshly drawn root nameserver, and draws at least once. */
  lemma StartsAtRoot(net: Network, choose: Chooser, draws: nat, name: string, fuel: nat)
    requires fuel > 0
    ensures var r := Resolution(net, choose, draws, name, fuel);
      r.trace != [] && r.trace[0] == Sent(ROOT_NAMESERVERS[choose(draws)], AQuery(name))
      && r.trace[0].server in ROOT_NAMESERVERS && r.draws > draws
  {
    WalkTrace(net, choose, draws + 1, name, ROOT_NAMESERVERS[choose(draws)], fuel);
  }

  /** A successful resolution returns a non-empty list not headed by a CNAME: the
      answer section of the last reply, unchanged. */
  lemma SuccessIsLastAnswer(net: Network, choose: Chooser, draws: nat, name: string, fuel: nat)
    requires Resolution(net, choose, draws, name, fuel).outcome.Ok?
    ensures var r := Resolution(net, choose, draws, name, fuel);
      |r.outcome.value| > 0 && !r.outcome.value[0].CNAME? && AnsweredBy(net, r.trace, r.outcome.value)
  {
    WalkTrace(net, choose, draws + 1, name, ROOT_NAMESERVERS[choose(draws)], fuel);
  }

  /** No retry: every exchange but the last got a reply, so nothing is sent after a
      failed exchange; a transport error reported by `resolve` is the failure of its
      last exchange. */
  lemma NoExchangeAfterFailure(net: Network, choose: Chooser, draws: nat, name: string, fuel: nat)
    ensures var r := Resolution(net, choose, draws, name, fuel);
      forall i :: 0 <= i < |r.trace| - 1 ==> !Failed(net, r.trace[i])
    ensures var r := Resolution(net, choose, draws, name, fuel);
      r.outcome.Err? && r.outcome.error.Transport? ==> LastFailedWith(net, r.trace, r.outcome.error.reason)
  {
    WalkTrace(net, choose, draws + 1, name, ROOT_NAMESERVERS[choose(draws)], fuel);
    var t := Resolution(net, choose, draws, name, fuel).trace;
    forall i | 0 <= i < |t| - 1 ensures !Failed(net, t[i]) {
      LinkedAt((prev, next) => Follows(net, prev, next), t, i);
    }
  }

  /** A transport error ends the walk at once with that error: one exchange, no other server. */
  lemma TransportErrorAborts(net: Network, choose: Chooser, draws: nat, name: string, server: string, fuel: nat, reason: string)
    requires fuel > 0 && net(server, AQuery(name)) == TransportError(reason)
    ensures Walk(net, choose, draws, name, server, fuel) == Run(Err(Transport(reason)), draws, [Sent(server, AQuery(name))])
  {
  }

  /** A non-empty answer section not headed by a CNAME is the result, unchanged and in order. */
  lemma AnswerReturned(net: Network, choose: Chooser, draws: nat, name: string, server: string, fuel: nat, resp: Msg)
    requires fuel > 0 && net(server, AQuery(name)) == Reply(resp)
    requires resp.answer != [] && !resp.answer[0].CNAME?
    ensures Walk(net, choose, draws, name, server, fuel).outcome == Ok(resp.answer)
  {
  }

  /** A CNAME at the head of the answer section: the result is that of a new
      resolution of its target, which draws a new root. */
  lemma CnameRestarts(net: Network, choose: Chooser, draws: nat, name: string, server: string, fuel: nat, resp: Msg)
    requires fuel > 0 && net(server, AQuery(name)) == Reply(resp)
    requires resp.answer != [] && resp.answer[0].CNAME?
    ensures var r := Walk(net, choose, draws, name, server, fuel);
      var sub := Resolution(net, choose, draws, resp.answer[0].target, fuel - 1);
      r.outcome == sub.outcome && r.trace == [Sent(server, AQuery(name))] + sub.trace
  {
  }

  /** Additional section non-empty (or authority empty) without an A record:
      the walk fails with "no nameserver found". */
  lemma ExtraWithoutAFails(net: Network, choose: Chooser, draws: nat, name: string, server: string, fuel: nat, resp: Msg)
    requires fuel > 0 && net(server, AQuery(name)) == Reply(resp)
    requires resp.answer == [] && (resp.extra != [] || resp.ns == [])
    requires forall k :: 0 <= k < |resp.extra| ==> !resp.extra[k].A?
    ensures Walk(net, choose, draws, name, server, fuel).outcome == Err(Failure(NO_NAMESERVER_FOUND))
  {
  }

  /** An A record in the additional section: the next nameserver is the first one's address. */
  lemma ExtraAdvances(net: Network, choose: Chooser, draws: nat, name: string, server: string, fuel: nat, resp: Msg, i: nat)
    requires fuel > 0 && net(server, AQuery(name)) == Reply(resp)
    requires resp.answer == [] && i < |resp.extra| && resp.extra[i].A?
    requires forall j :: 0 <= j < i ==> !resp.extra[j].A?
    ensures Walk(net, choose, draws, name, server, fuel)
            == After([Sent(server, AQuery(name))], Walk(net, choose, draws, name, DottedQuad(resp.extra[i].ip), fuel - 1))
  {
    FirstAAt(resp.extra, i);
  }

  /** First authority record NS or SOA: its name is resolved; a failure there is
      "no nameserver found", a success moves the walk to the first record's address. */
  lemma DelegationStep(net: Network, choose: Chooser, draws: nat, name: string, server: string, fuel: nat, resp: Msg)
    requires fuel > 0 && net(server, AQuery(name)) == Reply(resp)
    requires resp.answer == [] && resp.extra == [] && resp.ns != [] && (resp.ns[0].NS? || resp.ns[0].SOA?)
    ensures var r := Walk(net, choose, draws, name, server, fuel);
      var sub := Resolution(net, choose, draws, resp.ns[0].ns, fuel - 1);
      (sub.outcome.Err? ==> r.outcome == Err(Failure(NO_NAMESERVER_FOUND)))
      && (sub.outcome.Ok? ==>
            (sub.outcome.value != []
             && (sub.outcome.value[0].A? ==>
                   r == After([Sent(server, AQuery(name))] + sub.trace,
                              Walk(net, choose, sub.draws, name, DottedQuad(sub.outcome.value[0].ip), fuel - 1)))))
  {
    if Resolution(net, choose, draws, resp.ns[0].ns, fuel - 1).outcome.Ok? {
      SuccessIsLastAnswer(net, choose, draws, resp.ns[0].ns, fuel - 1);
    }
  }

  /** First authority record neither NS nor SOA (with the other sections empty): the
      same nameserver is asked the same question again and again. */
  lemma {:induction false} OtherAuthoritySpins(net: Network, choose: Chooser, draws: nat, name: string, server: string, fuel: nat, resp: Msg)
    requires net(server, AQuery(name)) == Reply(resp)
    requires resp.answer == [] && resp.extra == [] && resp.ns != [] && !resp.ns[0].NS? && !resp.ns[0].SOA?
    ensures Walk(net, choose, draws, name, server, fuel)
            == Run(OutOfFuel, draws, seq(fuel, _ => Sent(server, AQuery(name))))
    decreases fuel
  {
    if fuel > 0 {
      OtherAuthoritySpins(net, choose, draws, name, server, fuel - 1, resp);
      assert [Sent(server, AQuery(name))] + seq(fuel - 1, _ => Sent(server, AQuery(name)))
             == seq(fuel, _ => Sent(server, AQuery(name)));
    }
  }

  // ----- processTypeAAAA -----

  /** `processTypeAAAA` on a resolution: errors pass through, an empty list is
      "not found", otherwise the synthesised records. */
  function AAAASynthesis(net: Network, choose: Chooser, draws: nat, accepts: LineParser, q: Question, fuel: nat): Run {
    var res := Resolution(net, choose, draws, q.name, fuel);
    match res.outcome
    case Ok(answers) =>
      if |answers| == 0 then res.(outcome := Err(Failure(NOT_FOUND)))
      else res.(outcome := Ok(Synthesized(q.name, answers, accepts)))
    case _ => res
  }

  method ProcessTypeAAAA(net: Network, choose: Chooser, draws: nat, accepts: LineParser, q: Question, fuel: nat)
    returns (r: Outcome<seq<RR>>, drawn: nat, sent: seq<Sent>)
    ensures Run(r, drawn, sent) == AAAASynthesis(net, choose, draws, accepts, q, fuel)
  {
    var answers;
    answers, drawn, sent := Resolve(net, choose, draws, q.name, fuel);
    if !answers.Ok? {
      return answers, drawn, sent;
    }
    if |answers.value| == 0 {
      return Err(Failure(NOT_FOUND)), drawn, sent;
    }
    var ret := Synthesize(q.name, answers.value, accepts);
    r := Ok(ret);
  }

  /** End to end: every record of a successful AAAA synthesis is an AAAA record for
      the question's name, TTL 120, class IN, whose address is the 4-via-6 form of an
      A record in the answer section of the last reply, read back by stripping the
      prefix; there are no more of them
      than records in that section. "not found" is never reported. */
  lemma AAAAFromLastAnswer(net: Network, choose: Chooser, draws: nat, accepts: LineParser, q: Question, fuel: nat)
    ensures var s := AAAASynthesis(net, choose, draws, accepts, q, fuel);
      s.outcome.Ok? ==> (
        && s.trace != []
        && net(s.trace[|s.trace| - 1].server, s.trace[|s.trace| - 1].query).Reply?
        && var last := net(s.trace[|s.trace| - 1].server, s.trace[|s.trace| - 1].query).msg.answer;
           && |s.outcome.value| <= |last|
           && forall k :: 0 <= k < |s.outcome.value| ==>
                var rr := s.outcome.value[k];
                rr.AAAA? && rr.name == q.name && rr.ttl == SYNTH_TTL && rr.rrclass == CLASS_INET
                && exists j :: 0 <= j < |last| && last[j].A? && rr.addr == Via6(last[j].ip)
                                 && StripVia6(rr.addr) == Some(last[j].ip))
    ensures AAAASynthesis(net, choose, draws, accepts, q, fuel).outcome != Err(Failure(NOT_FOUND))
  {
    var res := Resolution(net, choose, draws, q.name, fuel);
    WalkTrace(net, choose, draws + 1, q.name, ROOT_NAMESERVERS[choose(draws)], fuel);
    if res.outcome.Ok? {
      SynthesizedRecords(q.name, res.outcome.value, accepts);
    }
  }

  /** A resolution that succeeds without any A record gives an empty list and no error. */
  lemma AAAAWithoutARecords(net: Network, choose: Chooser, draws: nat, accepts: LineParser, q: Question, fuel: nat)
    requires Resolution(net, choose, draws, q.name, fuel).outcome.Ok?
    requires var rs := Resolution(net, choose, draws, q.name, fuel).outcome.value;
      forall k :: 0 <= k < |rs| ==> !rs[k].A?
    ensures AAAASynthesis(net, choose, draws, accepts, q, fuel).outcome == Ok([])
  {
    var rs := Resolution(net, choose, draws, q.name, fuel).outcome.value;
    SuccessIsLastAnswer(net, choose, draws, q.name, fuel);
    SynthesizedWithoutA(q.name, rs, accepts);
  }

  // ----- getResponse -----

  /** `getResponse`: dispatch on the first question's type. No question: an empty
      message. AAAA: the synthesised records. A: always an empty answer section.
      Anything else: the upstream answer. A helper's error leaves the answer
      section empty and is returned beside the message. */
  method GetResponse(net: Network, choose: Chooser, draws: nat, accepts: LineParser, request: Msg, fuel: nat)
    returns (h: Handled, drawn: nat)
    ensures request.question == [] ==> h == Replied(EMPTY_MSG, None) && drawn == draws
    ensures request.question != [] && request.question[0].qtype == TYPE_A ==>
              h == Replied(EMPTY_MSG, None) && drawn == draws
    ensures request.question != [] && request.question[0].qtype == TYPE_AAAA ==>
              var s := AAAASynthesis(net, choose, draws, accepts, request.question[0], fuel);
              h == Conclude(s.outcome) && drawn == s.draws
    ensures request.question != [] && request.question[0].qtype !in {TYPE_A, TYPE_AAAA} ==>
              h == Conclude(ProcessOther(net, request.question[0], request)) && drawn == draws
  {
    var responseMsg := EMPTY_MSG;
    drawn := draws;
    if |request.question| == 0 {
      return Replied(responseMsg, None), drawn;
    }
    var question := request.question[0];
    if question.qtype == TYPE_AAAA {
      var answers, sent;
      answers, drawn, sent := ProcessTypeAAAA(net, choose, draws, accepts, question, fuel);
      if answers.Err? {
        return Replied(responseMsg, Some(answers.error)), drawn;
      } else if answers.Panic? {
        return Crashed, drawn;
      } else if answers.OutOfFuel? {
        return Exhausted, drawn;
      }
      responseMsg := AppendAnswers(responseMsg, answers.value);
    } else if question.qtype == TYPE_A {
      // the IPv4 address of the destination is never revealed
    } else {
      var answers := ProcessOther(net, question, request);
      if answers.Err? {
        return Replied(responseMsg, Some(answers.error)), drawn;
      }
      responseMsg := AppendAnswers(responseMsg, answers.value);
    }
    h := Replied(responseMsg, None);
  }
}
