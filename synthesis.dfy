/** The 4-via-6 address synthesiser: A records in, AAAA records out. */
module Synthesis {
  import opened Dns
  import opened Address

  /** Time-to-live of every synthesised record, in seconds. */
  const SYNTH_TTL: nat := 120

  /** The record parser of the DNS library, reduced to whether it accepts a
      presentation line; when it does, the record it builds is the one the line
      describes. */
  type LineParser = string -> bool

  /** The presentation line handed to the parser for `ip`. */
  function RecordLine(name: string, ip: IPv4): string {
    name + " 120 IN AAAA " + Via6(ip)
  }

  /** The record synthesised for `ip`. */
  function Via6Record(name: string, ip: IPv4): RR {
    AAAA(name, SYNTH_TTL, CLASS_INET, Via6(ip))
  }

  /** What one input record contributes: nothing unless it is an A record the parser accepts. */
  function Contribution(name: string, rr: RR, accepts: LineParser): seq<RR> {
    if rr.A? && accepts(RecordLine(name, rr.ip)) then [Via6Record(name, rr.ip)] else []
  }

  /** The synthesiser's output for the records `answers`, in their order. */
  function Synthesized(name: string, answers: seq<RR>, accepts: LineParser): seq<RR>
    decreases |answers|
  {
    if answers == [] then []
    else Synthesized(name, answers[..|answers| - 1], accepts)
         + Contribution(name, answers[|answers| - 1], accepts)
  }

  /** The loop of the synthesiser: every A record becomes an AAAA record for the
      queried name; records of other kinds and lines the parser rejects are skipped. */
  method Synthesize(name: string, answers: seq<RR>, accepts: LineParser) returns (ret: seq<RR>)
    ensures ret == Synthesized(name, answers, accepts)
  {
    ret := [];
    for i := 0 to |answers|
      invariant ret == Synthesized(name, answers[..i], accepts)
    {
      assert answers[..i + 1][..i] == answers[..i];
      var answer := answers[i];
      if !answer.A? {
        continue;
      }
      if !accepts(RecordLine(name, answer.ip)) {
        continue;
      }
      ret := ret + [AAAA(name, SYNTH_TTL, CLASS_INET, Via6(answer.ip))];
    }
    assert answers[..|answers|] == answers;
  }

  /** Synthesis works record by record: the output for `a + b` is the output for `a`
      followed by the output for `b`, so the input order is kept. */
  lemma {:induction false} SynthesizedAppend(name: string, a: seq<RR>, b: seq<RR>, accepts: LineParser)
    ensures Synthesized(name, a + b, accepts) == Synthesized(name, a, accepts) + Synthesized(name, b, accepts)
    decreases |b|
  {
    if b == [] {
      assert a + b == a;
    } else {
      var b' := b[..|b| - 1];
      assert (a + b)[..|a + b| - 1] == a + b';
      SynthesizedAppend(name, a, b', accepts);
    }
  }

  /** Every output record is an AAAA record for the queried name, with TTL 120,
      class IN, and the 4-via-6 address of an A record of the input; there are
      never more output records than input records. */
  lemma {:induction false} SynthesizedRecords(name: string, answers: seq<RR>, accepts: LineParser)
    ensures |Synthesized(name, answers, accepts)| <= |answers|
    ensures forall k :: 0 <= k < |Synthesized(name, answers, accepts)| ==>
      var rr := Synthesized(name, answers, accepts)[k];
      rr.AAAA? && rr.name == name && rr.ttl == SYNTH_TTL && rr.rrclass == CLASS_INET
      && exists j :: 0 <= j < |answers| && answers[j].A? && rr.addr == Via6(answers[j].ip)
                     && StripVia6(rr.addr) == Some(answers[j].ip)
    decreases |answers|
  {
    if answers != [] {
      var init := answers[..|answers| - 1];
      SynthesizedRecords(name, init, accepts);
      var out := Synthesized(name, answers, accepts);
      var prev := Synthesized(name, init, accepts);
      forall k | 0 <= k < |out|
        ensures exists j :: 0 <= j < |answers| && answers[j].A? && out[k].addr == Via6(answers[j].ip)
                           && StripVia6(out[k].addr) == Some(answers[j].ip)
      {
        if k < |prev| {
          var j :| 0 <= j < |init| && init[j].A? && prev[k].addr == Via6(init[j].ip)
                   && StripVia6(prev[k].addr) == Some(init[j].ip);
          assert answers[j] == init[j];
        } else {
          var last := answers[|answers| - 1];
          assert last.A? && out[k] == Via6Record(name, last.ip);
          Via6RoundTrip(last.ip, out[k].addr);
        }
      }
    }
  }

  /** With no A record in the input the output is empty. */
  lemma {:induction false} SynthesizedWithoutA(name: string, answers: seq<RR>, accepts: LineParser)
    requires forall k :: 0 <= k < |answers| ==> !answers[k].A?
    ensures Synthesized(name, answers, accepts) == []
    decreases |answers|
  {
    if answers != [] {
      SynthesizedWithoutA(name, answers[..|answers| - 1], accepts);
    }
  }

  /** When every input record is an A record the parser accepts, the output has one
      record per input record, in the same position. */
  lemma {:induction false} SynthesizedAllAccepted(name: string, answers: seq<RR>, accepts: LineParser)
    requires forall k :: 0 <= k < |answers| ==> answers[k].A? && accepts(RecordLine(name, answers[k].ip))
    ensures |Synthesized(name, answers, accepts)| == |answers|
    ensures forall k :: 0 <= k < |answers| ==>
      Synthesized(name, answers, accepts)[k] == AAAA(name, SYNTH_TTL, CLASS_INET, Via6(answers[k].ip))
    decreases |answers|
  {
    if answers != [] {
      var init, last := answers[..|answers| - 1], answers[|answers| - 1];
      SynthesizedAllAccepted(name, init, accepts);
      var prev := Synthesized(name, init, accepts);
      var out := prev + [Via6Record(name, last.ip)];
      assert Contribution(name, last, accepts) == [Via6Record(name, last.ip)];
      assert Synthesized(name, answers, accepts) == out;
      forall k | 0 <= k < |answers|
        ensures out[k] == AAAA(name, SYNTH_TTL, CLASS_INET, Via6(answers[k].ip))
      {
        if k < |init| {
          assert answers[k] == init[k] && out[k] == prev[k];
        }
      }
    }
  }
}
