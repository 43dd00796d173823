/** The hop-by-hop path discovery of traceroute.py: protocol validation, the TTL/attempt
    loop run against an abstract probe, and the JSON and text renderers. */
module Traceroute {
  import opened Wrappers

  /** The two probe protocols the constructor accepts. */
  datatype Protocol = Udp | Icmp

  function ProtocolName(p: Protocol): string {
    match p
    case Udp => "udp"
    case Icmp => "icmp"
  }

  datatype ValueError = ValueError(message: string)

  const ProtocolError := ValueError("Protocol must be either 'udp' or 'icmp'")

  /** str.lower on one character (ASCII letters only). */
  function LowerChar(c: char): char {
    if 'A' <= c <= 'Z' then (c as int - 'A' as int + 'a' as int) as char else c
  }

  /** str.lower on a string (ASCII letters only). */
  function Lower(s: string): string {
    seq(|s|, i requires 0 <= i < |s| => LowerChar(s[i]))
  }

  /** The ICMP layer of a reply, when it has one. */
  datatype IcmpHeader = IcmpHeader(icmpType: int, code: int)

  /** What one answered probe tells the loop: the replier's address, the ICMP layer if present,
      the `type` field scapy finds on the reply, and the measured round-trip time. */
  datatype Reply = Reply(src: string, icmp: Option<IcmpHeader>, replyType: int, rtt: real)

  /** The outcome of sending the probe of a given TTL for a given attempt (0-based):
      None when `sr` returned no answer within the timeout. */
  type Prober = (int, nat) -> Option<Reply>

  /** One entry of the list Traceroute.run returns: the replier's address (None if no
      attempt was answered) and one RTT slot per attempt. */
  datatype Hop = Hop(ip: Option<string>, rtts: seq<Option<real>>)

  /** The protocol-specific destination-reached rule applied to an answer. */
  predicate DestinationReached(protocol: Protocol, reply: Reply) {
    match protocol
    case Udp => reply.icmp.Some? && reply.icmp.value.icmpType == 3 && reply.icmp.value.code == 3
    case Icmp => reply.replyType == 0
  }

  /** Whether an attempt's outcome is an answer classified destination-reached. */
  predicate Signals(protocol: Protocol, answer: Option<Reply>) {
    answer.Some? && DestinationReached(protocol, answer.value)
  }

  /** The RTT slot an attempt contributes. */
  function Slot(answer: Option<Reply>): Option<real> {
    match answer
    case None => None
    case Some(reply) => Some(reply.rtt)
  }

  /** Python truthiness of an optional address: None and "" are both false. */
  predicate Present(ip: Option<string>) {
    ip.Some? && ip.value != ""
  }

  /** The address as a renderer shows it, with a placeholder when it is not truthy. */
  function IpOr(ip: Option<string>, placeholder: string): string {
    if Present(ip) then ip.value else placeholder
  }

  /** The hop record after the first n attempts at ttl: every answer overwrites the address
      and every attempt appends one slot. */
  function HopAfter(probe: Prober, ttl: int, n: nat): Hop {
    if n == 0 then Hop(None, [])
    else
      var h := HopAfter(probe, ttl, n - 1);
      match probe(ttl, n - 1)
      case None => Hop(h.ip, h.rtts + [None])
      case Some(reply) => Hop(Some(reply.src), h.rtts + [Some(reply.rtt)])
  }

  /** Whether the destination_reached flag is set after the first n attempts at ttl. */
  predicate ReachedWithin(probe: Prober, protocol: Protocol, ttl: int, n: nat) {
    n > 0 && (ReachedWithin(probe, protocol, ttl, n - 1) || Signals(protocol, probe(ttl, n - 1)))
  }

  /** Whether none of the first n attempts at ttl was answered. */
  predicate Unanswered(probe: Prober, ttl: int, n: nat) {
    forall j :: 0 <= j < n ==> probe(ttl, j).None?
  }

  /** Every hop has one slot per attempt, in attempt order: None for an unanswered attempt,
      the measured RTT otherwise. */
  lemma {:induction false} HopSlots(probe: Prober, ttl: int, n: nat)
    ensures |HopAfter(probe, ttl, n).rtts| == n
    ensures forall j :: 0 <= j < n ==> HopAfter(probe, ttl, n).rtts[j] == Slot(probe(ttl, j))
  {
    if n > 0 {
      HopSlots(probe, ttl, n - 1);
    }
  }

  /** A hop's address is None exactly when no attempt was answered; otherwise it is the
      source of the last answered attempt. */
  lemma {:induction false} HopIp(probe: Prober, ttl: int, n: nat)
    ensures HopAfter(probe, ttl, n).ip.None? <==> Unanswered(probe, ttl, n)
    ensures HopAfter(probe, ttl, n).ip.Some? ==>
      exists j :: 0 <= j < n && probe(ttl, j).Some? && HopAfter(probe, ttl, n).ip.value == probe(ttl, j).value.src &&
        forall k :: j < k < n ==> probe(ttl, k).None?
  {
    if n > 0 {
      HopIp(probe, ttl, n - 1);
      var h := HopAfter(probe, ttl, n);
      if probe(ttl, n - 1).Some? {
        assert h.ip.value == probe(ttl, n - 1).value.src;
      } else if h.ip.Some? {
        var j :| 0 <= j < n - 1 && probe(ttl, j).Some? && h.ip.value == probe(ttl, j).value.src &&
          forall k :: j < k < n - 1 ==> probe(ttl, k).None?;
        assert forall k :: j < k < n ==> probe(ttl, k).None?;
      }
    }
  }

  /** The flag is set exactly when some attempt drew a destination-reached answer, whatever
      its position among the attempts. */
  lemma {:induction false} ReachedWithinIff(probe: Prober, protocol: Protocol, ttl: int, n: nat)
    ensures ReachedWithin(probe, protocol, ttl, n) <==> exists j :: 0 <= j < n && Signals(protocol, probe(ttl, j))
  {
    if n > 0 {
      ReachedWithinIff(probe, protocol, ttl, n - 1);
      if Signals(protocol, probe(ttl, n - 1)) {
        assert ReachedWithin(probe, protocol, ttl, n);
      }
    }
  }

  /** UDP probes reach the destination only on an ICMP port-unreachable (type 3, code 3);
      ICMP probes only on a reply whose type is 0 (echo reply). */
  lemma ReachedRule(reply: Reply)
    ensures DestinationReached(Udp, reply) <==> reply.icmp == Some(IcmpHeader(3, 3))
    ensures DestinationReached(Icmp, reply) <==> reply.replyType == 0
  {
  }

  /** The decimal digits of n, as an f-string writes an int. */
  function Decimal(n: nat): (s: string)
    ensures |s| > 0
    ensures forall i :: 0 <= i < |s| ==> '0' <= s[i] <= '9'
    ensures n > 0 ==> s[0] != '0'
    decreases n
  {
    if n < 10 then [(n + '0' as int) as char]
    else Decimal(n / 10) + [(n % 10 + '0' as int) as char]
  }

  /** The number a string of decimal digits denotes. */
  function DecimalValue(s: string): nat {
    if s == [] then 0
    else
      var d := s[|s| - 1] as int - '0' as int;
      DecimalValue(s[..|s| - 1]) * 10 + (if 0 <= d <= 9 then d else 0)
  }

  /** Reading back the numbers a renderer writes gives the hop number. */
  lemma {:induction false} DecimalRoundTrip(n: nat)
    ensures DecimalValue(Decimal(n)) == n
    decreases n
  {
    if n >= 10 {
      DecimalRoundTrip(n / 10);
      var s := Decimal(n);
      assert s[..|s| - 1] == Decimal(n / 10);
    }
  }

  /** A record of the JSON document to_json serialises. */
  datatype JsonHop = JsonHop(id: int, ip: string, rtts: seq<Option<real>>)
  datatype JsonTrace = JsonTrace(workerid: string, timestamp: string, target: string, hops: seq<JsonHop>)

  /** The text a hop's RTT slot adds to its line in to_standard. */
  function SlotText(rtt: Option<real>, show: real -> string): string {
    match rtt
    case None => "  *"
    case Some(v) => "  " + show(v) + " ms"
  }

  function SlotsText(rtts: seq<Option<real>>, show: real -> string): string {
    if rtts == [] then "" else SlotText(rtts[0], show) + SlotsText(rtts[1..], show)
  }

  /** The line to_standard writes for a hop, without its newline. */
  function HopLine(number: nat, hop: Hop, show: real -> string): string {
    Decimal(number) + "  " + IpOr(hop.ip, "*") + SlotsText(hop.rtts, show)
  }

  /** The lines for results, numbered from number on. */
  function LinesFrom(results: seq<Hop>, number: nat, show: real -> string): string {
    if results == [] then "" else HopLine(number, results[0], show) + "\n" + LinesFrom(results[1..], number + 1, show)
  }


  /** The number of occurrences of c in s. */
  function Occurrences(c: char, s: string): nat {
    if s == [] then 0 else (if s[0] == c then 1 else 0) + Occurrences(c, s[1..])
  }

  lemma {:induction false} OccurrencesAppend(c: char, a: string, b: string)
    ensures Occurrences(c, a + b) == Occurrences(c, a) + Occurrences(c, b)
  {
    if a == [] {
      assert a + b == b;
    } else {
      assert (a + b)[1..] == a[1..] + b;
      OccurrencesAppend(c, a[1..], b);
    }
  }

  lemma {:induction false} OccurrencesAbsent(c: char, s: string)
    requires c !in s
    ensures Occurrences(c, s) == 0
  {
    if s != [] {
      OccurrencesAbsent(c, s[1..]);
    }
  }

  lemma {:induction false} SlotsTextNoNewline(rtts: seq<Option<real>>, show: real -> string)
    requires forall v :: '\n' !in show(v)
    ensures '\n' !in SlotsText(rtts, show)
  {
    if rtts != [] {
      SlotsTextNoNewline(rtts[1..], show);
      assert '\n' !in SlotText(rtts[0], show);
    }
  }

  /** Each hop line holds no newline of its own, given that addresses and the RTT format hold
      none, so every entry takes exactly one line. */
  lemma {:induction false} LinesFromCount(results: seq<Hop>, number: nat, show: real -> string)
    requires forall v :: '\n' !in show(v)
    requires forall i :: 0 <= i < |results| ==> results[i].ip.Some? ==> '\n' !in results[i].ip.value
    ensures Occurrences('\n', LinesFrom(results, number, show)) == |results|
  {
    if results != [] {
      var line := HopLine(number, results[0], show);
      SlotsTextNoNewline(results[0].rtts, show);
      assert '\n' !in Decimal(number);
      assert '\n' !in IpOr(results[0].ip, "*");
      assert '\n' !in line;
      OccurrencesAbsent('\n', line);
      OccurrencesAppend('\n', line, "\n");
      OccurrencesAppend('\n', line + "\n", LinesFrom(results[1..], number + 1, show));
      LinesFromCount(results[1..], number + 1, show);
    }
  }

  /** n copies of s. */
  function Repeat(s: string, n: nat): string {
    if n == 0 then "" else s + Repeat(s, n - 1)
  }

  /** A hop with no answer at all renders as its number followed by a "*" for the address
      and one more per attempt. */
  lemma {:induction false} SilentHopLine(number: nat, hop: Hop, show: real -> string)
    requires hop.ip.None?
    requires forall j :: 0 <= j < |hop.rtts| ==> hop.rtts[j].None?
    ensures HopLine(number, hop, show) == Decimal(number) + "  *" + Repeat("  *", |hop.rtts|)
  {
    SilentSlots(hop.rtts, show);
  }

  lemma {:induction false} SilentSlots(rtts: seq<Option<real>>, show: real -> string)
    requires forall j :: 0 <= j < |rtts| ==> rtts[j].None?
    ensures SlotsText(rtts, show) == Repeat("  *", |rtts|)
  {
    if rtts != [] {
      SilentSlots(rtts[1..], show);
    }
  }

  /** One line of to_standard: the hop number and the address or "*", then each RTT slot
      appended in turn. */
  method BuildHopLine(number: nat, hop: Hop, show: real -> string) returns (hopLine: string)
    ensures hopLine == HopLine(number, hop, show)
  {
    hopLine := Decimal(number) + "  " + IpOr(hop.ip, "*");
    var j := 0;
    while j < |hop.rtts|
      invariant 0 <= j <= |hop.rtts|
      invariant hopLine + SlotsText(hop.rtts[j..], show) == HopLine(number, hop, show)
    {
      ghost var rest := SlotsText(hop.rtts[j + 1..], show);
      assert SlotsText(hop.rtts[j..], show) == SlotText(hop.rtts[j], show) + rest by {
        assert hop.rtts[j..][1..] == hop.rtts[j + 1..];
      }
      ghost var before := hopLine;
      if hop.rtts[j].Some? {
        hopLine := hopLine + ("  " + show(hop.rtts[j].value) + " ms");
      } else {
        hopLine := hopLine + "  *";
      }
      assert hopLine == before + SlotText(hop.rtts[j], show);
      AppendAssoc(before, SlotText(hop.rtts[j], show), rest);
      j := j + 1;
    }
  }

  /** The configuration a Traceroute object holds; __init__ sets it and nothing changes it. */
  datatype Traceroute = Traceroute(target: string, protocol: Protocol, maxHops: int, timeout: real, attempts: int) {

    /** The number of TTLs range(1, max_hops + 1) yields. */
    function HopLimit(): nat {
      if maxHops < 0 then 0 else maxHops
    }

    /** The number of attempts range(attempts) yields. */
    function AttemptCount(): nat {
      if attempts < 0 then 0 else attempts
    }

    /** The hop record built at ttl. */
    function HopAt(probe: Prober, ttl: int): Hop {
      HopAfter(probe, ttl, AttemptCount())
    }

    /** Whether the hop at ttl ends the loop. */
    predicate Reached(probe: Prober, ttl: int) {
      ReachedWithin(probe, protocol, ttl, AttemptCount())
    }

    /** The entries run appends from ttl on. */
    function TraceFrom(probe: Prober, ttl: int): seq<Hop>
      requires ttl >= 1
      decreases maxHops + 1 - ttl
    {
      if ttl > maxHops then []
      else [HopAt(probe, ttl)] + (if Reached(probe, ttl) then [] else TraceFrom(probe, ttl + 1))
    }

    /** The loop at ttl ends exactly when one of its attempts was answered with a reply that,
        under UDP, carries an ICMP layer of type 3 and code 3, or, under ICMP, has type 0. */
    lemma ReachedOnReplyFields(probe: Prober, ttl: int)
      ensures Reached(probe, ttl) <==>
        exists j :: 0 <= j < AttemptCount() && probe(ttl, j).Some? &&
          ((protocol == Udp && probe(ttl, j).value.icmp == Some(IcmpHeader(3, 3))) ||
           (protocol == Icmp && probe(ttl, j).value.replyType == 0))
    {
      ReachedWithinIff(probe, protocol, ttl, AttemptCount());
    }

    /** The list Traceroute.run returns. */
    function Trace(probe: Prober): seq<Hop> {
      TraceFrom(probe, 1)
    }

    /** One pass of run's inner loop: send every attempt at ttl, let each answer overwrite
        the address and append its RTT, and raise the flag on a destination-reached answer. */
    method ProbeHop(probe: Prober, ttl: int) returns (hop: Hop, destinationReached: bool)
      ensures hop == HopAt(probe, ttl)
      ensures destinationReached == Reached(probe, ttl)
    {
      var ip: Option<string> := None;
      var rtts: seq<Option<real>> := [];
      destinationReached := false;
      var attempt := 0;
      while attempt < attempts
        invariant 0 <= attempt
        invariant attempt <= AttemptCount()
        invariant Hop(ip, rtts) == HopAfter(probe, ttl, attempt)
        invariant destinationReached == ReachedWithin(probe, protocol, ttl, attempt)
      {
        var answer := probe(ttl, attempt);
        match answer {
          case None =>
            rtts := rtts + [None];
          case Some(reply) =>
            ip := Some(reply.src);
            rtts := rtts + [Some(reply.rtt)];
            if protocol == Udp && reply.icmp.Some? && reply.icmp.value.icmpType == 3 && reply.icmp.value.code == 3 {
              destinationReached := true;
            } else if protocol == Icmp && reply.replyType == 0 {
              destinationReached := true;
            }
        }
        attempt := attempt + 1;
      }
      hop := Hop(ip, rtts);
    }

    /** Traceroute.run: for each TTL from 1 to max_hops, send every attempt, collect the hop
        record, append it, and stop after the first hop at which the destination was reached. */
    method Run(probe: Prober) returns (result: seq<Hop>)
      ensures result == Trace(probe)
    {
      result := [];
      var ttl := 1;
      while ttl <= maxHops
        invariant ttl >= 1
        invariant result + TraceFrom(probe, ttl) == Trace(probe)
        decreases maxHops + 1 - ttl
      {
        var hop, destinationReached := ProbeHop(probe, ttl);
        result := result + [hop];
        if destinationReached {
          break;
        }
        ttl := ttl + 1;
      }
    }

    lemma {:induction false} TraceFromShape(probe: Prober, ttl: int)
      requires 1 <= ttl
      ensures var t := TraceFrom(probe, ttl);
        && (ttl <= maxHops ==> 1 <= |t| <= maxHops + 1 - ttl)
        && (ttl > maxHops ==> t == [])
        && (forall i :: 0 <= i < |t| ==> t[i] == HopAt(probe, ttl + i))
        && (forall u :: ttl <= u < ttl + |t| - 1 ==> !Reached(probe, u))
        && (|t| > 0 ==> Reached(probe, ttl + |t| - 1) || ttl + |t| - 1 == maxHops)
      decreases maxHops + 1 - ttl
    {
      if ttl <= maxHops && !Reached(probe, ttl) {
        TraceFromShape(probe, ttl + 1);
      }
    }

    /** The result has at most max_hops entries, entry i is the hop built at TTL i + 1,
        no entry but the last reached the destination, and the last either reached it or
        was built at TTL max_hops. */
    lemma TraceShape(probe: Prober)
      ensures var t := Trace(probe);
        && |t| <= HopLimit()
        && (HopLimit() > 0 ==> |t| > 0)
        && (forall i :: 0 <= i < |t| ==> t[i] == HopAt(probe, i + 1))
        && (forall u :: 1 <= u < |t| ==> !Reached(probe, u))
        && (|t| > 0 ==> Reached(probe, |t|) || |t| == HopLimit())
    {
      TraceFromShape(probe, 1);
    }

    /** If the destination is first reached at TTL k, the result has exactly k entries. */
    lemma TraceStopsAtFirstReached(probe: Prober, k: int)
      requires 1 <= k <= maxHops
      requires Reached(probe, k)
      requires forall t :: 1 <= t < k ==> !Reached(probe, t)
      ensures |Trace(probe)| == k
    {
      TraceShape(probe);
    }

    /** If the destination is never reached, the result has exactly max_hops entries. */
    lemma TraceExhausted(probe: Prober)
      requires forall t :: 1 <= t <= maxHops ==> !Reached(probe, t)
      ensures |Trace(probe)| == HopLimit()
    {
      TraceShape(probe);
    }

    /** to_json: one record per entry, in order, numbered i + 1; an address that is not
        truthy becomes "" and every RTT slot is kept, None as null. */
    function ToJson(results: seq<Hop>, workerid: string, timestamp: string): (doc: JsonTrace)
      ensures doc.workerid == workerid && doc.timestamp == timestamp && doc.target == target
      ensures |doc.hops| == |results|
      ensures forall i :: 0 <= i < |results| ==>
        && doc.hops[i].id == i + 1
        && doc.hops[i].rtts == results[i].rtts
        && (doc.hops[i].ip == "" <==> !Present(results[i].ip))
        && (Present(results[i].ip) ==> doc.hops[i].ip == results[i].ip.value)
    {
      JsonTrace(workerid, timestamp, target,
        seq(|results|, i requires 0 <= i < |results| => JsonHop(i + 1, IpOr(results[i].ip, ""), results[i].rtts)))
    }

    /** Rendering what run returns, the record with id k describes the probes sent with
        TTL k: one slot per attempt and "" exactly when none of them was answered. */
    lemma JsonOfTrace(probe: Prober, workerid: string, timestamp: string)
      requires forall ttl: int, j: nat :: probe(ttl, j).Some? ==> probe(ttl, j).value.src != ""
      ensures var doc := ToJson(Trace(probe), workerid, timestamp);
        forall i :: 0 <= i < |doc.hops| ==>
          && doc.hops[i].id == i + 1
          && |doc.hops[i].rtts| == AttemptCount()
          && (forall j :: 0 <= j < AttemptCount() ==> doc.hops[i].rtts[j] == Slot(probe(i + 1, j)))
          && (doc.hops[i].ip == "" <==> Unanswered(probe, i + 1, AttemptCount()))
    {
      TraceShape(probe);
      var t := Trace(probe);
      forall i | 0 <= i < |t|
        ensures |t[i].rtts| == AttemptCount()
        ensures forall j :: 0 <= j < AttemptCount() ==> t[i].rtts[j] == Slot(probe(i + 1, j))
        ensures !Present(t[i].ip) <==> Unanswered(probe, i + 1, AttemptCount())
      {
        HopSlots(probe, i + 1, AttemptCount());
        HopIp(probe, i + 1, AttemptCount());
      }
    }

    /** The first line of to_standard's output. */
    function Header(workerid: string, timestamp: string): string {
      "Traceroute to (target: " + target + ", workerid: " + workerid + ", timestamp: " + timestamp + ")\n"
    }

    /** The whole text to_standard returns. */
    function StandardText(results: seq<Hop>, workerid: string, timestamp: string, show: real -> string): string {
      Header(workerid, timestamp) + LinesFrom(results, 1, show)
    }

    /** to_standard: the header line, then for each entry a line built from the hop number,
        the address or "*", and each RTT slot appended in turn. */
    method ToStandard(results: seq<Hop>, workerid: string, timestamp: string, show: real -> string)
      returns (output: string)
      ensures output == StandardText(results, workerid, timestamp, show)
    {
      output := Header(workerid, timestamp);
      assert results[0..] == results;
      var i := 0;
      while i < |results|
        invariant 0 <= i <= |results|
        invariant output + LinesFrom(results[i..], i + 1, show) == StandardText(results, workerid, timestamp, show)
      {
        var hop := results[i];
        var hopLine := BuildHopLine(i + 1, hop, show);
        assert LinesFrom(results[i..], i + 1, show) == (hopLine + "\n") + LinesFrom(results[i + 1..], i + 2, show) by {
          assert results[i..][1..] == results[i + 1..];
        }
        AppendAssoc(output, hopLine + "\n", LinesFrom(results[i + 1..], i + 2, show));
        output := output + (hopLine + "\n");
        i := i + 1;
      }
    }

    /** The text has one line for the header and one per entry, given that no string it
        embeds holds a newline. */
    lemma StandardLineCount(results: seq<Hop>, workerid: string, timestamp: string, show: real -> string)
      requires '\n' !in target && '\n' !in workerid && '\n' !in timestamp
      requires forall v :: '\n' !in show(v)
      requires forall i :: 0 <= i < |results| ==> results[i].ip.Some? ==> '\n' !in results[i].ip.value
      ensures Occurrences('\n', StandardText(results, workerid, timestamp, show)) == |results| + 1
    {
      var head := Header(workerid, timestamp);
      var body := "Traceroute to (target: " + target + ", workerid: " + workerid + ", timestamp: " + timestamp + ")";
      assert head == body + "\n";
      OccurrencesAbsent('\n', body);
      OccurrencesAppend('\n', body, "\n");
      OccurrencesAppend('\n', head, LinesFrom(results, 1, show));
      LinesFromCount(results, 1, show);
    }
  }

  /** Traceroute.__init__: the protocol is lower-cased and must then be "udp" or "icmp",
      otherwise ValueError is raised; the other arguments are stored as given. */
  function New(target: string, protocol: string := "icmp", maxHops: int := 30, timeout: real := 2.0, attempts: int := 3)
    : (r: Result<Traceroute, ValueError>)
    ensures r.Success? <==> Lower(protocol) == "udp" || Lower(protocol) == "icmp"
    ensures r.Failure? ==> r.error == ProtocolError
    ensures r.Success? ==> ProtocolName(r.value.protocol) == Lower(protocol)
    ensures r.Success? ==> r.value.target == target && r.value.maxHops == maxHops && r.value.timeout == timeout && r.value.attempts == attempts
  {
    var name := Lower(protocol);
    if name == "udp" then Success(Traceroute(target, Udp, maxHops, timeout, attempts))
    else if name == "icmp" then Success(Traceroute(target, Icmp, maxHops, timeout, attempts))
    else Failure(ProtocolError)
  }

  /** With only a target given, the constructor takes the defaults: ICMP, 30 hops, a 2-second
      timeout and 3 attempts per hop. */
  lemma NewDefaults(target: string)
    ensures New(target).Success?
    ensures New(target).value == Traceroute(target, Icmp, 30, 2.0, 3)
  {
  }

  /** Exactly the spellings of "udp" and "icmp" that differ only in letter case are accepted. */
  lemma {:induction false} NewAcceptsCaseVariants(target: string, protocol: string)
    ensures New(target, protocol).Success? <==>
      (|protocol| == 3 && forall i :: 0 <= i < 3 ==> LowerChar(protocol[i]) == "udp"[i]) ||
      (|protocol| == 4 && forall i :: 0 <= i < 4 ==> LowerChar(protocol[i]) == "icmp"[i])
  {
    var name := Lower(protocol);
    if |protocol| == 3 && forall i :: 0 <= i < 3 ==> LowerChar(protocol[i]) == "udp"[i] {
      assert name == "udp";
    }
    if |protocol| == 4 && forall i :: 0 <= i < 4 ==> LowerChar(protocol[i]) == "icmp"[i] {
      assert name == "icmp";
    }
  }
}
