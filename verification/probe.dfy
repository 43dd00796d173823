/** run_probe of app.py: four pings summarised into min/max/avg, the traceroute hop loop with
    its non-responding-gateway check, the standard-deviation guard, and the broad exception
    handler that swallows every error. The ping, traceroute, geolocation and database calls
    are inputs. */
module Probe {
  import opened Wrappers

  /** How many pings run_probe sends. */
  const PingCount := 4

  /** The outcome of the i-th ping3.ping call (0-based): Success(None) for a timeout or an
      error ping3 reports by returning None or False, Success(Some(delay)) for a reply, and
      Failure for an exception the call raises. */
  type Pinger = nat -> Result<Option<real>, PyError>

  /** The calls of the comprehension from call k on, made in order; the first call that
      raises ends it with that exception. */
  function PingsFrom(ping: Pinger, k: nat): (r: Result<seq<Option<real>>, PyError>)
    requires k <= PingCount
    ensures r.Success? <==> forall i :: k <= i < PingCount ==> ping(i).Success?
    ensures r.Success? ==> |r.value| == PingCount - k
    ensures r.Success? ==> forall i :: k <= i < PingCount ==> r.value[i - k] == ping(i).value
    ensures r.Failure? ==> exists i :: k <= i < PingCount && ping(i).Failure? && r.error == ping(i).error
                                       && forall j :: k <= j < i ==> ping(j).Success?
    decreases PingCount - k
  {
    if k == PingCount then Success([])
    else
      var first :- ping(k);
      var rest :- PingsFrom(ping, k + 1);
      Success([first] + rest)
  }

  /** The list comprehension that pings the host four times: the four results in call order,
      or the exception of the first call that raises. */
  function PingResults(ping: Pinger): (r: Result<seq<Option<real>>, PyError>)
    ensures r.Success? <==> forall i :: 0 <= i < PingCount ==> ping(i).Success?
    ensures r.Success? ==> |r.value| == PingCount && forall i :: 0 <= i < PingCount ==> r.value[i] == ping(i).value
    ensures r.Failure? ==> exists i :: 0 <= i < PingCount && ping(i).Failure? && r.error == ping(i).error
                                       && forall j :: 0 <= j < i ==> ping(j).Success?
  {
    PingsFrom(ping, 0)
  }

  /** Python truthiness of an optional number: None and 0.0 are both false. */
  predicate Truthy(x: Option<real>) {
    x.Some? && x.value != 0.0
  }

  /** filter(None, xs): the truthy elements of xs, in order. */
  function Filter(xs: seq<Option<real>>): (r: seq<real>)
    ensures |r| <= |xs|
    ensures forall v :: v in r ==> v != 0.0
  {
    if xs == [] then [] else (if Truthy(xs[0]) then [xs[0].value] else []) + Filter(xs[1..])
  }

  /** A value survives the filter exactly when it is present and non-zero. */
  lemma {:induction false} FilterMembers(xs: seq<Option<real>>, v: real)
    ensures v in Filter(xs) <==> Some(v) in xs && v != 0.0
  {
    if xs != [] {
      FilterMembers(xs[1..], v);
      assert xs == [xs[0]] + xs[1..];
    }
  }

  /** The filter keeps order: filtering a concatenation concatenates the filtered parts. */
  lemma {:induction false} FilterAppend(a: seq<Option<real>>, b: seq<Option<real>>)
    ensures Filter(a + b) == Filter(a) + Filter(b)
  {
    if a == [] {
      assert a + b == b;
    } else {
      var head: seq<real> := if Truthy(a[0]) then [a[0].value] else [];
      assert (a + b)[0] == a[0];
      assert (a + b)[1..] == a[1..] + b;
      FilterAppend(a[1..], b);
      assert Filter(a + b) == head + (Filter(a[1..]) + Filter(b));
      assert Filter(a) == head + Filter(a[1..]);
    }
  }

  /** The valid results: at most four, and never 0; an exception from a ping is raised. */
  function ValidResults(ping: Pinger): (r: Result<seq<real>, PyError>)
    ensures r.Success? <==> PingResults(ping).Success?
    ensures r.Failure? ==> r.error == PingResults(ping).error
    ensures r.Success? ==> |r.value| <= PingCount && forall v :: v in r.value ==> v != 0.0
  {
    var results :- PingResults(ping);
    Success(Filter(results))
  }

  /** A value is among the valid results exactly when some ping returned it and it is not 0:
      timeouts and RTTs of exactly 0 are both dropped. */
  lemma ValidResultsMembers(ping: Pinger, v: real)
    requires ValidResults(ping).Success?
    ensures v in ValidResults(ping).value <==> v != 0.0 && exists i :: 0 <= i < PingCount && ping(i) == Success(Some(v))
  {
    var pings := PingResults(ping).value;
    FilterMembers(pings, v);
    if Some(v) in pings {
      var i :| 0 <= i < |pings| && pings[i] == Some(v);
      assert ping(i) == Success(Some(v));
    }
  }

  function Min(s: seq<real>): (m: real)
    requires |s| > 0
    ensures m in s
    ensures forall x :: x in s ==> m <= x
  {
    if |s| == 1 then s[0]
    else
      assert s == [s[0]] + s[1..];
      var rest := Min(s[1..]);
      if s[0] <= rest then s[0] else rest
  }

  function Max(s: seq<real>): (m: real)
    requires |s| > 0
    ensures m in s
    ensures forall x :: x in s ==> x <= m
  {
    if |s| == 1 then s[0]
    else
      assert s == [s[0]] + s[1..];
      var rest := Max(s[1..]);
      if s[0] >= rest then s[0] else rest
  }

  function Sum(s: seq<real>): real {
    if s == [] then 0.0 else s[0] + Sum(s[1..])
  }

  lemma {:induction false} SumBounds(s: seq<real>, lo: real, hi: real)
    requires forall x :: x in s ==> lo <= x <= hi
    ensures |s| as real * lo <= Sum(s) <= |s| as real * hi
  {
    if s != [] {
      var rest := s[1..];
      assert forall x :: x in rest ==> x in s;
      SumBounds(rest, lo, hi);
      var n := |rest| as real;
      assert |s| as real * lo == n * lo + lo;
      assert |s| as real * hi == n * hi + hi;
      assert s[0] in s;
      assert Sum(s) == s[0] + Sum(rest);
    }
  }

  /** A mean lies between the bounds its summands lie between. */
  lemma MeanBounds(sum: real, n: real, lo: real, hi: real)
    requires n > 0.0
    requires n * lo <= sum <= n * hi
    ensures lo <= sum / n <= hi
    ensures sum / n * n == sum
  {
    assert sum / n * n == sum;
  }

  /** The host dict built from the valid results. */
  datatype Host = Host(address: string, minRtt: Option<real>, maxRtt: Option<real>, avgRtt: Option<real>)

  /** min_rtt, max_rtt and avg_rtt: all None when no result is valid; otherwise the least and
      the greatest valid result and sum / len, which lies between them. */
  function Summarize(address: string, valid: seq<real>): (h: Host)
    ensures h.address == address
    ensures h.minRtt.None? <==> valid == []
    ensures h.maxRtt.None? <==> valid == []
    ensures h.avgRtt.None? <==> valid == []
    ensures valid != [] ==> h.minRtt.value in valid && forall x :: x in valid ==> h.minRtt.value <= x
    ensures valid != [] ==> h.maxRtt.value in valid && forall x :: x in valid ==> x <= h.maxRtt.value
    ensures valid != [] ==> h.avgRtt.value * |valid| as real == Sum(valid)
    ensures valid != [] ==> h.minRtt.value <= h.avgRtt.value <= h.maxRtt.value
  {
    if valid == [] then Host(address, None, None, None)
    else
      var lo := Min(valid);
      var hi := Max(valid);
      var n := |valid| as real;
      var avg := Sum(valid) / n;
      SumBounds(valid, lo, hi);
      MeanBounds(Sum(valid), n, lo, hi);
      Host(address, Some(lo), Some(hi), Some(avg))
  }

  /** The values the standard deviation is taken over: the truthy ones among min, max, avg. */
  function SummaryValues(host: Host): seq<real> {
    Filter([host.minRtt, host.maxRtt, host.avgRtt])
  }

  /** rtt_std_dev: pstdev of the summary values when at least two survive, else 0.0. */
  function StdDev(host: Host, pstdev: seq<real> -> real): (sd: real)
    ensures |SummaryValues(host)| < 2 ==> sd == 0.0
    ensures |SummaryValues(host)| >= 2 ==> sd == pstdev(SummaryValues(host))
  {
    var values := SummaryValues(host);
    if |values| >= 2 then pstdev(values) else 0.0
  }

  /** On a summary of valid results the guard passes exactly when some result was valid, and
      pstdev then sees min, max and (unless it is 0) avg, not the samples; one sample v gives
      [v, v, v]. */
  lemma StdDevOnSummary(address: string, valid: seq<real>, pstdev: seq<real> -> real)
    requires forall v :: v in valid ==> v != 0.0
    ensures var h := Summarize(address, valid);
      && (valid == [] ==> StdDev(h, pstdev) == 0.0)
      && (valid != [] ==>
            && |SummaryValues(h)| >= 2
            && SummaryValues(h) == [h.minRtt.value, h.maxRtt.value] + (if h.avgRtt.value != 0.0 then [h.avgRtt.value] else []))
      && (|valid| == 1 ==> SummaryValues(h) == [valid[0], valid[0], valid[0]])
  {
    var h := Summarize(address, valid);
    var xs := [h.minRtt, h.maxRtt, h.avgRtt];
    if valid == [] {
      assert xs[1..][1..][1..] == [];
      assert Filter(xs) == [];
    } else {
      assert xs == [h.minRtt] + [h.maxRtt] + [h.avgRtt];
      FilterAppend([h.minRtt] + [h.maxRtt], [h.avgRtt]);
      FilterAppend([h.minRtt], [h.maxRtt]);
      assert Filter([h.minRtt]) == [h.minRtt.value];
      assert Filter([h.maxRtt]) == [h.maxRtt.value];
      if |valid| == 1 {
        assert valid == [valid[0]];
        assert Sum(valid) == valid[0];
      }
    }
  }

  /** One hop as icmplib's traceroute reports it. */
  datatype IcmpHop = IcmpHop(distance: int, address: string, avgRtt: real, packetsSent: int, packetsReceived: int)

  /** One element of traceroute_data. */
  datatype HopRow = HopRow(distance: real, address: string, avgRtt: real, packetLoss: real,
                           packetsSent: real, packetsReceived: real)

  function Row(hop: IcmpHop, packetLoss: real): HopRow {
    HopRow(hop.distance as real, hop.address, hop.avgRtt, packetLoss, hop.packetsSent as real, hop.packetsReceived as real)
  }

  function Rows(hops: seq<IcmpHop>, packetLoss: real): (rows: seq<HopRow>)
    ensures |rows| == |hops|
  {
    seq(|hops|, i requires 0 <= i < |hops| => Row(hops[i], packetLoss))
  }

  /** Whether the gateway warning is printed at each hop, scanning with last_distance starting
      at last and becoming each hop's distance in turn. */
  function GapScan(hops: seq<IcmpHop>, last: int): seq<bool> {
    if hops == [] then []
    else [last + 1 != hops[0].distance] + GapScan(hops[1..], hops[0].distance)
  }

  /** The distance last_distance holds when hop i is checked. */
  function PreviousDistance(hops: seq<IcmpHop>, last: int, i: nat): int
    requires i < |hops|
  {
    if i == 0 then last else hops[i - 1].distance
  }

  /** A hop is flagged exactly when its distance is not the previous hop's plus one (the
      first hop's previous distance being the start value), whether or not an earlier hop
      was flagged. */
  lemma {:induction false} GapScanExact(hops: seq<IcmpHop>, last: int)
    ensures |GapScan(hops, last)| == |hops|
    ensures forall i :: 0 <= i < |hops| ==>
      (GapScan(hops, last)[i] <==> hops[i].distance != PreviousDistance(hops, last, i) + 1)
  {
    if hops != [] {
      GapScanExact(hops[1..], hops[0].distance);
      forall i | 1 <= i < |hops|
        ensures GapScan(hops, last)[i] == GapScan(hops[1..], hops[0].distance)[i - 1]
        ensures PreviousDistance(hops, last, i) == PreviousDistance(hops[1..], hops[0].distance, i - 1)
      {
      }
    }
  }

  /** Scanning from hop i: its own warning, then the scan of the rest from its distance. */
  lemma GapScanStep(hops: seq<IcmpHop>, i: nat, last: int)
    requires i < |hops|
    ensures GapScan(hops[i..], last) == [last + 1 != hops[i].distance] + GapScan(hops[i + 1..], hops[i].distance)
  {
    assert hops[i..][1..] == hops[i + 1..];
  }

  /** The errors the try block can raise; the handler catches them all. */
  datatype PyError =
    | AttributeError(typeName: string, attribute: string)
    | External(message: string)

  /** The value of `host.<name>`, or the error the lookup raises. */
  type AttributeLookup = string -> Result<real, PyError>

  /** Attribute lookup on the host dict of app.py:36-43: a dict keeps its entries under keys,
      not attributes, so each of the names run_probe asks for raises AttributeError. */
  function DictAttribute(name: string): Result<real, PyError> {
    Failure(AttributeError("dict", name))
  }

  /** The host fields of the stored record. */
  datatype HostData = HostData(address: string, rttMin: Option<real>, rttMax: Option<real>, rttAvg: Option<real>,
                               rttStdDev: real, packetLoss: real, jitter: real, packetsSent: real, packetsReceived: real)

  /** The dict literal host_data, built left to right: the first attribute that fails raises. */
  function HostRecord(host: Host, sd: real, attr: AttributeLookup): (r: Result<HostData, PyError>)
    ensures r.Success? <==>
      attr("packet_loss").Success? && attr("jitter").Success? && attr("packets_sent").Success? && attr("packets_received").Success?
    ensures attr("packet_loss").Failure? ==> r == Failure(attr("packet_loss").error)
  {
    var packetLoss :- attr("packet_loss");
    var jitter :- attr("jitter");
    var sent :- attr("packets_sent");
    var received :- attr("packets_received");
    Success(HostData(host.address, host.minRtt, host.maxRtt, host.avgRtt, sd, packetLoss, jitter, sent, received))
  }

  /** What get_probe_location returns. */
  datatype Location = Location(latitude: string, longitude: string, city: string, regionName: string, countryName: string)

  /** The document passed to insert_one. */
  datatype ProbeRecord = ProbeRecord(host: HostData, traceroute: seq<HopRow>, location: Location)

  /** How the try block ended: insert_one was called with the record, or an exception was
      caught and printed. */
  datatype Status = Stored(record: ProbeRecord) | Swallowed(error: PyError)

  /** What one call of run_probe does: the gateway warnings printed, hop by hop, and how it
      ended. It returns normally in both cases. */
  datatype ProbeRun = ProbeRun(gapWarnings: seq<bool>, status: Status)

  /** How the hop loop ends: with every row appended, or with the exception raised while
      building a row; either way with the gateway warnings printed so far. */
  datatype LoopEnd = Completed(rows: seq<HopRow>, warnings: seq<bool>) | Raised(warnings: seq<bool>, error: PyError)

  /** The hop loop's outcome: the first row already needs `host.packet_loss`. */
  function HopLoopSpec(hops: seq<IcmpHop>, attr: AttributeLookup): LoopEnd {
    if hops == [] then Completed([], [])
    else if attr("packet_loss").Failure? then Raised([], attr("packet_loss").error)
    else Completed(Rows(hops, attr("packet_loss").value), GapScan(hops, 0))
  }

  /** The hop loop of run_probe: append one row per hop, print the gateway warning when the
      distance does not follow the last one, and remember this hop's distance. */
  method HopLoop(hops: seq<IcmpHop>, attr: AttributeLookup) returns (end: LoopEnd)
    ensures end == HopLoopSpec(hops, attr)
  {
    var tracerouteData: seq<HopRow> := [];
    var warnings: seq<bool> := [];
    var lastDistance := 0;
    var i := 0;
    while i < |hops|
      invariant 0 <= i <= |hops|
      invariant i > 0 ==> attr("packet_loss").Success?
      invariant i == 0 ==> warnings == [] && lastDistance == 0
      invariant |tracerouteData| == i
      invariant forall k :: 0 <= k < i ==> tracerouteData[k] == Row(hops[k], attr("packet_loss").value)
      invariant warnings + GapScan(hops[i..], lastDistance) == GapScan(hops, 0)
    {
      var hop := hops[i];
      var packetLoss := attr("packet_loss");
      if packetLoss.Failure? {
        return Raised(warnings, packetLoss.error);
      }
      tracerouteData := tracerouteData + [Row(hop, packetLoss.value)];
      GapScanStep(hops, i, lastDistance);
      ghost var before := warnings;
      if lastDistance + 1 != hop.distance {
        warnings := warnings + [true];
      } else {
        warnings := warnings + [false];
      }
      assert warnings == before + [lastDistance + 1 != hop.distance];
      AppendAssoc(before, [lastDistance + 1 != hop.distance], GapScan(hops[i + 1..], hop.distance));
      lastDistance := hop.distance;
      i := i + 1;
    }
    assert hops[i..] == [];
    end := Completed(tracerouteData, warnings);
  }

  /** run_probe, as a function of its inputs and of how `host.<name>` is looked up. */
  function ProbeSpec(address: string, ping: Pinger, traceroute: Result<seq<IcmpHop>, PyError>, attr: AttributeLookup,
                     pstdev: seq<real> -> real, location: Result<Location, PyError>): ProbeRun
  {
    match ValidResults(ping)
    case Failure(e) => ProbeRun([], Swallowed(e))
    case Success(valid) =>
      var host := Summarize(address, valid);
      match traceroute
      case Failure(e) => ProbeRun([], Swallowed(e))
      case Success(hops) =>
        match HopLoopSpec(hops, attr)
        case Raised(warnings, e) => ProbeRun(warnings, Swallowed(e))
        case Completed(rows, warnings) =>
          match HostRecord(host, StdDev(host, pstdev), attr)
          case Failure(e) => ProbeRun(warnings, Swallowed(e))
          case Success(data) =>
            match location
            case Failure(e) => ProbeRun(warnings, Swallowed(e))
            case Success(loc) => ProbeRun(warnings, Stored(ProbeRecord(data, rows, loc)))
  }

  /** run_probe with the lookup of `host.<name>` as a parameter: the summary, the hop loop,
      the standard deviation, the host record, the location, then the hand-off to
      insert_one; an exception anywhere ends the try block and is printed. */
  method RunProbeWith(address: string, ping: Pinger, traceroute: Result<seq<IcmpHop>, PyError>, attr: AttributeLookup,
                      pstdev: seq<real> -> real, location: Result<Location, PyError>)
    returns (run: ProbeRun)
    ensures run == ProbeSpec(address, ping, traceroute, attr, pstdev, location)
  {
    var valid := ValidResults(ping);
    if valid.Failure? {
      return ProbeRun([], Swallowed(valid.error));
    }
    var host := Summarize(address, valid.value);
    if traceroute.Failure? {
      return ProbeRun([], Swallowed(traceroute.error));
    }
    var end := HopLoop(traceroute.value, attr);
    if end.Raised? {
      return ProbeRun(end.warnings, Swallowed(end.error));
    }
    var sd := StdDev(host, pstdev);
    var hostData := HostRecord(host, sd, attr);
    if hostData.Failure? {
      return ProbeRun(end.warnings, Swallowed(hostData.error));
    }
    if location.Failure? {
      return ProbeRun(end.warnings, Swallowed(location.error));
    }
    run := ProbeRun(end.warnings, Stored(ProbeRecord(hostData.value, end.rows, location.value)));
  }

  /** run_probe as written: `host` is a dict, so `host.packet_loss` raises AttributeError,
      at the first hop or, with no hops, when host_data is built. The handler swallows it:
      the call returns normally, prints no gateway warning, and never reaches insert_one. */
  method RunProbe(address: string, ping: Pinger, traceroute: Result<seq<IcmpHop>, PyError>,
                  pstdev: seq<real> -> real, location: Result<Location, PyError>)
    returns (run: ProbeRun)
    ensures run.status.Swallowed?
    ensures run.gapWarnings == []
    ensures PingResults(ping).Failure? ==> run.status.error == PingResults(ping).error
    ensures PingResults(ping).Success? && traceroute.Failure? ==> run.status.error == traceroute.error
    ensures PingResults(ping).Success? && traceroute.Success? ==> run.status.error == AttributeError("dict", "packet_loss")
  {
    run := RunProbeWith(address, ping, traceroute, DictAttribute, pstdev, location);
  }

  /** The statistics an icmplib Host object carries under the attribute names run_probe uses. */
  datatype HostStats = HostStats(packetLoss: real, jitter: real, packetsSent: int, packetsReceived: int)

  /** Attribute lookup on such an object. */
  function StatsAttribute(stats: HostStats, name: string): Result<real, PyError> {
    if name == "packet_loss" then Success(stats.packetLoss)
    else if name == "jitter" then Success(stats.jitter)
    else if name == "packets_sent" then Success(stats.packetsSent as real)
    else if name == "packets_received" then Success(stats.packetsReceived as real)
    else Failure(AttributeError("Host", name))
  }

  /** run_probe with `host` an object that has the four statistics: when the traceroute and
      the location lookup succeed, the record is stored, its host part is the summary of the
      valid pings, its traceroute part has one row per hop, and a warning is printed at
      exactly the hops whose distance is not the previous one's plus one. */
  method RunProbeCorrected(address: string, ping: Pinger, hops: seq<IcmpHop>, stats: HostStats,
                           pstdev: seq<real> -> real, location: Location)
    returns (run: ProbeRun)
    ensures PingResults(ping).Failure? ==> run == ProbeRun([], Swallowed(PingResults(ping).error))
    ensures PingResults(ping).Success? ==> run.status.Stored?
    ensures PingResults(ping).Success? ==> var h := Summarize(address, ValidResults(ping).value);
      && run.status.record.host == HostData(address, h.minRtt, h.maxRtt, h.avgRtt, StdDev(h, pstdev),
                                            stats.packetLoss, stats.jitter, stats.packetsSent as real, stats.packetsReceived as real)
    ensures PingResults(ping).Success? ==> run.status.record.location == location
    ensures PingResults(ping).Success? ==> |run.status.record.traceroute| == |hops|
    ensures PingResults(ping).Success? ==>
      forall i :: 0 <= i < |hops| ==> run.status.record.traceroute[i] == Row(hops[i], stats.packetLoss)
    ensures PingResults(ping).Success? ==> |run.gapWarnings| == |hops|
    ensures PingResults(ping).Success? ==> forall i :: 0 <= i < |hops| ==>
      (run.gapWarnings[i] <==> hops[i].distance != PreviousDistance(hops, 0, i) + 1)
  {
    run := RunProbeWith(address, ping, Success(hops), name => StatsAttribute(stats, name), pstdev, Success(location));
    GapScanExact(hops, 0);
  }
}
