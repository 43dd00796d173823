# geoquery path discovery and host latency summary, in Dafny

This project models the measuring core of geoquery, a web service that pings a host and
traces the route to it. The model has two parts.

- **Traceroute** (`traceroute.dfy`, for `traceroute.py`) covers three things:
  - The constructor. It lower-cases the protocol and rejects anything but `udp` and `icmp` with a `ValueError`.
  - `run`, the hop-by-hop discovery loop. For each TTL from 1 to `max_hops` it sends `attempts` probes and builds one hop record: an address plus one RTT slot per attempt. It stops after the first hop at which a probe got the protocol's destination-reached answer: an ICMP port-unreachable (type 3, code 3) for UDP, a reply of type 0 for ICMP.
  - The two renderers, `to_json` and `to_standard`. Both number the hops and put placeholders where data is missing.
- **Probe** (`probe.dfy`, for `run_probe` in `app.py`) covers these steps:
  - Four pings, filtered by Python truthiness.
  - The min/max/average summary.
  - The hop loop, with its "some gateways are not responding" check.
  - The guard that makes the standard deviation 0.0 when fewer than two summary values survive.
  - The exception handler that swallows every error.

  As written, `host` is a dict, so `host.packet_loss` always raises `AttributeError`. The handler swallows that error, so `insert_one` is never reached. The model proves this (see "Findings").

Shared `Option` and `Result` values live in `wrappers.dfy`.

The I/O is replaced by inputs:
- **Probes.** Each probe that scapy's `sr` sends becomes a `Prober`, a function from (TTL, 0-based attempt) to an optional `Reply`. A `Reply` carries:
  - the source address;
  - the ICMP layer, if there is one;
  - the reply's `type` field;
  - the RTT.
- **Pings.** Each `ping3.ping` call becomes a `Pinger`, a function from call number to the call's outcome. The outcome is an optional delay, or the exception the call raises.
- **The other collaborators.** The icmplib traceroute result, `get_probe_location` and `statistics.pstdev` are parameters. Only their values or the errors they raise matter.
- **Text formatting.** `round(rtt, 2)` as rendered text is a parameter `show` of the text renderer.

A Traceroute object's fields are set once in `__init__` and never changed. So it is modelled as a datatype value, with `run` and the renderers as its members.

Behaviours of the code the model keeps:
- A hop's address comes from the **last** answered attempt, because every answer overwrites `hop_result["ip"]`. It does not come from the first.
- An RTT of exactly 0 is dropped as invalid, like a timeout.
- The standard deviation is taken over the truthy values among min, max and avg, not over the samples.
- A path result carries no "reached" flag.
- Packet loss, jitter and the sent/received counts are read as attributes of `host`. They are not computed.
- Every exception raised in run_probe is caught and printed, not returned to the caller. This includes one raised by a ping.

## Model

| member | source | states |
|---|---|---|
| Traceroute.New | traceroute.py:11-19 | The constructor succeeds exactly when the lower-cased protocol is "udp" or "icmp". It then stores that protocol and the other arguments as given. Otherwise it fails with the ValueError "Protocol must be either 'udp' or 'icmp'". The parameters have the source's defaults: "icmp", 30, 2 and 3. |
| Traceroute.NewDefaults | traceroute.py:11-19 | Given only a target, the constructor succeeds with ICMP, 30 hops, a timeout of 2 and 3 attempts. |
| Traceroute.NewAcceptsCaseVariants | traceroute.py:13-19 | The accepted protocol strings are exactly the spellings of "udp" and "icmp" that differ only in letter case. |
| Traceroute.ReachedRule | traceroute.py:42-50 | Under UDP a reply counts as destination-reached exactly when it has an ICMP layer with type 3 and code 3. Under ICMP it counts exactly when the reply's type is 0. Every other reply is an intermediate hop. |
| Traceroute.HopSlots | traceroute.py:27-40 | A hop always has exactly one RTT slot per attempt, in attempt order: None for an unanswered attempt, the measured RTT otherwise. This holds even when an earlier attempt already reached the destination. |
| Traceroute.HopIp | traceroute.py:27-39 | A hop's address is None exactly when no attempt was answered. Otherwise it is the source of the last answered attempt. |
| Traceroute.Traceroute.ReachedOnReplyFields | traceroute.py:28-55 | The TTL loop ends at a TTL exactly when some attempt there was answered by a reply that has an ICMP layer of type 3 and code 3 (under UDP) or has type 0 (under ICMP). |
| Traceroute.ReachedWithinIff | traceroute.py:28-50 | The destination-reached flag of a TTL is set exactly when some attempt at that TTL got a destination-reached answer, in any position. |
| Traceroute.Traceroute.ProbeHop | traceroute.py:27-50 | The inner attempt loop builds exactly the hop record `HopAt` defines for that TTL. It raises the destination-reached flag exactly when `Reached` holds. |
| Traceroute.Traceroute.Run | traceroute.py:21-57 | The nested TTL/attempt loop returns exactly the hop list `Trace` defines. |
| Traceroute.Traceroute.TraceShape | traceroute.py:26-55 | The result has at most max_hops entries, and at least one when max_hops > 0. Entry i is the hop built at TTL i + 1. No entry but the last reached the destination. The last entry either reached it or is the hop at TTL max_hops. |
| Traceroute.Traceroute.TraceStopsAtFirstReached | traceroute.py:52-55 | If the destination is first reached at TTL k, the result has exactly k entries. |
| Traceroute.Traceroute.TraceExhausted | traceroute.py:26-57 | If the destination is never reached, the result has exactly max_hops entries. |
| Traceroute.Traceroute.ToJson | traceroute.py:59-80 | One record per result entry, in order, numbered i + 1. An address that is not truthy becomes "". Every RTT slot is kept, with None as null. The document carries the worker id, the timestamp and the target. |
| Traceroute.Traceroute.JsonOfTrace | traceroute.py:21-76 | Rendering run's result, the record with id k describes TTL k. It has one slot per attempt, each being that attempt's RTT or null. Its ip is "" exactly when no attempt at TTL k was answered. |
| Traceroute.Traceroute.ToStandard | traceroute.py:82-94 | The loops that build `hop_line` slot by slot and append each line to `output` produce exactly `StandardText`. That text is the header line, then per entry: its number i + 1, the address or "*", and per slot "  <rtt> ms" or "  *". |
| Traceroute.BuildHopLine | traceroute.py:87-92 | Appending the slots one by one to the number and the address yields exactly `HopLine`. |
| Traceroute.Traceroute.StandardLineCount | traceroute.py:85-93 | The text has exactly one line more than there are entries, provided no embedded string contains a newline. |
| Traceroute.SilentHopLine | traceroute.py:87-92 | A hop with no answer renders as its number, a "*" for the address and one "  *" per attempt. |
| Traceroute.Decimal | traceroute.py:87 | The hop number is written as a non-empty string of decimal digits with no leading zero. |
| Traceroute.DecimalRoundTrip | traceroute.py:87 | Reading the written hop number back gives the number. |
| Probe.PingsFrom | app.py:33 | The pings from call k on are made in order. They give one result per call exactly when no call raises. Otherwise the first call that raises supplies the exception. |
| Probe.PingResults | app.py:33 | Exactly four pings are issued, in call order. The list holds their four results exactly when none raises. Otherwise it is the exception of the first call that raised. |
| Probe.Filter | app.py:34 | `filter(None, …)` keeps no more elements than it is given, and none of them is 0. |
| Probe.FilterMembers | app.py:34 | A value survives the filter exactly when it is present (not None) and non-zero. |
| Probe.FilterAppend | app.py:34 | The filter keeps order: filtering a concatenation concatenates the filtered parts. |
| Probe.ValidResults | app.py:33-34 | The valid results exist exactly when no ping raised, and otherwise the ping's exception is raised. There are at most four of them, and none is 0. |
| Probe.ValidResultsMembers | app.py:33-34 | When no ping raised, a value is valid exactly when some ping returned it and it is not 0. Both a timeout and an RTT of exactly 0 are dropped. |
| Probe.Min | app.py:38 | `min` returns an element of the list that no element is below. |
| Probe.Max | app.py:39 | `max` returns an element of the list that no element is above. |
| Probe.SumBounds | app.py:40 | A sum of n values between lo and hi lies between n·lo and n·hi. |
| Probe.Summarize | app.py:36-43 | min_rtt, max_rtt and avg_rtt are each None exactly when no result is valid. Otherwise min and max are the least and greatest valid results, avg · len = sum, and min ≤ avg ≤ max. |
| Probe.StdDev | app.py:70-73 | rtt_std_dev is 0.0 when fewer than two of the truthy values among min, max and avg remain. Otherwise it is pstdev of those values. |
| Probe.StdDevOnSummary | app.py:36-73 | On a summary of valid results, the guard gives 0.0 exactly when no ping was valid. Otherwise pstdev sees min, max and avg (avg only if it is not 0), not the raw samples. A single sample v gives [v, v, v]. |
| Probe.GapScanExact | app.py:47-68 | The gateway warning is printed at a hop exactly when its distance is not the previous distance + 1. The previous distance starts at 0 and then is always the preceding hop's distance, flagged or not. |
| Probe.HopLoop | app.py:46-68 | The hop loop either raises at the first hop, when `host.packet_loss` fails, or appends one row per hop in order and prints the warnings `GapScan` gives. |
| Probe.HostRecord | app.py:75-85 | The host_data dict is built only when all four attribute lookups succeed. A failing `host.packet_loss` is the error raised. |
| Probe.RunProbeWith | app.py:31-99 | run_probe, for any attribute lookup on `host`, ends exactly as `ProbeSpec` defines. Either the record reaches insert_one, or the first exception is caught and printed. The call always returns normally. |
| Probe.RunProbe | app.py:31-99 | As written, with `host` a dict: run_probe never reaches insert_one. It prints no gateway warning. The caught error is decided in source order. It is the exception of a ping that raised, if any. Otherwise it is the traceroute's own error. Otherwise it is AttributeError for `packet_loss`, raised at app.py:55 when there are hops and at app.py:81 when there are none. |
| Probe.RunProbeCorrected | app.py:31-99 | With `host` an object that has the four statistics, and with the traceroute and location lookups succeeding: a ping that raises ends the call with that exception and no warnings. When no ping raises, the record is stored. Its host part is the summary of the valid pings plus the guarded standard deviation and the statistics. Its traceroute part has one row per hop, in order. A gateway warning is printed at exactly the hops whose distance breaks the sequence. |

## Left out

- Packet construction and the raw-socket `sr` call (traceroute.py:4, 24, 31-32) are foreign I/O. They are replaced by the `Prober` input. A reply's `type` field is taken as always present, since the replies matched to ICMP probes are ICMP packets.
- Traceroute.Traceroute.Run: an exception raised by `sr` (traceroute.py:32), for example for lack of raw-socket permission, propagates out of `run`. The `Prober` input always answers, so the model's `Run` always returns a hop list.
- The RTT computation from scapy timestamps (traceroute.py:38) is float timing. The RTT is an opaque input value of type `real`.
- `round(rtt, 2)` (traceroute.py:72, 90) is float rounding. JSON keeps the RTT as given, and text output uses the `show` parameter.
- The `datetime.utcnow()` timestamps (traceroute.py:60, 83) come from the wall clock, so they are parameters.
- `json.dumps` with indentation (traceroute.py:80) is library formatting. `ToJson` returns the document as a value.
- The `__main__` block of traceroute.py (traceroute.py:97-129) is argv parsing, `sys.exit` and logging.
- Traceroute.Lower: `str.lower` is modelled on ASCII letters only. Only ASCII letters lower-case to the letters of "udp" and "icmp", so the accept/reject verdict is unchanged.
- The Flask routes, the MongoDB client and `get_probe_location` in app.py are web and database glue. The location is an input, and the database write is the `Stored` outcome.
- The `ping3` and `icmplib` calls are network I/O. Their results are inputs, and ping3's `False` (error) is folded into None, which is equally falsy.
- `statistics.pstdev` needs a square root over floats, so it is a parameter. The `float(...)` conversions are the identity on `real`.
- The debug print of `traceroute_data` (app.py:60-62) and the text of the printed messages are console output. Only whether each gateway warning is printed, and which error is caught, are modelled.
- Probe.DictAttribute: it answers AttributeError for every name. It does not model dict's own method names, which run_probe never asks for.
- An exception raised by `insert_one` itself would be swallowed too. The database is not part of this model.
- test.py and sqstest.py are scripts around ping3 and an SQS queue lookup. They are not part of this model.

## Findings

| source | as written | input that shows it | evidently intended | confidence | as-written member | corrected member |
|---|---|---|---|---|---|---|
| app.py:55, app.py:81 | `host` is the dict built at app.py:36-43, and run_probe reads `host.packet_loss`, `host.jitter`, `host.packets_sent` and `host.packets_received` as attributes. The first of these raises AttributeError, app.py:98-99 swallows it, and `insert_one` (app.py:95) is never executed. | Any address whose traceroute succeeds, for example a reachable host with four answered pings and any hop list | These statistics were meant to come from an object that has them, such as icmplib's Host, so that the record gets stored | high, not executed | Probe.RunProbe | Probe.RunProbeCorrected |
