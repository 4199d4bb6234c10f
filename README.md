# NETSCOPE traffic scoring, modelled in Dafny

NETSCOPE audits a network capture. The dissector turns the capture into a list of packet trees; the
analyser walks that list once, infers each packet's protocol and service, lowers a security score for
clear-text HTTP, clear-text credentials and suspicious TLS handshakes, records the devices it sees and
the destination ports each (source, destination) pair touched, then flags port scans, clamps the score
and assembles a report. Beside it sit a TLS engine (server name, JA3-like client signature and its
hash, a self-signed certificate heuristic, a one-entry signature denylist), a SOC connector (CEF lines
or a JSON document, and the headers of the post), and a threat-intelligence engine (MISP look-ups of
public addresses and domain names).

The project models both versions of the analyser (the current one with fingerprinting, TLS analysis
and scan detection, and the first one with its domain-label fallback and its 45-point "kill switch"),
the TLS engine, the SOC connector and the threat-intelligence engine.

Modules, one per source file, plus two shared ones:

- `Text` (text.dfy): ASCII case mapping, substring search, split and join with their round trip,
  character replacement, decimal rendering of integers.
- `PyValues` (values.dfy): the dissected tree as values — a string, a list, or a dictionary kept as
  its entries in insertion order — with Python's truthiness, `dict.get`, `in`, `len` and `str()`.
- `ServiceNames` (service_names.dfy): the keyword registry both analysers search.
- `Analyzer` (analyzer.dfy): `NETSCOPE/NETSCOPE/analyzer.py`.
- `LegacyAnalyzer` (legacy_analyzer.dfy): `NETSCOPE/analyzer.py`.
- `Tls` (tls.dfy): `NETSCOPE/NETSCOPE/tls_engine.py`.
- `Soc` (soc.dfy): `NETSCOPE/NETSCOPE/soc_engine.py`.
- `ThreatIntel` (threat_intel.dfy): `NETSCOPE/NETSCOPE/threat_intel.py`.

How the model is built:

- The score is kept in half-points, starting at 200, so the 0.5-point HTTP penalty stays an integer:
  HTTP costs 1, a credential 10, a suspicious TLS result 20 and a port scan 50. `int(score)` is
  truncation toward zero of half that number.
- The loops that build the analysis (the packet loop, the port-scan loop, the kill-switch flag
  loop, the CEF event loop and the two MISP search loops) are methods with a `for` loop whose
  invariant ties their state to a specification function. `Analyzer.Step` and `LegacyAnalyzer.Step`
  give one packet; `Run` folds them over the capture. The properties are lemmas about those
  functions.
- The search loops that stop at their first hit are recursive functions, each characterised by its
  contract: the DNS `queries.items()` loops (`Analyzer.DnsQueryName`, `LegacyAnalyzer.QueryName`)
  and the keyword registry loop (`ServiceNames.FirstKeyword`).
- An exception is a `Result` that is `Raised`, with one exception. The scan-tracker statement of the
  current analyser raises on a non-string address, and `Analyzer.Tracked` gives `None` for that
  case. Either way the specification function keeps exactly the effects of the statements before
  the raising one.
- The MAC cache and the lookup instance are the fields of the class `Analyzer.VendorCache`. The TLS
  engine and the threat-intelligence engine are classes with the source's fields.
- Foreign calls are function-typed parameters:
  - the MAC vendor lookup;
  - `hashlib.md5(...).hexdigest()`;
  - the clocks (timestamp formatting, current time);
  - the MISP client constructor and its `search`;
  - `requests.post`, which yields a status code or nothing when it raises.

Where the project's written description and the code disagree, the model follows the code:

- In the current analyser, an exception raised by the scan-tracker statement comes after the HTTP
  penalty and the credential alert. Both are kept, although the packet gets no count and no row
  (`Analyzer.LateRaiseKeepsPenalty`). Only the first version is all-or-nothing
  (`LegacyAnalyzer.StepAtomic`).
- The current analyser has no 45-point cap. It keeps the first 3000 rows, oldest first. Its port
  table has no entry for 445.
- The first version keeps all rows, newest first, and caps the score at 45 when an alert mentions a
  clear-text password.
- The port-scan alert reads "SCAN DE PORTS", and the SOC connector's test for "Scan" is
  case-sensitive. So the connector grades a scan alert 5, not 7 (`Soc.AnalyzerAlertSeverities`).
- Only the literal prefixes "192.168.", "10.", "172.16." and "127." count as private. An address
  such as 172.17.0.1 is looked up (`ThreatIntel.PrefixesAreLiteral`).

## Model

| member | source | states |
|---|---|---|
| ServiceNames.FirstKeyword | NETSCOPE/NETSCOPE/analyzer.py:57-59 | the index found is of a keyword occurring in the text, no earlier registry keyword occurs, and None means no keyword occurs |
| ServiceNames.KeywordLabel | NETSCOPE/NETSCOPE/analyzer.py:57-59 | None exactly when no keyword occurs in the lower-cased text; otherwise the capitalised first keyword in registry order, never "Autre" nor empty |
| ServiceNames.LabelsAreDistinguished | NETSCOPE/NETSCOPE/analyzer.py:57-60 | no capitalised registry keyword coincides with the "Autre" fallback or the empty label |
| Analyzer.ExtraireService | NETSCOPE/NETSCOPE/analyzer.py:55-60 | the service label is never empty |
| Analyzer.ExtraireServiceLabels | NETSCOPE/NETSCOPE/analyzer.py:55-60 | "Autre" for a non-string or empty text or when no keyword matches; otherwise the capitalised first keyword, in registry order, found case-insensitively |
| Analyzer.PortLabel | NETSCOPE/NETSCOPE/analyzer.py:182-187 | 443 is "HTTPS", 80 "HTTP", 53 "DNS", 22 "SSH", and "-" exactly for every other port |
| Analyzer.CacheProbe | NETSCOPE/NETSCOPE/analyzer.py:46-52 | a probe only adds entries and never changes a cached one |
| Analyzer.VendorCache.constructor | NETSCOPE/NETSCOPE/analyzer.py:29-30 | the cache starts empty and consistent with the lookup |
| Analyzer.VendorCache.GetVendor | NETSCOPE/NETSCOPE/analyzer.py:44-53 | "" without an instance or for an empty MAC, an exception for a MAC that cannot be a key, otherwise the lookup's answer ("" when it raises); every cached entry, including a stored "", equals a fresh lookup, and the cache grows only by the probed MAC |
| Analyzer.ReadAddress | NETSCOPE/NETSCOPE/analyzer.py:101-107 | a true IPv4 field wins (first element of a list); when the IPv4 field is absent and an IPv6 field is present, the result is that IPv6 field (first element of a list); "?" when neither is present |
| Analyzer.DnsQueryName | NETSCOPE/NETSCOPE/analyzer.py:137-143 | the name found is that of a dictionary query carrying `dns.qry.name` such that no earlier query is such a dictionary (the first), and None means no query carries one |
| Analyzer.InferFacts | NETSCOPE/NETSCOPE/analyzer.py:120-187 | protocol is DNS over HTTP over TLS over TCP over UDP; port from tcp else udp; penalty is 1 per HTTP packet, 10 more with an Authorization header and 20 for a suspicious TLS result only with TLS analysis on; at most one alert, present exactly when a penalty of 10 or more applies; that alert is "Mot de passe clair vers <service of the host>" for a credential and "TLS Suspect (<source>): <reasons>" for a flagged handshake, and there is none for DNS, plain transport or TLS with analysis off; a packet with a port gets a non-empty service; a TLS result exists exactly for HTTPS packets with TLS analysis on |
| Analyzer.RunTrackerShape | NETSCOPE/NETSCOPE/analyzer.py:189-190 | the tracker's key order lists every key exactly once |
| Analyzer.InferService | NETSCOPE/NETSCOPE/analyzer.py:135-187 | the service per branch: DNS gives the label of the first query name, HTTP that of the host, TLS that of the SNI (when present, and truthy if TLS analysis is on) or "Web Sécurisé" without one; the port table gives the label only for a DNS packet without a query name and for a packet without an application layer, and "" when there is also no port |
| Analyzer.StepPorts | NETSCOPE/NETSCOPE/analyzer.py:189-190 | one packet adds to the tracker exactly the port `PortOffer` names for its pair, and nothing else |
| Analyzer.PortOffer | NETSCOPE/NETSCOPE/analyzer.py:96-190 | reference definition: a packet offers a port to a pair when its header reads, it reaches the tracker update, both addresses are known and a destination port is present |
| Analyzer.RunTrackerContents | NETSCOPE/NETSCOPE/analyzer.py:189-190 | after any run, a pair is a tracker key exactly when some packet offers it a port, and its set is exactly the ports the packets offer it |
| Analyzer.ScanningFromPackets | NETSCOPE/NETSCOPE/analyzer.py:215-218 | a pair is flagged as scanning exactly when the packets offer it more than 15 distinct ports |
| Analyzer.RunCounts | NETSCOPE/NETSCOPE/analyzer.py:189-210 | each protocol count equals the number of detail rows with that protocol |
| Analyzer.RunDevicesUnique | NETSCOPE/NETSCOPE/analyzer.py:113-118 | devices hold distinct addresses, never "?" |
| Analyzer.FirstOffer | NETSCOPE/NETSCOPE/analyzer.py:113-117 | the index of the first packet that offers a device with a given address (fingerprinting on, readable header, true MAC, lookup not raising, string source other than "?"), no earlier packet offering it |
| Analyzer.RunDevicesFirstSeen | NETSCOPE/NETSCOPE/analyzer.py:113-117 | an address is recorded exactly when some packet offers it; each entry carries the MAC and vendor of the first packet offering its address; entries follow the order of those first packets |
| Analyzer.DevicesComplete | NETSCOPE/NETSCOPE/analyzer.py:113-117 | every packet that offers a device has its source address recorded |
| Analyzer.NoFingerprintNoDevices | NETSCOPE/NETSCOPE/analyzer.py:113-118 | with fingerprinting off no device is recorded |
| Analyzer.RunPairsReal | NETSCOPE/NETSCOPE/analyzer.py:189-190 | every tracked pair has two known addresses and at least one port |
| Analyzer.HeaderRaiseChangesNothing | NETSCOPE/NETSCOPE/analyzer.py:94-111 | a packet whose time, address or MAC read raises changes neither the loop state nor the MAC cache |
| Analyzer.ProbeRaiseChangesNothing | NETSCOPE/NETSCOPE/analyzer.py:113-117 | with fingerprinting on and a MAC present, a raising vendor probe or an unhashable source in the device test leaves the loop state unchanged, and the packet gets no entry |
| Analyzer.PacketRow | NETSCOPE/NETSCOPE/analyzer.py:90-212 | reference definition: a packet's entry, or none when the header read, the vendor probe, the device test or the tracker key raises; the entry holds the header's time, source, destination and MAC, the probed vendor ("" without a probe), and the inferred protocol, service, printed info, layers and TLS result |
| Analyzer.StepRows | NETSCOPE/NETSCOPE/analyzer.py:90-212 | one iteration appends exactly the packet's entry, if any, and nothing else to the details |
| Analyzer.RunRows | NETSCOPE/NETSCOPE/analyzer.py:90-212 | after any run, the details are the entries of the packets that get one, in capture order |
| Analyzer.LateRaiseKeepsPenalty | NETSCOPE/NETSCOPE/analyzer.py:150-192 | with fingerprinting off or no MAC, a packet with a port whose source or destination is not a string keeps its penalties and alerts, but gets no count, no row and no tracked port |
| Analyzer.ScanAlertsExact | NETSCOPE/NETSCOPE/analyzer.py:215-218 | an alert, with the port count, for each pair with more than 15 distinct ports, no alert for any other, no more alerts than pairs |
| Analyzer.ScanAlertsCount | NETSCOPE/NETSCOPE/analyzer.py:215-218 | over duplicate-free keys, the number of scan alerts is the number of pairs with more than 15 distinct ports |
| Analyzer.ScanPassCost | NETSCOPE/NETSCOPE/analyzer.py:215-229 | the report's score is the clamped, truncated loop score minus 25 points per tracked pair with more than 15 ports; its alerts are the loop's plus one scan alert per such pair |
| PyValues.TruncHalf | NETSCOPE/NETSCOPE/analyzer.py:220 | `int()` of a half-point score truncates toward zero (the first version uses the same conversion) |
| Analyzer.Clamp | NETSCOPE/NETSCOPE/analyzer.py:220 | the result lies in [0, 100] and equals the input inside that range |
| Analyzer.Analysis | NETSCOPE/NETSCOPE/analyzer.py:74-232 | a report exactly for decoded output, an error for a missing file or a failing tool; score in [0, 100]; total equals the number of packets; the details are the first min(3000, n) of the n rows |
| Analyzer.AnalysisDetails | NETSCOPE/NETSCOPE/analyzer.py:90-223 | the report's details are the packets' entries, in capture order, cut to the first 3000 |
| Analyzer.AnalysisAlertsCost | NETSCOPE/NETSCOPE/analyzer.py:150-229 | every distinct alert costs five points: the score is 0 or at most 100 minus 5 per distinct alert |
| Analyzer.InspectDns | NETSCOPE/NETSCOPE/analyzer.py:134-143 | the DNS branch as specified by the protocol inference |
| Analyzer.InspectHttp | NETSCOPE/NETSCOPE/analyzer.py:144-153 | the HTTP branch, penalties and alert included |
| Analyzer.InspectTls | NETSCOPE/NETSCOPE/analyzer.py:155-179 | the TLS branch: the engine's result with TLS analysis on, the plain server-name read otherwise |
| Analyzer.InspectLayers | NETSCOPE/NETSCOPE/analyzer.py:120-187 | the whole protocol block and port fallback equal the inference |
| Analyzer.AnalysePacket | NETSCOPE/NETSCOPE/analyzer.py:91-213 | one loop iteration yields the specified next state and MAC cache |
| Analyzer.AccountPacket | NETSCOPE/NETSCOPE/analyzer.py:120-210 | the part of the iteration after the device record |
| Analyzer.PacketLoop | NETSCOPE/NETSCOPE/analyzer.py:90-213 | the loop state after all packets is the fold of the per-packet step, and the cache stays consistent |
| Analyzer.ScanPorts | NETSCOPE/NETSCOPE/analyzer.py:215-218 | the scan loop appends the specified scan alerts and subtracts 50 half-points for each |
| Analyzer.AnalyserTrafic | NETSCOPE/NETSCOPE/analyzer.py:63-232 | the result is the specified analysis of the dissector output |
| LegacyAnalyzer.Service | NETSCOPE/analyzer.py:9-34 | "" exactly for a false text; an exception exactly for a true non-string |
| LegacyAnalyzer.ServiceResolution | NETSCOPE/analyzer.py:20-34 | for a non-empty text: the capitalised first keyword in registry order; failing that, the capitalised second-to-last dot-separated label if longer than two characters, else "Autre" |
| LegacyAnalyzer.SecondLevelLabel | NETSCOPE/analyzer.py:27-32 | a host made of dot-free labels with no keyword is named after its second-to-last label |
| LegacyAnalyzer.QueryName | NETSCOPE/analyzer.py:72-76 | the first query mentioning `dns.qry.name` gives the name if it is a dictionary; raises exactly when that first mentioning query is not a dictionary; none found exactly when no query mentions it |
| LegacyAnalyzer.Concat | NETSCOPE/analyzer.py:83 | `host + uri` succeeds exactly for two strings or two lists |
| LegacyAnalyzer.NameRun | NETSCOPE/analyzer.py:98 | the greedy run of `[a-zA-Z0-9.-]` characters |
| LegacyAnalyzer.SearchFrom | NETSCOPE/analyzer.py:98 | the leftmost position where the server-name pattern matches |
| LegacyAnalyzer.ServerNameShape | NETSCOPE/analyzer.py:98-100 | the captured name follows the leftmost match, is non-empty, is made of name characters and runs as far as they go; none exactly when the pattern never matches |
| LegacyAnalyzer.HttpAlert | NETSCOPE/analyzer.py:88 | the credential alert is exactly "Mot de passe clair vers " followed by the service |
| LegacyAnalyzer.PortLabel | NETSCOPE/analyzer.py:107-111 | 443 is "Web Sécurisé", 80 "Web", 53 "DNS", and "-" exactly for every other port |
| LegacyAnalyzer.InferService | NETSCOPE/analyzer.py:67-111 | the service per branch: DNS gives the label of the first query name, HTTP that of the host, TLS that of the `server_name` found; the port table is used exactly when that label is empty, and for packets without an application layer |
| LegacyAnalyzer.InferFacts | NETSCOPE/analyzer.py:63-111 | protocol DNS over HTTP over HTTPS over TCP/UDP; non-empty service; penalty 1 per HTTP request plus 10 with Authorization; exactly one alert, containing "Mot de passe", when the extra penalty applies; for HTTP that alert is "Mot de passe clair vers <service of the host>", taken before the port fallback; no alert for the other branches |
| LegacyAnalyzer.StepAtomic | NETSCOPE/analyzer.py:51-127 | a packet changes nothing or adds exactly one row and one protocol count; no row means no change at all |
| LegacyAnalyzer.RunAlerts | NETSCOPE/analyzer.py:50-127 | every alert of the loop contains "Mot de passe" and cost 5.5 points; rows never outnumber packets |
| LegacyAnalyzer.Reverse | NETSCOPE/analyzer.py:153 | same length, element k is element n-1-k of the input |
| LegacyAnalyzer.Analysis | NETSCOPE/analyzer.py:36-161 | a report exactly for decoded output, whose total counts every packet |
| LegacyAnalyzer.PacketRow | NETSCOPE/analyzer.py:50-127 | reference definition: a packet's entry, or none when its epoch does not parse or its protocol block raises; the entry holds the time, `ip.src` and `ip.dst` (default "?"), and the inferred protocol, service and info |
| LegacyAnalyzer.RunRows | NETSCOPE/analyzer.py:50-127 | after any run, the details are the entries of the packets that fit, in capture order |
| LegacyAnalyzer.AnalysisFacts | NETSCOPE/analyzer.py:50-160 | score in [0, 100]; at most 45 when any alert exists; the details are exactly the packets' entries reversed, newest first, one per packet that fits |
| LegacyAnalyzer.FinishKillSwitch | NETSCOPE/analyzer.py:134-147 | when every alert carries the critical mark, the score is the floored score without alerts and that score capped at 45 with some |
| LegacyAnalyzer.KillSwitch | NETSCOPE/analyzer.py:134-147 | without an alert the score is `max(0, int(score))`, uncapped; with one it is `min(max(0, int(score)), 45)` |
| LegacyAnalyzer.AnalysePacket | NETSCOPE/analyzer.py:51-127 | one loop iteration yields the specified next state |
| LegacyAnalyzer.InspectDns | NETSCOPE/analyzer.py:68-76 | the DNS branch as specified |
| LegacyAnalyzer.InspectHttp | NETSCOPE/analyzer.py:79-88 | the HTTP branch as specified |
| LegacyAnalyzer.InspectLayers | NETSCOPE/analyzer.py:63-111 | the protocol block and port fallback equal the inference |
| LegacyAnalyzer.FindCritical | NETSCOPE/analyzer.py:138-143 | the flag loop finds a critical alert exactly when some alert contains "Mot de passe" |
| LegacyAnalyzer.AnalyserTrafic | NETSCOPE/analyzer.py:36-161 | the result is the specified analysis of the capture |
| Tls.Ja3Spelled | NETSCOPE/NETSCOPE/tls_engine.py:38-46 | the signature is `version,ciphers,extensions,curves,points` with version defaulting to 771 |
| Tls.CertPair | NETSCOPE/NETSCOPE/tls_engine.py:54-61 | subject and issuer are read exactly from a certificate list of at least two entries |
| Tls.Fingerprint | NETSCOPE/NETSCOPE/tls_engine.py:16-71 | SNI when present; signature exactly when the cipher suites are present, with its hash; subject and issuer from the certificate list; suspicious exactly when some reason is given; at most two reasons; the reasons are exactly the self-signed reason when the two certificate strings are equal, followed by the C2 reason when the hash is the denylisted one, nothing else; suspicious exactly when either holds |
| Tls.Ja3Distinguishes | NETSCOPE/NETSCOPE/tls_engine.py:46-50 | comma-free fields that differ give different hashes under an injective hash |
| Tls.SameFieldsSameHash | NETSCOPE/NETSCOPE/tls_engine.py:46-50 | equal signature fields give equal signatures and hashes |
| Tls.EmptyLayerIsBlank | NETSCOPE/NETSCOPE/tls_engine.py:16-24 | a layer without any field leaves the initial result: not suspicious, no reason |
| Tls.TlsEngine.constructor | NETSCOPE/NETSCOPE/tls_engine.py:8-9 | the signature database starts empty |
| Tls.TlsEngine.ProcessPacket | NETSCOPE/NETSCOPE/tls_engine.py:11-77 | the field-by-field fill equals the fingerprint |
| Soc.CleanRemovesDelimiters | NETSCOPE/NETSCOPE/soc_engine.py:35 | no pipe or equals sign remains, the length is kept and every other character is unchanged |
| Soc.Events | NETSCOPE/NETSCOPE/soc_engine.py:20-37 | one event for the summary and one per alert |
| Soc.FormatCef | NETSCOPE/NETSCOPE/soc_engine.py:14-39 | the loop builds the specified CEF text |
| Soc.CefLines | NETSCOPE/NETSCOPE/soc_engine.py:25-39 | the text splits into the summary event first, then exactly one Security Alert line per alert, in order, with the alert's severity and escaped text |
| Soc.SummarySeverityBands | NETSCOPE/NETSCOPE/soc_engine.py:24 | severity 1 above 80, 5 in (50, 80], 10 at 50 and below |
| Soc.AnalyzerAlertSeverities | NETSCOPE/NETSCOPE/soc_engine.py:30-32 | a credential alert is graded 10 and a port-scan alert between textual addresses 5 |
| Soc.RequestFacts | NETSCOPE/NETSCOPE/soc_engine.py:45-83 | no request without a URL; User-Agent first and Content-Type last; the two credential headers exactly with a non-empty token; text/plain exactly for CEF; JSON severity "high" exactly for a score below 50 |
| Soc.BuildRequest | NETSCOPE/NETSCOPE/soc_engine.py:45-83 | the headers and payload built step by step are the specified request |
| Soc.SendReport | NETSCOPE/NETSCOPE/soc_engine.py:41-94 | true exactly when a request is built and the post answers a status below 300 |
| ThreatIntel.PublicIps | NETSCOPE/NETSCOPE/threat_intel.py:41 | keeps exactly the addresses without a private prefix and never grows the list |
| ThreatIntel.PublicIpsAppend | NETSCOPE/NETSCOPE/threat_intel.py:41 | the filter preserves relative order |
| ThreatIntel.HitNeedsAttributes | NETSCOPE/NETSCOPE/threat_intel.py:47-48 | a hit needs a dictionary answer with a non-empty Attribute entry |
| ThreatIntel.HitOfWellFormedAnswer | NETSCOPE/NETSCOPE/threat_intel.py:47-48 | the usual answer yields its event's info, or "Menace Inconnue" without one |
| ThreatIntel.HitOfAttributes | NETSCOPE/NETSCOPE/threat_intel.py:47-48 | for any answer whose `Attribute` list is non-empty with a dictionary first: its event's info when the event is a dictionary, "Menace Inconnue" without an info, the raised error when the event is not a dictionary |
| ThreatIntel.IpAlertsAppend | NETSCOPE/NETSCOPE/threat_intel.py:44-50 | the address loop over a concatenation is the concatenation of the loops |
| ThreatIntel.IpAlertsShape | NETSCOPE/NETSCOPE/threat_intel.py:44-50 | at most one alert per address, each naming one of the addresses |
| ThreatIntel.IpAlertsLabelled | NETSCOPE/NETSCOPE/threat_intel.py:49 | every address alert starts with the address label |
| ThreatIntel.DomainAlertsAppend | NETSCOPE/NETSCOPE/threat_intel.py:53-60 | the domain loop over a concatenation is the concatenation of the loops |
| ThreatIntel.DomainAlertsShape | NETSCOPE/NETSCOPE/threat_intel.py:53-60 | at most one alert per non-empty name, each naming a non-empty name |
| ThreatIntel.DomainAlertsLabelled | NETSCOPE/NETSCOPE/threat_intel.py:59 | every domain alert starts with the domain label |
| ThreatIntel.IndicatorsOrder | NETSCOPE/NETSCOPE/threat_intel.py:38-62 | address alerts precede domain alerts, and there are at most as many alerts as public addresses and non-empty names |
| ThreatIntel.NoAlertFor | NETSCOPE/NETSCOPE/threat_intel.py:45-50 | a raising or empty search yields no address alert |
| ThreatIntel.FailedSearchIsLocal | NETSCOPE/NETSCOPE/threat_intel.py:44-50 | a failed address search drops only that address's alert |
| ThreatIntel.FailedDomainSearchIsLocal | NETSCOPE/NETSCOPE/threat_intel.py:53-60 | a failed domain search drops only that name's alert |
| ThreatIntel.PrivateIpIgnored | NETSCOPE/NETSCOPE/threat_intel.py:41-44 | adding a private address changes no alert |
| ThreatIntel.PrefixesAreLiteral | NETSCOPE/NETSCOPE/threat_intel.py:41 | an address is private exactly when it starts with one of "192.168.", "10.", "172.16.", "127." as text; so 172.17.0.1 is not |
| ThreatIntel.EmptyDomainSkipped | NETSCOPE/NETSCOPE/threat_intel.py:53-54 | an empty name yields nothing |
| ThreatIntel.HitYieldsAlert | NETSCOPE/NETSCOPE/threat_intel.py:44-60 | a hit on a public address and on a non-empty name yields exactly one alert each, naming the indicator and the info |
| ThreatIntel.SearchIps | NETSCOPE/NETSCOPE/threat_intel.py:44-50 | the address loop builds the specified alerts |
| ThreatIntel.SearchDomains | NETSCOPE/NETSCOPE/threat_intel.py:53-60 | the domain loop appends the specified alerts |
| ThreatIntel.ThreatIntelEngine.constructor | NETSCOPE/NETSCOPE/threat_intel.py:14-16 | no client and not connected |
| ThreatIntel.ThreatIntelEngine.Connect | NETSCOPE/NETSCOPE/threat_intel.py:18-28 | without the library nothing changes and the answer is false; a created client is stored and connects; a raising constructor disconnects and keeps the old client |
| ThreatIntel.ThreatIntelEngine.CheckIndicators | NETSCOPE/NETSCOPE/threat_intel.py:30-62 | [] when disconnected or without a client, otherwise the address alerts of the public addresses followed by the domain alerts |

## Left out

- The dissector run and the decoding of its JSON output are process I/O. The analysers start from
  the decoded packets, or from the outcome of a failed run.
- A packet that is not a dictionary, or whose `_source`/`layers` entries are not dictionaries, is not
  modelled. A packet is its map of layers, and each layer is a map of fields.
- `init_mac_lookup` is represented by the `ready` flag of `Analyzer.VendorCache`. The library lookup
  is a function parameter.
- `hashlib.md5`, the clocks, the MISP client and `requests.post` are parameters: foreign libraries,
  time and the network.
- Epoch parsing and `strftime` happen inside the clock parameter. The CEF timestamp, which
  `_format_cef` computes but never uses, is left out.
- `str()` and `repr()` of nested values are approximated. A string inside a list or dictionary is
  always printed between single quotes. Python switches to double quotes for a string holding a
  single quote, and escapes backslashes, quotes and non-printable characters; the model does none
  of that. Case mapping covers ASCII letters only.
- A dictionary value is a sequence of entries, so it can hold the same key twice, which a Python
  dictionary cannot. Lookups take the first entry with the key, while `len` and printing count
  every entry.
- Dictionary equality ignoring key order is not modelled. The layers of a packet form a map, and
  nested dictionaries keep their entries in insertion order.
- Scores are exact in half-points. No floating-point rounding arises for these penalties.
- Protocol counts are keyed by a datatype. `Analyzer.ProtoName` and `LegacyAnalyzer.ProtoName` give
  the printed keys.
- Logging and the debug prints are left out.
- `NETSCOPE/app.py`, `capture_engine.py` and `ai_engine.py` are not part of this model. They are web
  routes, process I/O, and a floating-point learning library.
- Tls.TlsEngine.ProcessPacket: the source's `except` branch is not modelled. No statement of the
  model can raise: the hash is total and every field read is guarded. So "never raises" holds by
  construction.
- Soc.CefLines: requires that no alert contains a line break. Such an alert would itself split into
  several lines.
- Soc.FormatCef: alerts and scores are typed, so the exception a non-string alert would raise inside
  `send_report` is not modelled.
- Soc.AnalyzerAlertSeverities: grades the credential and port-scan alerts only. The TLS alert embeds
  the source address as printed, which may contain any text.
- Soc.SendReport: the configuration's values are strings or missing. A non-string `soc_url` or
  `soc_token` is not modelled.
- Analyzer.ExtraireService: its own contract says only that the label is not empty.
  `Analyzer.ExtraireServiceLabels` states the full characterisation.
- ThreatIntel.ThreatIntelEngine.CheckIndicators: addresses and domains are typed as strings
  (`seq<string>`), so the exception that `ip.startswith` raises for a non-string address
  (threat_intel.py line 41, outside the `try`) is not modelled. `ThreatIntel.PublicIps` has the same
  typing.
- The JSON value type has strings, lists and dictionaries only: no number, boolean or null. What
  the source does with such values is not modelled: `float()` of a numeric epoch, `str()` of a
  numeric port, and the `TypeError` that `'dns.qry.name' in q` raises, in the legacy analyser, for a
  query that is a number.
