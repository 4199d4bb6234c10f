// The current traffic analyser: one pass over the decoded packets that infers
// each packet's protocol and service, applies score penalties, records devices
// and the destination ports each (source, destination) pair touched; then a
// port-scan pass, score clamping, alert deduplication and row truncation.
//
// The score is kept in half-points (100 points = 200 half-points) so that the
// 0.5 penalty of an HTTP packet stays an integer.

module Analyzer {
  import opened Text
  import opened PyValues
  import opened ServiceNames
  import Tls

  const START_HALVES := 200
  const HTTP_PENALTY := 1          // 0.5 point
  const AUTH_PENALTY := 10         // 5 points
  const TLS_PENALTY := 20          // 10 points
  const SCAN_PENALTY := 50         // 25 points
  const SCAN_THRESHOLD := 15
  const MAX_ROWS := 3000

  const UNKNOWN_ADDRESS := Str("?")
  const SECURE_WEB := "Web Sécurisé"

  datatype Proto = Autre | Tcp | Udp | Dns | Http | Https

  /** The protocol names used as keys of `repartition_protocoles`. */
  function ProtoName(p: Proto): string
  {
    match p
    case Autre => "AUTRE"
    case Tcp => "TCP"
    case Udp => "UDP"
    case Dns => "DNS"
    case Http => "HTTP"
    case Https => "HTTPS"
  }

  // ---------------------------------------------------------------------------
  // Service resolution

  /**
   * `extraire_service`: "Autre" for anything but a non-empty string, otherwise
   * the label of the first registry keyword found case-insensitively, and
   * "Autre" when none is found.
   */
  function ExtraireService(texte: Value): (r: string)
    ensures r != ""
  {
    if !texte.Str? || texte.s == "" then "Autre"
    else
      var found := KeywordLabel(texte.s);
      if found.None? then "Autre" else found.value
  }

  /** The port table used when no service label was found. */
  function PortLabel(p: string): (r: string)
    ensures r != ""
    ensures r == "-" <==> p !in {"443", "80", "53", "22"}
    ensures p == "443" ==> r == "HTTPS"
    ensures p == "80" ==> r == "HTTP"
    ensures p == "53" ==> r == "DNS"
    ensures p == "22" ==> r == "SSH"
  {
    if p == "443" then "HTTPS"
    else if p == "80" then "HTTP"
    else if p == "53" then "DNS"
    else if p == "22" then "SSH"
    else "-"
  }

  /** `str(port)`, or `str(port[0])` when the port field is a list. */
  function PortText(port: Value): string
  {
    if port.List? && port.items != [] then PyStr(port.items[0]) else PyStr(port)
  }

  // ---------------------------------------------------------------------------
  // MAC vendor cache

  /** The vendor the lookup library reports for `mac`, or "" when the lookup raises. */
  function VendorOf(lookup: string -> Option<string>, mac: string): string
  {
    match lookup(mac)
    case Some(v) => v
    case None => ""
  }

  /**
   * What `get_vendor(mac)` returns: "" without an instance or for a false MAC,
   * an exception for a MAC that cannot be a dictionary key, else the vendor.
   */
  function Vendor(ready: bool, lookup: string -> Option<string>, mac: Value): Result<string>
  {
    if !ready || !Truthy(mac) then Ok("")
    else if !Hashable(mac) then Raised
    else Ok(VendorOf(lookup, mac.s))
  }

  /** The cache after `get_vendor(mac)`: a looked-up MAC not yet cached is stored. */
  function CacheProbe(cache: map<string, string>, ready: bool, lookup: string -> Option<string>,
                      mac: Value): (r: map<string, string>)
    ensures r.Keys >= cache.Keys
    ensures forall m :: m in cache ==> r[m] == cache[m]
  {
    if ready && Truthy(mac) && Hashable(mac) && mac.s !in cache
    then cache[mac.s := VendorOf(lookup, mac.s)]
    else cache
  }

  /** The module-level `mac_lookup_instance` and `mac_cache`. */
  class VendorCache {
    /** `mac_lookup_instance` is set (as `init_mac_lookup` left it). */
    var ready: bool
    var cache: map<string, string>
    /** `mac_lookup_instance.lookup`: the vendor, or `None` when it raises. */
    const lookup: string -> Option<string>

    /** Every cached entry is what a fresh lookup would answer. */
    ghost predicate Valid()
      reads this
    {
      forall m :: m in cache ==> cache[m] == VendorOf(lookup, m)
    }

    constructor (ready: bool, lookup: string -> Option<string>)
      ensures Valid() && this.ready == ready && this.lookup == lookup && cache == map[]
    {
      this.ready := ready;
      this.lookup := lookup;
      cache := map[];
    }

    /** `get_vendor`: memoised, and the memo is transparent (same answer as a fresh lookup). */
    method GetVendor(mac: Value) returns (r: Result<string>)
      requires Valid()
      modifies this`cache
      ensures Valid()
      ensures r == Vendor(ready, lookup, mac)
      ensures cache == CacheProbe(old(cache), ready, lookup, mac)
    {
      if !ready || !Truthy(mac) {
        return Ok("");
      }
      if !Hashable(mac) {
        return Raised;
      }
      if mac.s in cache {
        return Ok(cache[mac.s]);
      }
      match lookup(mac.s)
      case Some(vendor) =>
        cache := cache[mac.s := vendor];
        return Ok(vendor);
      case None =>
        cache := cache[mac.s := ""];
        return Ok("");
    }
  }

  // ---------------------------------------------------------------------------
  // One packet: time, addresses, MAC

  /** Time of day, source and destination address, and source MAC of a packet. */
  datatype Header = Header(heure: string, src: Value, dst: Value, mac: Option<Value>)

  /**
   * The time of day of a packet; `clock(Some(t))` formats the epoch text `t`,
   * falling back on the current time when it is not a valid epoch, and
   * `clock(None)` is the current time.
   */
  function ReadTime(layers: Layers, clock: Option<string> -> string): Result<string>
  {
    match Field(layers, "frame", "frame.time_epoch")
    case None => Ok(clock(None))
    case Some(raw) =>
      match FirstIfList(raw)
      case Raised => Raised
      case Ok(ts) => Ok(clock(if ts.Str? then Some(ts.s) else None))
  }

  /** An address: the IPv4 field if true, else the IPv6 field with "?" as default. */
  function ReadAddress(layers: Layers, key4: string, key6: string): (r: Result<Value>)
    ensures Present(Field(layers, "ip", key4)) ==> r == FirstIfList(Field(layers, "ip", key4).value)
    ensures !Present(Field(layers, "ip", key4)) && Field(layers, "ipv6", key6).Some? ==>
              r == FirstIfList(Field(layers, "ipv6", key6).value)
    ensures !Present(Field(layers, "ip", key4)) && Field(layers, "ipv6", key6).None? ==> r == Ok(UNKNOWN_ADDRESS)
  {
    var v4 := Field(layers, "ip", key4);
    var v := if Present(v4) then v4.value
             else if "ipv6" in layers then GetOr(layers["ipv6"], key6, UNKNOWN_ADDRESS)
             else UNKNOWN_ADDRESS;
    FirstIfList(v)
  }

  /** The source MAC: Ethernet source if true, else the WLAN source address (maybe absent). */
  function ReadMac(layers: Layers): Result<Option<Value>>
  {
    var eth := Field(layers, "eth", "eth.src");
    var mac := if Present(eth) then eth else Field(layers, "wlan", "wlan.sa");
    match mac
    case None => Ok(None)
    case Some(m) =>
      match FirstIfList(m)
      case Raised => Raised
      case Ok(x) => Ok(Some(x))
  }

  function ReadHeader(layers: Layers, clock: Option<string> -> string): Result<Header>
  {
    match ReadTime(layers, clock)
    case Raised => Raised
    case Ok(heure) =>
      match ReadAddress(layers, "ip.src", "ipv6.src")
      case Raised => Raised
      case Ok(src) =>
        match ReadAddress(layers, "ip.dst", "ipv6.dst")
        case Raised => Raised
        case Ok(dst) =>
          match ReadMac(layers)
          case Raised => Raised
          case Ok(mac) => Ok(Header(heure, src, dst, mac))
  }

  // ---------------------------------------------------------------------------
  // One packet: protocol, port, service, penalties

  /** What the protocol block of the loop body decides for one packet. */
  datatype Inference = Inference(
    proto: Proto,
    port: Option<Value>,
    info: Value,
    service: string,
    penalty: nat,
    alerts: seq<string>,
    tls: Option<Tls.TlsResult>)

  /** The first query entry that is a dictionary carrying `dns.qry.name`, and that name. */
  function DnsQueryName(queries: seq<(string, Value)>): (r: Option<Value>)
    ensures r.Some? ==> exists k :: 0 <= k < |queries| && queries[k].1.Obj?
                                   && HasKey(queries[k].1.entries, "dns.qry.name")
                                   && r.value == Lookup(queries[k].1.entries, "dns.qry.name")
                                   && forall j :: 0 <= j < k ==>
                                        !(queries[j].1.Obj? && HasKey(queries[j].1.entries, "dns.qry.name"))
    ensures r.None? ==> forall k :: 0 <= k < |queries| ==>
                          !(queries[k].1.Obj? && HasKey(queries[k].1.entries, "dns.qry.name"))
  {
    if |queries| == 0 then None
    else
      var v := queries[0].1;
      if v.Obj? && HasKey(v.entries, "dns.qry.name") then Some(Lookup(v.entries, "dns.qry.name"))
      else
        var r := DnsQueryName(queries[1..]);
        assert forall k :: 1 <= k < |queries| ==> queries[k] == queries[1..][k - 1];
        r
  }

  function HttpAlert(service: string): string
  {
    "Mot de passe clair vers " + service
  }

  function TlsAlert(src: Value, reasons: seq<string>): string
  {
    "TLS Suspect (" + PyStr(src) + "): " + Join(", ", reasons)
  }

  /** `ja3_hash[:6]`. */
  function HashPrefix(h: string): string
  {
    if |h| <= 6 then h else h[..6]
  }

  /** The transport label and destination port: tcp first, then udp. */
  function Transport(layers: Layers): (Proto, Option<Value>)
  {
    if "tcp" in layers then (Tcp, Field(layers, "tcp", "tcp.dstport"))
    else if "udp" in layers then (Udp, Field(layers, "udp", "udp.dstport"))
    else (Autre, None)
  }

  /** The DNS branch: the first query name, or the "DNS Query" placeholder. */
  function DnsView(base: Inference, dns: Layer): Inference
  {
    var queries := GetOr(dns, "Queries", Obj([]));
    var name := if queries.Obj? then DnsQueryName(queries.entries) else None;
    if name.Some? then base.(proto := Dns, info := name.value, service := ExtraireService(name.value))
    else base.(proto := Dns, info := Str("DNS Query"))
  }

  /** The HTTP branch: host and URI, half a point, and five more with a clear-text credential. */
  function HttpView(base: Inference, http: Layer): Inference
  {
    var host := GetOr(http, "http.host", Str(""));
    var uri := GetOr(http, "http.request.uri", Str(""));
    var service := ExtraireService(Str(PyStr(host)));
    var auth := "http.authorization" in http;
    base.(proto := Http, info := Str(PyStr(host) + PyStr(uri)), service := service,
          penalty := HTTP_PENALTY + (if auth then AUTH_PENALTY else 0),
          alerts := if auth then [HttpAlert(service)] else [])
  }

  /** The TLS branch with the engine on, given the engine's result. */
  function TlsView(base: Inference, src: Value, r: Tls.TlsResult): Inference
  {
    var info := if Present(r.sni) then Str("SNI: " + PyStr(r.sni.value)) else base.info;
    var service := if Present(r.sni) then ExtraireService(r.sni.value) else SECURE_WEB;
    var info' := if r.ja3Hash.Some? && r.ja3Hash.value != ""
                 then Str(PyStr(info) + " [JA3: " + HashPrefix(r.ja3Hash.value) + "...]")
                 else info;
    base.(proto := Https, info := info', service := service,
          penalty := if r.suspicious then TLS_PENALTY else 0,
          alerts := if r.suspicious then [TlsAlert(src, r.riskReasons)] else [],
          tls := Some(r))
  }

  /** The TLS branch with the engine off: the raw server-name field, if any. */
  function PlainTlsView(base: Inference, tls: Layer): Inference
  {
    if Tls.SNI_FIELD in tls then
      base.(proto := Https, info := tls[Tls.SNI_FIELD], service := ExtraireService(tls[Tls.SNI_FIELD]))
    else base.(proto := Https, service := SECURE_WEB)
  }

  /** The application layer (dns, else http, else tls) over the transport layer. */
  function Classify(layers: Layers, src: Value, activerTls: bool, md5: string -> string): Inference
  {
    var (proto, port) := Transport(layers);
    var base := Inference(proto, port, Str(""), "", 0, [], None);
    if "dns" in layers then DnsView(base, layers["dns"])
    else if "http" in layers then HttpView(base, layers["http"])
    else if "tls" in layers then
      if activerTls then TlsView(base, src, Tls.Fingerprint(layers["tls"], md5))
      else PlainTlsView(base, layers["tls"])
    else base
  }

  /** The port table applies to a packet that has a destination port but no label yet. */
  function PortFallback(c: Inference): Inference
  {
    if c.service == "" && Present(c.port) then c.(service := PortLabel(PortText(c.port.value))) else c
  }

  /** The whole protocol block of one packet. */
  function Infer(layers: Layers, src: Value, activerTls: bool, md5: string -> string): Inference
  {
    PortFallback(Classify(layers, src, activerTls, md5))
  }

  /**
   * The protocol label is the highest layer present (dns, http, tls, then the
   * transport); the penalty is half a point per HTTP request, five more with
   * an Authorization header, ten for a TLS handshake the engine flags, and
   * nothing otherwise; exactly the packets penalised by five points or more
   * raise one alert, "Mot de passe clair vers <service of the host>" for a
   * credential and "TLS Suspect (<source>): <reasons>" for a flagged
   * handshake; and every packet with a destination port gets a label.
   */
  lemma InferFacts(layers: Layers, src: Value, activerTls: bool, md5: string -> string)
    ensures var r := Infer(layers, src, activerTls, md5);
      && r.proto == (if "dns" in layers then Dns else if "http" in layers then Http
                     else if "tls" in layers then Https else Transport(layers).0)
      && r.port == Transport(layers).1
      && r.penalty == (if "dns" in layers then 0
                       else if "http" in layers then
                         HTTP_PENALTY + (if "http.authorization" in layers["http"] then AUTH_PENALTY else 0)
                       else if "tls" in layers && activerTls && Tls.Fingerprint(layers["tls"], md5).suspicious
                       then TLS_PENALTY
                       else 0)
      && |r.alerts| <= 1
      && (|r.alerts| == 1 <==> r.penalty >= AUTH_PENALTY)
      && AUTH_PENALTY * |r.alerts| <= r.penalty
      && (Present(r.port) ==> r.service != "")
      && (r.tls.Some? <==> r.proto == Https && activerTls)
      && ("dns" !in layers && "http" in layers ==>
            r.alerts == (if "http.authorization" in layers["http"]
                         then [HttpAlert(ExtraireService(Str(PyStr(GetOr(layers["http"], "http.host", Str(""))))))]
                         else []))
      && ("dns" !in layers && "http" !in layers && "tls" in layers && activerTls ==>
            r.alerts == (if Tls.Fingerprint(layers["tls"], md5).suspicious
                         then [TlsAlert(src, Tls.Fingerprint(layers["tls"], md5).riskReasons)]
                         else []))
      && ("dns" in layers || ("http" !in layers && !("tls" in layers && activerTls)) ==> r.alerts == [])
  {
  }

  /**
   * The service label of a packet: the query name's service for DNS, the
   * host's for HTTP, the server name's for TLS (a fixed label without one);
   * the port table applies only when no label was found, that is for a DNS
   * packet without a query name or a packet with no application layer.
   */
  lemma InferService(layers: Layers, src: Value, activerTls: bool, md5: string -> string)
    ensures var r := Infer(layers, src, activerTls, md5);
      var port := Transport(layers).1;
      var fallback := if Present(port) then PortLabel(PortText(port.value)) else "";
      && ("dns" in layers ==>
            var queries := GetOr(layers["dns"], "Queries", Obj([]));
            var name := if queries.Obj? then DnsQueryName(queries.entries) else None;
            r.service == (if name.Some? then ExtraireService(name.value) else fallback))
      && ("dns" !in layers && "http" in layers ==>
            r.service == ExtraireService(Str(PyStr(GetOr(layers["http"], "http.host", Str(""))))))
      && ("dns" !in layers && "http" !in layers && "tls" in layers ==>
            r.service == (if Tls.SNI_FIELD in layers["tls"] && (activerTls ==> Truthy(layers["tls"][Tls.SNI_FIELD]))
                          then ExtraireService(layers["tls"][Tls.SNI_FIELD]) else SECURE_WEB))
      && ("dns" !in layers && "http" !in layers && "tls" !in layers ==> r.service == fallback)
  {
  }

  /**
   * `extraire_service` gives "Autre" exactly when no registry keyword occurs
   * in the lowered text (or the argument is not a string), and otherwise the
   * capitalised first keyword, in registry order, that does occur.
   */
  lemma ExtraireServiceLabels(texte: Value)
    ensures !texte.Str? ==> ExtraireService(texte) == "Autre"
    ensures texte.Str? ==>
              (ExtraireService(texte) == "Autre" <==> forall j :: 0 <= j < |GERS| ==> !Contains(Lower(texte.s), GERS[j]))
    ensures ExtraireService(texte) != "Autre" ==>
              texte.Str? && exists k :: 0 <= k < |GERS| && ExtraireService(texte) == Capitalize(GERS[k])
                                       && Contains(Lower(texte.s), GERS[k])
                                       && forall j :: 0 <= j < k ==> !Contains(Lower(texte.s), GERS[j])
  {
    if texte.Str? && texte.s == "" {
      assert forall j :: 0 <= j < |GERS| ==> !OccursAt(texte.s, GERS[j], 0);
    }
  }

  // ---------------------------------------------------------------------------
  // Accumulated state of the packet loop

  datatype Device = Device(ip: string, mac: Value, vendor: string)

  /** One entry of `details_trafic`. */
  datatype Row = Row(
    heure: string,
    src: Value,
    dst: Value,
    vendor: string,
    mac: Option<Value>,
    proto: Proto,
    service: string,
    info: string,
    layers: Layers,
    tlsAnalysis: Option<Tls.TlsResult>)

  type Pair = (string, string)

  /** `score`, `protocoles`, `alertes`, `details_trafic`, `tracker_scan` and `appareils_detectes`. */
  datatype Acc = Acc(
    halves: int,
    protocols: map<Proto, nat>,
    alerts: seq<string>,
    rows: seq<Row>,
    ports: map<Pair, set<string>>,
    pairs: seq<Pair>,
    devices: seq<Device>)

  const Initial := Acc(START_HALVES, map[], [], [], map[], [], [])

  /** The switches and the outside collaborators of one analysis. */
  datatype Config = Config(
    fingerprint: bool,
    activerTls: bool,
    macReady: bool,
    lookup: string -> Option<string>,
    clock: Option<string> -> string,
    md5: string -> string)

  predicate Known(devices: seq<Device>, ip: string)
  {
    exists k | 0 <= k < |devices| :: devices[k].ip == ip
  }

  function Count(m: map<Proto, nat>, p: Proto): nat
  {
    if p in m then m[p] else 0
  }

  /** `protocoles[proto] += 1`. */
  function Bump(m: map<Proto, nat>, p: Proto): map<Proto, nat>
  {
    m[p := Count(m, p) + 1]
  }

  /** `tracker_scan[pair].add(port)` on a `defaultdict(set)` that remembers key order. */
  function Track(acc: Acc, pair: Pair, port: string): Acc
  {
    if pair in acc.ports then acc.(ports := acc.ports[pair := acc.ports[pair] + {port}])
    else acc.(ports := acc.ports[pair := {port}], pairs := acc.pairs + [pair])
  }

  function MakeRow(layers: Layers, h: Header, vendor: string, inf: Inference): Row
  {
    Row(h.heure, h.src, h.dst, vendor, h.mac, inf.proto, inf.service, PyStr(inf.info), layers, inf.tls)
  }

  /** The device the packet records when its (hashable) source is new. */
  function DeviceStep(acc: Acc, h: Header, vendor: string): Acc
    requires h.mac.Some?
  {
    if h.src != UNKNOWN_ADDRESS && h.src.Str? && !Known(acc.devices, h.src.s)
    then acc.(devices := acc.devices + [Device(h.src.s, h.mac.value, vendor)])
    else acc
  }

  /** The score and alerts after the protocol block. */
  function Scored(acc: Acc, inf: Inference): Acc
  {
    acc.(halves := acc.halves - inf.penalty, alerts := acc.alerts + inf.alerts)
  }

  /** The tracker step: `None` when a non-string address makes the tuple key raise. */
  function Tracked(acc: Acc, h: Header, inf: Inference): Option<Acc>
  {
    if h.src != UNKNOWN_ADDRESS && h.dst != UNKNOWN_ADDRESS && Present(inf.port) then
      if Hashable(h.src) && Hashable(h.dst) then Some(Track(acc, (h.src.s, h.dst.s), PyStr(inf.port.value)))
      else None
    else Some(acc)
  }

  /** From the protocol block on: penalties, then the tracker, then count and row. */
  function Rest(acc: Acc, layers: Layers, h: Header, vendor: string, activerTls: bool, md5: string -> string): Acc
  {
    var inf := Infer(layers, h.src, activerTls, md5);
    var scored := Scored(acc, inf);
    match Tracked(scored, h, inf)
    case None => scored
    case Some(t) => t.(protocols := Bump(t.protocols, inf.proto), rows := t.rows + [MakeRow(layers, h, vendor, inf)])
  }

  /**
   * One iteration of the packet loop. An exception ends the iteration but keeps
   * whatever the statements before it changed.
   */
  function Step(acc: Acc, layers: Layers, cfg: Config): Acc
  {
    match ReadHeader(layers, cfg.clock)
    case Raised => acc
    case Ok(h) =>
      if cfg.fingerprint && Present(h.mac) then
        match Vendor(cfg.macReady, cfg.lookup, h.mac.value)
        case Raised => acc
        case Ok(vendor) =>
          if h.src != UNKNOWN_ADDRESS && !Hashable(h.src) then acc
          else Rest(DeviceStep(acc, h, vendor), layers, h, vendor, cfg.activerTls, cfg.md5)
      else Rest(acc, layers, h, "", cfg.activerTls, cfg.md5)
  }

  /** The loop state after the given packets, in capture order. */
  function Run(packets: seq<Layers>, cfg: Config): Acc
  {
    if packets == [] then Initial
    else Step(Run(packets[..|packets| - 1], cfg), packets[|packets| - 1], cfg)
  }

  /** The MAC cache after one packet. */
  function CacheStep(cache: map<string, string>, layers: Layers, cfg: Config): map<string, string>
  {
    match ReadHeader(layers, cfg.clock)
    case Raised => cache
    case Ok(h) =>
      if cfg.fingerprint && Present(h.mac) then CacheProbe(cache, cfg.macReady, cfg.lookup, h.mac.value)
      else cache
  }

  function CacheRun(cache: map<string, string>, packets: seq<Layers>, cfg: Config): map<string, string>
  {
    if packets == [] then cache
    else CacheStep(CacheRun(cache, packets[..|packets| - 1], cfg), packets[|packets| - 1], cfg)
  }

  // ---------------------------------------------------------------------------
  // After the loop

  function ScanAlert(pair: Pair, n: nat): string
  {
    "SCAN DE PORTS : " + pair.0 + " -> " + pair.1 + " (" + IntToString(n) + " ports)"
  }

  /** The pair touched more than the threshold of distinct destination ports. */
  predicate Scanning(ports: map<Pair, set<string>>, p: Pair)
  {
    p in ports && |ports[p]| > SCAN_THRESHOLD
  }

  /** The alerts of the port-scan loop over `tracker_scan.items()`, in key order. */
  function ScanAlerts(pairs: seq<Pair>, ports: map<Pair, set<string>>): seq<string>
  {
    if pairs == [] then []
    else
      var p := pairs[|pairs| - 1];
      ScanAlerts(pairs[..|pairs| - 1], ports)
      + (if Scanning(ports, p) then [ScanAlert(p, |ports[p]|)] else [])
  }

  /** `max(0, min(100, s))`. */
  function Clamp(s: int): (r: int)
    ensures 0 <= r <= 100
    ensures 0 <= s <= 100 ==> r == s
    ensures s < 0 ==> r == 0
    ensures s > 100 ==> r == 100
  {
    if s < 0 then 0 else if s > 100 then 100 else s
  }

  datatype Report = Report(
    score: int,
    totalPackets: nat,
    protocols: map<Proto, nat>,
    alerts: set<string>,
    devices: seq<Device>,
    details: seq<Row>)

  /** What the dissector step produced: missing file, failure, no output, or packets. */
  datatype TsharkOutput = FileMissing | ToolFailed(message: string) | EmptyOutput | Decoded(packets: seq<Layers>)

  /** `{"error": ..., "score_global": 0}`, the empty report (score 100), or a full report. */
  datatype AnalysisResult = Failed(error: string) | NoOutput | Analysed(report: Report)

  function Finish(acc: Acc, total: nat): Report
  {
    var scan := ScanAlerts(acc.pairs, acc.ports);
    var halves := acc.halves - SCAN_PENALTY * |scan|;
    var messages := acc.alerts + scan;
    Report(Clamp(TruncHalf(halves)), total, acc.protocols, (set a | a in messages), acc.devices,
           if |acc.rows| > MAX_ROWS then acc.rows[..MAX_ROWS] else acc.rows)
  }

  /** `analyser_trafic` as a value. */
  function Analysis(input: TsharkOutput, cfg: Config): (r: AnalysisResult)
    ensures r.Analysed? <==> input.Decoded?
    ensures r.Failed? <==> input.FileMissing? || input.ToolFailed?
    ensures r.Analysed? ==> 0 <= r.report.score <= 100
    ensures r.Analysed? ==> r.report.totalPackets == |input.packets|
    ensures r.Analysed? ==> |r.report.details| <= MAX_ROWS
    ensures r.Analysed? ==>
              var rows := Run(input.packets, cfg).rows;
              && r.report.details <= rows
              && |r.report.details| == (if |rows| < MAX_ROWS then |rows| else MAX_ROWS)
  {
    match input
    case FileMissing => Failed("Fichier introuvable")
    case ToolFailed(m) => Failed(m)
    case EmptyOutput => NoOutput
    case Decoded(packets) => Analysed(Finish(Run(packets, cfg), |packets|))
  }

  // ---------------------------------------------------------------------------
  // Properties of the loop state

  /** The tracker's key order lists each key once, and exactly the keys. */
  ghost predicate TrackerShape(acc: Acc)
  {
    (forall i, j :: 0 <= i < j < |acc.pairs| ==> acc.pairs[i] != acc.pairs[j])
    && (forall p :: p in acc.ports <==> p in acc.pairs)
  }

  lemma RestTrackerShape(acc: Acc, layers: Layers, h: Header, vendor: string, cfg: Config)
    requires TrackerShape(acc)
    ensures TrackerShape(Rest(acc, layers, h, vendor, cfg.activerTls, cfg.md5))
  {
    var inf := Infer(layers, h.src, cfg.activerTls, cfg.md5);
    var scored := Scored(acc, inf);
    assert TrackerShape(scored);
    match Tracked(scored, h, inf)
    case None =>
    case Some(t) =>
      assert TrackerShape(t);
  }

  /** `tracker_scan.items()` meets every key once: the order list is duplicate-free and exact. */
  lemma {:induction false} RunTrackerShape(packets: seq<Layers>, cfg: Config)
    ensures TrackerShape(Run(packets, cfg))
    decreases |packets|
  {
    if packets != [] {
      var prev := Run(packets[..|packets| - 1], cfg);
      var layers := packets[|packets| - 1];
      RunTrackerShape(packets[..|packets| - 1], cfg);
      match ReadHeader(layers, cfg.clock)
      case Raised =>
      case Ok(h) =>
        if cfg.fingerprint && Present(h.mac) {
          match Vendor(cfg.macReady, cfg.lookup, h.mac.value)
          case Raised =>
          case Ok(vendor) =>
            if !(h.src != UNKNOWN_ADDRESS && !Hashable(h.src)) {
              RestTrackerShape(DeviceStep(prev, h, vendor), layers, h, vendor, cfg);
            }
        } else {
          RestTrackerShape(prev, layers, h, "", cfg);
        }
    }
  }

  /** The number of detail rows with a given protocol label. */
  function RowsWith(rows: seq<Row>, p: Proto): nat
  {
    if rows == [] then 0
    else RowsWith(rows[..|rows| - 1], p) + (if rows[|rows| - 1].proto == p then 1 else 0)
  }

  /** The histogram and the detail rows move together. */
  ghost predicate CountsMatch(acc: Acc)
  {
    forall p :: Count(acc.protocols, p) == RowsWith(acc.rows, p)
  }

  lemma RestCounts(acc: Acc, layers: Layers, h: Header, vendor: string, cfg: Config)
    requires CountsMatch(acc)
    ensures CountsMatch(Rest(acc, layers, h, vendor, cfg.activerTls, cfg.md5))
  {
    var inf := Infer(layers, h.src, cfg.activerTls, cfg.md5);
    var scored := Scored(acc, inf);
    match Tracked(scored, h, inf)
    case None =>
    case Some(t) =>
      assert t.protocols == acc.protocols && t.rows == acc.rows;
      var rows' := t.rows + [MakeRow(layers, h, vendor, inf)];
      assert rows'[..|rows'| - 1] == t.rows;
      forall p ensures Count(Bump(t.protocols, inf.proto), p) == RowsWith(rows', p) {
      }
  }

  /**
   * `repartition_protocoles` counts exactly the packets that reached the end
   * of the loop body, by protocol: each count is the number of detail rows
   * with that label (before truncation).
   */
  lemma {:induction false} RunCounts(packets: seq<Layers>, cfg: Config)
    ensures forall p :: Count(Run(packets, cfg).protocols, p) == RowsWith(Run(packets, cfg).rows, p)
    decreases |packets|
  {
    if packets != [] {
      var prev := Run(packets[..|packets| - 1], cfg);
      var layers := packets[|packets| - 1];
      RunCounts(packets[..|packets| - 1], cfg);
      match ReadHeader(layers, cfg.clock)
      case Raised =>
      case Ok(h) =>
        if cfg.fingerprint && Present(h.mac) {
          match Vendor(cfg.macReady, cfg.lookup, h.mac.value)
          case Raised =>
          case Ok(vendor) =>
            if !(h.src != UNKNOWN_ADDRESS && !Hashable(h.src)) {
              RestCounts(DeviceStep(prev, h, vendor), layers, h, vendor, cfg);
            }
        } else {
          RestCounts(prev, layers, h, "", cfg);
        }
    }
  }

  /** Each device is recorded once, under a real address, in first-seen order. */
  ghost predicate DevicesUnique(devices: seq<Device>)
  {
    (forall i, j :: 0 <= i < j < |devices| ==> devices[i].ip != devices[j].ip)
    && (forall k :: 0 <= k < |devices| ==> devices[k].ip != "?")
  }

  lemma RestDevices(acc: Acc, layers: Layers, h: Header, vendor: string, cfg: Config)
    ensures Rest(acc, layers, h, vendor, cfg.activerTls, cfg.md5).devices == acc.devices
  {
    var inf := Infer(layers, h.src, cfg.activerTls, cfg.md5);
    match Tracked(Scored(acc, inf), h, inf)
    case None =>
    case Some(t) =>
  }

  /** `appareils_detectes` never holds the same address twice, nor the "?" placeholder. */
  lemma {:induction false} RunDevicesUnique(packets: seq<Layers>, cfg: Config)
    ensures DevicesUnique(Run(packets, cfg).devices)
    decreases |packets|
  {
    if packets != [] {
      var prev := Run(packets[..|packets| - 1], cfg);
      var layers := packets[|packets| - 1];
      RunDevicesUnique(packets[..|packets| - 1], cfg);
      match ReadHeader(layers, cfg.clock)
      case Raised =>
      case Ok(h) =>
        if cfg.fingerprint && Present(h.mac) {
          match Vendor(cfg.macReady, cfg.lookup, h.mac.value)
          case Raised =>
          case Ok(vendor) =>
            if !(h.src != UNKNOWN_ADDRESS && !Hashable(h.src)) {
              var d := DeviceStep(prev, h, vendor);
              RestDevices(d, layers, h, vendor, cfg);
              if h.src != UNKNOWN_ADDRESS && h.src.Str? && !Known(prev.devices, h.src.s) {
                assert h.src.s != "?";
                assert d.devices == prev.devices + [Device(h.src.s, h.mac.value, vendor)];
              }
            }
        } else {
          RestDevices(prev, layers, h, "", cfg);
        }
    }
  }

  /** Without fingerprinting no packet records a device. */
  lemma {:induction false} NoFingerprintNoDevices(packets: seq<Layers>, cfg: Config)
    requires !cfg.fingerprint
    ensures Run(packets, cfg).devices == []
    decreases |packets|
  {
    if packets != [] {
      var prev := Run(packets[..|packets| - 1], cfg);
      var layers := packets[|packets| - 1];
      NoFingerprintNoDevices(packets[..|packets| - 1], cfg);
      match ReadHeader(layers, cfg.clock)
      case Raised =>
      case Ok(h) =>
        RestDevices(prev, layers, h, "", cfg);
    }
  }

  /**
   * The device a packet offers to `appareils_detectes`: with fingerprinting on,
   * a readable header, a true MAC whose lookup does not raise, and a source
   * that is a string other than "?".
   */
  function Candidate(layers: Layers, cfg: Config): Option<Device>
  {
    match ReadHeader(layers, cfg.clock)
    case Raised => None
    case Ok(h) =>
      if cfg.fingerprint && Present(h.mac) && h.src != UNKNOWN_ADDRESS && h.src.Str? then
        match Vendor(cfg.macReady, cfg.lookup, h.mac.value)
        case Raised => None
        case Ok(vendor) => Some(Device(h.src.s, h.mac.value, vendor))
      else None
  }

  predicate OffersAddress(layers: Layers, cfg: Config, ip: string)
  {
    Candidate(layers, cfg).Some? && Candidate(layers, cfg).value.ip == ip
  }

  /** The index of the first packet offering `ip`, or the length when none does. */
  function FirstOffer(packets: seq<Layers>, cfg: Config, ip: string): (r: nat)
    ensures r <= |packets|
    ensures r < |packets| ==> OffersAddress(packets[r], cfg, ip)
    ensures forall j :: 0 <= j < r && j < |packets| ==> !OffersAddress(packets[j], cfg, ip)
  {
    if packets == [] then 0
    else
      var init := packets[..|packets| - 1];
      var f := FirstOffer(init, cfg, ip);
      assert forall j :: 0 <= j < |init| ==> init[j] == packets[j];
      if f < |init| then f
      else if OffersAddress(packets[|packets| - 1], cfg, ip) then |init|
      else |packets|
  }

  /** One packet appends its candidate device exactly when the address is new. */
  lemma StepDevices(acc: Acc, layers: Layers, cfg: Config)
    ensures Step(acc, layers, cfg).devices == Offered(acc.devices, Candidate(layers, cfg))
  {
    match ReadHeader(layers, cfg.clock)
    case Raised =>
    case Ok(h) =>
      if cfg.fingerprint && Present(h.mac) {
        match Vendor(cfg.macReady, cfg.lookup, h.mac.value)
        case Raised =>
        case Ok(vendor) =>
          if !(h.src != UNKNOWN_ADDRESS && !Hashable(h.src)) {
            RestDevices(DeviceStep(acc, h, vendor), layers, h, vendor, cfg);
          }
      } else {
        RestDevices(acc, layers, h, "", cfg);
      }
  }

  /**
   * `devices` is the first-seen list of the addresses `packets` offer: an
   * address is listed exactly when some packet offers it, each entry is the
   * candidate of the first packet offering its address, and entries follow the
   * order of those first packets.
   */
  ghost predicate FirstSeen(packets: seq<Layers>, cfg: Config, devices: seq<Device>)
  {
    && (forall ip :: Known(devices, ip) <==> FirstOffer(packets, cfg, ip) < |packets|)
    && (forall k :: 0 <= k < |devices| ==>
          FirstOffer(packets, cfg, devices[k].ip) < |packets|
          && Candidate(packets[FirstOffer(packets, cfg, devices[k].ip)], cfg) == Some(devices[k]))
    && (forall k1, k2 :: 0 <= k1 < k2 < |devices| ==>
          FirstOffer(packets, cfg, devices[k1].ip) < FirstOffer(packets, cfg, devices[k2].ip))
  }

  /** `devices` with the candidate `c` appended when its address is new. */
  function Offered(devices: seq<Device>, c: Option<Device>): seq<Device>
  {
    devices + (if c.Some? && !Known(devices, c.value.ip) then [c.value] else [])
  }

  lemma FirstOfferStep(init: seq<Layers>, layers: Layers, cfg: Config, ip: string)
    ensures FirstOffer(init + [layers], cfg, ip)
         == (if FirstOffer(init, cfg, ip) < |init| then FirstOffer(init, cfg, ip)
             else if OffersAddress(layers, cfg, ip) then |init| else |init| + 1)
  {
    assert (init + [layers])[..|init|] == init;
  }

  lemma KnownOffered(devices: seq<Device>, c: Option<Device>, ip: string)
    ensures Known(Offered(devices, c), ip) <==> Known(devices, ip) || (c.Some? && c.value.ip == ip)
  {
    var after := Offered(devices, c);
    if Known(devices, ip) {
      var k :| 0 <= k < |devices| && devices[k].ip == ip;
      assert after[k].ip == ip;
    }
    if Known(after, ip) && !Known(devices, ip) {
      var k :| 0 <= k < |after| && after[k].ip == ip;
      assert k == |devices|;
    }
    if c.Some? && c.value.ip == ip && !Known(devices, ip) {
      assert after[|devices|].ip == ip;
    }
  }

  /** One more packet keeps the first-seen list when its device is appended only if new. */
  lemma FirstSeenStep(init: seq<Layers>, layers: Layers, cfg: Config, before: seq<Device>)
    requires FirstSeen(init, cfg, before)
    ensures FirstSeen(init + [layers], cfg, Offered(before, Candidate(layers, cfg)))
  {
    var packets := init + [layers];
    var c := Candidate(layers, cfg);
    var devices := Offered(before, c);
    forall ip ensures Known(devices, ip) <==> FirstOffer(packets, cfg, ip) < |packets| {
      FirstOfferStep(init, layers, cfg, ip);
      KnownOffered(before, c, ip);
    }
    forall k | 0 <= k < |devices|
      ensures FirstOffer(packets, cfg, devices[k].ip) < |packets|
      ensures Candidate(packets[FirstOffer(packets, cfg, devices[k].ip)], cfg) == Some(devices[k])
    {
      FirstOfferStep(init, layers, cfg, devices[k].ip);
      if k < |before| {
        assert devices[k] == before[k];
        assert packets[FirstOffer(init, cfg, before[k].ip)] == init[FirstOffer(init, cfg, before[k].ip)];
      } else {
        assert devices[k] == c.value;
        KnownOffered(before, c, c.value.ip);
      }
    }
    forall k1, k2 | 0 <= k1 < k2 < |devices|
      ensures FirstOffer(packets, cfg, devices[k1].ip) < FirstOffer(packets, cfg, devices[k2].ip)
    {
      FirstOfferStep(init, layers, cfg, devices[k1].ip);
      FirstOfferStep(init, layers, cfg, devices[k2].ip);
      assert devices[k1] == before[k1];
      if k2 < |before| {
        assert devices[k2] == before[k2];
      }
    }
  }

  /** `appareils_detectes` is the first-seen list of the devices the capture offers. */
  lemma {:induction false} RunDevicesFirstSeen(packets: seq<Layers>, cfg: Config)
    ensures FirstSeen(packets, cfg, Run(packets, cfg).devices)
    decreases |packets|
  {
    if packets == [] {
      assert forall ip :: !Known([], ip);
    } else {
      var init := packets[..|packets| - 1];
      assert packets == init + [packets[|packets| - 1]];
      RunDevicesFirstSeen(init, cfg);
      StepDevices(Run(init, cfg), packets[|packets| - 1], cfg);
      FirstSeenStep(init, packets[|packets| - 1], cfg, Run(init, cfg).devices);
    }
  }

  /** Every packet that offers a device gets its address recorded. */
  lemma DevicesComplete(packets: seq<Layers>, cfg: Config, i: nat)
    requires i < |packets| && Candidate(packets[i], cfg).Some?
    ensures Known(Run(packets, cfg).devices, Candidate(packets[i], cfg).value.ip)
  {
    var ip := Candidate(packets[i], cfg).value.ip;
    assert OffersAddress(packets[i], cfg, ip);
    assert FirstOffer(packets, cfg, ip) <= i;
    RunDevicesFirstSeen(packets, cfg);
  }

  /** The tracker only holds pairs of real addresses, each with at least one port. */
  ghost predicate PairsReal(acc: Acc)
  {
    forall p :: p in acc.ports ==> p.0 != "?" && p.1 != "?" && acc.ports[p] != {}
  }

  lemma RestPairsReal(acc: Acc, layers: Layers, h: Header, vendor: string, cfg: Config)
    requires PairsReal(acc)
    ensures PairsReal(Rest(acc, layers, h, vendor, cfg.activerTls, cfg.md5))
  {
    var inf := Infer(layers, h.src, cfg.activerTls, cfg.md5);
    var scored := Scored(acc, inf);
    match Tracked(scored, h, inf)
    case None =>
    case Some(t) =>
      if h.src != UNKNOWN_ADDRESS && h.dst != UNKNOWN_ADDRESS && Present(inf.port) {
        assert h.src.s != "?" && h.dst.s != "?";
      }
  }

  /** A pair enters the tracker only when both addresses are known and a port was read. */
  lemma {:induction false} RunPairsReal(packets: seq<Layers>, cfg: Config)
    ensures PairsReal(Run(packets, cfg))
    decreases |packets|
  {
    if packets != [] {
      var prev := Run(packets[..|packets| - 1], cfg);
      var layers := packets[|packets| - 1];
      RunPairsReal(packets[..|packets| - 1], cfg);
      match ReadHeader(layers, cfg.clock)
      case Raised =>
      case Ok(h) =>
        if cfg.fingerprint && Present(h.mac) {
          match Vendor(cfg.macReady, cfg.lookup, h.mac.value)
          case Raised =>
          case Ok(vendor) =>
            if !(h.src != UNKNOWN_ADDRESS && !Hashable(h.src)) {
              RestPairsReal(DeviceStep(prev, h, vendor), layers, h, vendor, cfg);
            }
        } else {
          RestPairsReal(prev, layers, h, "", cfg);
        }
    }
  }

  /**
   * The (pair, port) a packet offers to `tracker_scan`: a readable header, no
   * raise at the vendor or device statements, two string addresses other
   * than "?", and a true destination port, printed with `str()`.
   */
  function PortOffer(layers: Layers, cfg: Config): Option<(Pair, string)>
  {
    match ReadHeader(layers, cfg.clock)
    case Raised => None
    case Ok(h) =>
      var port := Transport(layers).1;
      var reached := !(cfg.fingerprint && Present(h.mac))
                     || (Vendor(cfg.macReady, cfg.lookup, h.mac.value).Ok?
                         && (h.src == UNKNOWN_ADDRESS || Hashable(h.src)));
      if reached && h.src != UNKNOWN_ADDRESS && h.dst != UNKNOWN_ADDRESS && Present(port)
         && Hashable(h.src) && Hashable(h.dst)
      then Some(((h.src.s, h.dst.s), PyStr(port.value)))
      else None
  }

  /** `tracker_scan[pair].add(port)` for an offer, if any. */
  function AddOffer(ports: map<Pair, set<string>>, o: Option<(Pair, string)>): map<Pair, set<string>>
  {
    if o.None? then ports
    else if o.value.0 in ports then ports[o.value.0 := ports[o.value.0] + {o.value.1}]
    else ports[o.value.0 := {o.value.1}]
  }

  lemma RestPorts(acc: Acc, layers: Layers, h: Header, vendor: string, cfg: Config)
    ensures var port := Transport(layers).1;
      Rest(acc, layers, h, vendor, cfg.activerTls, cfg.md5).ports
        == (if h.src != UNKNOWN_ADDRESS && h.dst != UNKNOWN_ADDRESS && Present(port)
               && Hashable(h.src) && Hashable(h.dst)
            then AddOffer(acc.ports, Some(((h.src.s, h.dst.s), PyStr(port.value))))
            else acc.ports)
  {
    var inf := Infer(layers, h.src, cfg.activerTls, cfg.md5);
    InferFacts(layers, h.src, cfg.activerTls, cfg.md5);
    match Tracked(Scored(acc, inf), h, inf)
    case None =>
    case Some(t) =>
  }

  /** One packet adds exactly its offered port to the tracker. */
  lemma StepPorts(acc: Acc, layers: Layers, cfg: Config)
    ensures Step(acc, layers, cfg).ports == AddOffer(acc.ports, PortOffer(layers, cfg))
  {
    match ReadHeader(layers, cfg.clock)
    case Raised =>
    case Ok(h) =>
      if cfg.fingerprint && Present(h.mac) {
        match Vendor(cfg.macReady, cfg.lookup, h.mac.value)
        case Raised =>
        case Ok(vendor) =>
          if !(h.src != UNKNOWN_ADDRESS && !Hashable(h.src)) {
            RestPorts(DeviceStep(acc, h, vendor), layers, h, vendor, cfg);
          }
      } else {
        RestPorts(acc, layers, h, "", cfg);
      }
  }

  predicate OffersPair(layers: Layers, cfg: Config, p: Pair)
  {
    PortOffer(layers, cfg).Some? && PortOffer(layers, cfg).value.0 == p
  }

  /** The ports the packets offer for the pair `p`. */
  ghost function PortsSeen(packets: seq<Layers>, cfg: Config, p: Pair): set<string>
  {
    set k | 0 <= k < |packets| && OffersPair(packets[k], cfg, p) :: PortOffer(packets[k], cfg).value.1
  }

  /** The tracker holds exactly the pairs some packet offers, each with the ports offered for it. */
  ghost predicate TrackerContents(packets: seq<Layers>, cfg: Config, ports: map<Pair, set<string>>)
  {
    forall p :: (p in ports <==> PortsSeen(packets, cfg, p) != {})
                && (p in ports ==> ports[p] == PortsSeen(packets, cfg, p))
  }

  lemma PortsSeenStep(init: seq<Layers>, layers: Layers, cfg: Config, p: Pair)
    ensures PortsSeen(init + [layers], cfg, p)
         == PortsSeen(init, cfg, p) + (if OffersPair(layers, cfg, p) then {PortOffer(layers, cfg).value.1} else {})
  {
    var packets := init + [layers];
    var before := PortsSeen(init, cfg, p);
    var after := PortsSeen(packets, cfg, p);
    forall x | x in after
      ensures x in before || (OffersPair(layers, cfg, p) && x == PortOffer(layers, cfg).value.1)
    {
      var k :| 0 <= k < |packets| && OffersPair(packets[k], cfg, p) && x == PortOffer(packets[k], cfg).value.1;
      if k < |init| {
        assert packets[k] == init[k];
      }
    }
    forall x | x in before ensures x in after {
      var k :| 0 <= k < |init| && OffersPair(init[k], cfg, p) && x == PortOffer(init[k], cfg).value.1;
      assert packets[k] == init[k];
    }
    if OffersPair(layers, cfg, p) {
      assert packets[|init|] == layers;
      assert PortOffer(layers, cfg).value.1 in after;
    }
  }

  lemma TrackerContentsStep(init: seq<Layers>, layers: Layers, cfg: Config, ports: map<Pair, set<string>>)
    requires TrackerContents(init, cfg, ports)
    ensures TrackerContents(init + [layers], cfg, AddOffer(ports, PortOffer(layers, cfg)))
  {
    forall p
      ensures var after := AddOffer(ports, PortOffer(layers, cfg));
        (p in after <==> PortsSeen(init + [layers], cfg, p) != {})
        && (p in after ==> after[p] == PortsSeen(init + [layers], cfg, p))
    {
      PortsSeenStep(init, layers, cfg, p);
    }
  }

  /**
   * `tracker_scan` holds exactly the pairs some packet offers, and each pair
   * holds exactly the ports the packets offered for it.
   */
  lemma {:induction false} RunTrackerContents(packets: seq<Layers>, cfg: Config)
    ensures TrackerContents(packets, cfg, Run(packets, cfg).ports)
    decreases |packets|
  {
    if packets != [] {
      var init := packets[..|packets| - 1];
      assert packets == init + [packets[|packets| - 1]];
      RunTrackerContents(init, cfg);
      StepPorts(Run(init, cfg), packets[|packets| - 1], cfg);
      TrackerContentsStep(init, packets[|packets| - 1], cfg, Run(init, cfg).ports);
    }
  }

  /**
   * A pair is flagged by the port-scan pass exactly when the packets offered
   * more than fifteen distinct ports for it.
   */
  lemma ScanningFromPackets(packets: seq<Layers>, cfg: Config, p: Pair)
    ensures p in ScanningPairs(Run(packets, cfg)) <==> |PortsSeen(packets, cfg, p)| > SCAN_THRESHOLD
  {
    var acc := Run(packets, cfg);
    assert TrackerContents(packets, cfg, acc.ports) by {
      RunTrackerContents(packets, cfg);
    }
    if p !in acc.ports {
      assert PortsSeen(packets, cfg, p) == {};
    }
  }

  /**
   * The entry of `details_trafic` for one packet, or None when an exception
   * ends its iteration first: the header cannot be read, the vendor probe or
   * the device record raises, or the tracker key cannot be hashed. The entry
   * carries the header, the vendor of a probed MAC ("" otherwise), and what
   * the protocol block decided.
   */
  function PacketRow(layers: Layers, cfg: Config): Option<Row>
  {
    match ReadHeader(layers, cfg.clock)
    case Raised => None
    case Ok(h) =>
      var probed := cfg.fingerprint && Present(h.mac);
      var vendor := if probed then Vendor(cfg.macReady, cfg.lookup, h.mac.value) else Ok("");
      var port := Transport(layers).1;
      if vendor.Raised? || (probed && h.src != UNKNOWN_ADDRESS && !Hashable(h.src))
         || (h.src != UNKNOWN_ADDRESS && h.dst != UNKNOWN_ADDRESS && Present(port) && !(Hashable(h.src) && Hashable(h.dst)))
      then None
      else
        var inf := Infer(layers, h.src, cfg.activerTls, cfg.md5);
        Some(Row(h.heure, h.src, h.dst, vendor.value, h.mac, inf.proto, inf.service, PyStr(inf.info), layers, inf.tls))
  }

  function Emitted(row: Option<Row>): seq<Row>
  {
    if row.Some? then [row.value] else []
  }

  /** The entries of the packets, in capture order. */
  function Rows(packets: seq<Layers>, cfg: Config): (r: seq<Row>)
    ensures |r| <= |packets|
  {
    if packets == [] then [] else Emitted(PacketRow(packets[0], cfg)) + Rows(packets[1..], cfg)
  }

  lemma {:induction false} RowsSnoc(init: seq<Layers>, layers: Layers, cfg: Config)
    ensures Rows(init + [layers], cfg) == Rows(init, cfg) + Emitted(PacketRow(layers, cfg))
    decreases |init|
  {
    if init == [] {
      assert [layers][1..] == [];
    } else {
      assert (init + [layers])[1..] == init[1..] + [layers];
      RowsSnoc(init[1..], layers, cfg);
    }
  }

  lemma RestRows(acc: Acc, layers: Layers, h: Header, vendor: string, cfg: Config)
    ensures var port := Transport(layers).1;
      var inf := Infer(layers, h.src, cfg.activerTls, cfg.md5);
      Rest(acc, layers, h, vendor, cfg.activerTls, cfg.md5).rows
        == acc.rows + (if h.src != UNKNOWN_ADDRESS && h.dst != UNKNOWN_ADDRESS && Present(port)
                          && !(Hashable(h.src) && Hashable(h.dst))
                       then []
                       else [Row(h.heure, h.src, h.dst, vendor, h.mac, inf.proto, inf.service, PyStr(inf.info), layers, inf.tls)])
  {
    var inf := Infer(layers, h.src, cfg.activerTls, cfg.md5);
    InferFacts(layers, h.src, cfg.activerTls, cfg.md5);
    match Tracked(Scored(acc, inf), h, inf)
    case None =>
    case Some(t) =>
  }

  /** One iteration appends exactly the packet's entry, if any. */
  lemma StepRows(acc: Acc, layers: Layers, cfg: Config)
    ensures Step(acc, layers, cfg).rows == acc.rows + Emitted(PacketRow(layers, cfg))
  {
    match ReadHeader(layers, cfg.clock)
    case Raised =>
    case Ok(h) =>
      if cfg.fingerprint && Present(h.mac) {
        match Vendor(cfg.macReady, cfg.lookup, h.mac.value)
        case Raised =>
        case Ok(vendor) =>
          if !(h.src != UNKNOWN_ADDRESS && !Hashable(h.src)) {
            RestRows(DeviceStep(acc, h, vendor), layers, h, vendor, cfg);
          }
      } else {
        RestRows(acc, layers, h, "", cfg);
      }
  }

  /** `details_trafic` after the loop holds the entry of every packet that gets one, in capture order. */
  lemma {:induction false} RunRows(packets: seq<Layers>, cfg: Config)
    ensures Run(packets, cfg).rows == Rows(packets, cfg)
    decreases |packets|
  {
    if packets != [] {
      var init := packets[..|packets| - 1];
      var last := packets[|packets| - 1];
      assert packets == init + [last];
      RunRows(init, cfg);
      StepRows(Run(init, cfg), last, cfg);
      RowsSnoc(init, last, cfg);
    }
  }

  /**
   * A packet whose vendor probe raises, or whose unhashable source makes the
   * device test raise, leaves the loop state unchanged.
   */
  lemma ProbeRaiseChangesNothing(acc: Acc, layers: Layers, cfg: Config)
    requires ReadHeader(layers, cfg.clock).Ok?
    requires var h := ReadHeader(layers, cfg.clock).value;
      && cfg.fingerprint && Present(h.mac)
      && (Vendor(cfg.macReady, cfg.lookup, h.mac.value).Raised? || (h.src != UNKNOWN_ADDRESS && !Hashable(h.src)))
    ensures Step(acc, layers, cfg) == acc
    ensures PacketRow(layers, cfg).None?
  {
  }

  /**
   * A packet whose time, addresses or MAC cannot be read changes neither the
   * loop state nor the MAC cache.
   */
  lemma HeaderRaiseChangesNothing(acc: Acc, cache: map<string, string>, layers: Layers, cfg: Config)
    requires ReadHeader(layers, cfg.clock).Raised?
    ensures Step(acc, layers, cfg) == acc
    ensures CacheStep(cache, layers, cfg) == cache
  {
  }

  /** Every alert of the packet loop has cost at least five points. */
  ghost predicate AlertsPaid(acc: Acc)
  {
    acc.halves + AUTH_PENALTY * |acc.alerts| <= START_HALVES
  }

  lemma RestAlertsPaid(acc: Acc, layers: Layers, h: Header, vendor: string, cfg: Config)
    requires AlertsPaid(acc)
    ensures AlertsPaid(Rest(acc, layers, h, vendor, cfg.activerTls, cfg.md5))
  {
    var inf := Infer(layers, h.src, cfg.activerTls, cfg.md5);
    InferFacts(layers, h.src, cfg.activerTls, cfg.md5);
    var scored := Scored(acc, inf);
    assert AlertsPaid(scored);
    match Tracked(scored, h, inf)
    case None =>
    case Some(t) =>
      assert t.halves == scored.halves && t.alerts == scored.alerts;
  }

  lemma {:induction false} RunAlertsPaid(packets: seq<Layers>, cfg: Config)
    ensures AlertsPaid(Run(packets, cfg))
    decreases |packets|
  {
    if packets != [] {
      var prev := Run(packets[..|packets| - 1], cfg);
      var layers := packets[|packets| - 1];
      RunAlertsPaid(packets[..|packets| - 1], cfg);
      match ReadHeader(layers, cfg.clock)
      case Raised =>
      case Ok(h) =>
        if cfg.fingerprint && Present(h.mac) {
          match Vendor(cfg.macReady, cfg.lookup, h.mac.value)
          case Raised =>
          case Ok(vendor) =>
            if !(h.src != UNKNOWN_ADDRESS && !Hashable(h.src)) {
              RestAlertsPaid(DeviceStep(prev, h, vendor), layers, h, vendor, cfg);
            }
        } else {
          RestAlertsPaid(prev, layers, h, "", cfg);
        }
    }
  }

  /** A list has at least as many entries as the set of its entries. */
  lemma {:induction false} DistinctAtMost(s: seq<string>)
    ensures |set a | a in s| <= |s|
    decreases |s|
  {
    if s != [] {
      var init := s[..|s| - 1];
      DistinctAtMost(init);
      assert (set a | a in s) == (set a | a in init) + {s[|s| - 1]} by {
        assert s == init + [s[|s| - 1]];
      }
    }
  }

  /**
   * The port-scan loop raises one alert for each pair that touched more than
   * fifteen distinct ports, carrying that count, and no other.
   */
  lemma {:induction false} ScanAlertsExact(pairs: seq<Pair>, ports: map<Pair, set<string>>)
    ensures forall p :: p in pairs && Scanning(ports, p) ==> ScanAlert(p, |ports[p]|) in ScanAlerts(pairs, ports)
    ensures forall a :: a in ScanAlerts(pairs, ports) ==>
              exists p :: p in pairs && Scanning(ports, p) && a == ScanAlert(p, |ports[p]|)
    ensures |ScanAlerts(pairs, ports)| <= |pairs|
    decreases |pairs|
  {
    if pairs != [] {
      var init := pairs[..|pairs| - 1];
      ScanAlertsExact(init, ports);
      assert pairs == init + [pairs[|pairs| - 1]];
    }
  }

  /**
   * Over a duplicate-free key order, as the tracker's is, the port-scan loop
   * raises exactly one alert per scanning pair: its length is the number of
   * pairs that touched more than fifteen distinct ports.
   */
  lemma {:induction false} ScanAlertsCount(pairs: seq<Pair>, ports: map<Pair, set<string>>)
    requires forall i, j :: 0 <= i < j < |pairs| ==> pairs[i] != pairs[j]
    ensures |ScanAlerts(pairs, ports)| == |set p | p in pairs && Scanning(ports, p)|
    decreases |pairs|
  {
    if pairs != [] {
      var init := pairs[..|pairs| - 1];
      var last := pairs[|pairs| - 1];
      forall i | 0 <= i < |init| ensures init[i] != last {
        assert init[i] == pairs[i];
      }
      assert pairs == init + [last];
      ScanAlertsCount(init, ports);
      ScanningSetStep(init, last, ports);
    }
  }

  /** A new key adds itself to the scanning pairs exactly when it scans. */
  lemma ScanningSetStep(init: seq<Pair>, last: Pair, ports: map<Pair, set<string>>)
    requires last !in init
    ensures |set p | p in init + [last] && Scanning(ports, p)|
         == |set p | p in init && Scanning(ports, p)| + (if Scanning(ports, last) then 1 else 0)
  {
    var before := set p | p in init && Scanning(ports, p);
    var after := set p | p in init + [last] && Scanning(ports, p);
    assert forall p :: p in init + [last] <==> p in init || p == last;
    if Scanning(ports, last) {
      assert after == before + {last};
      assert last !in before;
    } else {
      assert after == before;
    }
  }

  /** The scanning pairs of a loop state, as keys of the tracker. */
  function ScanningPairs(acc: Acc): set<Pair>
  {
    set p | p in acc.ports && Scanning(acc.ports, p)
  }

  /** The loop's alerts and one port-scan alert, with its port count, per scanning pair. */
  function ReportMessages(acc: Acc): set<string>
  {
    (set a | a in acc.alerts) + (set p | p in ScanningPairs(acc) :: ScanAlert(p, |acc.ports[p]|))
  }

  lemma FinishScanScore(acc: Acc, total: nat)
    requires TrackerShape(acc)
    ensures Finish(acc, total).score == Clamp(TruncHalf(acc.halves - SCAN_PENALTY * |ScanningPairs(acc)|))
  {
    ScanAlertsCount(acc.pairs, acc.ports);
    assert ScanningPairs(acc) == set p | p in acc.pairs && Scanning(acc.ports, p);
  }

  lemma FinishScanAlerts(acc: Acc, total: nat)
    requires TrackerShape(acc)
    ensures Finish(acc, total).alerts
         == ReportMessages(acc)
  {
    ScanAlertsExact(acc.pairs, acc.ports);
    var scan := ScanAlerts(acc.pairs, acc.ports);
    assert (set a | a in acc.alerts + scan) == (set a | a in acc.alerts) + (set a | a in scan);
  }

  lemma FinishScanPass(acc: Acc, total: nat)
    requires TrackerShape(acc)
    ensures var r := Finish(acc, total);
      && r.score == Clamp(TruncHalf(acc.halves - SCAN_PENALTY * |ScanningPairs(acc)|))
      && r.alerts == ReportMessages(acc)
  {
    FinishScanScore(acc, total);
    FinishScanAlerts(acc, total);
  }

  /**
   * The scan pass of a report: 25 points per tracked pair with more than
   * fifteen distinct ports, taken before the truncation and the clamp; and
   * the report's alerts are those of the packet loop plus one scan alert per
   * such pair, carrying its port count.
   */
  lemma ScanPassCost(packets: seq<Layers>, cfg: Config)
    ensures var acc := Run(packets, cfg);
      var r := Analysis(Decoded(packets), cfg).report;
      && r.score == Clamp(TruncHalf(acc.halves - SCAN_PENALTY * |ScanningPairs(acc)|))
      && r.alerts == ReportMessages(acc)
  {
    AnalysisReport(packets, cfg);
    RunScanFacts(packets, cfg);
  }

  lemma AnalysisReport(packets: seq<Layers>, cfg: Config)
    ensures Analysis(Decoded(packets), cfg) == Analysed(Finish(Run(packets, cfg), |packets|))
  {
  }

  /** The score and alerts of the scan pass, for a report finished from `acc`. */
  predicate FinishScanFacts(acc: Acc, total: nat)
  {
    var r := Finish(acc, total);
    && r.score == Clamp(TruncHalf(acc.halves - SCAN_PENALTY * |ScanningPairs(acc)|))
    && r.alerts == ReportMessages(acc)
  }

  lemma RunScanFacts(packets: seq<Layers>, cfg: Config)
    ensures FinishScanFacts(Run(packets, cfg), |packets|)
  {
    RunTrackerShape(packets, cfg);
    ShapeScanFacts(Run(packets, cfg), |packets|);
  }

  lemma ShapeScanFacts(acc: Acc, total: nat)
    requires TrackerShape(acc)
    ensures FinishScanFacts(acc, total)
  {
    FinishScanPass(acc, total);
  }

  /**
   * The details of a report are the entries of the packets that get one, in
   * capture order, cut to the first 3000.
   */
  lemma AnalysisDetails(packets: seq<Layers>, cfg: Config)
    ensures var rows := Rows(packets, cfg);
      Analysis(Decoded(packets), cfg).report.details == (if |rows| > MAX_ROWS then rows[..MAX_ROWS] else rows)
  {
    RunRows(packets, cfg);
  }

  /**
   * Every distinct alert in a report has cost at least five points: the score
   * is at most 100 minus five per distinct alert, and never below 0.
   */
  lemma AnalysisAlertsCost(input: TsharkOutput, cfg: Config)
    requires input.Decoded?
    ensures var r := Analysis(input, cfg).report;
      r.score == 0 || r.score <= 100 - 5 * |r.alerts|
  {
    var acc := Run(input.packets, cfg);
    RunAlertsPaid(input.packets, cfg);
    var scan := ScanAlerts(acc.pairs, acc.ports);
    DistinctAtMost(acc.alerts + scan);
  }

  /**
   * The exception late in the loop body: a packet with a destination port whose
   * source or destination address is not a string still costs its penalties and
   * raises its alerts, although the tracker statement raises and the packet gets
   * neither a count, a row nor a tracked port.
   */
  lemma LateRaiseKeepsPenalty(acc: Acc, layers: Layers, cfg: Config)
    requires ReadHeader(layers, cfg.clock).Ok?
    requires var h := ReadHeader(layers, cfg.clock).value;
      && !(cfg.fingerprint && Present(h.mac))
      && h.src != UNKNOWN_ADDRESS && h.dst != UNKNOWN_ADDRESS && Present(Transport(layers).1)
      && !(Hashable(h.src) && Hashable(h.dst))
    ensures var inf := Infer(layers, ReadHeader(layers, cfg.clock).value.src, cfg.activerTls, cfg.md5);
      var after := Step(acc, layers, cfg);
      && after.halves == acc.halves - inf.penalty && after.alerts == acc.alerts + inf.alerts
      && after.rows == acc.rows && after.protocols == acc.protocols
      && after.ports == acc.ports && after.pairs == acc.pairs && after.devices == acc.devices
  {
    var h := ReadHeader(layers, cfg.clock).value;
    InferFacts(layers, h.src, cfg.activerTls, cfg.md5);
  }

  // ---------------------------------------------------------------------------
  // The imperative analyser

  /** The DNS branch of the protocol block. */
  method InspectDns(base: Inference, dns: Layer) returns (inf: Inference)
    ensures inf == DnsView(base, dns)
  {
    var infoBrute := Str("DNS Query");
    var serviceNom := base.service;
    var queries := GetOr(dns, "Queries", Obj([]));
    if queries.Obj? {
      var name := DnsQueryName(queries.entries);
      if name.Some? {
        infoBrute := name.value;
        serviceNom := ExtraireService(infoBrute);
      }
    }
    inf := base.(proto := Dns, info := infoBrute, service := serviceNom);
  }

  /** The HTTP branch of the protocol block. */
  method InspectHttp(base: Inference, http: Layer) returns (inf: Inference)
    ensures inf == HttpView(base, http)
  {
    var host := GetOr(http, "http.host", Str(""));
    var uri := GetOr(http, "http.request.uri", Str(""));
    var infoBrute := Str(PyStr(host) + PyStr(uri));
    var serviceNom := ExtraireService(Str(PyStr(host)));
    var penalty := HTTP_PENALTY;
    var alerts: seq<string> := [];
    if "http.authorization" in http {
      penalty := penalty + AUTH_PENALTY;
      alerts := alerts + [HttpAlert(serviceNom)];
    }
    inf := base.(proto := Http, info := infoBrute, service := serviceNom, penalty := penalty, alerts := alerts);
  }

  /** The TLS branch of the protocol block, with or without the TLS engine. */
  method InspectTls(base: Inference, srcIp: Value, tls: Layer, activerTls: bool, md5: string -> string,
                    engine: Tls.TlsEngine) returns (inf: Inference)
    ensures activerTls ==> inf == TlsView(base, srcIp, Tls.Fingerprint(tls, md5))
    ensures !activerTls ==> inf == PlainTlsView(base, tls)
  {
    var infoBrute := base.info;
    var serviceNom := SECURE_WEB;
    if activerTls {
      var tlsResult := engine.ProcessPacket(tls, md5);
      var penalty := 0;
      var alerts: seq<string> := [];
      if Present(tlsResult.sni) {
        infoBrute := Str("SNI: " + PyStr(tlsResult.sni.value));
        serviceNom := ExtraireService(tlsResult.sni.value);
      }
      if tlsResult.ja3Hash.Some? && tlsResult.ja3Hash.value != "" {
        infoBrute := Str(PyStr(infoBrute) + " [JA3: " + HashPrefix(tlsResult.ja3Hash.value) + "...]");
      }
      if tlsResult.suspicious {
        penalty := penalty + TLS_PENALTY;
        alerts := alerts + [TlsAlert(srcIp, tlsResult.riskReasons)];
      }
      inf := base.(proto := Https, info := infoBrute, service := serviceNom, penalty := penalty,
                   alerts := alerts, tls := Some(tlsResult));
    } else {
      if Tls.SNI_FIELD in tls {
        infoBrute := tls[Tls.SNI_FIELD];
        serviceNom := ExtraireService(infoBrute);
      }
      inf := base.(proto := Https, info := infoBrute, service := serviceNom);
    }
  }

  /** The protocol block of the loop body: protocol, port, service, info, penalties, alerts. */
  method InspectLayers(layers: Layers, srcIp: Value, activerTls: bool, md5: string -> string,
                       engine: Tls.TlsEngine) returns (inf: Inference)
    ensures inf == Infer(layers, srcIp, activerTls, md5)
  {
    var proto := Autre;
    var portDst: Option<Value> := None;
    if "tcp" in layers {
      proto := Tcp;
      portDst := Field(layers, "tcp", "tcp.dstport");
    } else if "udp" in layers {
      proto := Udp;
      portDst := Field(layers, "udp", "udp.dstport");
    }
    assert (proto, portDst) == Transport(layers);
    inf := Inference(proto, portDst, Str(""), "", 0, [], None);

    if "dns" in layers {
      inf := InspectDns(inf, layers["dns"]);
    } else if "http" in layers {
      inf := InspectHttp(inf, layers["http"]);
    } else if "tls" in layers {
      inf := InspectTls(inf, srcIp, layers["tls"], activerTls, md5, engine);
    }
    assert inf == Classify(layers, srcIp, activerTls, md5);

    if inf.service == "" && Present(inf.port) {
      inf := inf.(service := PortLabel(PortText(inf.port.value)));
    }
  }

  /**
   * The `try` block of the packet loop for one packet: an exception returns the
   * state as the statements before it left it.
   */
  method AnalysePacket(acc: Acc, layers: Layers, activerFingerprint: bool, activerTls: bool,
                       clock: Option<string> -> string, md5: string -> string,
                       macs: VendorCache, engine: Tls.TlsEngine) returns (next: Acc)
    requires macs.Valid()
    modifies macs`cache
    ensures macs.Valid()
    ensures next == Step(acc, layers, Config(activerFingerprint, activerTls, macs.ready, macs.lookup, clock, md5))
    ensures macs.cache == CacheStep(old(macs.cache), layers,
                                    Config(activerFingerprint, activerTls, macs.ready, macs.lookup, clock, md5))
  {
    ghost var cfg := Config(activerFingerprint, activerTls, macs.ready, macs.lookup, clock, md5);
    next := acc;

    var header := ReadHeader(layers, clock);
    if header.Raised? {
      return;
    }
    var h := header.value;

    var vendorStr := "";
    if activerFingerprint && Present(h.mac) {
      var v := macs.GetVendor(h.mac.value);
      if v.Raised? {
        return;
      }
      vendorStr := v.value;
      if h.src != UNKNOWN_ADDRESS {
        if !Hashable(h.src) {
          return;
        }
        if !Known(next.devices, h.src.s) {
          next := next.(devices := next.devices + [Device(h.src.s, h.mac.value, vendorStr)]);
        }
      }
      assert next == DeviceStep(acc, h, vendorStr);
    }
    assert Step(acc, layers, cfg) == Rest(next, layers, h, vendorStr, activerTls, md5);
    next := AccountPacket(next, layers, h, vendorStr, activerTls, md5, engine);
  }

  /**
   * The rest of the `try` block: protocol block, penalties and alerts, then the
   * scan tracker (which raises on a non-string address), then count and row.
   */
  method AccountPacket(acc: Acc, layers: Layers, h: Header, vendorStr: string, activerTls: bool,
                       md5: string -> string, engine: Tls.TlsEngine) returns (next: Acc)
    ensures next == Rest(acc, layers, h, vendorStr, activerTls, md5)
  {
    var inf := InspectLayers(layers, h.src, activerTls, md5, engine);
    next := acc.(halves := acc.halves - inf.penalty, alerts := acc.alerts + inf.alerts);
    ghost var scored := next;

    if h.src != UNKNOWN_ADDRESS && h.dst != UNKNOWN_ADDRESS && Present(inf.port) {
      if !(Hashable(h.src) && Hashable(h.dst)) {
        return;
      }
      var key := (h.src.s, h.dst.s);
      var port := PyStr(inf.port.value);
      if key in next.ports {
        next := next.(ports := next.ports[key := next.ports[key] + {port}]);
      } else {
        next := next.(ports := next.ports[key := {port}], pairs := next.pairs + [key]);
      }
    }
    assert Tracked(scored, h, inf) == Some(next);

    next := next.(protocols := Bump(next.protocols, inf.proto),
                  rows := next.rows + [MakeRow(layers, h, vendorStr, inf)]);
  }

  /** The packet loop over the decoded capture, in order. */
  method PacketLoop(paquets: seq<Layers>, activerFingerprint: bool, activerTls: bool,
                    clock: Option<string> -> string, md5: string -> string,
                    macs: VendorCache, engine: Tls.TlsEngine) returns (state: Acc)
    requires macs.Valid()
    modifies macs`cache
    ensures macs.Valid()
    ensures state == Run(paquets, Config(activerFingerprint, activerTls, macs.ready, macs.lookup, clock, md5))
    ensures macs.cache == CacheRun(old(macs.cache), paquets,
                                   Config(activerFingerprint, activerTls, macs.ready, macs.lookup, clock, md5))
  {
    ghost var cfg := Config(activerFingerprint, activerTls, macs.ready, macs.lookup, clock, md5);
    ghost var cache0 := macs.cache;
    state := Initial;
    for i := 0 to |paquets|
      invariant macs.Valid()
      invariant state == Run(paquets[..i], cfg)
      invariant macs.cache == CacheRun(cache0, paquets[..i], cfg)
    {
      assert paquets[..i + 1][..i] == paquets[..i];
      state := AnalysePacket(state, paquets[i], activerFingerprint, activerTls, clock, md5, macs, engine);
    }
    assert paquets[..|paquets|] == paquets;
  }

  /** The loop over `tracker_scan.items()`: one alert and 25 points per scanning pair. */
  method ScanPorts(state: Acc) returns (alertes: seq<string>, score: int)
    requires TrackerShape(state)
    ensures alertes == state.alerts + ScanAlerts(state.pairs, state.ports)
    ensures score == state.halves - SCAN_PENALTY * |ScanAlerts(state.pairs, state.ports)|
  {
    score := state.halves;
    alertes := state.alerts;
    for j := 0 to |state.pairs|
      invariant alertes == state.alerts + ScanAlerts(state.pairs[..j], state.ports)
      invariant score == state.halves - SCAN_PENALTY * |ScanAlerts(state.pairs[..j], state.ports)|
    {
      assert state.pairs[..j + 1][..j] == state.pairs[..j];
      var pair := state.pairs[j];
      var ports := state.ports[pair];
      if |ports| > SCAN_THRESHOLD {
        alertes := alertes + [ScanAlert(pair, |ports|)];
        score := score - SCAN_PENALTY;
      }
    }
    assert state.pairs[..|state.pairs|] == state.pairs;
  }

  /**
   * `analyser_trafic`: the packet loop, then the scan loop, clamping,
   * deduplication and truncation. The MAC cache grows by the MACs looked up.
   */
  method AnalyserTrafic(input: TsharkOutput, activerFingerprint: bool, activerTls: bool,
                        clock: Option<string> -> string, md5: string -> string,
                        macs: VendorCache, engine: Tls.TlsEngine) returns (res: AnalysisResult)
    requires macs.Valid()
    modifies macs`cache
    ensures macs.Valid()
    ensures res == Analysis(input, Config(activerFingerprint, activerTls, macs.ready, macs.lookup, clock, md5))
    ensures input.Decoded? ==>
              macs.cache == CacheRun(old(macs.cache), input.packets,
                                     Config(activerFingerprint, activerTls, macs.ready, macs.lookup, clock, md5))
    ensures !input.Decoded? ==> macs.cache == old(macs.cache)
  {
    if input.FileMissing? {
      return Failed("Fichier introuvable");
    }
    if input.ToolFailed? {
      return Failed(input.message);
    }
    if input.EmptyOutput? {
      return NoOutput;
    }
    var paquets := input.packets;
    var state := PacketLoop(paquets, activerFingerprint, activerTls, clock, md5, macs, engine);
    RunTrackerShape(paquets, Config(activerFingerprint, activerTls, macs.ready, macs.lookup, clock, md5));
    var alertes, score := ScanPorts(state);

    var finalScore := Clamp(TruncHalf(score));
    var detailsTrafic := state.rows;
    if |detailsTrafic| > MAX_ROWS {
      detailsTrafic := detailsTrafic[..MAX_ROWS];
    }
    res := Analysed(Report(finalScore, |paquets|, state.protocols, (set a | a in alertes), state.devices, detailsTrafic));
  }
}
