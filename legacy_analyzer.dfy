// The first version of the traffic analyser: no device fingerprinting, no TLS
// engine and no port-scan detection; a server name is taken from the
// handshake text with a pattern, a domain's second-level label names an
// unknown service, and a clear-text credential caps the score at 45.
//
// Every exception this loop body can raise comes before its first effect, so
// a packet contributes all of its effects or none of them.

module LegacyAnalyzer {
  import opened Text
  import opened PyValues
  import opened ServiceNames

  const START_HALVES := 200
  const HTTP_PENALTY := 1          // 0.5 point
  const AUTH_PENALTY := 10         // 5 points
  const CRITICAL_CAP := 45
  const CRITICAL_MARK := "Mot de passe"
  const QUERY_NAME := "dns.qry.name"

  datatype Proto = TcpUdp | Dns | Http | Https

  /** The protocol names used as keys of `repartition_protocoles`. */
  function ProtoName(p: Proto): string
  {
    match p
    case TcpUdp => "TCP/UDP"
    case Dns => "DNS"
    case Http => "HTTP"
    case Https => "HTTPS"
  }

  // ---------------------------------------------------------------------------
  // Service resolution

  /** `parties[-2]` of `texte.split('.')` when it is longer than two characters. */
  function DomainLabel(s: string): Option<string>
  {
    var parts := Split(s, '.');
    if |parts| >= 2 && |parts[|parts| - 2]| > 2 then Some(parts[|parts| - 2]) else None
  }

  /**
   * `extraire_service`: "" for a false value; calling `lower` on a true list or
   * dictionary raises; a registry keyword wins; then the capitalised
   * second-to-last dot-separated label when it is longer than two characters;
   * else "Autre".
   */
  function Service(texte: Value): (r: Result<string>)
    ensures r == Ok("") <==> !Truthy(texte)
    ensures r.Raised? <==> Truthy(texte) && !texte.Str?
  {
    if !Truthy(texte) then Ok("")
    else if !texte.Str? then Raised
    else
      match KeywordLabel(texte.s)
      case Some(name) => Ok(name)
      case None =>
        match DomainLabel(texte.s)
        case Some(part) =>
          assert |Capitalize(part)| > 2;
          Ok(Capitalize(part))
        case None => Ok("Autre")
  }

  /** A keyword found in a non-empty text names its service. */
  lemma KeywordWins(s: string)
    requires s != ""
    ensures KeywordLabel(s).Some? ==> Service(Str(s)) == Ok(KeywordLabel(s).value)
    ensures KeywordLabel(s).None? ==>
              Service(Str(s)) == Ok(if DomainLabel(s).Some? then Capitalize(DomainLabel(s).value) else "Autre")
  {
    assert Truthy(Str(s));
  }

  /**
   * Resolution of a non-empty text: the first registry keyword found in it,
   * in registry order, and only when there is none, its second-to-last
   * dot-separated label when longer than two characters, else "Autre".
   */
  lemma ServiceResolution(s: string)
    requires s != ""
    ensures (exists j :: 0 <= j < |GERS| && Contains(Lower(s), GERS[j])) ==>
              exists k :: 0 <= k < |GERS| && Service(Str(s)) == Ok(Capitalize(GERS[k]))
                          && Contains(Lower(s), GERS[k])
                          && forall j :: 0 <= j < k ==> !Contains(Lower(s), GERS[j])
    ensures (forall j :: 0 <= j < |GERS| ==> !Contains(Lower(s), GERS[j])) ==>
              var parts := Split(s, '.');
              Service(Str(s)) == Ok(if |parts| >= 2 && |parts[|parts| - 2]| > 2
                                    then Capitalize(parts[|parts| - 2]) else "Autre")
  {
    KeywordWins(s);
    var found := KeywordLabel(s);
    if found.Some? {
      var k :| 0 <= k < |GERS| && found.value == Capitalize(GERS[k]) && Contains(Lower(s), GERS[k])
               && forall j :: 0 <= j < k ==> !Contains(Lower(s), GERS[j]);
      assert Service(Str(s)) == Ok(Capitalize(GERS[k]));
    } else {
      var parts := Split(s, '.');
      assert DomainLabel(s) == (if |parts| >= 2 && |parts[|parts| - 2]| > 2 then Some(parts[|parts| - 2]) else None);
    }
  }

  /** A host name made of dot-free labels is named after its second-to-last label. */
  lemma SecondLevelLabel(parts: seq<string>)
    requires |parts| >= 2
    requires forall k :: 0 <= k < |parts| ==> '.' !in parts[k]
    requires |parts[|parts| - 2]| > 2
    requires forall j :: 0 <= j < |GERS| ==> !Contains(Lower(Join(".", parts)), GERS[j])
    ensures Service(Str(Join(".", parts))) == Ok(Capitalize(parts[|parts| - 2]))
  {
    var host := Join(".", parts);
    SplitJoin(parts, '.');
    assert host != "";
    assert KeywordLabel(host).None?;
    assert DomainLabel(host) == Some(parts[|parts| - 2]);
  }

  // ---------------------------------------------------------------------------
  // Protocol inference

  /**
   * The query loop: the first entry that mentions `dns.qry.name`; reading the
   * name out of a string or a list raises (they cannot be indexed by a string).
   */
  function QueryName(queries: seq<(string, Value)>): (r: Result<Option<Value>>)
    ensures r == Ok(None) <==> forall k :: 0 <= k < |queries| ==> !Mentions(queries[k].1, QUERY_NAME)
    ensures r.Ok? && r.value.Some? ==>
              exists k :: 0 <= k < |queries| && queries[k].1.Obj? && HasKey(queries[k].1.entries, QUERY_NAME)
                          && r.value.value == Lookup(queries[k].1.entries, QUERY_NAME)
                          && forall j :: 0 <= j < k ==> !Mentions(queries[j].1, QUERY_NAME)
    ensures r.Raised? <==>
              exists k :: 0 <= k < |queries| && Mentions(queries[k].1, QUERY_NAME) && !queries[k].1.Obj?
                          && forall j :: 0 <= j < k ==> !Mentions(queries[j].1, QUERY_NAME)
  {
    if |queries| == 0 then Ok(None)
    else
      var v := queries[0].1;
      if Mentions(v, QUERY_NAME) then
        if v.Obj? then Ok(Some(Lookup(v.entries, QUERY_NAME))) else Raised
      else
        var r := QueryName(queries[1..]);
        assert forall k :: 1 <= k < |queries| ==> queries[k] == queries[1..][k - 1];
        r
  }

  /** Python's `a + b` on two field values: strings and lists concatenate, the rest raises. */
  function Concat(a: Value, b: Value): (r: Result<Value>)
    ensures r.Ok? <==> (a.Str? && b.Str?) || (a.List? && b.List?)
    ensures a.Str? && b.Str? ==> r == Ok(Str(a.s + b.s))
  {
    if a.Str? && b.Str? then Ok(Str(a.s + b.s))
    else if a.List? && b.List? then Ok(List(a.items + b.items))
    else Raised
  }

  /** The characters `[a-zA-Z0-9.-]` of the server-name pattern. */
  predicate NameChar(c: char)
  {
    'a' <= c <= 'z' || 'A' <= c <= 'Z' || '0' <= c <= '9' || c == '.' || c == '-'
  }

  const SNI_MARKER := "server_name: "

  /** The pattern matches at `i`: the marker, then at least one name character. */
  predicate MatchAt(s: string, i: int)
  {
    OccursAt(s, SNI_MARKER, i) && i + |SNI_MARKER| < |s| && NameChar(s[i + |SNI_MARKER|])
  }

  /** The length of the run of name characters of `s` starting at `i` (the greedy `+`). */
  function NameRun(s: string, i: nat): (n: nat)
    requires i <= |s|
    ensures i + n <= |s|
    ensures forall k :: i <= k < i + n ==> NameChar(s[k])
    ensures i + n == |s| || !NameChar(s[i + n])
    decreases |s| - i
  {
    if i == |s| || !NameChar(s[i]) then 0 else 1 + NameRun(s, i + 1)
  }

  /**
   * `re.search(r"server_name: ([a-zA-Z0-9.-]+)", s)` from position `from`:
   * the leftmost match, and its group.
   */
  function SearchFrom(s: string, from: nat): (r: Option<nat>)
    requires from <= |s|
    ensures r.Some? ==> from <= r.value && MatchAt(s, r.value)
    ensures r.Some? ==> forall i :: from <= i < r.value ==> !MatchAt(s, i)
    ensures r.None? ==> forall i :: from <= i <= |s| ==> !MatchAt(s, i)
    decreases |s| - from
  {
    if MatchAt(s, from) then Some(from)
    else if from == |s| then None
    else SearchFrom(s, from + 1)
  }

  /** The captured server name, if the pattern occurs. */
  function ServerName(s: string): Option<string>
  {
    match SearchFrom(s, 0)
    case None => None
    case Some(i) =>
      var start := i + |SNI_MARKER|;
      Some(s[start..start + NameRun(s, start)])
  }

  /**
   * The capture follows the leftmost occurrence of the pattern, is not empty,
   * holds only name characters, and runs as far as they go.
   */
  lemma ServerNameShape(s: string)
    ensures ServerName(s).None? <==> forall i :: 0 <= i <= |s| ==> !MatchAt(s, i)
    ensures ServerName(s).Some? ==>
              exists i :: 0 <= i && MatchAt(s, i)
                && (forall j :: 0 <= j < i ==> !MatchAt(s, j))
                && var start := i + |SNI_MARKER|;
                   var g := ServerName(s).value;
                   && |g| >= 1 && start + |g| <= |s| && g == s[start..start + |g|]
                   && (forall k :: 0 <= k < |g| ==> NameChar(g[k]))
                   && (start + |g| == |s| || !NameChar(s[start + |g|]))
  {
    match SearchFrom(s, 0)
    case None =>
    case Some(i) =>
      CaptureShape(s, i);
      assert ServerName(s).value == s[i + |SNI_MARKER|..i + |SNI_MARKER| + NameRun(s, i + |SNI_MARKER|)];
      assert MatchAt(s, i) && forall j :: 0 <= j < i ==> !MatchAt(s, j);
  }

  /** The group captured at a match: a non-empty, maximal run of name characters. */
  lemma CaptureShape(s: string, i: nat)
    requires MatchAt(s, i)
    ensures var start := i + |SNI_MARKER|;
      var g := s[start..start + NameRun(s, start)];
      && |g| >= 1 && start + |g| <= |s| && g == s[start..start + |g|]
      && (forall k :: 0 <= k < |g| ==> NameChar(g[k]))
      && (start + |g| == |s| || !NameChar(s[start + |g|]))
  {
    var start := i + |SNI_MARKER|;
    var g := s[start..start + NameRun(s, start)];
    assert NameChar(s[start]);
    assert forall k :: 0 <= k < |g| ==> g[k] == s[start + k];
  }

  /** What the protocol block decides for one packet. */
  datatype Inference = Inference(proto: Proto, info: Value, service: string, penalty: nat, alerts: seq<string>)

  /** `f"Mot de passe clair vers {service_nom}"`, which carries the critical mark. */
  function HttpAlert(service: string): (r: string)
    ensures r == CRITICAL_MARK + " clair vers " + service
    ensures Contains(r, CRITICAL_MARK)
  {
    var r := "Mot de passe clair vers " + service;
    assert OccursAt(r, CRITICAL_MARK, 0);
    r
  }

  const Blank := Inference(TcpUdp, Str(""), "", 0, [])

  /** The DNS branch: the first query name and its service, if any. */
  function DnsView(dns: Layer): Result<Inference>
  {
    var queries := GetOr(dns, "Queries", Obj([]));
    if !queries.Obj? then Ok(Blank.(proto := Dns))
    else
      match QueryName(queries.entries)
      case Raised => Raised
      case Ok(None) => Ok(Blank.(proto := Dns))
      case Ok(Some(name)) =>
        match Service(name)
        case Raised => Raised
        case Ok(service) => Ok(Blank.(proto := Dns, info := name, service := service))
  }

  /** The HTTP branch: `host + uri`, the host's service, and the penalties. */
  function HttpView(http: Layer): Result<Inference>
  {
    var host := GetOr(http, "http.host", Str(""));
    match Concat(host, GetOr(http, "http.request.uri", Str("")))
    case Raised => Raised
    case Ok(info) =>
      match Service(host)
      case Raised => Raised
      case Ok(service) =>
        var auth := "http.authorization" in http;
        Ok(Blank.(proto := Http, info := info, service := service,
                  penalty := HTTP_PENALTY + (if auth then AUTH_PENALTY else 0),
                  alerts := if auth then [HttpAlert(service)] else []))
  }

  /** The TLS branch: the server name found in the printed handshake, if any. */
  function TlsView(tls: Layer): Inference
  {
    match ServerName(PyStr(GetOr(tls, "tls.handshake", Obj([]))))
    case None => Blank.(proto := Https)
    case Some(name) => Blank.(proto := Https, info := Str(name), service := Service(Str(name)).value)
  }

  /** The application-layer block: dns, else http, else tls; exceptions propagate. */
  function Classify(layers: Layers): Result<Inference>
  {
    if "dns" in layers then DnsView(layers["dns"])
    else if "http" in layers then HttpView(layers["http"])
    else if "tls" in layers then Ok(TlsView(layers["tls"]))
    else Ok(Blank)
  }

  /** `tcp.dstport or udp.dstport`. */
  function DestinationPort(layers: Layers): Option<Value>
  {
    var tcp := Field(layers, "tcp", "tcp.dstport");
    if Present(tcp) then tcp else Field(layers, "udp", "udp.dstport")
  }

  /** The port table for a packet still without a label. */
  function PortLabel(port: Option<Value>): (r: string)
    ensures r != ""
    ensures port == Some(Str("443")) ==> r == "Web Sécurisé"
    ensures port == Some(Str("80")) ==> r == "Web"
    ensures port == Some(Str("53")) ==> r == "DNS"
    ensures r == "-" <==> port !in {Some(Str("443")), Some(Str("80")), Some(Str("53"))}
  {
    if port == Some(Str("443")) then "Web Sécurisé"
    else if port == Some(Str("80")) then "Web"
    else if port == Some(Str("53")) then "DNS"
    else "-"
  }

  function Infer(layers: Layers): Result<Inference>
  {
    match Classify(layers)
    case Raised => Raised
    case Ok(c) => Ok(if c.service == "" then c.(service := PortLabel(DestinationPort(layers))) else c)
  }

  /** A label, or the port table's when it is empty. */
  function OrPortLabel(service: string, layers: Layers): string
  {
    if service == "" then PortLabel(DestinationPort(layers)) else service
  }

  /**
   * The service label of a packet that fits: the query name's service for
   * DNS, the host's for HTTP, the captured server name's for TLS; the port
   * table applies only when that label is empty (no name, or a false host).
   */
  lemma InferService(layers: Layers)
    ensures Infer(layers).Ok? ==>
      var r := Infer(layers).value;
      && ("dns" in layers ==>
            var queries := GetOr(layers["dns"], "Queries", Obj([]));
            var name := if queries.Obj? then QueryName(queries.entries) else Ok(None);
            name.Ok? && r.service == (if name.value.Some? then OrPortLabel(Service(name.value.value).value, layers)
                                      else PortLabel(DestinationPort(layers))))
      && ("dns" !in layers && "http" in layers ==>
            r.service == OrPortLabel(Service(GetOr(layers["http"], "http.host", Str(""))).value, layers))
      && ("dns" !in layers && "http" !in layers && "tls" in layers ==>
            var name := ServerName(PyStr(GetOr(layers["tls"], "tls.handshake", Obj([]))));
            r.service == (if name.Some? then Service(Str(name.value)).value else PortLabel(DestinationPort(layers))))
      && ("dns" !in layers && "http" !in layers && "tls" !in layers ==> r.service == PortLabel(DestinationPort(layers)))
  {
    if "dns" in layers {
      assert Classify(layers) == DnsView(layers["dns"]);
    } else if "http" in layers {
      assert Classify(layers) == HttpView(layers["http"]);
    } else if "tls" in layers {
      assert Classify(layers) == Ok(TlsView(layers["tls"]));
      var name := ServerName(PyStr(GetOr(layers["tls"], "tls.handshake", Obj([]))));
      if name.Some? {
        ServerNameShape(PyStr(GetOr(layers["tls"], "tls.handshake", Obj([]))));
        assert Truthy(Str(name.value));
      }
    }
  }

  /**
   * A packet that fits gets a protocol label (the highest layer present), a
   * non-empty service label, half a point of penalty per HTTP request and five
   * more, with one alert, when it carries an Authorization header.
   */
  lemma InferFacts(layers: Layers)
    ensures Infer(layers).Ok? ==>
      var r := Infer(layers).value;
      && r.proto == (if "dns" in layers then Dns else if "http" in layers then Http
                     else if "tls" in layers then Https else TcpUdp)
      && r.service != ""
      && r.penalty == (if "dns" !in layers && "http" in layers then
                         HTTP_PENALTY + (if "http.authorization" in layers["http"] then AUTH_PENALTY else 0)
                       else 0)
      && (|r.alerts| == 1 <==> r.penalty > HTTP_PENALTY)
      && |r.alerts| <= 1
      && (forall k :: 0 <= k < |r.alerts| ==> Contains(r.alerts[k], CRITICAL_MARK))
      && ("dns" !in layers && "http" in layers ==>
            r.alerts == (if "http.authorization" in layers["http"]
                         then ["Mot de passe clair vers " + Service(GetOr(layers["http"], "http.host", Str(""))).value]
                         else []))
      && ("dns" in layers || "http" !in layers ==> r.alerts == [])
  {
    if "dns" in layers {
      assert Classify(layers) == DnsView(layers["dns"]);
    } else if "http" in layers {
      assert Classify(layers) == HttpView(layers["http"]);
    } else if "tls" in layers {
      assert Classify(layers) == Ok(TlsView(layers["tls"]));
    }
  }

  // ---------------------------------------------------------------------------
  // The packet loop and its result

  /** One entry of `details_trafic`: the info is the raw value (not converted to text). */
  datatype Row = Row(heure: string, src: Value, dst: Value, proto: Proto, service: string, info: Value)

  datatype Acc = Acc(halves: int, protocols: map<Proto, nat>, alerts: seq<string>, rows: seq<Row>)

  const Initial := Acc(START_HALVES, map[], [], [])

  function Count(m: map<Proto, nat>, p: Proto): nat
  {
    if p in m then m[p] else 0
  }

  /**
   * One iteration. `clock(v)` formats `float(v)` as a time of day, or is `None`
   * when that raises; an absent epoch field reads as "0".
   */
  function Step(acc: Acc, layers: Layers, clock: Value -> Option<string>): Acc
  {
    var ts := if "frame" in layers then GetOr(layers["frame"], "frame.time_epoch", Str("0")) else Str("0");
    match clock(ts)
    case None => acc
    case Some(heure) =>
      match Infer(layers)
      case Raised => acc
      case Ok(inf) => Accept(acc, layers, heure, inf)
  }

  /** The effects of a packet that fits: penalty, alerts, count and row. */
  function Accept(acc: Acc, layers: Layers, heure: string, inf: Inference): Acc
  {
    var src := if "ip" in layers then GetOr(layers["ip"], "ip.src", Str("?")) else Str("?");
    var dst := if "ip" in layers then GetOr(layers["ip"], "ip.dst", Str("?")) else Str("?");
    Acc(acc.halves - inf.penalty,
        acc.protocols[inf.proto := Count(acc.protocols, inf.proto) + 1],
        acc.alerts + inf.alerts,
        acc.rows + [Row(heure, src, dst, inf.proto, inf.service, inf.info)])
  }

  function Run(packets: seq<Layers>, clock: Value -> Option<string>): Acc
  {
    if packets == [] then Initial
    else Step(Run(packets[..|packets| - 1], clock), packets[|packets| - 1], clock)
  }

  /**
   * A packet either leaves every part of the state as it was, or adds exactly
   * one row and one count and applies its whole penalty and its alerts.
   */
  lemma StepAtomic(acc: Acc, layers: Layers, clock: Value -> Option<string>)
    ensures var next := Step(acc, layers, clock);
      next == acc
      || (|next.rows| == |acc.rows| + 1 && next.rows[..|acc.rows|] == acc.rows
          && (forall p :: Count(next.protocols, p) == Count(acc.protocols, p) + (if p == next.rows[|acc.rows|].proto then 1 else 0)))
    ensures Step(acc, layers, clock).rows == acc.rows ==> Step(acc, layers, clock) == acc
  {
  }

  /** The alerts of the packet loop all report a clear-text credential, each at 5.5 points. */
  lemma {:induction false} RunAlerts(packets: seq<Layers>, clock: Value -> Option<string>)
    ensures forall k :: 0 <= k < |Run(packets, clock).alerts| ==> Contains(Run(packets, clock).alerts[k], CRITICAL_MARK)
    ensures Run(packets, clock).halves + (HTTP_PENALTY + AUTH_PENALTY) * |Run(packets, clock).alerts| <= START_HALVES
    ensures |Run(packets, clock).rows| <= |packets|
    decreases |packets|
  {
    if packets != [] {
      var layers := packets[|packets| - 1];
      RunAlerts(packets[..|packets| - 1], clock);
      InferFacts(layers);
    }
  }

  /**
   * The entry of `details_trafic` for one packet, or None when its epoch does
   * not parse or its protocol block raises: the time, `ip.src` and `ip.dst`
   * with "?" as default, and what the protocol block decided.
   */
  function PacketRow(layers: Layers, clock: Value -> Option<string>): Option<Row>
  {
    var ip: Layer := if "ip" in layers then layers["ip"] else map[];
    var ts := if "frame" in layers then GetOr(layers["frame"], "frame.time_epoch", Str("0")) else Str("0");
    if clock(ts).None? || Infer(layers).Raised? then None
    else
      var inf := Infer(layers).value;
      Some(Row(clock(ts).value, GetOr(ip, "ip.src", Str("?")), GetOr(ip, "ip.dst", Str("?")),
               inf.proto, inf.service, inf.info))
  }

  function Emitted(row: Option<Row>): seq<Row>
  {
    if row.Some? then [row.value] else []
  }

  /** The entries of the packets, in capture order. */
  function Rows(packets: seq<Layers>, clock: Value -> Option<string>): (r: seq<Row>)
    ensures |r| <= |packets|
  {
    if packets == [] then [] else Emitted(PacketRow(packets[0], clock)) + Rows(packets[1..], clock)
  }

  lemma {:induction false} RowsSnoc(init: seq<Layers>, layers: Layers, clock: Value -> Option<string>)
    ensures Rows(init + [layers], clock) == Rows(init, clock) + Emitted(PacketRow(layers, clock))
    decreases |init|
  {
    if init == [] {
      assert [layers][1..] == [];
    } else {
      assert (init + [layers])[1..] == init[1..] + [layers];
      RowsSnoc(init[1..], layers, clock);
    }
  }

  /** One iteration appends exactly the packet's entry, if any. */
  lemma StepRows(acc: Acc, layers: Layers, clock: Value -> Option<string>)
    ensures Step(acc, layers, clock).rows == acc.rows + Emitted(PacketRow(layers, clock))
  {
  }

  /** `details_trafic` after the loop holds the entry of every packet that fits, in capture order. */
  lemma {:induction false} RunRows(packets: seq<Layers>, clock: Value -> Option<string>)
    ensures Run(packets, clock).rows == Rows(packets, clock)
    decreases |packets|
  {
    if packets != [] {
      var init := packets[..|packets| - 1];
      var last := packets[|packets| - 1];
      assert packets == init + [last];
      RunRows(init, clock);
      StepRows(Run(init, clock), last, clock);
      RowsSnoc(init, last, clock);
    }
  }

  datatype Report = Report(
    score: int,
    totalPackets: nat,
    protocols: map<Proto, nat>,
    alerts: set<string>,
    details: seq<Row>)

  /** The dissector output: a failure (the command or the JSON decoding raised), or packets. */
  datatype Capture = CaptureFailed(message: string) | Decoded(packets: seq<Layers>)

  /** `{"error": ..., "score_global": 0, ...}` with empty collections, or a report. */
  datatype AnalysisResult = Failed(error: string) | Analysed(report: Report)

  /** `s[::-1]`, what `list.reverse()` leaves behind. */
  function Reverse<T>(s: seq<T>): (r: seq<T>)
    ensures |r| == |s|
    ensures forall k :: 0 <= k < |s| ==> r[k] == s[|s| - 1 - k]
  {
    if s == [] then [] else Reverse(s[1..]) + [s[0]]
  }

  /** Some alert contains the critical mark: the kill switch fires. */
  predicate Critical(alerts: seq<string>)
  {
    exists k | 0 <= k < |alerts| :: Contains(alerts[k], CRITICAL_MARK)
  }

  /** `max(0, int(score))`, then the cap of 45 when the kill switch fires. */
  function FinalScore(halves: int, alerts: seq<string>): int
  {
    var floored := if TruncHalf(halves) < 0 then 0 else TruncHalf(halves);
    if Critical(alerts) && floored > CRITICAL_CAP then CRITICAL_CAP else floored
  }

  function Finish(acc: Acc, total: nat): Report
  {
    Report(FinalScore(acc.halves, acc.alerts), total, acc.protocols, (set a | a in acc.alerts), Reverse(acc.rows))
  }

  /** `analyser_trafic` as a value. */
  function Analysis(input: Capture, clock: Value -> Option<string>): (r: AnalysisResult)
    ensures r.Analysed? <==> input.Decoded?
    ensures r.Analysed? ==> r.report.totalPackets == |input.packets|
  {
    match input
    case CaptureFailed(m) => Failed(m)
    case Decoded(packets) => Analysed(Finish(Run(packets, clock), |packets|))
  }

  /**
   * The score of a report lies in [0, 100]; a capture with any clear-text
   * credential scores at most 45; the details are the entries of the packets
   * that fit, newest first.
   */
  lemma AnalysisFacts(packets: seq<Layers>, clock: Value -> Option<string>)
    ensures var r := Analysis(Decoded(packets), clock).report;
      && 0 <= r.score <= 100
      && (r.alerts != {} ==> r.score <= CRITICAL_CAP)
      && r.details == Reverse(Rows(packets, clock))
      && |r.details| == |Rows(packets, clock)| <= |packets|
      && (forall k :: 0 <= k < |r.details| ==> r.details[k] == Rows(packets, clock)[|r.details| - 1 - k])
  {
    var acc := Run(packets, clock);
    assert Analysis(Decoded(packets), clock).report == Finish(acc, |packets|);
    RunAlerts(packets, clock);
    RunRows(packets, clock);
    FinishFacts(acc, |packets|);
  }

  /** The report facts of `AnalysisFacts`, for any state the packet loop can leave. */
  lemma FinishFacts(acc: Acc, total: nat)
    requires forall k :: 0 <= k < |acc.alerts| ==> Contains(acc.alerts[k], CRITICAL_MARK)
    requires acc.halves <= START_HALVES
    ensures var r := Finish(acc, total);
      && 0 <= r.score <= 100
      && (r.alerts != {} ==> r.score <= CRITICAL_CAP)
      && |r.details| == |acc.rows|
      && (forall k :: 0 <= k < |r.details| ==> r.details[k] == acc.rows[|r.details| - 1 - k])
  {
    if acc.alerts != [] {
      assert Contains(acc.alerts[0], CRITICAL_MARK);
    } else {
      assert (set a | a in acc.alerts) == {};
    }
  }

  /** The cap applies to a report exactly when some alert carries the critical mark. */
  lemma FinishKillSwitch(acc: Acc, total: nat)
    requires forall k :: 0 <= k < |acc.alerts| ==> Contains(acc.alerts[k], CRITICAL_MARK)
    ensures var floored := if TruncHalf(acc.halves) < 0 then 0 else TruncHalf(acc.halves);
      var r := Finish(acc, total);
      && (r.alerts == {} ==> r.score == floored)
      && (r.alerts != {} ==> r.score == (if floored > CRITICAL_CAP then CRITICAL_CAP else floored))
  {
    if acc.alerts != [] {
      assert Contains(acc.alerts[0], CRITICAL_MARK);
      assert acc.alerts[0] in Finish(acc, total).alerts;
    } else {
      assert (set a | a in acc.alerts) == {};
    }
  }

  /**
   * The kill switch fires exactly for a capture with an alert: without one the
   * score is the floored score, with one it is that score capped at 45.
   */
  lemma KillSwitch(packets: seq<Layers>, clock: Value -> Option<string>)
    ensures var halves := Run(packets, clock).halves;
      var floored := if TruncHalf(halves) < 0 then 0 else TruncHalf(halves);
      var r := Analysis(Decoded(packets), clock).report;
      && (r.alerts == {} ==> r.score == floored)
      && (r.alerts != {} ==> r.score == (if floored > CRITICAL_CAP then CRITICAL_CAP else floored))
  {
    RunAlerts(packets, clock);
    FinishKillSwitch(Run(packets, clock), |packets|);
  }

  // ---------------------------------------------------------------------------
  // The imperative analyser

  /** The `try` block of the packet loop; an exception returns the state unchanged. */
  method AnalysePacket(acc: Acc, layers: Layers, clock: Value -> Option<string>) returns (next: Acc)
    ensures next == Step(acc, layers, clock)
  {
    next := acc;
    var ts := if "frame" in layers then GetOr(layers["frame"], "frame.time_epoch", Str("0")) else Str("0");
    var heure := clock(ts);
    if heure.None? {
      return;
    }
    var src := if "ip" in layers then GetOr(layers["ip"], "ip.src", Str("?")) else Str("?");
    var dst := if "ip" in layers then GetOr(layers["ip"], "ip.dst", Str("?")) else Str("?");

    var inferred := InspectLayers(layers);
    if inferred.Raised? {
      return;
    }
    var inf := inferred.value;
    next := next.(halves := next.halves - inf.penalty, alerts := next.alerts + inf.alerts);
    next := next.(protocols := next.protocols[inf.proto := Count(next.protocols, inf.proto) + 1],
                  rows := next.rows + [Row(heure.value, src, dst, inf.proto, inf.service, inf.info)]);
    assert next == Accept(acc, layers, heure.value, inf);
    AcceptedStep(acc, layers, clock, ts, heure.value, inf);
  }

  /** A packet whose epoch parses and whose protocol block fits is accepted. */
  lemma AcceptedStep(acc: Acc, layers: Layers, clock: Value -> Option<string>, ts: Value, heure: string, inf: Inference)
    requires ts == if "frame" in layers then GetOr(layers["frame"], "frame.time_epoch", Str("0")) else Str("0")
    requires clock(ts) == Some(heure) && Infer(layers) == Ok(inf)
    ensures Step(acc, layers, clock) == Accept(acc, layers, heure, inf)
  {
  }

  /** The DNS branch of the protocol block. */
  method InspectDns(dns: Layer) returns (r: Result<Inference>)
    ensures r == DnsView(dns)
  {
    var infoBrute := Str("");
    var serviceNom := "";
    var queries := GetOr(dns, "Queries", Obj([]));
    if queries.Obj? {
      var found := QueryName(queries.entries);
      if found.Raised? {
        return Raised;
      }
      if found.value.Some? {
        infoBrute := found.value.value;
        var service := Service(infoBrute);
        if service.Raised? {
          return Raised;
        }
        serviceNom := service.value;
      }
    }
    r := Ok(Blank.(proto := Dns, info := infoBrute, service := serviceNom));
  }

  /** The HTTP branch of the protocol block. */
  method InspectHttp(http: Layer) returns (r: Result<Inference>)
    ensures r == HttpView(http)
  {
    var host := GetOr(http, "http.host", Str(""));
    var uri := GetOr(http, "http.request.uri", Str(""));
    var joined := Concat(host, uri);
    if joined.Raised? {
      return Raised;
    }
    var service := Service(host);
    if service.Raised? {
      return Raised;
    }
    var penalty := HTTP_PENALTY;
    var alerts: seq<string> := [];
    if "http.authorization" in http {
      penalty := penalty + AUTH_PENALTY;
      alerts := [HttpAlert(service.value)];
    }
    r := Ok(Blank.(proto := Http, info := joined.value, service := service.value,
                   penalty := penalty, alerts := alerts));
  }

  /** The protocol block and the port fallback. */
  method InspectLayers(layers: Layers) returns (r: Result<Inference>)
    ensures r == Infer(layers)
  {
    r := Ok(Blank);
    if "dns" in layers {
      r := InspectDns(layers["dns"]);
    } else if "http" in layers {
      r := InspectHttp(layers["http"]);
    } else if "tls" in layers {
      r := Ok(TlsView(layers["tls"]));
    }
    if r.Raised? {
      return;
    }
    if r.value.service == "" {
      r := Ok(r.value.(service := PortLabel(DestinationPort(layers))));
    }
  }

  /** The kill-switch loop: stops at the first alert that reports a clear-text credential. */
  method FindCritical(alertes: seq<string>) returns (found: bool)
    ensures found <==> Critical(alertes)
  {
    found := false;
    for k := 0 to |alertes|
      invariant !found
      invariant forall j :: 0 <= j < k ==> !Contains(alertes[j], CRITICAL_MARK)
    {
      if Contains(alertes[k], CRITICAL_MARK) {
        found := true;
        break;
      }
    }
  }

  /** `analyser_trafic` of the first version. */
  method AnalyserTrafic(input: Capture, clock: Value -> Option<string>) returns (res: AnalysisResult)
    ensures res == Analysis(input, clock)
  {
    if input.CaptureFailed? {
      return Failed(input.message);
    }
    var paquets := input.packets;
    var state := Initial;
    for i := 0 to |paquets|
      invariant state == Run(paquets[..i], clock)
    {
      assert paquets[..i + 1][..i] == paquets[..i];
      state := AnalysePacket(state, paquets[i], clock);
    }
    assert paquets[..|paquets|] == paquets;

    var score := TruncHalf(state.halves);
    if score < 0 {
      score := 0;
    }
    var critique := FindCritical(state.alerts);
    if critique && score > CRITICAL_CAP {
      score := CRITICAL_CAP;
    }
    var details := Reverse(state.rows);
    res := Analysed(Report(score, |paquets|, state.protocols, (set a | a in state.alerts), details));
  }
}
