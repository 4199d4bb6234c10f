// The SOC connector: renders a finished report as Common Event Format (CEF)
// lines or as a JSON document, and builds the HTTP request that carries it to
// the configured collector. The HTTP post itself is an outside function.

module Soc {
  import opened Text
  import opened PyValues
  import Analyzer

  /** CEF version, vendor, product and product version. */
  const CEF_HEADER := "CEF:0|NETSCOPE|" + "AuditEngine|1.0|"
  /** Signature 100, name and the separator before the severity. */
  const SUMMARY_PREFIX := CEF_HEADER + "100|" + "Audit Summary|"
  /** Signature 200, name and the separator before the severity. */
  const ALERT_PREFIX := CEF_HEADER + "200|" + "Security Alert|"
  const USER_AGENT := "Netscope-SOC-Connector/1.0"

  /** The report dictionary as the connector reads it: any key may be missing. */
  datatype SocReport = SocReport(
    score: Option<int>,
    totalPackets: Option<int>,
    alerts: Option<seq<string>>,
    protocols: Option<map<string, int>>,
    interface: Option<string>,
    duration: Option<int>)

  /** `report.get('score_global', default)`. */
  function ScoreOr(report: SocReport, default: int): int
  {
    if report.score.Some? then report.score.value else default
  }

  /** `report.get('alertes_securite', [])`. */
  function AlertsOf(report: SocReport): seq<string>
  {
    if report.alerts.Some? then report.alerts.value else []
  }

  /** `str(x)` of an integer field that may be missing. */
  function IntOrNone(x: Option<int>): string
  {
    if x.Some? then IntToString(x.value) else "None"
  }

  // ---------------------------------------------------------------------------
  // CEF

  /** The severity of the summary event: 1 above 80, 5 above 50, 10 otherwise. */
  function SummarySeverity(score: int): string
  {
    if score > 80 then "1" else if score > 50 then "5" else "10"
  }

  /** The severity of one alert event, by case-sensitive keyword. */
  function AlertSeverity(alert: string): string
  {
    if Contains(alert, "Mot de passe") || Contains(alert, "Critique") then "10"
    else if Contains(alert, "Scan") then "7"
    else "5"
  }

  /** `alert.replace('|', '/').replace('=', ':')`. */
  function Clean(alert: string): string
  {
    ReplaceChar(ReplaceChar(alert, '|', '/'), '=', ':')
  }

  /**
   * Escaping leaves no CEF delimiter behind, keeps the length, and changes no
   * character but the two delimiters.
   */
  lemma CleanRemovesDelimiters(alert: string)
    ensures '|' !in Clean(alert) && '=' !in Clean(alert)
    ensures |Clean(alert)| == |alert|
    ensures forall k :: 0 <= k < |alert| ==>
              Clean(alert)[k] == (if alert[k] == '|' then '/' else if alert[k] == '=' then ':' else alert[k])
  {
    var c := Clean(alert);
    forall k | 0 <= k < |c| ensures c[k] != '|' && c[k] != '=' {
    }
  }

  /** The summary event: severity, score and packet count. */
  function SummaryEvent(report: SocReport): string
  {
    var score := ScoreOr(report, 0);
    SUMMARY_PREFIX + SummarySeverity(score) + "|msg=Audit completed score=" + IntToString(score)
    + " packets=" + IntOrNone(report.totalPackets)
  }

  function AlertEvent(alert: string): string
  {
    ALERT_PREFIX + AlertSeverity(alert) + "|msg=" + Clean(alert)
  }

  /** The events of `_format_cef`, in order: the summary, then one per alert. */
  function Events(report: SocReport): (r: seq<string>)
    ensures |r| == 1 + |AlertsOf(report)|
  {
    [SummaryEvent(report)] + seq(|AlertsOf(report)|, k requires 0 <= k < |AlertsOf(report)| => AlertEvent(AlertsOf(report)[k]))
  }

  /** The text `_format_cef` returns. */
  function CefText(report: SocReport): string
  {
    Join("\n", Events(report))
  }

  /** `_format_cef`: the summary event, then a loop appending one event per alert. */
  method FormatCef(report: SocReport) returns (text: string)
    ensures text == CefText(report)
  {
    var score := ScoreOr(report, 0);
    var severity := SummarySeverity(score);
    var events := [SUMMARY_PREFIX + severity + "|msg=Audit completed score=" + IntToString(score)
                   + " packets=" + IntOrNone(report.totalPackets)];
    var alerts := AlertsOf(report);
    for k := 0 to |alerts|
      invariant |events| == 1 + k
      invariant events[0] == SummaryEvent(report)
      invariant forall j :: 0 <= j < k ==> events[1 + j] == AlertEvent(alerts[j])
    {
      var alertSev := "5";
      if Contains(alerts[k], "Mot de passe") || Contains(alerts[k], "Critique") {
        alertSev := "10";
      } else if Contains(alerts[k], "Scan") {
        alertSev := "7";
      }
      var cleanAlert := ReplaceChar(ReplaceChar(alerts[k], '|', '/'), '=', ':');
      events := events + [ALERT_PREFIX + alertSev + "|msg=" + cleanAlert];
    }
    assert events == Events(report);
    text := Join("\n", events);
  }

  lemma NoNewlineInNumber(n: int)
    ensures '\n' !in IntToString(n)
  {
    var s := IntToString(n);
    forall k | 0 <= k < |s| ensures s[k] != '\n' {
    }
  }

  lemma NoNewlineInSummary(report: SocReport)
    ensures '\n' !in SummaryEvent(report)
  {
    NoNewlineInNumber(ScoreOr(report, 0));
    if report.totalPackets.Some? {
      NoNewlineInNumber(report.totalPackets.value);
    }
  }

  lemma NoNewlineInAlertEvent(alert: string)
    requires '\n' !in alert
    ensures '\n' !in AlertEvent(alert)
  {
    CleanRemovesDelimiters(alert);
    var c := Clean(alert);
    forall j | 0 <= j < |c| ensures c[j] != '\n' {
      assert alert[j] != '\n';
    }
    assert '\n' !in c;
    assert '\n' !in AlertSeverity(alert);
  }

  lemma NoNewlineInEvents(report: SocReport)
    requires forall k :: 0 <= k < |AlertsOf(report)| ==> '\n' !in AlertsOf(report)[k]
    ensures forall k :: 0 <= k < |Events(report)| ==> '\n' !in Events(report)[k]
  {
    NoNewlineInSummary(report);
    var alerts := AlertsOf(report);
    var events := Events(report);
    forall k | 0 <= k < |events| ensures '\n' !in events[k] {
      if k > 0 {
        assert events[k] == AlertEvent(alerts[k - 1]);
        NoNewlineInAlertEvent(alerts[k - 1]);
      }
    }
  }

  /**
   * When no alert contains a line break, the CEF text splits into exactly its
   * events: the summary first, then one "Security Alert" line per alert, in
   * order, each carrying the alert's escaped text.
   */
  lemma CefLines(report: SocReport)
    requires forall k :: 0 <= k < |AlertsOf(report)| ==> '\n' !in AlertsOf(report)[k]
    ensures var lines := Split(CefText(report), '\n');
      && |lines| == 1 + |AlertsOf(report)|
      && lines[0] == SummaryEvent(report) && StartsWith(lines[0], SUMMARY_PREFIX)
      && forall k :: 0 <= k < |AlertsOf(report)| ==>
           lines[1 + k] == ALERT_PREFIX + AlertSeverity(AlertsOf(report)[k]) + "|msg=" + Clean(AlertsOf(report)[k])
  {
    NoNewlineInEvents(report);
    SplitJoin(Events(report), '\n');
    assert SummaryEvent(report)[..|SUMMARY_PREFIX|] == SUMMARY_PREFIX;
  }

  /** The summary severity partitions the scores at 50 and 80. */
  lemma SummarySeverityBands(score: int)
    ensures SummarySeverity(score) == "1" <==> score > 80
    ensures SummarySeverity(score) == "5" <==> 50 < score <= 80
    ensures SummarySeverity(score) == "10" <==> score <= 50
  {
  }

  /** `c` occurs in every text that contains a text containing `c`. */
  lemma ContainsChar(s: string, sub: string, c: char)
    requires Contains(s, sub) && c in sub
    ensures c in s
  {
    var i :| 0 <= i <= |s| - |sub| && OccursAt(s, sub, i);
    var j :| 0 <= j < |sub| && sub[j] == c;
    assert s[i + j] == s[i..i + |sub|][j];
  }

  /** A character of a textual IPv4 or IPv6 address. */
  predicate AddressChar(c: char)
  {
    IsDigit(c) || 'a' <= c <= 'f' || 'A' <= c <= 'F' || c == '.' || c == ':'
  }

  /**
   * How the connector grades the analyser's alerts: a clear-text credential
   * alert is graded 10, while a port-scan alert between two textual addresses
   * is graded 5, not 7, because its upper-case "SCAN" does not match the
   * case-sensitive "Scan" test.
   */
  lemma AnalyzerAlertSeverities(service: string, pair: Analyzer.Pair, n: nat)
    requires forall k :: 0 <= k < |pair.0| ==> AddressChar(pair.0[k])
    requires forall k :: 0 <= k < |pair.1| ==> AddressChar(pair.1[k])
    ensures AlertSeverity(Analyzer.HttpAlert(service)) == "10"
    ensures AlertSeverity(Analyzer.ScanAlert(pair, n)) == "5"
  {
    assert OccursAt(Analyzer.HttpAlert(service), "Mot de passe", 0);
    var a := Analyzer.ScanAlert(pair, n);
    ScanAlertLetters(pair, n);
    if Contains(a, "Mot de passe") {
      ContainsChar(a, "Mot de passe", 'M');
      assert false;
    }
    if Contains(a, "Critique") {
      ContainsChar(a, "Critique", 'q');
      assert false;
    }
    if Contains(a, "Scan") {
      ContainsChar(a, "Scan", 'n');
      assert false;
    }
  }

  /** A scan alert over printed addresses has no 'n', 'q' or 'M': none of the grading keywords fits. */
  lemma ScanAlertLetters(pair: Analyzer.Pair, n: nat)
    requires forall k :: 0 <= k < |pair.0| ==> AddressChar(pair.0[k])
    requires forall k :: 0 <= k < |pair.1| ==> AddressChar(pair.1[k])
    ensures var a := Analyzer.ScanAlert(pair, n);
      'n' !in a && 'q' !in a && 'M' !in a
  {
    var a := Analyzer.ScanAlert(pair, n);
    var digits := IntToString(n);
    assert forall k :: 0 <= k < |digits| ==> digits[k] != 'n' && digits[k] != 'q';
    assert forall k :: 0 <= k < |digits| ==> digits[k] != 'M';
    assert a == "SCAN DE PORTS : " + pair.0 + " -> " + pair.1 + " (" + digits + " ports)";
    assert 'n' !in pair.0 && 'q' !in pair.0 && 'M' !in pair.0;
    assert 'n' !in pair.1 && 'q' !in pair.1 && 'M' !in pair.1;
    assert 'n' !in digits && 'q' !in digits && 'M' !in digits;
  }

  // ---------------------------------------------------------------------------
  // JSON document and request

  /** `"high"` exactly when the score is below 50; a missing score counts as 100. */
  function JsonSeverity(report: SocReport): string
  {
    if ScoreOr(report, 100) < 50 then "high" else "low"
  }

  datatype JsonDocument = JsonDocument(
    timestamp: string,
    eventType: string,
    severity: string,
    score: Option<int>,
    alerts: seq<string>,
    packetsCount: Option<int>,
    protocols: Option<map<string, int>>,
    interface: string,
    duration: int)

  /** The lighter document sent in JSON mode; `now` is the ISO time of sending. */
  function Document(report: SocReport, now: string): JsonDocument
  {
    JsonDocument(now, "netscope_audit", JsonSeverity(report), report.score, AlertsOf(report),
                 report.totalPackets, report.protocols,
                 if report.interface.Some? then report.interface.value else "unknown",
                 if report.duration.Some? then report.duration.value else 0)
  }

  datatype Payload = CefBody(text: string) | JsonBody(doc: JsonDocument)

  /** `soc_url`, `soc_token` and `soc_format` of the configuration, each possibly missing. */
  datatype SocConfig = SocConfig(url: Option<string>, token: Option<string>, format: Option<string>)

  /** The post to be made: target, headers in insertion order, and body. */
  datatype Request = Request(url: string, headers: seq<(string, string)>, body: Payload)

  function OrEmpty(o: Option<string>): string
  {
    if o.Some? then o.value else ""
  }

  /** The request `send_report` posts, or `None` when no collector is configured. */
  function RequestFor(report: SocReport, config: SocConfig, now: string): Option<Request>
  {
    var url := OrEmpty(config.url);
    var token := OrEmpty(config.token);
    var cef := config.format == Some("CEF");
    if url == "" then None
    else
      var auth := if token != "" then [("Authorization", "Bearer " + token), ("X-API-Key", token)] else [];
      var headers := [("User-Agent", USER_AGENT)] + auth
                     + [("Content-Type", if cef then "text/plain" else "application/json")];
      Some(Request(url, headers, if cef then CefBody(CefText(report)) else JsonBody(Document(report, now))))
  }

  /**
   * Without a collector URL nothing is posted; otherwise the User-Agent header
   * comes first and Content-Type last, the two credential headers are present
   * exactly when the token is not empty, and the content type matches the
   * body; a JSON body is graded "high" exactly when the score is below 50.
   */
  lemma RequestFacts(report: SocReport, config: SocConfig, now: string)
    ensures RequestFor(report, config, now).None? <==> OrEmpty(config.url) == ""
    ensures var r := RequestFor(report, config, now);
      r.Some? ==>
        && r.value.url == config.url.value
        && r.value.headers[0] == ("User-Agent", USER_AGENT)
        && r.value.headers[|r.value.headers| - 1].0 == "Content-Type"
        && (r.value.headers[|r.value.headers| - 1].1 == "text/plain" <==> r.value.body.CefBody?)
        && (r.value.body.CefBody? <==> config.format == Some("CEF"))
        && (|r.value.headers| == 4 <==> OrEmpty(config.token) != "")
        && (|r.value.headers| == 2 <==> OrEmpty(config.token) == "")
        && (OrEmpty(config.token) != "" ==>
              r.value.headers[1] == ("Authorization", "Bearer " + config.token.value)
              && r.value.headers[2] == ("X-API-Key", config.token.value))
        && (r.value.body.JsonBody? ==>
              (r.value.body.doc.severity == "high" <==> report.score.Some? && report.score.value < 50))
  {
  }

  /** The header and payload construction of `send_report`. */
  method BuildRequest(report: SocReport, config: SocConfig, now: string) returns (req: Option<Request>)
    ensures req == RequestFor(report, config, now)
  {
    var url := OrEmpty(config.url);
    if url == "" {
      return None;
    }
    var token := OrEmpty(config.token);
    var formatType := if config.format.Some? then config.format.value else "JSON";
    var headers := [("User-Agent", USER_AGENT)];
    if token != "" {
      headers := headers + [("Authorization", "Bearer " + token)];
      headers := headers + [("X-API-Key", token)];
    }
    ghost var auth := if token != "" then [("Authorization", "Bearer " + token), ("X-API-Key", token)] else [];
    assert headers == [("User-Agent", USER_AGENT)] + auth;
    assert formatType == "CEF" <==> config.format == Some("CEF");
    var body: Payload;
    if formatType == "CEF" {
      var text := FormatCef(report);
      body := CefBody(text);
      headers := headers + [("Content-Type", "text/plain")];
    } else {
      body := JsonBody(Document(report, now));
      headers := headers + [("Content-Type", "application/json")];
    }
    req := Some(Request(url, headers, body));
  }

  /**
   * `send_report`: `post` answers the status code of the collector, or `None`
   * when the connection raises; success is a status below 300.
   */
  method SendReport(report: SocReport, config: SocConfig, now: string,
                    post: Request -> Option<int>) returns (sent: bool)
    ensures sent <==> RequestFor(report, config, now).Some?
                      && post(RequestFor(report, config, now).value).Some?
                      && post(RequestFor(report, config, now).value).value < 300
  {
    var req := BuildRequest(report, config, now);
    if req.None? {
      return false;
    }
    var response := post(req.value);
    if response.None? {
      return false;
    }
    sent := response.value < 300;
  }
}
