// The threat-intelligence engine: checks the addresses and domain names of a
// capture against a MISP instance and turns each hit into an alert. The MISP
// client is an outside object; it is represented by the answers it gives.

module ThreatIntel {
  import opened Text
  import opened PyValues

  /** The address prefixes treated as private, which are never queried. */
  const PRIVATE_PREFIXES: seq<string> := ["192.168.", "10.", "172.16.", "127."]
  const UNKNOWN_THREAT := "Menace Inconnue"
  const IP_ATTRIBUTE := "ip-dst"
  const DOMAIN_ATTRIBUTE := "domain"
  const IP_LABEL := "[MISP] IP Malveillante connue : "
  const DOMAIN_LABEL := "[MISP] Domaine Malveillant connu : "

  /**
   * A connected client: `search(value, type_attribute)` gives the decoded
   * answer of an attribute search, or `Raised` when the call raises.
   */
  datatype Misp = Misp(search: (string, string) -> Result<Value>)

  /** `ip.startswith(('192.168.', '10.', '172.16.', '127.'))`. */
  predicate IsPrivate(ip: string)
  {
    exists k | 0 <= k < |PRIVATE_PREFIXES| :: StartsWith(ip, PRIVATE_PREFIXES[k])
  }

  /** `[ip for ip in unique_ips if not ip.startswith(...)]`. */
  function PublicIps(ips: seq<string>): (r: seq<string>)
    ensures |r| <= |ips|
    ensures forall ip :: ip in r <==> ip in ips && !IsPrivate(ip)
  {
    if ips == [] then []
    else (if IsPrivate(ips[0]) then [] else [ips[0]]) + PublicIps(ips[1..])
  }

  lemma {:induction false} PublicIpsAppend(a: seq<string>, b: seq<string>)
    ensures PublicIps(a + b) == PublicIps(a) + PublicIps(b)
    decreases |a|
  {
    if a == [] {
      assert a + b == b;
    } else {
      assert (a + b)[1..] == a[1..] + b;
      PublicIpsAppend(a[1..], b);
    }
  }

  /** `v[0]` of a non-empty value: a one-character string, a list element; a dictionary raises. */
  function First(v: Value): Result<Value>
    requires Len(v) > 0
  {
    match v
    case Str(s) => Ok(Str([s[0]]))
    case List(items) => Ok(items[0])
    case Obj(_) => Raised
  }

  /** `v.get(key, default)`: only a dictionary has `get`. */
  function GetFrom(v: Value, key: string, default: Value): Result<Value>
  {
    if v.Obj? then Ok(LookupOr(v.entries, key, default)) else Raised
  }

  /**
   * What the answer `res` yields: `Ok(Some(info))` when it reports the indicator,
   * `Ok(None)` when it does not, `Raised` when reading it raises.
   */
  function Hit(res: Value): Result<Option<string>>
  {
    if !Truthy(res) || !Mentions(res, "Attribute") then Ok(None)
    else if !res.Obj? then Raised
    else
      var attributes := Lookup(res.entries, "Attribute");
      if Len(attributes) == 0 then Ok(None)
      else
        var first := First(attributes);
        if first.Raised? then Raised
        else
          var event := GetFrom(first.value, "Event", Obj([]));
          if event.Raised? then Raised
          else
            var info := GetFrom(event.value, "info", Str(UNKNOWN_THREAT));
            if info.Raised? then Raised else Ok(Some(PyStr(info.value)))
  }

  /** A hit needs a dictionary answer with a non-empty `Attribute` entry. */
  lemma HitNeedsAttributes(res: Value)
    ensures Hit(res).Ok? && Hit(res).value.Some? ==>
              res.Obj? && HasKey(res.entries, "Attribute") && Len(Lookup(res.entries, "Attribute")) > 0
  {
  }

  /**
   * The usual answer shape, a list of attributes whose first one names its
   * event, is a hit carrying the event's `info`, or "Menace Inconnue" when the
   * event has none.
   */
  lemma HitOfWellFormedAnswer(info: string, rest: seq<Value>)
    ensures Hit(Obj([("Attribute", List([Obj([("Event", Obj([("info", Str(info))]))])] + rest))]))
         == Ok(Some(info))
    ensures Hit(Obj([("Attribute", List([Obj([("Event", Obj([]))])] + rest))])) == Ok(Some(UNKNOWN_THREAT))
  {
    var e1 := Obj([("Event", Obj([("info", Str(info))]))]);
    var r1 := [("Attribute", List([e1] + rest))];
    assert r1[0].0 == "Attribute";
    assert e1.entries[0].0 == "Event";
    assert Obj([("info", Str(info))]).entries[0].0 == "info";
    var e2 := Obj([("Event", Obj([]))]);
    var r2 := [("Attribute", List([e2] + rest))];
    assert r2[0].0 == "Attribute";
    assert e2.entries[0].0 == "Event";
  }

  /**
   * Any dictionary answer whose `Attribute` entry is a non-empty list starting
   * with a dictionary: the hit is the `info` of that attribute's `Event`
   * ("Menace Inconnue" when either is missing), and reading it raises only
   * when the event is not a dictionary.
   */
  lemma HitOfAttributes(entries: seq<(string, Value)>, items: seq<Value>, first: seq<(string, Value)>)
    requires HasKey(entries, "Attribute") && Lookup(entries, "Attribute") == List(items)
    requires items != [] && items[0] == Obj(first)
    ensures var event := LookupOr(first, "Event", Obj([]));
      Hit(Obj(entries))
        == (if event.Obj? then Ok(Some(PyStr(LookupOr(event.entries, "info", Str(UNKNOWN_THREAT))))) else Raised)
  {
    assert Truthy(Obj(entries));
  }

  /** The alert the search for one indicator contributes, if any; a raise is swallowed. */
  function IndicatorAlert(misp: Misp, indicator: string, kind: string, prefix: string): Option<string>
  {
    var res := misp.search(indicator, kind);
    if res.Raised? then None
    else
      var hit := Hit(res.value);
      if hit.Ok? && hit.value.Some? then Some(prefix + indicator + " (" + hit.value.value + ")") else None
  }

  function OptionList(o: Option<string>): seq<string>
  {
    if o.Some? then [o.value] else []
  }

  /** The alerts of the address loop over `ips`, in order. */
  function IpAlerts(misp: Misp, ips: seq<string>): seq<string>
  {
    if ips == [] then []
    else IpAlerts(misp, ips[..|ips| - 1]) + OptionList(IndicatorAlert(misp, ips[|ips| - 1], IP_ATTRIBUTE, IP_LABEL))
  }

  /** The alerts of the domain loop over `domains`, in order; empty names are skipped. */
  function DomainAlerts(misp: Misp, domains: seq<string>): seq<string>
  {
    if domains == [] then []
    else
      var domain := domains[|domains| - 1];
      DomainAlerts(misp, domains[..|domains| - 1])
      + (if domain == "" then [] else OptionList(IndicatorAlert(misp, domain, DOMAIN_ATTRIBUTE, DOMAIN_LABEL)))
  }

  /** Every alert of `check_indicators` for a connected client. */
  function Indicators(misp: Misp, ips: seq<string>, domains: seq<string>): seq<string>
  {
    IpAlerts(misp, PublicIps(ips)) + DomainAlerts(misp, domains)
  }

  /** The address loop over a concatenation is the concatenation of the loops. */
  lemma {:induction false} IpAlertsAppend(misp: Misp, ips: seq<string>, more: seq<string>)
    ensures IpAlerts(misp, ips + more) == IpAlerts(misp, ips) + IpAlerts(misp, more)
    decreases |more|
  {
    if more == [] {
      assert ips + more == ips;
    } else {
      var init := more[..|more| - 1];
      assert (ips + more)[..|ips + more| - 1] == ips + init;
      assert (ips + more)[|ips + more| - 1] == more[|more| - 1];
      IpAlertsAppend(misp, ips, init);
    }
  }

  /** At most one alert per address, each naming an address of the list after the address label. */
  lemma {:induction false} IpAlertsShape(misp: Misp, ips: seq<string>)
    ensures |IpAlerts(misp, ips)| <= |ips|
    ensures forall a :: a in IpAlerts(misp, ips) ==>
              exists ip :: ip in ips && StartsWith(a, IP_LABEL + ip + " (")
    decreases |ips|
  {
    if ips != [] {
      var init := ips[..|ips| - 1];
      var ip := ips[|ips| - 1];
      IpAlertsShape(misp, init);
      forall a | a in IpAlerts(misp, ips)
        ensures exists x :: x in ips && StartsWith(a, IP_LABEL + x + " (")
      {
        if a in IpAlerts(misp, init) {
          var x :| x in init && StartsWith(a, IP_LABEL + x + " (");
          assert x in ips;
        } else {
          var info := Hit(misp.search(ip, IP_ATTRIBUTE).value).value.value;
          assert a == IP_LABEL + ip + " (" + info + ")";
          assert a[..|IP_LABEL + ip + " ("|] == IP_LABEL + ip + " (";
        }
      }
    }
  }

  /** The domain loop over a concatenation is the concatenation of the loops. */
  lemma {:induction false} DomainAlertsAppend(misp: Misp, domains: seq<string>, more: seq<string>)
    ensures DomainAlerts(misp, domains + more) == DomainAlerts(misp, domains) + DomainAlerts(misp, more)
    decreases |more|
  {
    if more == [] {
      assert domains + more == domains;
    } else {
      var init := more[..|more| - 1];
      assert (domains + more)[..|domains + more| - 1] == domains + init;
      assert (domains + more)[|domains + more| - 1] == more[|more| - 1];
      DomainAlertsAppend(misp, domains, init);
    }
  }

  /** The number of non-empty names in `domains`. */
  function NonEmpty(domains: seq<string>): nat
  {
    if domains == [] then 0
    else NonEmpty(domains[..|domains| - 1]) + (if domains[|domains| - 1] == "" then 0 else 1)
  }

  /** At most one alert per non-empty name, each naming a non-empty name of the list after the domain label. */
  lemma {:induction false} DomainAlertsShape(misp: Misp, domains: seq<string>)
    ensures |DomainAlerts(misp, domains)| <= NonEmpty(domains)
    ensures forall a :: a in DomainAlerts(misp, domains) ==>
              exists d :: d in domains && d != "" && StartsWith(a, DOMAIN_LABEL + d + " (")
    decreases |domains|
  {
    if domains != [] {
      var init := domains[..|domains| - 1];
      var d := domains[|domains| - 1];
      DomainAlertsShape(misp, init);
      forall a | a in DomainAlerts(misp, domains)
        ensures exists x :: x in domains && x != "" && StartsWith(a, DOMAIN_LABEL + x + " (")
      {
        if a in DomainAlerts(misp, init) {
          var x :| x in init && x != "" && StartsWith(a, DOMAIN_LABEL + x + " (");
          assert x in domains;
        } else {
          var info := Hit(misp.search(d, DOMAIN_ATTRIBUTE).value).value.value;
          assert a == DOMAIN_LABEL + d + " (" + info + ")";
          assert a[..|DOMAIN_LABEL + d + " ("|] == DOMAIN_LABEL + d + " (";
        }
      }
    }
  }

  /** Every alert of the address loop starts with the address label. */
  lemma {:induction false} IpAlertsLabelled(misp: Misp, ips: seq<string>)
    ensures forall k :: 0 <= k < |IpAlerts(misp, ips)| ==> StartsWith(IpAlerts(misp, ips)[k], IP_LABEL)
    decreases |ips|
  {
    if ips != [] {
      var init := ips[..|ips| - 1];
      var ip := ips[|ips| - 1];
      IpAlertsLabelled(misp, init);
      var found := IndicatorAlert(misp, ip, IP_ATTRIBUTE, IP_LABEL);
      if found.Some? {
        var a := found.value;
        assert a == IP_LABEL + (ip + " (" + Hit(misp.search(ip, IP_ATTRIBUTE).value).value.value + ")");
        assert a[..|IP_LABEL|] == IP_LABEL;
        assert IpAlerts(misp, ips) == IpAlerts(misp, init) + [a];
      }
    }
  }

  /** Every alert of the domain loop starts with the domain label. */
  lemma {:induction false} DomainAlertsLabelled(misp: Misp, domains: seq<string>)
    ensures forall k :: 0 <= k < |DomainAlerts(misp, domains)| ==>
              StartsWith(DomainAlerts(misp, domains)[k], DOMAIN_LABEL)
    decreases |domains|
  {
    if domains != [] {
      var init := domains[..|domains| - 1];
      var d := domains[|domains| - 1];
      DomainAlertsLabelled(misp, init);
      var found := IndicatorAlert(misp, d, DOMAIN_ATTRIBUTE, DOMAIN_LABEL);
      if d != "" && found.Some? {
        var a := found.value;
        assert a == DOMAIN_LABEL + (d + " (" + Hit(misp.search(d, DOMAIN_ATTRIBUTE).value).value.value + ")");
        assert a[..|DOMAIN_LABEL|] == DOMAIN_LABEL;
        assert DomainAlerts(misp, domains) == DomainAlerts(misp, init) + [a];
      }
    }
  }

  /**
   * All address alerts come first, then all domain alerts, and there are at
   * most as many alerts as public addresses and non-empty names together.
   */
  lemma IndicatorsOrder(misp: Misp, ips: seq<string>, domains: seq<string>)
    ensures var all := Indicators(misp, ips, domains);
      var n := |IpAlerts(misp, PublicIps(ips))|;
      && |all| <= |PublicIps(ips)| + NonEmpty(domains)
      && (forall k :: 0 <= k < n ==> StartsWith(all[k], IP_LABEL))
      && (forall k :: n <= k < |all| ==> StartsWith(all[k], DOMAIN_LABEL))
  {
    var ipAlerts := IpAlerts(misp, PublicIps(ips));
    var domainAlerts := DomainAlerts(misp, domains);
    assert |ipAlerts| <= |PublicIps(ips)| by {
      IpAlertsShape(misp, PublicIps(ips));
    }
    assert |domainAlerts| <= NonEmpty(domains) by {
      DomainAlertsShape(misp, domains);
    }
    IpAlertsLabelled(misp, PublicIps(ips));
    DomainAlertsLabelled(misp, domains);
    var all := ipAlerts + domainAlerts;
    forall k | |ipAlerts| <= k < |all| ensures StartsWith(all[k], DOMAIN_LABEL) {
      assert all[k] == domainAlerts[k - |ipAlerts|];
    }
  }

  /** An empty domain name is never searched and yields nothing. */
  lemma EmptyDomainSkipped(misp: Misp, ips: seq<string>, before: seq<string>, after: seq<string>)
    ensures Indicators(misp, ips, before + [""] + after) == Indicators(misp, ips, before + after)
  {
    DomainAlertsAppend(misp, before + [""], after);
    DomainAlertsAppend(misp, before, [""]);
    DomainAlertsAppend(misp, before, after);
    assert DomainAlerts(misp, [""]) == [] by {
      assert [""][..0] == [];
    }
    assert DomainAlerts(misp, before + [""]) == DomainAlerts(misp, before);
  }

  /**
   * A public address, or a non-empty domain name, whose search is a hit yields
   * exactly one alert naming it and the event's info.
   */
  lemma HitYieldsAlert(misp: Misp, ip: string, domain: string, ipInfo: string, domainInfo: string)
    requires !IsPrivate(ip) && domain != ""
    requires misp.search(ip, IP_ATTRIBUTE).Ok? && Hit(misp.search(ip, IP_ATTRIBUTE).value) == Ok(Some(ipInfo))
    requires misp.search(domain, DOMAIN_ATTRIBUTE).Ok?
    requires Hit(misp.search(domain, DOMAIN_ATTRIBUTE).value) == Ok(Some(domainInfo))
    ensures Indicators(misp, [ip], [domain])
         == [IP_LABEL + ip + " (" + ipInfo + ")", DOMAIN_LABEL + domain + " (" + domainInfo + ")"]
  {
    assert PublicIps([ip]) == [ip] by {
      assert [ip][1..] == [];
    }
    assert [ip][..0] == [];
    assert [domain][..0] == [];
    assert IndicatorAlert(misp, ip, IP_ATTRIBUTE, IP_LABEL) == Some(IP_LABEL + ip + " (" + ipInfo + ")");
    assert IndicatorAlert(misp, domain, DOMAIN_ATTRIBUTE, DOMAIN_LABEL)
        == Some(DOMAIN_LABEL + domain + " (" + domainInfo + ")");
    assert IpAlerts(misp, [ip]) == [IP_LABEL + ip + " (" + ipInfo + ")"];
    assert DomainAlerts(misp, [domain]) == [DOMAIN_LABEL + domain + " (" + domainInfo + ")"];
  }

  /** A search that raises or answers an empty dictionary yields no address alert. */
  lemma NoAlertFor(misp: Misp, ip: string)
    requires misp.search(ip, IP_ATTRIBUTE).Raised? || misp.search(ip, IP_ATTRIBUTE).value == Obj([])
    ensures IpAlerts(misp, [ip]) == []
  {
    assert [ip][..0] == [];
    assert IndicatorAlert(misp, ip, IP_ATTRIBUTE, IP_LABEL) == None;
  }

  /**
   * A search that raises, or that finds nothing, costs only that indicator's
   * alert: the alerts before and after it are those of the rest of the list.
   */
  lemma FailedSearchIsLocal(misp: Misp, before: seq<string>, ip: string, after: seq<string>, domains: seq<string>)
    requires !IsPrivate(ip)
    requires misp.search(ip, IP_ATTRIBUTE).Raised? || misp.search(ip, IP_ATTRIBUTE).value == Obj([])
    ensures Indicators(misp, before + [ip] + after, domains) == Indicators(misp, before + after, domains)
  {
    var pb, pa := PublicIps(before), PublicIps(after);
    PublicIpsAppend(before + [ip], after);
    PublicIpsAppend(before, [ip]);
    PublicIpsAppend(before, after);
    assert PublicIps([ip]) == [ip] by {
      assert [ip][1..] == [];
    }
    assert PublicIps(before + [ip] + after) == pb + [ip] + pa;
    assert PublicIps(before + after) == pb + pa;
    IpAlertsAppend(misp, pb + [ip], pa);
    IpAlertsAppend(misp, pb, [ip]);
    IpAlertsAppend(misp, pb, pa);
    NoAlertFor(misp, ip);
    assert IpAlerts(misp, pb + [ip]) == IpAlerts(misp, pb);
    assert IpAlerts(misp, pb + [ip] + pa) == IpAlerts(misp, pb + pa);
  }

  /** The same for a domain name: a failed search drops only that name's alert. */
  lemma FailedDomainSearchIsLocal(misp: Misp, ips: seq<string>, before: seq<string>, domain: string,
                                  after: seq<string>)
    requires misp.search(domain, DOMAIN_ATTRIBUTE).Raised? || misp.search(domain, DOMAIN_ATTRIBUTE).value == Obj([])
    ensures Indicators(misp, ips, before + [domain] + after) == Indicators(misp, ips, before + after)
  {
    DomainAlertsAppend(misp, before + [domain], after);
    DomainAlertsAppend(misp, before, [domain]);
    DomainAlertsAppend(misp, before, after);
    assert DomainAlerts(misp, [domain]) == [] by {
      assert [domain][..0] == [];
      assert IndicatorAlert(misp, domain, DOMAIN_ATTRIBUTE, DOMAIN_LABEL) == None;
    }
    assert DomainAlerts(misp, before + [domain]) == DomainAlerts(misp, before);
  }

  /** A private address is never looked up: adding one changes no alert. */
  lemma PrivateIpIgnored(misp: Misp, ips: seq<string>, ip: string, domains: seq<string>)
    requires IsPrivate(ip)
    ensures Indicators(misp, ips + [ip], domains) == Indicators(misp, ips, domains)
  {
    PublicIpsAppend(ips, [ip]);
    assert PublicIps([ip]) == [];
    assert PublicIps(ips) + [] == PublicIps(ips);
  }

  /**
   * An address is private exactly when it starts with one of the four listed
   * prefixes as text, so the rest of 172.16.0.0/12 is public.
   */
  lemma PrefixesAreLiteral(ip: string)
    ensures IsPrivate(ip) <==> StartsWith(ip, "192.168.") || StartsWith(ip, "10.")
                               || StartsWith(ip, "172.16.") || StartsWith(ip, "127.")
    ensures IsPrivate("172.16.0.1") && IsPrivate("10.0.0.1")
    ensures !IsPrivate("172.17.0.1")
  {
    if StartsWith(ip, "192.168.") { assert StartsWith(ip, PRIVATE_PREFIXES[0]); }
    if StartsWith(ip, "10.") { assert StartsWith(ip, PRIVATE_PREFIXES[1]); }
    if StartsWith(ip, "172.16.") { assert StartsWith(ip, PRIVATE_PREFIXES[2]); }
    if StartsWith(ip, "127.") { assert StartsWith(ip, PRIVATE_PREFIXES[3]); }
    assert StartsWith("172.16.0.1", PRIVATE_PREFIXES[2]);
    assert StartsWith("10.0.0.1", PRIVATE_PREFIXES[1]);
    forall k | 0 <= k < |PRIVATE_PREFIXES| ensures !StartsWith("172.17.0.1", PRIVATE_PREFIXES[k]) {
      assert "172.17.0.1"[1] == '7';
      assert "172.17.0.1"[5] == '7';
    }
  }

  class ThreatIntelEngine {
    var misp: Option<Misp>
    var connected: bool

    constructor ()
      ensures misp == None && !connected
    {
      misp := None;
      connected := false;
    }

    /**
     * `connect`: `available` says whether the client library imported, and
     * `create` is the library's constructor, which may raise.
     */
    method Connect(available: bool, create: (string, string, bool) -> Result<Misp>,
                   url: string, key: string, verifyCert: bool) returns (ok: bool)
      modifies this
      ensures !available ==> !ok && misp == old(misp) && connected == old(connected)
      ensures available && create(url, key, verifyCert).Ok? ==>
                ok && misp == Some(create(url, key, verifyCert).value) && connected
      ensures available && create(url, key, verifyCert).Raised? ==> !ok && misp == old(misp) && !connected
    {
      if !available {
        return false;
      }
      var client := create(url, key, verifyCert);
      if client.Raised? {
        connected := false;
        return false;
      }
      misp := Some(client.value);
      connected := true;
      ok := true;
    }

    /** What `check_indicators` returns in the engine's present state. */
    function Alerts(ips: seq<string>, domains: seq<string>): seq<string>
      reads this
    {
      if !connected || misp.None? then [] else Indicators(misp.value, ips, domains)
    }

    /** `check_indicators`: the private-address filter, the address loop, then the domain loop. */
    method CheckIndicators(uniqueIps: seq<string>, uniqueDomains: seq<string>) returns (alerts: seq<string>)
      ensures alerts == Alerts(uniqueIps, uniqueDomains)
    {
      if !connected || misp.None? {
        return [];
      }
      var client := misp.value;
      var publicIps := PublicIps(uniqueIps);
      var ipAlerts := SearchIps(client, publicIps);
      alerts := SearchDomains(client, uniqueDomains, ipAlerts);
    }
  }

  /** The address loop of `check_indicators`, over the public addresses. */
  method SearchIps(client: Misp, publicIps: seq<string>) returns (alerts: seq<string>)
    ensures alerts == IpAlerts(client, publicIps)
  {
    alerts := [];
    for i := 0 to |publicIps|
      invariant alerts == IpAlerts(client, publicIps[..i])
    {
      assert publicIps[..i + 1][..i] == publicIps[..i];
      var found := IndicatorAlert(client, publicIps[i], IP_ATTRIBUTE, IP_LABEL);
      assert IpAlerts(client, publicIps[..i + 1]) == IpAlerts(client, publicIps[..i]) + OptionList(found);
      if found.Some? {
        alerts := alerts + [found.value];
      }
    }
    assert publicIps[..|publicIps|] == publicIps;
  }

  /** The domain loop of `check_indicators`, appending to the alerts found so far. */
  method SearchDomains(client: Misp, domains: seq<string>, found: seq<string>) returns (alerts: seq<string>)
    ensures alerts == found + DomainAlerts(client, domains)
  {
    alerts := found;
    for i := 0 to |domains|
      invariant alerts == found + DomainAlerts(client, domains[..i])
    {
      assert domains[..i + 1][..i] == domains[..i];
      var domain := domains[i];
      assert DomainAlerts(client, domains[..i + 1])
          == DomainAlerts(client, domains[..i])
             + (if domain == "" then [] else OptionList(IndicatorAlert(client, domain, DOMAIN_ATTRIBUTE, DOMAIN_LABEL)));
      if domain == "" {
        continue;
      }
      var hit := IndicatorAlert(client, domain, DOMAIN_ATTRIBUTE, DOMAIN_LABEL);
      if hit.Some? {
        alerts := alerts + [hit.value];
      }
    }
    assert domains[..|domains|] == domains;
  }
}
