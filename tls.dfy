// The TLS engine: server name, a JA3-like client signature and its hash,
// a self-signed certificate heuristic and a one-entry signature denylist,
// computed from one dissected `tls` layer.

module Tls {
  import opened Text
  import opened PyValues

  const SNI_FIELD := "tls.handshake.extensions_server_name"
  const VERSION_FIELD := "tls.handshake.version"
  const CIPHERS_FIELD := "tls.handshake.ciphersuites"
  const EXTENSIONS_FIELD := "tls.handshake.extension.type"
  const CURVES_FIELD := "tls.handshake.extensions_supported_groups"
  const POINTS_FIELD := "tls.handshake.extensions_ec_point_formats"
  const CERT_FIELD := "x509sat.uTF8String"

  /** 771 is the handshake version code of TLS 1.2. */
  const DEFAULT_VERSION := "771"
  /** The single denylisted signature hash (a published Cobalt Strike example). */
  const DENYLISTED_JA3 := "654c6023366c30363212879502804558"
  const SELF_SIGNED_REASON := "Certificat Auto-signé détecté"
  const KNOWN_C2_REASON := "Signature JA3 malveillante (C2 connu)"

  /** The `result` dictionary of `process_packet`. */
  datatype TlsResult = TlsResult(
    suspicious: bool,
    ja3: Option<string>,
    ja3Hash: Option<string>,
    sni: Option<Value>,
    certIssuer: Option<Value>,
    certSubject: Option<Value>,
    riskReasons: seq<string>)

  /** The result before any field is filled in. */
  const Blank := TlsResult(false, None, None, None, None, None, [])

  /** The five signature fields, each read with its default and printed with `str()`. */
  function Ja3Fields(layer: Layer): (r: seq<string>)
    ensures |r| == 5
  {
    [PyStr(GetOr(layer, VERSION_FIELD, Str(DEFAULT_VERSION))),
     PyStr(GetOr(layer, CIPHERS_FIELD, Str(""))),
     PyStr(GetOr(layer, EXTENSIONS_FIELD, Str(""))),
     PyStr(GetOr(layer, CURVES_FIELD, Str(""))),
     PyStr(GetOr(layer, POINTS_FIELD, Str("")))]
  }

  /** The signature string is `version,ciphers,extensions,curves,points`. */
  lemma Ja3Spelled(layer: Layer)
    ensures Join(",", Ja3Fields(layer))
         == PyStr(GetOr(layer, VERSION_FIELD, Str(DEFAULT_VERSION))) + "," + PyStr(GetOr(layer, CIPHERS_FIELD, Str("")))
            + "," + PyStr(GetOr(layer, EXTENSIONS_FIELD, Str(""))) + "," + PyStr(GetOr(layer, CURVES_FIELD, Str("")))
            + "," + PyStr(GetOr(layer, POINTS_FIELD, Str("")))
  {
    var fields := Ja3Fields(layer);
    assert Join(",", fields[3..]) == fields[3] + "," + Join(",", fields[4..]);
    assert Join(",", fields[2..]) == fields[2] + "," + Join(",", fields[3..]);
    assert Join(",", fields[1..]) == fields[1] + "," + Join(",", fields[2..]);
  }

  /** `subject, issuer` read from a certificate string list of at least two entries. */
  function CertPair(layer: Layer): (r: Option<(Value, Value)>)
    ensures r.Some? <==> CERT_FIELD in layer && layer[CERT_FIELD].List? && |layer[CERT_FIELD].items| >= 2
    ensures r.Some? ==> r.value == (layer[CERT_FIELD].items[0], layer[CERT_FIELD].items[1])
  {
    if CERT_FIELD in layer && layer[CERT_FIELD].List? && |layer[CERT_FIELD].items| > 1
    then Some((layer[CERT_FIELD].items[0], layer[CERT_FIELD].items[1]))
    else None
  }

  /** The certificate heuristic fires: the first two certificate strings are equal. */
  predicate SelfSigned(layer: Layer)
  {
    CertPair(layer).Some? && CertPair(layer).value.0 == CertPair(layer).value.1
  }

  /**
   * What `process_packet` returns for a `tls` layer, given the hash function
   * (`md5(...).hexdigest()`), as a value.
   */
  function Fingerprint(layer: Layer, md5: string -> string): (r: TlsResult)
    ensures r.sni == (if SNI_FIELD in layer then Some(layer[SNI_FIELD]) else None)
    ensures r.ja3.Some? <==> CIPHERS_FIELD in layer
    ensures r.ja3.Some? ==> r.ja3.value == Join(",", Ja3Fields(layer))
    ensures r.ja3Hash.Some? <==> r.ja3.Some?
    ensures r.ja3Hash.Some? ==> r.ja3Hash.value == md5(r.ja3.value)
    ensures r.certSubject.Some? <==> CertPair(layer).Some?
    ensures r.certSubject.Some? ==>
              r.certSubject.value == layer[CERT_FIELD].items[0] && r.certIssuer == Some(layer[CERT_FIELD].items[1])
    ensures r.suspicious <==> r.riskReasons != []
    ensures |r.riskReasons| <= 2
    ensures SELF_SIGNED_REASON in r.riskReasons <==> SelfSigned(layer)
    ensures KNOWN_C2_REASON in r.riskReasons <==> r.ja3Hash == Some(DENYLISTED_JA3)
    ensures SelfSigned(layer) ==> r.riskReasons[0] == SELF_SIGNED_REASON
    ensures r.suspicious <==> SelfSigned(layer) || r.ja3Hash == Some(DENYLISTED_JA3)
    ensures r.riskReasons == (if SelfSigned(layer) then [SELF_SIGNED_REASON] else [])
                             + (if r.ja3Hash == Some(DENYLISTED_JA3) then [KNOWN_C2_REASON] else [])
  {
    var ja3 := if CIPHERS_FIELD in layer then Some(Join(",", Ja3Fields(layer))) else None;
    var hash := if ja3.Some? then Some(md5(ja3.value)) else None;
    var cert := CertPair(layer);
    var selfSigned := SelfSigned(layer);
    var c2 := hash == Some(DENYLISTED_JA3);
    var reasons := (if selfSigned then [SELF_SIGNED_REASON] else [])
                   + (if c2 then [KNOWN_C2_REASON] else []);
    TlsResult(
      selfSigned || c2,
      ja3,
      hash,
      if SNI_FIELD in layer then Some(layer[SNI_FIELD]) else None,
      if cert.Some? then Some(cert.value.1) else None,
      if cert.Some? then Some(cert.value.0) else None,
      reasons)
  }

  /**
   * Two layers whose signature fields contain no comma and differ somewhere get
   * different signature strings, so an injective hash tells their clients apart.
   */
  lemma {:induction false} Ja3Distinguishes(a: Layer, b: Layer, md5: string -> string)
    requires CIPHERS_FIELD in a && CIPHERS_FIELD in b
    requires forall k :: 0 <= k < 5 ==> ',' !in Ja3Fields(a)[k] && ',' !in Ja3Fields(b)[k]
    requires Ja3Fields(a) != Ja3Fields(b)
    requires forall x, y :: md5(x) == md5(y) ==> x == y
    ensures Fingerprint(a, md5).ja3Hash != Fingerprint(b, md5).ja3Hash
  {
    SplitJoin(Ja3Fields(a), ',');
    SplitJoin(Ja3Fields(b), ',');
    assert Join([','], Ja3Fields(a)) != Join([','], Ja3Fields(b));
  }

  /** The signature and its hash depend on the five signature fields only. */
  lemma SameFieldsSameHash(a: Layer, b: Layer, md5: string -> string)
    requires CIPHERS_FIELD in a && CIPHERS_FIELD in b
    requires Ja3Fields(a) == Ja3Fields(b)
    ensures Fingerprint(a, md5).ja3 == Fingerprint(b, md5).ja3
    ensures Fingerprint(a, md5).ja3Hash == Fingerprint(b, md5).ja3Hash
  {
  }

  /** A layer with none of the fields leaves the result as it was initialised. */
  lemma EmptyLayerIsBlank(md5: string -> string)
    ensures Fingerprint(map[], md5) == Blank
    ensures !Blank.suspicious && Blank.riskReasons == []
  {
  }

  /** The engine object; `ja3_db` is kept for a future signature database and is never read. */
  class TlsEngine {
    var ja3Db: map<string, string>

    constructor ()
      ensures ja3Db == map[]
    {
      ja3Db := map[];
    }

    /** `process_packet`: fills the result field by field, appending risk reasons in order. */
    method ProcessPacket(tlsLayer: Layer, md5: string -> string) returns (result: TlsResult)
      ensures result == Fingerprint(tlsLayer, md5)
    {
      result := Blank;

      if SNI_FIELD in tlsLayer {
        result := result.(sni := Some(tlsLayer[SNI_FIELD]));
      }

      if CIPHERS_FIELD in tlsLayer {
        var version := GetOr(tlsLayer, VERSION_FIELD, Str(DEFAULT_VERSION));
        var ciphers := GetOr(tlsLayer, CIPHERS_FIELD, Str(""));
        var extensions := GetOr(tlsLayer, EXTENSIONS_FIELD, Str(""));
        var curves := GetOr(tlsLayer, CURVES_FIELD, Str(""));
        var points := GetOr(tlsLayer, POINTS_FIELD, Str(""));
        var rawJa3 := PyStr(version) + "," + PyStr(ciphers) + "," + PyStr(extensions) + ","
                      + PyStr(curves) + "," + PyStr(points);
        Ja3Spelled(tlsLayer);
        result := result.(ja3 := Some(rawJa3), ja3Hash := Some(md5(rawJa3)));
      }

      if CERT_FIELD in tlsLayer {
        var certData := tlsLayer[CERT_FIELD];
        if certData.List? && |certData.items| > 1 {
          result := result.(certSubject := Some(certData.items[0]), certIssuer := Some(certData.items[1]));
          if result.certSubject == result.certIssuer {
            result := result.(suspicious := true, riskReasons := result.riskReasons + [SELF_SIGNED_REASON]);
          }
        }
      }

      if result.ja3Hash == Some(DENYLISTED_JA3) {
        result := result.(suspicious := true, riskReasons := result.riskReasons + [KNOWN_C2_REASON]);
      }
    }
  }
}
