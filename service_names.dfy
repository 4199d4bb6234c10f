// The keyword registry both analysers search (the same fourteen names, in the
// same priority order, appear in both versions of `extraire_service`).

module ServiceNames {
  import opened Text
  import opened PyValues

  const GERS: seq<string> := ["google", "facebook", "instagram", "whatsapp", "netflix", "youtube",
                              "spotify", "apple", "microsoft", "amazon", "tiktok", "snapchat",
                              "twitch", "discord"]

  /**
   * `for geant in GERS: if geant in lowered: return ...`, starting at position
   * `from`: the index of the first keyword, in registry order, that occurs in
   * `lowered`.
   */
  function FirstKeyword(lowered: string, from: nat): (r: Option<nat>)
    requires from <= |GERS|
    ensures r.Some? ==> from <= r.value < |GERS| && Contains(lowered, GERS[r.value])
    ensures r.Some? ==> forall j :: from <= j < r.value ==> !Contains(lowered, GERS[j])
    ensures r.None? ==> forall j :: from <= j < |GERS| ==> !Contains(lowered, GERS[j])
    decreases |GERS| - from
  {
    if from == |GERS| then None
    else if Contains(lowered, GERS[from]) then Some(from)
    else FirstKeyword(lowered, from + 1)
  }

  /** The display label `geant.capitalize()` of the first keyword found in `text.lower()`. */
  function KeywordLabel(text: string): (r: Option<string>)
    ensures r.None? <==> forall j :: 0 <= j < |GERS| ==> !Contains(Lower(text), GERS[j])
    ensures r.Some? ==> exists k :: 0 <= k < |GERS| && r.value == Capitalize(GERS[k])
                                    && Contains(Lower(text), GERS[k])
                                    && forall j :: 0 <= j < k ==> !Contains(Lower(text), GERS[j])
    ensures r.Some? ==> r.value != "Autre" && r.value != ""
  {
    match FirstKeyword(Lower(text), 0)
    case None => None
    case Some(k) =>
      LabelsAreDistinguished(k);
      Some(Capitalize(GERS[k]))
  }

  /** No registry label coincides with the "Autre" fallback or with the empty label. */
  lemma LabelsAreDistinguished(k: nat)
    requires k < |GERS|
    ensures Capitalize(GERS[k]) != "Autre" && Capitalize(GERS[k]) != ""
  {
    var c := Capitalize(GERS[k]);
    assert c[1] == LowerChar(GERS[k][1]);
  }
}
