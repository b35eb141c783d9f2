/** How the two result handlers grade each hazard and word its card. The
    submit handler and the map-click handler share every rule except two: the
    radon rule (the map-click one has no "moderate only on `moyenne`" step) and
    the wording of the major-risk lines. */
module Classification {
  import opened Common
  import opened Providers

  /** The three grades the handlers assign, `'high'`, `'moderate'` and `'low'`. */
  datatype RiskLevel = High | Moderate | Low

  /** The order the cards are shown in: high first, low last. */
  function Severity(level: RiskLevel): nat
  {
    match level
    case High => 2
    case Moderate => 1
    case Low => 0
  }

  /** The two handlers whose rules differ. */
  datatype Handler = Submit | MapClick

  /** `x && x.length > 0 ? 'high' : 'low'`: the flood, major-risk and ground-movement rule. */
  function ListingRiskLevel<T>(found: Option<seq<T>>): (level: RiskLevel)
    ensures level == High <==> found.Some? && |found.value| > 0
    ensures level != Moderate
  {
    if found.Some? && |found.value| > 0 then High else Low
  }

  /** The submit handler's radon rule: `élevé` anywhere is high, else `moyenne` is moderate. */
  function SubmitRadonRiskLevel(zones: Option<seq<Option<string>>>): (level: RiskLevel)
    ensures level == High <==> zones.Some? && Some("élevé") in zones.value
    ensures level == Moderate <==> zones.Some? && Some("élevé") !in zones.value && Some("moyenne") in zones.value
  {
    if zones.Some? && |zones.value| > 0 then
      if Some("élevé") in zones.value then High
      else if Some("moyenne") in zones.value then Moderate
      else Low
    else Low
  }

  /** The map-click handler's radon rule: `élevé` anywhere is high, any other non-empty list moderate. */
  function MapClickRadonRiskLevel(zones: Option<seq<Option<string>>>): (level: RiskLevel)
    ensures level == High <==> zones.Some? && Some("élevé") in zones.value
    ensures level == Moderate <==> zones.Some? && |zones.value| > 0 && Some("élevé") !in zones.value
  {
    if zones.Some? && |zones.value| > 0 then
      if Some("élevé") in zones.value then High else Moderate
    else Low
  }

  function RadonRiskLevel(handler: Handler, zones: Option<seq<Option<string>>>): RiskLevel
  {
    match handler
    case Submit => SubmitRadonRiskLevel(zones)
    case MapClick => MapClickRadonRiskLevel(zones)
  }

  /** The two radon rules disagree exactly on a non-empty list holding neither
      `élevé` nor `moyenne`, which submit grades low and map-click moderate. */
  lemma RadonRulesDiffer(zones: Option<seq<Option<string>>>)
    ensures SubmitRadonRiskLevel(zones) != MapClickRadonRiskLevel(zones) <==>
      zones.Some? && |zones.value| > 0 && Some("élevé") !in zones.value && Some("moyenne") !in zones.value
    ensures SubmitRadonRiskLevel(zones) != MapClickRadonRiskLevel(zones) ==>
      SubmitRadonRiskLevel(zones) == Low && MapClickRadonRiskLevel(zones) == Moderate
  {
  }

  /** The map-click radon grade is never below the submit one. */
  lemma MapClickRadonNotMilder(zones: Option<seq<Option<string>>>)
    ensures Severity(SubmitRadonRiskLevel(zones)) <= Severity(MapClickRadonRiskLevel(zones))
  {
  }

  /** More radon entries never lower a grade, under either rule. */
  lemma RadonGradeGrowsWithEntries(handler: Handler, xs: seq<Option<string>>, ys: seq<Option<string>>)
    ensures Severity(RadonRiskLevel(handler, Some(xs))) <= Severity(RadonRiskLevel(handler, Some(xs + ys)))
  {
    if Some("élevé") in xs {
      assert Some("élevé") in xs + ys;
    } else if Some("moyenne") in xs {
      assert Some("moyenne") in xs + ys;
    }
  }

  /** `clayRisk && clayRisk.exposition`: a reply whose exposition is a non-empty text. */
  predicate HasExposition(clay: Option<ClayData>)
  {
    clay.Some? && clay.value.exposition.Some? && clay.value.exposition.value != ""
  }

  /** The clay rule: `élevée` in the exposition is high, else `moyenne` or `modérée` is moderate. */
  function ClayRiskLevel(clay: Option<ClayData>): (level: RiskLevel)
    ensures level == High <==> HasExposition(clay) && Includes(clay.value.exposition.value, "élevée")
    ensures level == Moderate <==>
      && HasExposition(clay) && !Includes(clay.value.exposition.value, "élevée")
      && (Includes(clay.value.exposition.value, "moyenne") || Includes(clay.value.exposition.value, "modérée"))
  {
    if HasExposition(clay) then
      var exposition := clay.value.exposition.value;
      if Includes(exposition, "élevée") then High
      else if Includes(exposition, "moyenne") || Includes(exposition, "modérée") then Moderate
      else Low
    else Low
  }

  /** The clay test is a substring test: a longer wording that contains `élevée` is still high. */
  lemma ClayHighWithinLongerText(prefix: string, suffix: string)
    ensures ClayRiskLevel(Some(ClayData(Some(prefix + "élevée" + suffix)))) == High
  {
    IncludesAt("élevée", "élevée");
    assert OccursAt("élevée", "élevée", 0);
    IncludesWithin(prefix, "élevée", suffix, "élevée");
  }

  /** The seismic rule: a zone of value "4" or "5" is high, any other non-empty list moderate. */
  function SeismicRiskLevel(zones: Option<seq<SeismicZone>>): (level: RiskLevel)
    ensures level == High <==> zones.Some? && exists i :: 0 <= i < |zones.value| && IsStrongZone(zones.value[i])
    ensures level == Moderate <==>
      (zones.Some? && |zones.value| > 0 && forall i :: 0 <= i < |zones.value| ==> !IsStrongZone(zones.value[i]))
  {
    if zones.Some? && |zones.value| > 0 then
      if exists i :: 0 <= i < |zones.value| && IsStrongZone(zones.value[i]) then High else Moderate
    else Low
  }

  predicate IsStrongZone(zone: SeismicZone)
  {
    zone.sismicite == "4" || zone.sismicite == "5"
  }

  /** Collapsing duplicate zones does not change the seismic grade: the
      distinct zones of a reply grade as its records do. */
  lemma SeismicGradeOfReply(rayon: int, latlon: string, codeInsee: Option<string>, reply: Reply<SeismicRecord>)
    requires FetchSeismicZones(rayon, latlon, codeInsee, reply).Ok?
    requires reply.Some?
    ensures var records := Records(reply).value;
      SeismicRiskLevel(FetchSeismicZones(rayon, latlon, codeInsee, reply).value) ==
        if |records| == 0 then Low
        else if exists k :: 0 <= k < |records| && (records[k].zoneSismicite == "4" || records[k].zoneSismicite == "5") then High
        else Moderate
  {
    var records := Records(reply).value;
    var zones := FetchSeismicZones(rayon, latlon, codeInsee, reply).value.value;
    SeismicZonesAreDistinctZonesOfReply(rayon, latlon, codeInsee, reply, "4");
    SeismicZonesAreDistinctZonesOfReply(rayon, latlon, codeInsee, reply, "5");
    if |records| > 0 {
      SeismicZonesAreDistinctZonesOfReply(rayon, latlon, codeInsee, reply, records[0].zoneSismicite);
      assert |zones| > 0;
    } else {
      assert zones == [];
    }
    if exists i :: 0 <= i < |zones| && IsStrongZone(zones[i]) {
      var i :| 0 <= i < |zones| && IsStrongZone(zones[i]);
      assert zones[i] == SeismicZone(codeInsee, zones[i].sismicite);
    }
    if exists k :: 0 <= k < |records| && (records[k].zoneSismicite == "4" || records[k].zoneSismicite == "5") {
      var k :| 0 <= k < |records| && (records[k].zoneSismicite == "4" || records[k].zoneSismicite == "5");
      var i :| 0 <= i < |zones| && zones[i] == SeismicZone(codeInsee, records[k].zoneSismicite);
      assert IsStrongZone(zones[i]);
    }
  }

  // ---------------------------------------------------------------- card texts

  const FloodTitle := "Zones Inondables"
  const RadonTitle := "Risques Radon"
  const ClayTitle := "Gonflement des Sols Argileux"
  const SeismicTitle := "Zones Sismiques"
  const MajorTitle := "Risques Majeurs"
  const LandslideTitle := "Risques de mouvement de terrain"

  function FloodContent(level: RiskLevel): string
  {
    if level == High then "L'adresse est en zone inondable." else "L'adresse n'est pas en zone inondable."
  }

  function RadonContent(level: RiskLevel): string
  {
    match level
    case High => "L'adresse est en zone à risque radon élevé."
    case Moderate => "L'adresse est en zone à risque radon modéré."
    case Low => "L'adresse n'est pas en zone à risque radon."
  }

  function SeismicContent(level: RiskLevel): string
  {
    match level
    case High => "L'adresse est en zone sismique avec un risque élevé."
    case Moderate => "L'adresse est en zone sismique avec un risque modéré."
    case Low => "L'adresse n'est pas en zone sismique."
  }

  /** Each three-way text names its grade: two grades never share a text. */
  lemma ContentsTellGradesApart(l1: RiskLevel, l2: RiskLevel)
    requires l1 != l2
    ensures RadonContent(l1) != RadonContent(l2)
    ensures SeismicContent(l1) != SeismicContent(l2)
    ensures l1 == High || l2 == High ==> FloodContent(l1) != FloodContent(l2)
  {
  }

  /** `${x}` of a reply member: its text, or `undefined` when it is missing. */
  function Interpolated(value: Option<string>): string
  {
    if value.Some? then value.value else "undefined"
  }

  /** The clay text depends on whether a reply came, not on the grade. */
  function ClayContent(clay: Option<ClayData>): string
  {
    if clay.Some? then "Votre exposition au risque de gonflement des sols est " + Interpolated(clay.value.exposition) + "."
    else "Pas de risque de gonflement des sols."
  }

  /** A reply without an exposition grades low but still shows the exposition
      sentence, with the word `undefined` in it. */
  lemma ClayWithoutExposition()
    ensures ClayRiskLevel(Some(ClayData(None))) == Low
    ensures ClayContent(Some(ClayData(None))) == "Votre exposition au risque de gonflement des sols est undefined."
    ensures ClayContent(Some(ClayData(None))) != ClayContent(None)
  {
  }

  /** A failed clay fetch grades low like a reply without exposition, but has
      a text of its own that no reply can produce. */
  lemma FailedClayFetchHasOwnText(clay: ClayData)
    ensures ClayRiskLevel(None) == Low
    ensures ClayContent(Some(clay)) != ClayContent(None)
  {
    assert |ClayContent(None)| < |ClayContent(Some(clay))|;
  }

  /** One line of the major-risk card; the two handlers word the advice differently. */
  function MajorRiskLine(handler: Handler, hazard: MajorRecord): string
  {
    "Risque majeur publié en " + hazard.anneePublication + " pour la commune " + hazard.libelleCommune +
    (match handler
     case Submit => ", renseignez-vous en mairie pour plus d'information."
     case MapClick => ", renseigner vous en mairie pour plus d'information.")
  }

  /** The same record gives a different line in each handler. */
  lemma MajorLinesDifferByHandler(hazard: MajorRecord)
    ensures MajorRiskLine(Submit, hazard) != MajorRiskLine(MapClick, hazard)
  {
    var head := "Risque majeur publié en " + hazard.anneePublication + " pour la commune " + hazard.libelleCommune;
    var k := |head| + 11;
    assert MajorRiskLine(Submit, hazard)[k] == ", renseignez-vous en mairie pour plus d'information."[11];
    assert MajorRiskLine(MapClick, hazard)[k] == ", renseigner vous en mairie pour plus d'information."[11];
  }

  function MajorRiskLines(handler: Handler, hazards: seq<MajorRecord>): seq<string>
  {
    seq(|hazards|, i requires 0 <= i < |hazards| => MajorRiskLine(handler, hazards[i]))
  }

  /** The major-risk card text: the lines joined by `<br>`, or the "none found" sentence. */
  function MajorContent(handler: Handler, hazards: Option<seq<MajorRecord>>): string
  {
    if ListingRiskLevel(hazards) == High then Join(MajorRiskLines(handler, hazards.value), "<br>")
    else "Aucun risque majeur trouvé pour cette adresse."
  }

  /** Every published record shows its year and commune on the card. */
  lemma MajorContentListsEveryRecord(handler: Handler, hazards: seq<MajorRecord>, k: int)
    requires 0 <= k < |hazards|
    ensures Includes(MajorContent(handler, Some(hazards)), MajorRiskLine(handler, hazards[k]))
    ensures Includes(MajorContent(handler, Some(hazards)), hazards[k].anneePublication)
    ensures Includes(MajorContent(handler, Some(hazards)), hazards[k].libelleCommune)
  {
    var lines := MajorRiskLines(handler, hazards);
    var content := MajorContent(handler, Some(hazards));
    JoinIncludesParts(lines, "<br>", k);
    var line := lines[k];
    var hazard := hazards[k];
    var p1 := "Risque majeur publié en ";
    var p2 := " pour la commune ";
    var tail := line[|p1 + hazard.anneePublication + p2 + hazard.libelleCommune|..];
    assert line == p1 + hazard.anneePublication + (p2 + hazard.libelleCommune + tail);
    assert line == (p1 + hazard.anneePublication + p2) + hazard.libelleCommune + tail;
    IncludesSelf(hazard.anneePublication);
    IncludesSelf(hazard.libelleCommune);
    IncludesWithin(p1, hazard.anneePublication, p2 + hazard.libelleCommune + tail, hazard.anneePublication);
    IncludesWithin(p1 + hazard.anneePublication + p2, hazard.libelleCommune, tail, hazard.libelleCommune);
    IncludesTransitive(content, line, hazard.anneePublication);
    IncludesTransitive(content, line, hazard.libelleCommune);
  }

  /** One line of the ground-movement card. */
  function LandslideLine(movement: LandslideRecord): string
  {
    "Type: " + movement.kind + ", Lieu: " + movement.lieu + ", Date: " + movement.dateDebut
  }

  function LandslideLines(movements: seq<LandslideRecord>): seq<string>
  {
    seq(|movements|, i requires 0 <= i < |movements| => LandslideLine(movements[i]))
  }

  /** The ground-movement card text: the lines joined by `<br>`, or the "none found" sentence. */
  function LandslideContent(movements: Option<seq<LandslideRecord>>): string
  {
    if ListingRiskLevel(movements) == High then Join(LandslideLines(movements.value), "<br>")
    else "Aucun risque de mouvement de terrain trouvé pour cette adresse."
  }

  /** Every ground movement of the listing has its line on the card. */
  lemma LandslideContentListsEveryRecord(movements: seq<LandslideRecord>, k: int)
    requires 0 <= k < |movements|
    ensures Includes(LandslideContent(Some(movements)), LandslideLine(movements[k]))
  {
    JoinIncludesParts(LandslideLines(movements), "<br>", k);
  }
}
