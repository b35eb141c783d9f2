/** The fetchers of the hazard front end: how each one turns the Géorisques
    reply into the value the handlers classify. The HTTP exchange itself is a
    parameter: `None` for a reply that never came or was not `ok` (the fetcher
    then catches the error and returns `null`), `Some(payload)` for the decoded
    JSON body. */
module Providers {
  import opened Common
  import opened Coordinates

  /** The JSON body of a listing reply: its `data` member, absent or an array. */
  datatype Payload<+T> = Payload(data: Option<seq<T>>)

  /** What `fetch` and `response.json()` yield; `None` when the fetcher lands in its `catch`. */
  type Reply<T> = Option<Payload<T>>

  /** `data.data && data.data.length > 0 ? data.data : []`, or `null` for a failed exchange. */
  function Records<T>(reply: Reply<T>): Option<seq<T>>
  {
    match reply
    case None => None
    case Some(payload) => Some(if payload.data.Some? then payload.data.value else [])
  }

  // ---------------------------------------------------------------- flood zones

  /** An item of the flood-zone reply: its `liste_libelle_risque`, each entry
      reduced to its `libelle_risque_long` (`None` when the entry lacks one). */
  datatype FloodItem = FloodItem(risks: Option<seq<Option<string>>>)

  /** `flatMap` over the items; an item without a risk list makes `.map` throw
      a TypeError, which the fetcher's `catch` turns into `null`. */
  function Flatten(items: seq<FloodItem>): Option<seq<Option<string>>>
    decreases |items|
  {
    if |items| == 0 then Some([])
    else match (items[0].risks, Flatten(items[1..]))
      case (Some(head), Some(tail)) => Some(head + tail)
      case _ => None
  }

  /** Flattening succeeds exactly when every item carries a risk list. */
  lemma {:induction false} FlattenDefined(items: seq<FloodItem>)
    ensures Flatten(items).Some? <==> forall i :: 0 <= i < |items| ==> items[i].risks.Some?
    decreases |items|
  {
    if |items| > 0 {
      FlattenDefined(items[1..]);
      assert forall i :: 1 <= i < |items| ==> items[i] == items[1..][i - 1];
    }
  }

  /** A flattened entry is an entry of some item's list, and every such entry is kept. */
  lemma {:induction false} FlattenMembership(items: seq<FloodItem>, risk: Option<string>)
    requires Flatten(items).Some?
    ensures risk in Flatten(items).value <==>
      exists i :: 0 <= i < |items| && items[i].risks.Some? && risk in items[i].risks.value
    decreases |items|
  {
    if |items| > 0 {
      FlattenMembership(items[1..], risk);
      if exists i :: 0 <= i < |items| && items[i].risks.Some? && risk in items[i].risks.value {
        var i :| 0 <= i < |items| && items[i].risks.Some? && risk in items[i].risks.value;
        if i > 0 {
          assert items[1..][i - 1] == items[i];
        }
      }
    }
  }

  /** Flattening a concatenation flattens each half. */
  lemma {:induction false} FlattenAppend(a: seq<FloodItem>, b: seq<FloodItem>)
    ensures Flatten(a + b) ==
      if Flatten(a).Some? && Flatten(b).Some? then Some(Flatten(a).value + Flatten(b).value) else None
    decreases |a|
  {
    if |a| > 0 {
      assert (a + b)[1..] == a[1..] + b;
      FlattenAppend(a[1..], b);
      if a[0].risks.Some? && Flatten(a[1..]).Some? && Flatten(b).Some? {
        assert a[0].risks.value + (Flatten(a[1..]).value + Flatten(b).value)
          == (a[0].risks.value + Flatten(a[1..]).value) + Flatten(b).value;
      }
    } else {
      assert a + b == b;
      if Flatten(b).Some? {
        assert [] + Flatten(b).value == Flatten(b).value;
      }
    }
  }

  /** `fetchFloodZones`: the flattened labels, `[]` for an empty listing, `null` on failure. */
  function FetchFloodZones(reply: Reply<FloodItem>): (r: Option<seq<Option<string>>>)
    ensures reply.None? ==> r.None?
    ensures reply.Some? ==> (r.Some? <==> forall i :: 0 <= i < |Records(reply).value| ==> Records(reply).value[i].risks.Some?)
  {
    var records := Records(reply);
    if records.Some? then
      FlattenDefined(records.value);
      Flatten(records.value)
    else None
  }

  // ---------------------------------------------------------------- radon

  /** An item of the radon reply: its `classe_potentiel`, as the text it is looked up by. */
  datatype RadonRecord = RadonRecord(classePotentiel: string)

  /** The lookup `{ "1": 'faible', "2": 'moyenne', "3": 'élevé' }[classe]`; `None` is `undefined`. */
  function RadonLabel(classePotentiel: string): (description: Option<string>)
    ensures description.Some? <==> classePotentiel == "1" || classePotentiel == "2" || classePotentiel == "3"
  {
    if classePotentiel == "1" then Some("faible")
    else if classePotentiel == "2" then Some("moyenne")
    else if classePotentiel == "3" then Some("élevé")
    else None
  }

  /** The reverse reading of the table: the class a label stands for. */
  function RadonClass(description: string): Option<string>
  {
    if description == "faible" then Some("1")
    else if description == "moyenne" then Some("2")
    else if description == "élevé" then Some("3")
    else None
  }

  /** The table is one-to-one: a label gives back the class it came from, and the other way round. */
  lemma RadonLabelRoundTrip(classePotentiel: string, description: string)
    ensures RadonLabel(classePotentiel) == Some(description) <==> RadonClass(description) == Some(classePotentiel)
  {
  }

  /** Two classes with the same label are the same class. */
  lemma RadonLabelInjective(c1: string, c2: string)
    requires RadonLabel(c1).Some? && RadonLabel(c1) == RadonLabel(c2)
    ensures c1 == c2
  {
    RadonLabelRoundTrip(c1, RadonLabel(c1).value);
    RadonLabelRoundTrip(c2, RadonLabel(c1).value);
  }

  /** `fetchRadonZones`: one label per item, in order, `null` on failure. */
  function FetchRadonZones(reply: Reply<RadonRecord>): (r: Option<seq<Option<string>>>)
    ensures r.None? <==> reply.None?
    ensures r.Some? ==> |r.value| == |Records(reply).value|
    ensures r.Some? ==> forall i :: 0 <= i < |r.value| ==>
      r.value[i] == RadonLabel(Records(reply).value[i].classePotentiel)
  {
    match Records(reply)
    case None => None
    case Some(records) => Some(seq(|records|, i requires 0 <= i < |records| => RadonLabel(records[i].classePotentiel)))
  }

  /** An `élevé` entry comes from an item of class "3", and only from one. */
  lemma RadonHighComesFromClassThree(reply: Reply<RadonRecord>)
    requires FetchRadonZones(reply).Some?
    ensures Some("élevé") in FetchRadonZones(reply).value <==>
      exists i :: 0 <= i < |Records(reply).value| && Records(reply).value[i].classePotentiel == "3"
  {
    var records := Records(reply).value;
    var zones := FetchRadonZones(reply).value;
    if Some("élevé") in zones {
      var i :| 0 <= i < |zones| && zones[i] == Some("élevé");
      RadonLabelRoundTrip(records[i].classePotentiel, "élevé");
    }
    if exists i :: 0 <= i < |records| && records[i].classePotentiel == "3" {
      var i :| 0 <= i < |records| && records[i].classePotentiel == "3";
      assert zones[i] == Some("élevé");
    }
  }

  // ---------------------------------------------------------------- parameter precedence

  /** The three lookups that take `(rayon, latlon, codeInsee)`. */
  datatype Lookup = SeismicZones | MajorRisks | LandslideRisks

  /** The query parameters a lookup sends: by radius around a point, or by commune. */
  datatype Params = ByRadius(rayon: int, latlon: string) | ByCommune(codeInsee: string)

  /** The error each lookup throws when neither parameter set is usable. */
  function MissingParamsMessage(lookup: Lookup): string
  {
    match lookup
    case SeismicZones => "Paramètres manquants pour la recherche des zones sismiques."
    case MajorRisks => "Paramètres manquants pour la recherche des risques majeurs."
    case LandslideRisks => "Paramètres manquants pour la recherche des risques de mouvement de terrain."
  }

  /** The three messages tell the lookups apart. */
  lemma MissingParamsMessagesDistinct(l1: Lookup, l2: Lookup)
    ensures MissingParamsMessage(l1) == MissingParamsMessage(l2) <==> l1 == l2
  {
    var s, m, l := MissingParamsMessage(SeismicZones), MissingParamsMessage(MajorRisks), MissingParamsMessage(LandslideRisks);
    assert s[43] != m[43] && s[43] != l[43] && m[51] != l[51];
  }

  /** `if (rayon && latlon) … else if (codeInsee) … else throw`: a number is
      truthy when non-zero, a text when non-empty, `null` never. */
  function SelectParams(lookup: Lookup, rayon: int, latlon: string, codeInsee: Option<string>): (r: Result<Params>)
    ensures r.Ok? && r.value.ByRadius? <==> rayon != 0 && latlon != ""
    ensures r.Ok? && r.value.ByRadius? ==> r.value == ByRadius(rayon, latlon)
    ensures r.Ok? && r.value.ByCommune? <==> (rayon == 0 || latlon == "") && codeInsee.Some? && codeInsee.value != ""
    ensures r.Ok? && r.value.ByCommune? ==> r.value.codeInsee == codeInsee.value
    ensures r.Thrown? ==> r.message == MissingParamsMessage(lookup)
  {
    if rayon != 0 && latlon != "" then Ok(ByRadius(rayon, latlon))
    else if codeInsee.Some? && codeInsee.value != "" then Ok(ByCommune(codeInsee.value))
    else Thrown(MissingParamsMessage(lookup))
  }

  /** When the radius and the point are both given, the commune code plays no part. */
  lemma CommuneIgnoredWithRadius(lookup: Lookup, rayon: int, latlon: string, c1: Option<string>, c2: Option<string>)
    requires rayon != 0 && latlon != ""
    ensures SelectParams(lookup, rayon, latlon, c1) == SelectParams(lookup, rayon, latlon, c2)
  {
  }

  /** The lookup throws exactly when it has neither a usable radius and point nor a commune code. */
  lemma SelectParamsThrowsIff(lookup: Lookup, rayon: int, latlon: string, codeInsee: Option<string>)
    ensures SelectParams(lookup, rayon, latlon, codeInsee).Thrown? <==>
      (rayon == 0 || latlon == "") && (codeInsee.None? || codeInsee.value == "")
  {
  }

  // ---------------------------------------------------------------- seismic zones

  /** An item of the seismic-zoning reply. */
  datatype SeismicRecord = SeismicRecord(zoneSismicite: string, libelleCommune: string)

  /** An entry of `fetchSeismicZones`'s result: a zone tagged with the commune code it was asked for. */
  datatype SeismicZone = SeismicZone(codeInsee: Option<string>, sismicite: string)

  /** `[...new Set(xs)]`: each value once, in the order it first occurs. */
  function Distinct(xs: seq<string>): seq<string>
    decreases |xs|
  {
    if |xs| == 0 then []
    else
      var init := Distinct(xs[..|xs| - 1]);
      if xs[|xs| - 1] in init then init else init + [xs[|xs| - 1]]
  }

  /** The set keeps the same values as the list. */
  lemma {:induction false} DistinctSameValues(xs: seq<string>, x: string)
    ensures x in Distinct(xs) <==> x in xs
    decreases |xs|
  {
    if |xs| > 0 {
      DistinctSameValues(xs[..|xs| - 1], x);
      assert xs == xs[..|xs| - 1] + [xs[|xs| - 1]];
    }
  }

  /** No value occurs twice in the set's spread. */
  lemma {:induction false} DistinctNoDuplicates(xs: seq<string>)
    ensures forall i, j :: 0 <= i < j < |Distinct(xs)| ==> Distinct(xs)[i] != Distinct(xs)[j]
    decreases |xs|
  {
    if |xs| > 0 {
      DistinctNoDuplicates(xs[..|xs| - 1]);
    }
  }

  /** Index of the first occurrence of `x` in `xs`. */
  function FirstIndex(xs: seq<string>, x: string): (k: nat)
    requires x in xs
    ensures k < |xs| && xs[k] == x
    ensures forall m :: 0 <= m < k ==> xs[m] != x
    decreases |xs|
  {
    if xs[0] == x then 0 else 1 + FirstIndex(xs[1..], x)
  }

  lemma {:induction false} FirstIndexSnoc(xs: seq<string>, y: string, x: string)
    requires x in xs
    ensures FirstIndex(xs + [y], x) == FirstIndex(xs, x)
    decreases |xs|
  {
    if xs[0] != x {
      assert (xs + [y])[1..] == xs[1..] + [y];
      FirstIndexSnoc(xs[1..], y, x);
    }
  }

  lemma {:induction false} FirstIndexLast(xs: seq<string>, x: string)
    requires x !in xs
    ensures FirstIndex(xs + [x], x) == |xs|
    decreases |xs|
  {
    if |xs| > 0 {
      assert (xs + [x])[1..] == xs[1..] + [x];
      FirstIndexLast(xs[1..], x);
    }
  }

  /** Insertion order: a value comes before another in the spread exactly when it
      occurs first in the list before the other does. */
  lemma {:induction false} DistinctFirstOccurrenceOrder(xs: seq<string>, i: int, j: int)
    requires 0 <= i < j < |Distinct(xs)|
    ensures Distinct(xs)[i] in xs && Distinct(xs)[j] in xs
    ensures FirstIndex(xs, Distinct(xs)[i]) < FirstIndex(xs, Distinct(xs)[j])
    decreases |xs|
  {
    var init, last := xs[..|xs| - 1], xs[|xs| - 1];
    assert xs == init + [last];
    var d := Distinct(init);
    DistinctSameValues(init, Distinct(xs)[i]);
    DistinctSameValues(xs, Distinct(xs)[i]);
    DistinctSameValues(xs, Distinct(xs)[j]);
    if j < |d| {
      DistinctSameValues(init, Distinct(xs)[j]);
      DistinctFirstOccurrenceOrder(init, i, j);
      FirstIndexSnoc(init, last, d[i]);
      FirstIndexSnoc(init, last, d[j]);
    } else {
      DistinctSameValues(init, last);
      FirstIndexLast(init, last);
      FirstIndexSnoc(init, last, d[i]);
    }
  }

  function TagZones(sismicites: seq<string>, codeInsee: Option<string>): seq<SeismicZone>
  {
    seq(|sismicites|, i requires 0 <= i < |sismicites| => SeismicZone(codeInsee, sismicites[i]))
  }

  function ZoneValues(records: seq<SeismicRecord>): seq<string>
  {
    seq(|records|, i requires 0 <= i < |records| => records[i].zoneSismicite)
  }

  /** `fetchSeismicZones`: the parameter check, then each distinct `zone_sismicite`
      once, tagged with the requested commune code. */
  function FetchSeismicZones(rayon: int, latlon: string, codeInsee: Option<string>, reply: Reply<SeismicRecord>): (r: Result<Option<seq<SeismicZone>>>)
    ensures r.Thrown? <==> SelectParams(SeismicZones, rayon, latlon, codeInsee).Thrown?
    ensures r.Thrown? ==> r.message == MissingParamsMessage(SeismicZones)
    ensures r.Ok? ==> (r.value.None? <==> reply.None?)
    ensures r.Ok? && r.value.Some? ==> forall z :: z in r.value.value ==> z.codeInsee == codeInsee
  {
    match SelectParams(SeismicZones, rayon, latlon, codeInsee)
    case Thrown(message) => Thrown(message)
    case Ok(_) =>
      match Records(reply)
      case None => Ok(None)
      case Some(records) => Ok(Some(TagZones(Distinct(ZoneValues(records)), codeInsee)))
  }

  /** The zones reported are exactly the zones of the reply, each once. */
  lemma SeismicZonesAreDistinctZonesOfReply(rayon: int, latlon: string, codeInsee: Option<string>, reply: Reply<SeismicRecord>, s: string)
    requires FetchSeismicZones(rayon, latlon, codeInsee, reply).Ok?
    requires FetchSeismicZones(rayon, latlon, codeInsee, reply).value.Some?
    ensures var zones := FetchSeismicZones(rayon, latlon, codeInsee, reply).value.value;
      (SeismicZone(codeInsee, s) in zones <==> exists k :: 0 <= k < |Records(reply).value| && Records(reply).value[k].zoneSismicite == s)
    ensures var zones := FetchSeismicZones(rayon, latlon, codeInsee, reply).value.value;
      forall i, j :: 0 <= i < j < |zones| ==> zones[i] != zones[j]
  {
    var records := Records(reply).value;
    var values := ZoneValues(records);
    var zones := FetchSeismicZones(rayon, latlon, codeInsee, reply).value.value;
    DistinctSameValues(values, s);
    DistinctNoDuplicates(values);
    if SeismicZone(codeInsee, s) in zones {
      var i :| 0 <= i < |zones| && zones[i] == SeismicZone(codeInsee, s);
      assert Distinct(values)[i] == s;
      var k :| 0 <= k < |values| && values[k] == s;
      assert records[k].zoneSismicite == s;
    }
    if exists k :: 0 <= k < |records| && records[k].zoneSismicite == s {
      var k :| 0 <= k < |records| && records[k].zoneSismicite == s;
      assert values[k] == s;
      var i :| 0 <= i < |Distinct(values)| && Distinct(values)[i] == s;
      assert zones[i] == SeismicZone(codeInsee, s);
    }
    forall i, j | 0 <= i < j < |zones|
      ensures zones[i] != zones[j]
    {
      assert zones[i].sismicite == Distinct(values)[i];
      assert zones[j].sismicite == Distinct(values)[j];
    }
  }

  // ---------------------------------------------------------------- major and landslide risks

  /** An item of the major-risk (DICRIM) reply, its fields as the text they print as. */
  datatype MajorRecord = MajorRecord(anneePublication: string, libelleCommune: string)

  /** An item of the ground-movement reply, its fields as the text they print as. */
  datatype LandslideRecord = LandslideRecord(kind: string, lieu: string, dateDebut: string)

  /** `fetchMajorRisks` and `fetchLandslideRisk`: the parameter check, then the
      listing as it came (`[]` when empty or absent, `null` on failure). */
  function FetchListing<T>(lookup: Lookup, rayon: int, latlon: string, codeInsee: Option<string>, reply: Reply<T>): (r: Result<Option<seq<T>>>)
    ensures r.Thrown? <==> SelectParams(lookup, rayon, latlon, codeInsee).Thrown?
    ensures r.Thrown? ==> r.message == MissingParamsMessage(lookup)
    ensures r.Ok? ==> (r.value.None? <==> reply.None?)
    ensures r.Ok? && reply.Some? && reply.value.data.Some? ==> r.value == reply.value.data
    ensures r.Ok? && reply.Some? && reply.value.data.None? ==> r.value == Some([])
  {
    match SelectParams(lookup, rayon, latlon, codeInsee)
    case Thrown(message) => Thrown(message)
    case Ok(_) => Ok(Records(reply))
  }

  // ---------------------------------------------------------------- clay

  /** The clay-shrinkage reply; `exposition` is `None` when the member is missing. */
  datatype ClayData = ClayData(exposition: Option<string>)

  const UrlClay := "https://www.georisques.gouv.fr/api/v1/rga"

  /** The request `fetchClayRisk` sends, or `None` when the guard refuses the point. */
  function ClayRequest(latitude: string, longitude: string): (url: Option<string>)
    ensures url.Some? <==> IsValidCoordinates(longitude + "," + latitude)
    ensures url.Some? ==> UrlClay + "?latlon=" <= url.value
    ensures url.Some? ==> url.value[|UrlClay + "?latlon="|..] == longitude + "," + latitude
  {
    var coordinates := longitude + "," + latitude;
    if IsValidCoordinates(coordinates) then Some(UrlClay + "?latlon=" + coordinates) else None
  }

  /** `fetchClayRisk`: `null` without a request when the point fails the guard,
      otherwise whatever the exchange gave. */
  function FetchClayRisk(latitude: string, longitude: string, reply: Option<ClayData>): (r: Option<ClayData>)
    ensures r.Some? ==> IsValidCoordinates(longitude + "," + latitude)
    ensures IsValidCoordinates(longitude + "," + latitude) ==> r == reply
  {
    if ClayRequest(latitude, longitude).None? then None else reply
  }

  /** A longitude of 200 is refused before any request is made, whatever the reply would be. */
  lemma ClayGuardRefusesOutOfRange(reply: Option<ClayData>)
    ensures ClayRequest("50", "200").None?
    ensures FetchClayRisk("50", "200", reply).None?
  {
    var latitude, longitude := "50", "200";
    LongitudeOutOfRangeRejected();
    assert longitude + "," + latitude == "200,50";
  }

  // ---------------------------------------------------------------- grouping

  /** The communes of zone `code`, in the order they appear. */
  function CommunesIn(zones: seq<SeismicRecord>, code: string): seq<string>
    decreases |zones|
  {
    if |zones| == 0 then []
    else
      var init := CommunesIn(zones[..|zones| - 1], code);
      if zones[|zones| - 1].zoneSismicite == code then init + [zones[|zones| - 1].libelleCommune] else init
  }

  /** Every commune of the input is listed under its own zone. */
  lemma {:induction false} CommunesInMembership(zones: seq<SeismicRecord>, code: string, commune: string)
    ensures commune in CommunesIn(zones, code) <==>
      exists k :: 0 <= k < |zones| && zones[k].zoneSismicite == code && zones[k].libelleCommune == commune
    decreases |zones|
  {
    if |zones| > 0 {
      var init := zones[..|zones| - 1];
      CommunesInMembership(init, code, commune);
      if exists k :: 0 <= k < |zones| && zones[k].zoneSismicite == code && zones[k].libelleCommune == commune {
        var k :| 0 <= k < |zones| && zones[k].zoneSismicite == code && zones[k].libelleCommune == commune;
        if k < |init| {
          assert init[k] == zones[k];
        }
      }
    }
  }

  /** `groupSeismicZonesByRisk`: one key per zone value met, holding the
      communes of that zone in input order. */
  method GroupSeismicZonesByRisk(zones: seq<SeismicRecord>) returns (grouped: map<string, seq<string>>)
    ensures forall code :: code in grouped <==> exists k :: 0 <= k < |zones| && zones[k].zoneSismicite == code
    ensures forall code :: code in grouped ==> grouped[code] == CommunesIn(zones, code)
  {
    grouped := map[];
    var i := 0;
    while i < |zones|
      invariant 0 <= i <= |zones|
      invariant forall code :: code in grouped <==> exists k :: 0 <= k < i && zones[k].zoneSismicite == code
      invariant forall code :: code in grouped ==> grouped[code] == CommunesIn(zones[..i], code)
    {
      var zone := zones[i];
      assert zones[..i + 1][..i] == zones[..i];
      if zone.zoneSismicite !in grouped {
        grouped := grouped[zone.zoneSismicite := []];
        CommunesInAbsent(zones[..i], zone.zoneSismicite);
      }
      grouped := grouped[zone.zoneSismicite := grouped[zone.zoneSismicite] + [zone.libelleCommune]];
      i := i + 1;
    }
    assert zones[..i] == zones;
  }

  /** A zone never met has no communes yet. */
  lemma {:induction false} CommunesInAbsent(zones: seq<SeismicRecord>, code: string)
    requires forall k :: 0 <= k < |zones| ==> zones[k].zoneSismicite != code
    ensures CommunesIn(zones, code) == []
    decreases |zones|
  {
    if |zones| > 0 {
      CommunesInAbsent(zones[..|zones| - 1], code);
    }
  }
}
