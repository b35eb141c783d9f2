/** The result cards and the two handlers that fill them: the address-search
    submit handler and the map-click handler. Each handler grades six hazards,
    creates one card per hazard into one of three buckets by grade, and shows
    the high bucket, then the moderate one, then the low one. */
module Presentation {
  import opened Common
  import opened Providers
  import opened Classification

  /** A result card: its header, its body text and the grade its CSS class is drawn from. */
  datatype Card = Card(title: string, content: string, level: RiskLevel)

  /** `getCardClass`. */
  function CardClass(level: RiskLevel): string
  {
    match level
    case High => "card-risk-high"
    case Moderate => "card-risk-moderate"
    case Low => "card-risk-low"
  }

  /** The grade a CSS class stands for; anything unknown reads as low, as in `getCardClass`'s last branch. */
  function LevelOfClass(cardClass: string): RiskLevel
  {
    if cardClass == "card-risk-high" then High
    else if cardClass == "card-risk-moderate" then Moderate
    else Low
  }

  /** The class gives its grade back, so three grades get three classes. */
  lemma CardClassRoundTrip(level: RiskLevel)
    ensures LevelOfClass(CardClass(level)) == level
  {
  }

  /** The bucket of grade `level`: the cards of that grade in creation order. */
  function Tier(cards: seq<Card>, level: RiskLevel): seq<Card>
    decreases |cards|
  {
    if |cards| == 0 then []
    else
      var init := Tier(cards[..|cards| - 1], level);
      if cards[|cards| - 1].level == level then init + [cards[|cards| - 1]] else init
  }

  /** What the results container shows: the high bucket, then the moderate one, then the low one. */
  function Arrange(cards: seq<Card>): seq<Card>
  {
    Tier(cards, High) + Tier(cards, Moderate) + Tier(cards, Low)
  }

  /** A bucket holds exactly the cards of its grade. */
  lemma {:induction false} TierMembers(cards: seq<Card>, level: RiskLevel, card: Card)
    ensures card in Tier(cards, level) <==> card in cards && card.level == level
    decreases |cards|
  {
    if |cards| > 0 {
      TierMembers(cards[..|cards| - 1], level, card);
      assert cards == cards[..|cards| - 1] + [cards[|cards| - 1]];
    }
  }

  /** The three buckets together hold every card once. */
  lemma {:induction false} TiersPartition(cards: seq<Card>)
    ensures multiset(Tier(cards, High)) + multiset(Tier(cards, Moderate)) + multiset(Tier(cards, Low)) == multiset(cards)
    decreases |cards|
  {
    if |cards| > 0 {
      var init := cards[..|cards| - 1];
      TiersPartition(init);
      assert cards == init + [cards[|cards| - 1]];
    }
  }

  /** Filtering a concatenation filters each part. */
  lemma {:induction false} TierAppend(a: seq<Card>, b: seq<Card>, level: RiskLevel)
    ensures Tier(a + b, level) == Tier(a, level) + Tier(b, level)
    decreases |b|
  {
    if |b| == 0 {
      assert a + b == a;
    } else {
      var init := b[..|b| - 1];
      assert (a + b)[..|a + b| - 1] == a + init;
      TierAppend(a, init, level);
    }
  }

  /** Filtering a bucket by its own grade keeps it; by another grade empties it. */
  lemma {:induction false} TierOfTier(cards: seq<Card>, own: RiskLevel, level: RiskLevel)
    ensures Tier(Tier(cards, own), level) == if own == level then Tier(cards, own) else []
    decreases |cards|
  {
    if |cards| > 0 {
      var init := cards[..|cards| - 1];
      TierOfTier(init, own, level);
      if cards[|cards| - 1].level == own {
        TierAppend(Tier(init, own), [cards[|cards| - 1]], level);
        assert Tier([cards[|cards| - 1]], level) == (if own == level then [cards[|cards| - 1]] else []) by {
          assert [cards[|cards| - 1]][..0] == [];
        }
      }
    }
  }

  /** The shown cards are the created ones, none lost or repeated. */
  lemma ArrangeIsPermutation(cards: seq<Card>)
    ensures multiset(Arrange(cards)) == multiset(cards)
  {
    TiersPartition(cards);
  }

  /** The shown cards never put a milder grade before a more severe one. */
  lemma ArrangeIsSortedBySeverity(cards: seq<Card>)
    ensures forall i, j :: 0 <= i < j < |Arrange(cards)| ==> Severity(Arrange(cards)[i].level) >= Severity(Arrange(cards)[j].level)
  {
    var h, m, l := Tier(cards, High), Tier(cards, Moderate), Tier(cards, Low);
    var shown := Arrange(cards);
    forall i | 0 <= i < |shown|
      ensures shown[i].level == (if i < |h| then High else if i < |h| + |m| then Moderate else Low)
    {
      if i < |h| {
        assert shown[i] == h[i];
        TierMembers(cards, High, h[i]);
      } else if i < |h| + |m| {
        assert shown[i] == m[i - |h|];
        TierMembers(cards, Moderate, m[i - |h|]);
      } else {
        assert shown[i] == l[i - |h| - |m|];
        TierMembers(cards, Low, l[i - |h| - |m|]);
      }
    }
  }

  /** Within a grade the shown cards keep their creation order. */
  lemma ArrangeIsStable(cards: seq<Card>, level: RiskLevel)
    ensures Tier(Arrange(cards), level) == Tier(cards, level)
  {
    var h, m, l := Tier(cards, High), Tier(cards, Moderate), Tier(cards, Low);
    TierAppend(h + m, l, level);
    TierAppend(h, m, level);
    TierOfTier(cards, High, level);
    TierOfTier(cards, Moderate, level);
    TierOfTier(cards, Low, level);
  }

  /** The three card lists of a handler run: `highRiskCards`, `moderateRiskCards`
      and `lowRiskCards`, with the cards created so far as a ghost record. */
  class ResultsBoard {
    var highRiskCards: seq<Card>
    var moderateRiskCards: seq<Card>
    var lowRiskCards: seq<Card>
    ghost var created: seq<Card>

    /** Each list is the bucket of its grade over the cards created so far. */
    ghost predicate Valid()
      reads this
    {
      && highRiskCards == Tier(created, High)
      && moderateRiskCards == Tier(created, Moderate)
      && lowRiskCards == Tier(created, Low)
    }

    constructor()
      ensures Valid() && created == []
    {
      highRiskCards, moderateRiskCards, lowRiskCards := [], [], [];
      created := [];
    }

    /** `createCard`: build the card and push it onto the list of its grade. */
    method CreateCard(title: string, content: string, riskLevel: RiskLevel)
      requires Valid()
      modifies this
      ensures Valid()
      ensures created == old(created) + [Card(title, content, riskLevel)]
    {
      var card := Card(title, content, riskLevel);
      if riskLevel == High {
        highRiskCards := highRiskCards + [card];
      } else if riskLevel == Moderate {
        moderateRiskCards := moderateRiskCards + [card];
      } else {
        lowRiskCards := lowRiskCards + [card];
      }
      created := created + [card];
      assert created[..|created| - 1] == old(created);
    }

    /** The three `join('')`s appended to the results container, in order. */
    function Rendered(): (cards: seq<Card>)
      reads this
      requires Valid()
      ensures cards == Arrange(created)
    {
      highRiskCards + moderateRiskCards + lowRiskCards
    }
  }

  // ---------------------------------------------------------------- the handlers

  /** What the geocoder gives for an address: the point as the text it prints as, and the commune code. */
  datatype Location = Location(latitude: string, longitude: string, codeInsee: Option<string>)

  /** The replies the six fetchers would receive. */
  datatype Replies = Replies(
    flood: Reply<FloodItem>,
    radon: Reply<RadonRecord>,
    clay: Option<ClayData>,
    seismic: Reply<SeismicRecord>,
    major: Reply<MajorRecord>,
    landslide: Reply<LandslideRecord>)

  /** What the results area ends up showing: a notice, or the cards. */
  datatype Outcome = Notice(text: string) | Shown(cards: seq<Card>)

  /** The radius, in metres, both handlers search. */
  const SearchRadius := 1000

  /** The handlers pass a radius and a non-empty `lon,lat`, so every lookup
      searches by radius: it never throws and never uses the commune code. */
  lemma HandlerLookupsSearchByRadius(lookup: Lookup, latitude: string, longitude: string, codeInsee: Option<string>)
    ensures SelectParams(lookup, SearchRadius, longitude + "," + latitude, codeInsee) ==
      Ok(ByRadius(SearchRadius, longitude + "," + latitude))
  {
    var latlon := longitude + "," + latitude;
    assert latlon[|longitude|] == ',';
  }

  function FloodCard(floodZones: Option<seq<Option<string>>>): Card
  {
    var level := ListingRiskLevel(floodZones);
    Card(FloodTitle, FloodContent(level), level)
  }

  function RadonCard(handler: Handler, radonZones: Option<seq<Option<string>>>): Card
  {
    var level := RadonRiskLevel(handler, radonZones);
    Card(RadonTitle, RadonContent(level), level)
  }

  function ClayCard(clayRisk: Option<ClayData>): Card
  {
    Card(ClayTitle, ClayContent(clayRisk), ClayRiskLevel(clayRisk))
  }

  function SeismicCard(seismicZones: Option<seq<SeismicZone>>): Card
  {
    var level := SeismicRiskLevel(seismicZones);
    Card(SeismicTitle, SeismicContent(level), level)
  }

  function MajorCard(handler: Handler, majorRisks: Option<seq<MajorRecord>>): Card
  {
    Card(MajorTitle, MajorContent(handler, majorRisks), ListingRiskLevel(majorRisks))
  }

  function LandslideCard(landslideRisks: Option<seq<LandslideRecord>>): Card
  {
    Card(LandslideTitle, LandslideContent(landslideRisks), ListingRiskLevel(landslideRisks))
  }

  /** The six cards in the order the handler creates them. */
  function CreatedCards(handler: Handler, floodZones: Option<seq<Option<string>>>, radonZones: Option<seq<Option<string>>>,
                        clayRisk: Option<ClayData>, seismicZones: Option<seq<SeismicZone>>,
                        majorRisks: Option<seq<MajorRecord>>, landslideRisks: Option<seq<LandslideRecord>>): seq<Card>
  {
    [ FloodCard(floodZones), RadonCard(handler, radonZones), ClayCard(clayRisk),
      SeismicCard(seismicZones), MajorCard(handler, majorRisks), LandslideCard(landslideRisks) ]
  }

  /** The fetches and the six cards of one handler run at a point. */
  function Assessment(handler: Handler, latitude: string, longitude: string, codeInsee: Option<string>,
                      radonZones: Option<seq<Option<string>>>, replies: Replies): seq<Card>
  {
    var latlon := longitude + "," + latitude;
    HandlerLookupsSearchByRadius(SeismicZones, latitude, longitude, codeInsee);
    HandlerLookupsSearchByRadius(MajorRisks, latitude, longitude, codeInsee);
    HandlerLookupsSearchByRadius(LandslideRisks, latitude, longitude, codeInsee);
    CreatedCards(handler,
      FetchFloodZones(replies.flood),
      radonZones,
      FetchClayRisk(latitude, longitude, replies.clay),
      FetchSeismicZones(SearchRadius, latlon, codeInsee, replies.seismic).value,
      FetchListing(MajorRisks, SearchRadius, latlon, codeInsee, replies.major).value,
      FetchListing(LandslideRisks, SearchRadius, latlon, codeInsee, replies.landslide).value)
  }

  /** The submit handler: a notice for an empty address or an address the geocoder
      cannot place, otherwise the cards for the geocoded point and its commune. */
  function SubmitOutcome(address: string, located: Option<Location>, replies: Replies): Outcome
  {
    if address == "" then Notice("Veuillez entrer une adresse.")
    else if located.None? then Notice("Coordonnées non trouvées.")
    else
      var at := located.value;
      Shown(Arrange(Assessment(Submit, at.latitude, at.longitude, at.codeInsee, FetchRadonZones(replies.radon), replies)))
  }

  /** The map-click handler: no commune code, and radon is never fetched. */
  function MapClickOutcome(latitude: string, longitude: string, replies: Replies): Outcome
  {
    Shown(Arrange(Assessment(MapClick, latitude, longitude, None, None, replies)))
  }

  /** Six `createCard`s on a fresh board, then the three buckets in order. */
  method RenderCards(handler: Handler, floodZones: Option<seq<Option<string>>>, radonZones: Option<seq<Option<string>>>,
                     clayRisk: Option<ClayData>, seismicZones: Option<seq<SeismicZone>>,
                     majorRisks: Option<seq<MajorRecord>>, landslideRisks: Option<seq<LandslideRecord>>) returns (shown: seq<Card>)
    ensures shown == Arrange(CreatedCards(handler, floodZones, radonZones, clayRisk, seismicZones, majorRisks, landslideRisks))
  {
    var board := new ResultsBoard();
    ghost var created: seq<Card> := [];
    var floodRiskLevel := ListingRiskLevel(floodZones);
    board.CreateCard(FloodTitle, FloodContent(floodRiskLevel), floodRiskLevel);
    created := created + [FloodCard(floodZones)];
    var radonRiskLevel := RadonRiskLevel(handler, radonZones);
    board.CreateCard(RadonTitle, RadonContent(radonRiskLevel), radonRiskLevel);
    created := created + [RadonCard(handler, radonZones)];
    board.CreateCard(ClayTitle, ClayContent(clayRisk), ClayRiskLevel(clayRisk));
    created := created + [ClayCard(clayRisk)];
    var seismicRiskLevel := SeismicRiskLevel(seismicZones);
    board.CreateCard(SeismicTitle, SeismicContent(seismicRiskLevel), seismicRiskLevel);
    created := created + [SeismicCard(seismicZones)];
    board.CreateCard(MajorTitle, MajorContent(handler, majorRisks), ListingRiskLevel(majorRisks));
    created := created + [MajorCard(handler, majorRisks)];
    board.CreateCard(LandslideTitle, LandslideContent(landslideRisks), ListingRiskLevel(landslideRisks));
    created := created + [LandslideCard(landslideRisks)];
    assert board.created == created;
    SixInOrder(FloodCard(floodZones), RadonCard(handler, radonZones), ClayCard(clayRisk),
               SeismicCard(seismicZones), MajorCard(handler, majorRisks), LandslideCard(landslideRisks));
    shown := board.Rendered();
  }

  lemma SixInOrder(a: Card, b: Card, c: Card, d: Card, e: Card, f: Card)
    ensures [] + [a] + [b] + [c] + [d] + [e] + [f] == [a, b, c, d, e, f]
  {
  }

  /** One handler run after the point is known: the fetches, then the cards. */
  method ShowAssessment(handler: Handler, latitude: string, longitude: string, codeInsee: Option<string>,
                        radonZones: Option<seq<Option<string>>>, replies: Replies) returns (shown: seq<Card>)
    ensures shown == Arrange(Assessment(handler, latitude, longitude, codeInsee, radonZones, replies))
  {
    var latlon := longitude + "," + latitude;
    var floodZones := FetchFloodZones(replies.flood);
    var clayRisk := FetchClayRisk(latitude, longitude, replies.clay);
    HandlerLookupsSearchByRadius(SeismicZones, latitude, longitude, codeInsee);
    HandlerLookupsSearchByRadius(MajorRisks, latitude, longitude, codeInsee);
    HandlerLookupsSearchByRadius(LandslideRisks, latitude, longitude, codeInsee);
    var seismicZones := FetchSeismicZones(SearchRadius, latlon, codeInsee, replies.seismic);
    var majorRisks := FetchListing(MajorRisks, SearchRadius, latlon, codeInsee, replies.major);
    var landslideRisks := FetchListing(LandslideRisks, SearchRadius, latlon, codeInsee, replies.landslide);
    shown := RenderCards(handler, floodZones, radonZones, clayRisk, seismicZones.value, majorRisks.value, landslideRisks.value);
  }

  /** The submit listener. */
  method OnSubmit(address: string, located: Option<Location>, replies: Replies) returns (outcome: Outcome)
    ensures outcome == SubmitOutcome(address, located, replies)
  {
    if address == "" {
      return Notice("Veuillez entrer une adresse.");
    }
    if located.None? {
      return Notice("Coordonnées non trouvées.");
    }
    var at := located.value;
    var radonZones := FetchRadonZones(replies.radon);
    var shown := ShowAssessment(Submit, at.latitude, at.longitude, at.codeInsee, radonZones, replies);
    outcome := Shown(shown);
  }

  /** The map-click listener. */
  method OnMapClick(latitude: string, longitude: string, replies: Replies) returns (outcome: Outcome)
    ensures outcome == MapClickOutcome(latitude, longitude, replies)
  {
    var radonZones: Option<seq<Option<string>>> := None;
    var shown := ShowAssessment(MapClick, latitude, longitude, None, radonZones, replies);
    outcome := Shown(shown);
  }

  // ---------------------------------------------------------------- what the handlers promise

  /** On a map click the radon card always says "no radon risk" and is graded
      low, whatever the radon service would have said. */
  lemma MapClickRadonCardIsLow(latitude: string, longitude: string, replies: Replies)
    ensures Card(RadonTitle, "L'adresse n'est pas en zone à risque radon.", Low) in MapClickOutcome(latitude, longitude, replies).cards
  {
    var created := Assessment(MapClick, latitude, longitude, None, None, replies);
    var radonCard := Card(RadonTitle, "L'adresse n'est pas en zone à risque radon.", Low);
    assert RadonCard(MapClick, None) == radonCard;
    assert created[1] == radonCard;
    TierMembers(created, Low, radonCard);
  }

  /** A flood fetch that failed shows the same cards as a reply listing no flood zone. */
  lemma FailedFloodFetchLooksSafe(handler: Handler, latitude: string, longitude: string, codeInsee: Option<string>,
                                  radonZones: Option<seq<Option<string>>>, replies: Replies)
    ensures Assessment(handler, latitude, longitude, codeInsee, radonZones, replies.(flood := None)) ==
            Assessment(handler, latitude, longitude, codeInsee, radonZones, replies.(flood := Some(Payload(Some([])))))
  {
    assert FetchFloodZones(None) == None;
    assert FetchFloodZones(Some(Payload(Some([])))) == Some([]);
  }

  /** When any card grades high, the first card shown is a high one. */
  lemma ArrangeLeadsWithHigh(cards: seq<Card>, k: int)
    requires 0 <= k < |cards| && cards[k].level == High
    ensures |Arrange(cards)| > 0 && Arrange(cards)[0].level == High
  {
    TierMembers(cards, High, cards[k]);
    TierMembers(cards, High, Tier(cards, High)[0]);
  }
}
