# Géorisques address lookup: a Dafny model

The front end looks up natural and technological hazards for a French address or a
clicked map point. It queries the Géorisques services for:

- flood zones, radon potential and clay shrink-swell exposure;
- seismic zoning, published major risks and ground movements.

It then grades each hazard high, moderate or low and shows one card per hazard, high
cards first. A layer control on the map shows at most one risk overlay at a time.
A separate login form checks an e-mail address and a password.

The model covers:

- **`Common`**: JavaScript's `null` as `Option`, a thrown error as `Result`,
  and `String.prototype.includes` and `Array.prototype.join` over strings.
- **`Coordinates`**: the `isValidCoordinates` guard.
  - The grammar of `^-?\d+(\.\d+)?,-?\d+(\.\d+)?$` is modelled as a parser with a
    proved round trip.
  - The range test reads both numbers as exact decimals.
- **`Providers`**: what each fetcher returns for a given reply.
  - Flood risks are flattened, radon classes mapped to labels and seismic zones
    deduplicated in order of first occurrence.
  - Three lookups share one parameter rule: radius and point first, else commune
    code, else throw.
  - The clay fetch has a coordinate guard.
  - `groupSeismicZonesByRisk` is modelled as a loop over a map.
- **`Classification`**: how the two handlers grade each hazard and word
  each card.
- **`Presentation`**:
  - The card class and the three card lists that `createCard` fills, modelled as a
    class.
  - Their display order.
  - The submit and map-click handlers as methods proved against functions of the
    fetch replies.
- **`Overlays`**: the overlay selector as a class over the control's checkboxes.
  - Its `change` handler is proved against a pure transition function.
  - The invariant is that at most one box is checked, its overlay is the selected
    layer and the only one on the map, and the title names it. It is shown to
    survive any sequence of clicks.
- **`Login`**: `validateEmail` and `validatePassword`, each defined as the meaning
  of its regular expression and proved equal to a position-by-position
  description.

The network is never modelled. Every HTTP exchange enters as a parameter:

- `None` when the request failed, was not `ok`, or its body could not be decoded,
  so the fetcher's `catch` returns `null`;
- otherwise the decoded JSON body.

The geocoder's answer is a parameter too. It is the point and the commune code, or
`None` when the geocoder returns `null`: the address is not found, the HTTP status is
not `ok`, the request fails, or the reply is malformed.

## Model

| member | source | states |
|---|---|---|
| Coordinates.ParseRender | projet-georisque-main/projet-georisque/js/script.js:88 | every literal of the form `-?\d+(\.\d+)?` reads back as the decimal it was written from |
| Coordinates.ParseDecimalSound | projet-georisque-main/projet-georisque/js/script.js:88 | whatever the number grammar accepts is well formed and is exactly its own rendering |
| Coordinates.ParseRenderCoordinates | projet-georisque-main/projet-georisque/js/script.js:88-92 | splitting `lon,lat` at its comma gives back both literals, in order |
| Coordinates.ParseCoordinatesSound | projet-georisque-main/projet-georisque/js/script.js:88-92 | an accepted text is two well-formed literals joined by one comma |
| Coordinates.ValidityOfPair | projet-georisque-main/projet-georisque/js/script.js:87-97 | two literals joined by a comma are valid iff the longitude is in [-180, 180] and the latitude in [-90, 90] (`IsValidCoordinates`) |
| Coordinates.ValidCoordinatesIff | projet-georisque-main/projet-georisque/js/script.js:87-97 | a text is valid iff it matches the pattern and both numbers are in range (both directions); `IsValidCoordinates` models the guard |
| Coordinates.ValueWithinWholeDigits | projet-georisque-main/projet-georisque/js/script.js:92 | the size of a literal's value lies between its whole digits and the next integer, since the digits after the point add less than one |
| Coordinates.LongitudeWholeDigitsDecide | projet-georisque-main/projet-georisque/js/script.js:92-96 | whole digits above 180 make the pair invalid whatever the fraction; below 180 only the latitude decides |
| Coordinates.DigitsValueBound | projet-georisque-main/projet-georisque/js/script.js:92 | n decimal digits denote a number below 10^n |
| Coordinates.ValidUsesPatternChars | projet-georisque-main/projet-georisque/js/script.js:88 | a valid text holds only digits, `-`, `.` and `,` |
| Coordinates.RenderUsesPatternChars | projet-georisque-main/projet-georisque/js/script.js:88 | a literal holds only digits, `-` and `.` |
| Coordinates.ValidHasOneComma | projet-georisque-main/projet-georisque/js/script.js:88 | a valid text has exactly one comma |
| Coordinates.RenderHasNoComma | projet-georisque-main/projet-georisque/js/script.js:88 | a literal holds no comma, so the separator is unambiguous |
| Coordinates.ValidPointBetweenDigits | projet-georisque-main/projet-georisque/js/script.js:88 | every point of a valid text has a digit on each side |
| Coordinates.RenderPointBetweenDigits | projet-georisque-main/projet-georisque/js/script.js:88 | every point of a literal has a digit on each side |
| Coordinates.LongitudeOutOfRangeRejected | projet-georisque-main/projet-georisque/js/script.js:93-95 | `200,50` is refused by the range test |
| Coordinates.ForeignCharactersRejected | projet-georisque-main/projet-georisque/js/script.js:88-91 | a plus sign, an exponent or a space after the comma is refused |
| Coordinates.MisplacedSeparatorsRejected | projet-georisque-main/projet-georisque/js/script.js:88-91 | a point without digits on both sides, a second comma or a missing comma is refused |
| Coordinates.BoundsAccepted | projet-georisque-main/projet-georisque/js/script.js:93-96 | the range bounds themselves (`-180,90`) are accepted |
| Providers.FlattenDefined | projet-georisque-main/projet-georisque/js/script.js:48 | `flatMap` over the items succeeds iff every item carries a risk list (`Flatten` models the `flatMap`) |
| Providers.FlattenMembership | projet-georisque-main/projet-georisque/js/script.js:48 | a flattened entry is exactly an entry of some item's list (`Flatten`) |
| Providers.FlattenAppend | projet-georisque-main/projet-georisque/js/script.js:48 | flattening distributes over concatenation of the items |
| Providers.FetchFloodZones | projet-georisque-main/projet-georisque/js/script.js:40-56 | a failed exchange gives `null`; a reply gives a list iff every item has a risk list |
| Providers.RadonLabel | projet-georisque-main/projet-georisque/js/script.js:75-76 | a class gets a label iff it is "1", "2" or "3" |
| Providers.RadonLabelRoundTrip | projet-georisque-main/projet-georisque/js/script.js:75 | label and class determine each other (both directions) |
| Providers.RadonLabelInjective | projet-georisque-main/projet-georisque/js/script.js:75 | two classes with the same label are the same class |
| Providers.FetchRadonZones | projet-georisque-main/projet-georisque/js/script.js:65-84 | `null` iff the exchange failed; otherwise one label per item, in item order |
| Providers.RadonHighComesFromClassThree | projet-georisque-main/projet-georisque/js/script.js:74-77 | `élevé` is among the labels iff some item has class "3" |
| Providers.MissingParamsMessagesDistinct | projet-georisque-main/projet-georisque/js/script.js:132-198 | the three lookups throw three different messages (the throws at script.js:132, 167 and 198) |
| Providers.SelectParams | projet-georisque-main/projet-georisque/js/script.js:126-199 | radius and point when both are truthy; else the commune code when truthy; else the lookup's error (the same rule at script.js:126-133, 159-168 and 190-199) |
| Providers.CommuneIgnoredWithRadius | projet-georisque-main/projet-georisque/js/script.js:126-130 | with a radius and a point the commune code has no effect |
| Providers.SelectParamsThrowsIff | projet-georisque-main/projet-georisque/js/script.js:126-133 | the lookup throws iff neither the radius and point nor the commune code are usable |
| Providers.DistinctSameValues | projet-georisque-main/projet-georisque/js/script.js:145-146 | `[...new Set(xs)]` holds exactly the values of `xs` (`Distinct` models the spread Set) |
| Providers.DistinctNoDuplicates | projet-georisque-main/projet-georisque/js/script.js:145-146 | `[...new Set(xs)]` holds no value twice (`Distinct`) |
| Providers.DistinctFirstOccurrenceOrder | projet-georisque-main/projet-georisque/js/script.js:145-146 | `[...new Set(xs)]` lists values in the order of their first occurrence (`Distinct`) |
| Providers.FetchSeismicZones | projet-georisque-main/projet-georisque/js/script.js:124-157 | throws iff the parameters are missing; `null` iff the exchange failed; every zone carries the requested commune code |
| Providers.SeismicZonesAreDistinctZonesOfReply | projet-georisque-main/projet-georisque/js/script.js:144-149 | the zones reported are exactly the reply's `zone_sismicite` values, each once |
| Providers.FetchListing | projet-georisque-main/projet-georisque/js/script.js:159-219 | throws iff the parameters are missing; `null` iff the exchange failed; otherwise the reply's `data`, or `[]` when it is absent (the major-risk fetch at script.js:159-188 and the ground-movement fetch at script.js:190-219) |
| Providers.ClayRequest | projet-georisque-main/projet-georisque/js/script.js:99-106 | a request is made iff `lon,lat` passes the guard, and it asks for exactly that point |
| Providers.FetchClayRisk | projet-georisque-main/projet-georisque/js/script.js:99-122 | a result implies the guard passed; when the guard passes the result is the reply |
| Providers.ClayGuardRefusesOutOfRange | projet-georisque-main/projet-georisque/js/script.js:99-104 | a longitude of 200 gives `null` without a request, whatever the service would answer |
| Providers.CommunesInMembership | projet-georisque-main/projet-georisque/js/script.js:298-303 | a commune is listed under a zone iff some input item pairs them |
| Providers.GroupSeismicZonesByRisk | projet-georisque-main/projet-georisque/js/script.js:296-305 | a key exists iff some item has that zone, and it holds that zone's communes in input order |
| Classification.ListingRiskLevel | projet-georisque-main/projet-georisque/js/script.js:364 | high iff a non-empty list came back, never moderate (flood, major risks, ground movements) |
| Classification.SubmitRadonRiskLevel | projet-georisque-main/projet-georisque/js/script.js:367-368 | high iff `élevé` is listed; moderate iff `moyenne` is listed without `élevé` |
| Classification.MapClickRadonRiskLevel | projet-georisque-main/projet-georisque/js/script.js:612 | high iff `élevé` is listed; moderate iff the list is non-empty without `élevé` |
| Classification.RadonRulesDiffer | projet-georisque-main/projet-georisque/js/script.js:612 | the two radon rules disagree exactly on non-empty lists holding neither `élevé` nor `moyenne` |
| Classification.MapClickRadonNotMilder | projet-georisque-main/projet-georisque/js/script.js:612 | the map-click radon grade is never lower than the submit grade for the same list |
| Classification.RadonGradeGrowsWithEntries | projet-georisque-main/projet-georisque/js/script.js:367-368 | adding labels never lowers either handler's radon grade |
| Classification.ClayRiskLevel | projet-georisque-main/projet-georisque/js/script.js:374-375 | high iff the exposition contains `élevée`; moderate iff it contains `moyenne` or `modérée` but not `élevée` |
| Classification.ClayHighWithinLongerText | projet-georisque-main/projet-georisque/js/script.js:375 | any exposition text containing `élevée` grades high |
| Classification.SeismicRiskLevel | projet-georisque-main/projet-georisque/js/script.js:378 | high iff some zone is "4" or "5"; moderate iff zones exist and none is |
| Classification.SeismicGradeOfReply | projet-georisque-main/projet-georisque/js/script.js:144-149 | the deduplicated zones grade the same as the raw records |
| Classification.ContentsTellGradesApart | projet-georisque-main/projet-georisque/js/script.js:365-379 | different grades give different radon and seismic texts, and high flood differs from the rest (`FloodContent`, `RadonContent`, `SeismicContent` model the ternaries at script.js:365-379 and 610-620) |
| Classification.FailedClayFetchHasOwnText | projet-georisque-main/projet-georisque/js/script.js:374-376 | a failed clay fetch grades low and shows a text that differs from the text of every reply |
| Classification.ClayWithoutExposition | projet-georisque-main/projet-georisque/js/script.js:374-376 | a reply without exposition grades low yet shows the exposition sentence with `undefined` (`ClayContent`, with `Interpolated` for `${…}`) |
| Classification.MajorLinesDifferByHandler | projet-georisque-main/projet-georisque/js/script.js:623 | the same record is worded differently by the two handlers |
| Classification.MajorContentListsEveryRecord | projet-georisque-main/projet-georisque/js/script.js:382 | the major-risk text shows every record's line, year and commune (`MajorContent`, `MajorRiskLine`) |
| Classification.LandslideContentListsEveryRecord | projet-georisque-main/projet-georisque/js/script.js:385 | the ground-movement text shows every record's line (`LandslideContent`, `LandslideLine`) |
| Presentation.CardClassRoundTrip | projet-georisque-main/projet-georisque/js/script.js:335-343 | the card class gives back the grade it was made from (`CardClass` models `getCardClass`) |
| Presentation.TierMembers | projet-georisque-main/projet-georisque/js/script.js:355-361 | a card is in a grade's list iff it was created with that grade |
| Presentation.TiersPartition | projet-georisque-main/projet-georisque/js/script.js:355-361 | the three lists together hold every created card exactly once |
| Presentation.TierAppend | projet-georisque-main/projet-georisque/js/script.js:355-361 | a list grows by the cards of its grade, in creation order |
| Presentation.TierOfTier | projet-georisque-main/projet-georisque/js/script.js:355-361 | a grade's list holds only cards of that grade |
| Presentation.ArrangeIsPermutation | projet-georisque-main/projet-georisque/js/script.js:387-389 | the cards shown are the cards created, none lost or repeated |
| Presentation.ArrangeIsSortedBySeverity | projet-georisque-main/projet-georisque/js/script.js:387-389 | high cards come before moderate ones, moderate before low |
| Presentation.ArrangeIsStable | projet-georisque-main/projet-georisque/js/script.js:387-389 | within a grade the cards keep their creation order |
| Presentation.ArrangeLeadsWithHigh | projet-georisque-main/projet-georisque/js/script.js:387-389 | when any card is high, the first card shown is high |
| Presentation.ResultsBoard.constructor | projet-georisque-main/projet-georisque/js/script.js:345-347 | the three lists start empty |
| Presentation.ResultsBoard.CreateCard | projet-georisque-main/projet-georisque/js/script.js:349-362 | pushes the card onto its grade's list; each list stays the created cards of its grade |
| Presentation.ResultsBoard.Rendered | projet-georisque-main/projet-georisque/js/script.js:387-389 | the three lists in order are the created cards arranged by grade |
| Presentation.HandlerLookupsSearchByRadius | projet-georisque-main/projet-georisque/js/script.js:318-320 | the handlers' lookups always search 1000 m around the point and never throw |
| Presentation.RenderCards | projet-georisque-main/projet-georisque/js/script.js:364-389 | the six cards, created in handler order, are shown arranged by grade |
| Presentation.ShowAssessment | projet-georisque-main/projet-georisque/js/script.js:315-389 | the cards shown are those graded from the six fetch results for the point |
| Presentation.OnSubmit | projet-georisque-main/projet-georisque/js/script.js:307-403 | an empty address or an unfound one gives its notice; otherwise the cards for the geocoded point; `SubmitOutcome` states that result as a function |
| Presentation.OnMapClick | projet-georisque-main/projet-georisque/js/script.js:556-638 | the cards for the clicked point, with no commune code and no radon fetch; `MapClickOutcome` states that result as a function |
| Presentation.MapClickRadonCardIsLow | projet-georisque-main/projet-georisque/js/script.js:561 | a map click always shows the low "no radon risk" card, whatever the radon service holds |
| Presentation.FailedFloodFetchLooksSafe | projet-georisque-main/projet-georisque/js/script.js:364 | a failed flood fetch shows the same cards as a reply with no flood zone |
| Overlays.OverlayNamesDistinct | projet-georisque-main/projet-georisque/js/script.js:499-510 | the ten overlay names are pairwise different |
| Overlays.TitleFor | projet-georisque-main/projet-georisque/js/script.js:537-544 | a truthy name is appended to the title after a colon; `null` gives the bare title |
| Overlays.TitleNamesTheOverlay | projet-georisque-main/projet-georisque/js/script.js:537-544 | different names give different titles, none equal to the bare title |
| Overlays.InitialExclusive | projet-georisque-main/projet-georisque/js/script.js:514 | with nothing checked and `selectedLayer` null the invariant holds |
| Overlays.AtMostOneChecked | projet-georisque-main/projet-georisque/js/script.js:514-535 | under the invariant at most one box is checked and only its overlay is on the map |
| Overlays.ClickEffect | projet-georisque-main/projet-georisque/js/script.js:515-535 | checking a box shows that overlay alone, checks only that box and retitles; unchecking it clears map, selection and title |
| Overlays.ClickKeepsExclusive | projet-georisque-main/projet-georisque/js/script.js:515-535 | one click preserves the invariant (`Click`) |
| Overlays.RunExclusive | projet-georisque-main/projet-georisque/js/script.js:514-535 | any sequence of clicks preserves the invariant |
| Overlays.UncheckClearsUnconditionally | projet-georisque-main/projet-georisque/js/script.js:529-533 | unchecking a box clears the selection whatever was selected, and detaches only that box's overlay |
| Overlays.OverlaySelector.constructor | projet-georisque-main/projet-georisque/js/script.js:499-514 | the control holds the ten overlays, none checked, none selected, the bare title |
| Overlays.OverlaySelector.UncheckOtherCheckboxes | projet-georisque-main/projet-georisque/js/script.js:546-554 | a box stays checked iff it was checked and carries the given label |
| Overlays.OverlaySelector.UpdateMapTitle | projet-georisque-main/projet-georisque/js/script.js:537-544 | the title becomes the one for the given name; selection and map unchanged |
| Overlays.OverlaySelector.OnChange | projet-georisque-main/projet-georisque/js/script.js:515-535 | the handler's new boxes, selection, overlays and title are the transition function's (`Change` models the handler body) |
| Overlays.OverlaySelector.Toggle | projet-georisque-main/projet-georisque/js/script.js:515-535 | a click flips the box, runs the handler, and keeps the invariant (`Click` is a box flip followed by `Change`) |
| Login.EmailMatchHasShape | projet-georisque-main/projet-georisque/js/formulaire.js:16 | a matching address has no white space, one `@` not at the start, and a dot with a character on each side after it |
| Login.EmailShapeMatches | projet-georisque-main/projet-georisque/js/formulaire.js:16 | every string of that shape matches |
| Login.ValidateEmailIff | projet-georisque-main/projet-georisque/js/formulaire.js:15-18 | `validateEmail` holds iff the address has that shape (both directions) (`ValidateEmail` is the regular expression read as a split) |
| Login.DomainDotsAreLoose | projet-georisque-main/projet-georisque/js/formulaire.js:16 | `a@b..c`, `a@b.c.` and `a.b@c.d.e` are accepted |
| Login.MalformedEmailsRejected | projet-georisque-main/projet-georisque/js/formulaire.js:16 | no dot after `@`, two `@`, a space, an empty name, a dot right after `@`, a final dot with nothing after it, or the empty input is refused |
| Login.ValidatePasswordIff | projet-georisque-main/projet-georisque/js/formulaire.js:20-23 | `validatePassword` holds iff the input is one line of at least 8 UTF-16 units with an ASCII digit, lower-case and upper-case letter (`ValidatePassword` is the regular expression read as lookaheads and a length bound) |
| Login.NoneOfClass | projet-georisque-main/projet-georisque/js/formulaire.js:21 | an input lacking all characters of one required class is refused |
| Login.PasswordNeedsEveryClass | projet-georisque-main/projet-georisque/js/formulaire.js:21 | eight characters missing an upper-case letter, a lower-case letter or a digit are refused |
| Login.AstralCharactersCountTwice | projet-georisque-main/projet-georisque/js/formulaire.js:21 | six characters can pass, because characters outside the Basic Multilingual Plane count as two units |

## Left out

- The network, `buildUrl`, the geocoder and `response.json()`: each exchange is a parameter, as the introduction says.
- Number-to-text conversion. The handlers interpolate JavaScript numbers; the model takes latitude and longitude as the text they print as. A very small or very large number prints in exponent form (`1e-7`), which the guard then refuses; the model refuses such a text too (Coordinates.ForeignCharactersRejected), but does not model which numbers print that way.
- Coordinates.ValidityOfPair: compares exact decimals. `Number` rounds to binary floating point, so a literal slightly above 180 that rounds to 180 is accepted by the source and refused here.
- The card HTML. A card is its title, text and grade; the template and `String.prototype.replace` (including its `$` patterns) are not modelled.
- Presentation.OnSubmit, Presentation.OnMapClick: the `await`s run one after another, and overlapping runs of the handlers (concurrency) are not modelled.
- `centerMapOnCity`, the marker, the Leaflet map and its tile and WMS layers.
- The layer control's own reaction to clicks, which adds or removes layers on its own.
- The download button and `generateReport`.
- `setupAutocomplete`, `autocompleteAddress` and `displayAutocompleteSuggestions`: they only move text between the service and the page.
- Providers.RadonLabel, Providers.GroupSeismicZonesByRisk: JavaScript object keys inherited from `Object.prototype` (`"constructor"`, `"toString"`, …) are not modelled. Such a key behaves as an ordinary key here.
- `groupSeismicZonesByRisk` is modelled on its own: no handler calls it.
- The login form's submit listener, which alerts on invalid input and on valid input evaluates the undeclared `profil.html` instead of redirecting.
- The root `script.js`, `bouton.js` and `server.js` are not part of this model.
- Malformed reply items. Reply items are typed records, so a `null` item or a field of the wrong type cannot be represented. In the source such a reply makes a fetcher's `catch` return `null`, or makes the handler throw after the results were cleared (`clayRisk.exposition.includes` at script.js:375 and 616, `risk.annee_publication` at script.js:382 and 623).
- Overlays.OverlaySelector.constructor: the page's initial map title is not part of the script; the model starts from the bare title.
- Login.ValidatePasswordIff, Login.ValidateEmailIff: strings are sequences of Unicode scalar values. Lone surrogates, which a JavaScript string can hold, are not representable.

Where the code does something a reader might not expect, the model follows the code:

- A failed flood, radon, seismic, major-risk or ground-movement fetch is shown exactly like an answer with no risk; there is no "unavailable" text (Presentation.FailedFloodFetchLooksSafe). A failed clay fetch is graded low too, but shows its own "no risk" sentence, which no reply can produce (Classification.FailedClayFetchHasOwnText).
- Unchecking a box clears the selection even when another overlay is the selected one (Overlays.UncheckClearsUnconditionally). From the initial state this never happens, since only the selected box is ever checked.
- The map-click handler has no commune code and never asks for radon, so its radon card is always the low one (Presentation.MapClickRadonCardIsLow).
- The two handlers grade radon differently, and they word the major-risk advice differently.
