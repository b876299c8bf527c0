# Travel agency back end: in-memory stores and request checks

This project models the server core of a small travel-agency application:

- the **reservation router**. It keeps an in-memory list of reservations and supports:
  - the reservation-number generator;
  - the field validator, which reports every broken rule;
  - creation against a fixed list of destination ids at a fixed price;
  - status changes;
  - lookups by id and by number;
  - the filtered listing and the dashboard figures;
- the **standalone reservation validator** of the middleware, which is a copy of the route's validator;
- the **destination router**. It keeps an in-memory list of destinations and supports:
  - the filtered listing and keyword search;
  - lookup by id;
  - validated creation with defaults;
  - partial update;
  - deletion;
- the **validation middleware**:
  - the pagination and date-range query checks;
  - the e-mail and French phone-number patterns;
  - the recursive clean-up of request bodies;
  - the per-address fixed-window request limiter.

Modules, one per source file, plus three shared ones (`Base`, `Text`, `ReservationTypes`):

| module | file | models |
|---|---|---|
| `Base` | `base.dfy` | `Option`, order-preserving `Filter`, `find`, `Math.max(...) + 1` |
| `Text` | `text.dfy` | `trim`, `toLowerCase`, `includes`, `padStart`, UTF-16 `length`, decimal digits, JS truthiness of strings |
| `ReservationTypes` | `reservation_types.dfy` | reservations, requests, error messages, status names |
| `ReservationSchema` | `reservation_schema.dfy` | `server/middleware/reservationSchema.js` |
| `Reservations` | `reservations.dfy` | `server/routes/reservations.js` |
| `Destinations` | `destinations.dfy` | `server/routes/destinations.js` |
| `Validation` | `validation.dfy` | `server/middleware/validation.js` |

Conventions:

- **The two stores are classes.**
  - `Reservations.ReservationStore` and `Destinations.DestinationStore` hold the list as a `seq` field.
  - Their methods change it as the handlers do: `push`, a status assignment, per-field assignments, `splice`.
  - Each method is specified by a pure function of the old list: `NouvelleReservation`, `NouvelleDestination`, `ApplyUpdate`, `Filter`.
  - The lemmas about those functions carry the guarantees.
- **The request limiter is a class** with a `map` field. Its `Handle` method is specified by the `Step` function.
- **Request fields are `Option` values.** `None` stands for a field that is missing.
  - JS truthiness is written out: `Truthy`, `TruthyNumber`.
  - So `""` and `0` fail the same checks a missing field fails.
- **String lengths are JavaScript's.** `Text.JsLength` counts UTF-16 code units, so a character above U+FFFF (an emoji, say) counts twice. Every `length` rule (names, phone, search term, destination fields) uses it.
- **Numbers are already parsed.**
  - Prices, durations, counts and ids are integers.
  - A date is an integer timestamp or `Unparseable`.
  - "Now", the current year and today's date string are parameters.

## Model

| member | source | states |
|---|---|---|
| Base.FindIndex | server/routes/destinations.js:279 | `findIndex`: the index found satisfies the predicate and is the first that does; none is found exactly when no element satisfies it |
| Base.Filter | server/routes/destinations.js:68-84 | `Array.prototype.filter` keeps at most as many elements as it is given |
| Base.FilterSpec | server/routes/destinations.js:68-84 | every element kept satisfies the predicate and comes from the input; every input element satisfying it is kept; the result is a subsequence (same order) of the input |
| Base.FilterFilter | server/routes/reservations.js:99-123 | two successive filters are one filter by the conjunction |
| Base.FilterAppend | server/middleware/validation.js:82 | filtering distributes over concatenation |
| Base.FilterAll | server/middleware/validation.js:82 | filtering by a predicate every element satisfies changes nothing |
| Base.FilterDropsOne | server/routes/destinations.js:337 | filtering out the one element that fails keeps the elements before it in place and shifts the ones after it down by one |
| Base.Push | server/routes/destinations.js:206-226 | `if (cond) erreurs.push(e)` lengthens the list by one exactly when the check fails (`Base.InPush` says which message is added) |
| Base.InPush | server/routes/destinations.js:206-226 | after a conditional `push`, a message is in the list iff it was before or it is the pushed one and the condition held |
| Base.Max | server/routes/destinations.js:238 | the maximum of a non-empty id list is one of the ids and no id exceeds it |
| Base.NextId | server/routes/destinations.js:238 | the new id exceeds every existing id, is one more than an existing id, and is 1 on an empty list |
| Base.NextIdKeepsDistinct | server/routes/reservations.js:231 | appending the next id to distinct ids keeps them distinct |
| Base.MathMaxPlusOne | server/routes/destinations.js:238 | `Math.max(...ids) + 1` over numbers with -Infinity: -Infinity exactly when every id is -Infinity (in particular for no ids), otherwise above every finite id |
| Base.EmptyListIdsCollide | server/routes/destinations.js:238 | on an empty list the first and second created ids are both -Infinity, so they are not integers and they collide |
| Base.EmptyListIdsCorrected | server/routes/destinations.js:238 | with the corrected rule, creating on an empty list gives ids 1 then 2 |
| Base.MathMaxAgreesOnNonEmpty | server/routes/destinations.js:238 | on a non-empty list `Math.max(...ids) + 1` is the corrected `NextId` |
| Text.TrimStart | server/routes/reservations.js:61 | `trimStart` drops exactly the leading white space |
| Text.TrimEnd | server/routes/reservations.js:61 | `trimEnd` drops exactly the trailing white space |
| Text.TrimIsSlice | server/routes/reservations.js:61 | `trim` (`Text.Trim`, specified by this lemma and the three below) returns a contiguous slice of its input |
| Text.TrimEndsNotSpace | server/routes/reservations.js:61 | a trimmed string neither starts nor ends with white space |
| Text.TrimDropsOnlySpaces | server/routes/reservations.js:61 | everything `trim` removes is white space |
| Text.TrimIdempotent | server/routes/destinations.js:239-240 | trimming twice is trimming once |
| Text.ToLowerIdempotent | server/routes/destinations.js:245 | `toLowerCase` keeps the length and lower-casing twice is lower-casing once |
| Text.ToLower | server/routes/reservations.js:237 | `toLowerCase` keeps the length, turns every ASCII capital and every Latin-1 capital U+00C0 to U+00DE except U+00D7 into its own small letter (code point + 32) and keeps every other ASCII character (`Text.ToLowerIdempotent`: doing it twice is doing it once) |
| Text.Includes | server/routes/reservations.js:106 | `includes` holds iff the needle occurs at some position |
| Text.Decimal | server/routes/reservations.js:46 | `toString` of a count is a non-empty digit string without a leading zero |
| Text.ParseDecimalRoundTrip | server/routes/reservations.js:46 | reading back the decimal form of a number gives the number |
| Text.ParseLeadingZeros | server/routes/reservations.js:46 | leading zeros do not change the number read |
| Text.Pad3RoundTrip | server/routes/reservations.js:46 | `padStart(3, '0')` gives at least 3 digits, exactly 3 iff the counter is below 1000, and reads back as the counter |
| Text.DecimalLength | server/routes/reservations.js:46 | a number has 1, at most 2, at most 3 digits iff it is below 10, 100, 1000 |
| Text.PadStart | server/routes/reservations.js:46 | `padStart(width, c)` gives the longer of the input and `width` characters: the input at the end, `c` in every position before it (`Text.Pad3RoundTrip` for the counter) |
| Text.JsLength | server/routes/reservations.js:61-72 | `length` counts UTF-16 code units: between the number of characters and twice that, a character above U+FFFF counting twice |
| Text.JsLengthOfBmp | server/routes/reservations.js:61-72 | on a string with no character above U+FFFF, `length` is the number of characters |
| Text.JsLengthRepeat | server/routes/reservations.js:70 | `length` of k copies of one character is k, or 2k for a character above U+FFFF |
| Text.SurrogatePairCountsTwice | server/routes/reservations.js:61-72 | a single emoji is one character with a `length` of 2 |
| ReservationTypes.ParseStatut | server/routes/reservations.js:277-278 | a status string is accepted iff it is one of the four names, and then it names the parsed status |
| ReservationTypes.StatutRoundTrip | server/routes/reservations.js:277 | every status's name parses back to that status |
| ReservationTypes.ErrorOfRankOfError | server/routes/reservations.js:51-90 | every validator message has a position in the check order, and that position gives back the message |
| ReservationTypes.ChainSpec | server/routes/reservations.js:51-90 | a list of conditional pushes holds the message of each check exactly when that check failed, in check order |
| ReservationTypes.ChainStep | server/routes/reservations.js:51-90 | each further check appends its message exactly when it fails |
| ReservationSchema.ValiderDonneesReservation | server/middleware/reservationSchema.js:1-40 | at most seven messages, and an empty list means the id is usable and the client and travel date are present (`ReservationSchema.ValiderDonneesReservationSpec` gives the full iff) |
| ReservationSchema.ClientChecks | server/middleware/reservationSchema.js:8-23 | a missing client adds exactly one message; a present client adds at most four |
| ReservationSchema.TravelDateChecks | server/middleware/reservationSchema.js:29-37 | a missing date adds exactly one message; a present date adds at most one |
| ReservationSchema.ValidatorIsChain | server/middleware/reservationSchema.js:1-40 | the validator is the chain of its nine checks |
| ReservationSchema.ClientChecksAreChain | server/middleware/reservationSchema.js:8-23 | checks 1 to 5 of the chain are the client block: a missing client gives the single missing-client message (check 1) in place of the four field checks (checks 2 to 5) |
| ReservationSchema.TravelDateChecksAreChain | server/middleware/reservationSchema.js:29-37 | a missing date gives "Date de voyage manquante", otherwise a date not after now gives the future-date message |
| ReservationSchema.ValiderDonneesReservationSpec | server/middleware/reservationSchema.js:1-40 | a message is returned iff its rule is broken, and the messages come in check order |
| ReservationSchema.ShortAfterTrimAsDefault | server/middleware/reservationSchema.js:11 | `!s \|\| s.trim().length < min` is a short trim of the value, or of "" when it is missing |
| ReservationSchema.ClientAcceptableIffChecksPass | server/middleware/reservationSchema.js:11-22 | client data is acceptable iff nom and prenom trim to a `length` of 2 or more, the email holds `@` and the phone has a `length` of at least 10 (UTF-16 code units) |
| ReservationSchema.AcceptableIffNoViolation | server/middleware/reservationSchema.js:1-40 | a request is acceptable iff it breaks none of the nine rules |
| ReservationSchema.ValiderEmptyIffAcceptable | server/middleware/reservationSchema.js:1-40 | the list is empty iff the request is acceptable |
| ReservationSchema.ValiderAtMostSeven | server/middleware/reservationSchema.js:4-37 | at most 7 messages: one id, four client (or one missing-client), one count, one date |
| ReservationSchema.MissingClientReplacesFieldChecks | server/middleware/reservationSchema.js:8-10 | without client data, the missing-client message is reported and none of the four client field messages |
| ReservationSchema.TravellerCountRule | server/middleware/reservationSchema.js:25-27 | the "entre 1 et 10" message appears iff the count is missing, 0, below 1 or above 10 |
| ReservationSchema.TravelDateRule | server/middleware/reservationSchema.js:29-37 | a missing date gives only "Date de voyage manquante"; a date at or before now gives the future-date message; an unparseable date gives neither |
| ReservationSchema.PhoneCheckCountsRawLength | server/middleware/reservationSchema.js:20-22 | the phone message appears iff the phone is missing or has a `length` below 10, counted in UTF-16 code units on the raw string: ten spaces pass, and so do five emoji |
| ReservationSchema.EmojiNameIsLongEnough | server/middleware/reservationSchema.js:11-13 | a nom of one emoji (`length` 2) passes the two-character rule |
| Reservations.GenererNumeroReservation | server/routes/reservations.js:43-48 | a generated number starts with `RES-` and has at least nine characters (`Reservations.NumeroRoundTrip` reads it back) |
| Reservations.ParseNumeroReservation | server/routes/reservations.js:43-48 | a reservation number is read back only when it starts with `RES-` |
| Reservations.FirstDashAfterDigits | server/routes/reservations.js:47 | in `year-counter` the first dash is the one after the year |
| Reservations.ParseNumeroOfDigits | server/routes/reservations.js:47 | `RES-<digits>-<digits>` reads back as the two numbers |
| Reservations.NumeroRoundTrip | server/routes/reservations.js:43-48 | the number generated for a year and a list length reads back as that year and length + 1; its suffix has exactly 3 digits iff length + 1 is below 1000 |
| Reservations.NumerosDistinct | server/routes/reservations.js:43-48 | different years or list lengths give different numbers |
| Reservations.NumberedInOrderDistinct | server/routes/reservations.js:233 | in a list where entry i was numbered with counter i, all numbers differ |
| Reservations.ValiderDonneesReservation | server/routes/reservations.js:51-90 | the route's validator reports at most seven messages (`Reservations.RouteValidatorAgreesWithSchema`: it is the middleware's validator) |
| Reservations.ClientBlock | server/routes/reservations.js:58-73 | a missing client adds exactly one message; a present client adds at most four |
| Reservations.IncludesAt | server/routes/reservations.js:67 | `email.includes('@')` holds iff the email holds the character `@` |
| Reservations.RouteValidatorAgreesWithSchema | server/routes/reservations.js:51-90 | the route's validator returns the same list as the middleware's copy for every request |
| Reservations.ClientBlockAgrees | server/routes/reservations.js:58-73 | the route's client block gives the same list as the middleware's, on any list of earlier messages |
| Reservations.AcceptedRequestHasFields | server/routes/reservations.js:206-214 | a request without errors has every field the handler reads, and 1 to 10 travellers |
| Reservations.IndexOfId | server/routes/reservations.js:285 | `findIndex` by id: the first entry with that id, or none iff no entry has it |
| Reservations.GetById | server/routes/reservations.js:140-171 | a non-numeric id gives "ID invalide", an unknown id gives 404, otherwise the first entry of the list with that id |
| Reservations.GetByNumero | server/routes/reservations.js:174-198 | 404 iff no entry has that number, otherwise the first entry of the list with it |
| Reservations.ListReservations | server/routes/reservations.js:96-123 | the listing is never longer than the list (`Reservations.ListReservationsSpec` says which entries it holds) |
| Reservations.ListReservationsIsFourFilters | server/routes/reservations.js:96-123 | the listing is the four filters applied in order |
| Reservations.ListReservationsIsFilter | server/routes/reservations.js:96-123 | the listing is one filter by the conjunction of the given criteria |
| Reservations.ListReservationsSpec | server/routes/reservations.js:96-123 | the listing is a subsequence of the list, every result matches the status (by equality), email (case-insensitive substring) and date bounds given, and every matching entry is listed |
| Reservations.Dashboard | server/routes/reservations.js:313-320 | the total is the list length and the three shown counts add up to at most it (`Reservations.DashboardSpec` for the turnover) |
| Reservations.SumPrixTotalCons | server/routes/reservations.js:318-320 | the `reduce` sum splits off its first element |
| Reservations.SumConfirmedIsRevenue | server/routes/reservations.js:318-320 | the sum over confirmed entries is the confirmed revenue |
| Reservations.StatusCountsPartition | server/routes/reservations.js:314-317 | the four status counts add up to the total |
| Reservations.DashboardSpec | server/routes/reservations.js:313-320 | en_attente + confirmees + annulees + terminee = total (so the three shown are at most the total), and chiffre_affaires is the sum of prixTotal over confirmed entries |
| Reservations.RevenueAppend | server/routes/reservations.js:248 | appending an entry adds its contribution to the revenue |
| Reservations.RevenueAfterStatusChange | server/routes/reservations.js:294 | a status change alters the revenue only by that entry's old and new contribution |
| Reservations.SeedNumbers | server/routes/reservations.js:9-26 | the seed numbers are those the generator gives for 2024 at list lengths 0 and 1, that is counters 1 and 2 |
| Reservations.SeedReservationsValid | server/routes/reservations.js:5-40 | the seed list is non-empty, its ids are distinct and its numbers follow the generator |
| Reservations.AppendKeepsInvariant | server/routes/reservations.js:231-248 | appending an entry with the next id and the next number keeps ids distinct and numbers in order |
| Reservations.ReservationStore.constructor | server/routes/reservations.js:5-40 | the store starts with the two seed reservations |
| Reservations.ReservationStore.Create | server/routes/reservations.js:201-262 | validation errors give "Données invalides" with every error and no change; an id outside 1 to 4 gives 404 with no change; otherwise exactly the new reservation is appended |
| Reservations.NouvelleReservation | server/routes/reservations.js:230-246 | the new entry's id is above every existing id and its status is "en_attente" (the four lemmas below give number, price and email) |
| Reservations.NouvelleReservationIdFresh | server/routes/reservations.js:231 | the new id is above every existing id |
| Reservations.NouvelleReservationNumero | server/routes/reservations.js:233 | the new number reads back as the year and the list length + 1 |
| Reservations.NouvelleReservationPricing | server/routes/reservations.js:226-244 | the new entry is "en_attente", costs 899 per traveller (899 to 8990), and leaves the revenue unchanged |
| Reservations.NouvelleReservationEmail | server/routes/reservations.js:237 | the stored email is the trimmed, lower-cased input and is already lower case |
| Reservations.ReservationStore.UpdateStatus | server/routes/reservations.js:265-308 | a non-numeric id gives "ID invalide"; a status outside the four gives 400 even for an unknown id; an unknown id gives 404; otherwise only that entry's status changes |
| Destinations.SeedDestinationsValid | server/routes/destinations.js:5-58 | the seed destinations have ids 1 to 4, distinct, the same as the reservation router's list of known destinations |
| Destinations.ListDestinations | server/routes/destinations.js:64-85 | the listing is never longer than the catalogue (`Destinations.ListDestinationsSpec` says which entries it holds) |
| Destinations.ListDestinationsIsFilter | server/routes/destinations.js:64-85 | the listing is one filter by the conjunction of the given criteria |
| Destinations.ListDestinationsSpec | server/routes/destinations.js:64-85 | the listing is a subsequence of the list, every result matches the category (case-insensitive), the maximum price and the availability given, and every match is listed |
| Destinations.ApplyBounds | server/routes/destinations.js:121-149 | the bounds never lengthen the list |
| Destinations.Search | server/routes/destinations.js:102-149 | the term is rejected iff it is missing, empty or has a `length` below 2 once trimmed; the results are never more than the catalogue (`Destinations.SearchSpec` says which) |
| Destinations.ApplyBoundsIsFilter | server/routes/destinations.js:121-149 | the four optional bounds together are one filter |
| Destinations.SearchIsFilter | server/routes/destinations.js:113-149 | an accepted search is one filter by the term and the bounds |
| Destinations.SearchSpec | server/routes/destinations.js:102-149 | a missing term or one shorter than 2 after trimming is rejected; otherwise the results are a subsequence whose every element mentions the term (case-insensitive, in the name, description or an activity) and respects the bounds, and every such destination is found |
| Destinations.MentionsTermIgnoresCase | server/routes/destinations.js:114-117 | the search term's case does not matter |
| Destinations.IndexOfId | server/routes/destinations.js:279 | `findIndex` by id: the first entry with that id, or none iff no entry has it |
| Destinations.GetById | server/routes/destinations.js:167-198 | a non-numeric id gives "ID invalide", 404 iff no entry has the id, otherwise the first entry of the list with that id |
| Destinations.ListedMembers | server/routes/destinations.js:206-226 | the five conditional pushes report a message iff its condition holds |
| Destinations.ListedOrdered | server/routes/destinations.js:206-226 | the messages come in check order, at most five |
| Destinations.PushOrdered | server/routes/destinations.js:206-226 | a later check's push keeps the messages in check order |
| Destinations.ShortAfterTrimIsBreak | server/routes/destinations.js:208 | `!s \|\| s.trim().length < min` is the same as a missing value or a short trim |
| Destinations.ValiderDestination | server/routes/destinations.js:206-226 | at most five messages, and none only when nom, description and categorie are present (`Destinations.ValiderDestinationSpec` gives the full rule) |
| Destinations.ValiderDestinationSpec | server/routes/destinations.js:206-226 | every broken rule (nom under 3, description under 10 after trimming, prix or duree missing or not positive, categorie missing) is reported and nothing else |
| Destinations.ValiderDestinationOrder | server/routes/destinations.js:206-226 | the messages come in check order, at most five |
| Destinations.AcceptedInputHasFields | server/routes/destinations.js:228-234 | an input without errors has every required field, nom and description long enough after trimming, positive prix and duree, and a non-empty categorie |
| Destinations.NouvelleDestination | server/routes/destinations.js:237-249 | the new destination is available and its id is above every existing id (by the corrected rule of "## Findings") |
| Destinations.NouvelleDestinationIdFresh | server/routes/destinations.js:238 | the new id is the next id, above every existing id |
| Destinations.AppendNextIdKeepsDistinct | server/routes/destinations.js:251 | appending an entry with the next id keeps ids distinct |
| Destinations.NouvelleDestinationIdAsWritten | server/routes/destinations.js:238 | on a non-empty list the new id is exactly `Math.max(...ids) + 1` |
| Destinations.NouvelleDestinationWellFormed | server/routes/destinations.js:237-249 | the new destination is available, its nom and description are trimmed and long enough, its category is non-empty and lower case, its prix and duree positive |
| Destinations.NouvelleDestinationDefaults | server/routes/destinations.js:243-248 | a missing or empty image, date or place count (0 included) gets the placeholder image, today's date and 20 places; missing activities give an empty list |
| Destinations.DestinationStore.constructor | server/routes/destinations.js:5-58 | the store starts with the four seed destinations |
| Destinations.DestinationStore.Create | server/routes/destinations.js:201-265 | an input with errors gives every error and no change; otherwise exactly the new destination is appended, with the id of the corrected rule (see "## Left out") |
| Destinations.ApplyUpdate | server/routes/destinations.js:291-300 | the id is kept, and a supplied (truthy) name is stored trimmed, so no longer than given (the lemmas below cover the other fields) |
| Destinations.ApplyUpdateKeepsId | server/routes/destinations.js:288-300 | an update never changes the id, and an empty update changes nothing |
| Destinations.ApplyUpdateIdempotent | server/routes/destinations.js:291-300 | applying the same update twice is applying it once |
| Destinations.ApplyUpdateFalsyValues | server/routes/destinations.js:291-300 | a price or duration of 0 and an empty name are ignored, while a place count of 0 and `disponible: false` are applied |
| Destinations.ApplyUpdateCommutes | server/routes/destinations.js:291-300 | two updates that supply different fields can be applied in either order |
| Destinations.ReplaceKeepsIds | server/routes/destinations.js:291-300 | replacing an entry by one with the same id keeps the id list |
| Destinations.DestinationStore.Update | server/routes/destinations.js:268-314 | a non-numeric id gives "ID invalide"; an unknown id gives 404 with no change; otherwise only the entry with that id changes, by the supplied fields |
| Destinations.RemoveAt | server/routes/destinations.js:337 | `splice(k, 1)` keeps the entries before k and shifts the later ones down by one |
| Destinations.OthersHaveOtherIds | server/routes/destinations.js:328 | with distinct ids, only entry k has entry k's id |
| Destinations.RemoveAtIsFilter | server/routes/destinations.js:328-337 | with distinct ids, splicing out the entry found is removing every entry with that id |
| Destinations.RemoveAtKeepsDistinct | server/routes/destinations.js:337 | splicing keeps ids distinct |
| Destinations.DestinationStore.Delete | server/routes/destinations.js:317-351 | a non-numeric id gives "ID invalide"; an unknown id gives 404 with no change; otherwise the entry with that id is returned and exactly it is removed, the others kept in order |
| Validation.ValidatePagination | server/middleware/validation.js:19-43 | accepted pagination has a page of at least 1 and a limit between 1 and 100 |
| Validation.ValidatePaginationSpec | server/middleware/validation.js:22-40 | page is blamed iff it is given and not a number or below 1; limit is blamed iff page passes and limit is given and not a number or outside 1 to 100; accepted values are the ones given, 1 and 10 by default |
| Validation.ValidateDateRange | server/middleware/validation.js:46-71 | an accepted range has no unparseable bound and, with both bounds, a start not after the end |
| Validation.ValidateDateRangeSpec | server/middleware/validation.js:46-71 | accepted iff each bound given parses and, with both given, the start is not after the end; reversed iff both parse and the start is after the end; a missing bound is never the reason for a rejection |
| Validation.ValidateEmail | server/middleware/validation.js:74-77 | an accepted address holds `@` and has at least five characters (`Validation.ValidateEmailIff` gives the exact language) |
| Validation.ValidateEmailProperties | server/middleware/validation.js:74-77 | an accepted address has exactly one `@`, after a non-empty local part, no white space, and a `.` after the `@` with text on both sides |
| Validation.ValidateEmailIff | server/middleware/validation.js:75-76 | the check accepts exactly the strings `local@host.tld` with non-empty parts free of white space and `@` |
| Validation.AcceptedEmailSplits | server/middleware/validation.js:75-76 | an accepted address splits as `local@host.tld` |
| Validation.DomainSplits | server/middleware/validation.js:75 | a domain with an inner dot splits around it into two plain parts |
| Validation.EmailOfAccepted | server/middleware/validation.js:75-76 | every `local@host.tld` with plain non-empty parts is accepted |
| Validation.ValidatePhone | server/middleware/validation.js:80-83 | an accepted number has at least ten characters (`Validation.PhonePatternShape` gives the exact shape) |
| Validation.PhonePrefixes | server/middleware/validation.js:81 | `0` followed by x and `+33` followed by x are both accepted exactly when x is nine digits not starting with 0 |
| Validation.PhonePatternShape | server/middleware/validation.js:81 | an accepted number without spaces has 10 characters starting with `0`, or 12 starting with `+33`, and ends in nine digits |
| Validation.ValidatePhoneIgnoresSpaces | server/middleware/validation.js:82 | a white-space character anywhere in the input does not change the verdict |
| Validation.ValidatePhoneNormalised | server/middleware/validation.js:80-83 | removing spaces beforehand changes nothing, and an accepted number has a `length` of at least 10, as the reservation check asks |
| Validation.CleanString | server/middleware/validation.js:92 | a cleaned string is no longer than the original |
| Validation.CleanStringSpec | server/middleware/validation.js:92 | a cleaned string holds no `<` or `>`, is no longer than before, and only holds characters of the original |
| Validation.SanitizeSpec | server/middleware/validation.js:88-97 | after sanitizing, no string anywhere holds `<` or `>`; every string is no longer than before; keys, numbers, booleans and nulls are unchanged; nested objects and arrays are processed |
| Validation.Sanitize | server/middleware/validation.js:88-97 | the field-by-field loop computes the specified sanitized value |
| Validation.SanitizeField | server/middleware/validation.js:90-95 | one field: the string cleaned or the nested object sanitized |
| Validation.SanitizeBody | server/middleware/validation.js:99-101 | a body that is not an object or an array is passed on unchanged |
| Validation.SanitizeBodySpec | server/middleware/validation.js:86-104 | an object or array body is cleaned completely (no `<` or `>` left, nothing longer, the rest kept); a bare string body such as `"<b>"` keeps its brackets |
| Validation.Step | server/middleware/validation.js:162-187 | a rejected request changes nothing, and the addresses remembered afterwards are those before plus the caller |
| Validation.StepSpec | server/middleware/validation.js:162-187 | a step keeps every count between 1 and the cap; other addresses are untouched; a request is rejected iff its window is current and full, and a rejection changes nothing |
| Validation.RunWithinWindow | server/middleware/validation.js:173-186 | inside a current window the count only grows, never past `maxRequests`, and every request let through adds one to it |
| Validation.FreshWindowAdmitsAtMostMax | server/middleware/validation.js:159-189 | with `maxRequests` of at least 1, a window lets at most `maxRequests` requests of one address through |
| Validation.RateLimiter.constructor | server/middleware/validation.js:159-160 | a limiter starts with no addresses remembered |
| Validation.RateLimiter.WithDefaults | server/middleware/validation.js:159 | the default limiter allows 100 requests per 15 minutes |
| Validation.RateLimiter.Handle | server/middleware/validation.js:162-188 | the middleware makes exactly the specified step and keeps the counts bounded |

## Left out

- Number and date parsing (`parseInt`, `parseFloat`, `isNaN`, `new Date`, `Date.parse`) is not modelled. Inputs arrive already parsed:
  - a number or "missing";
  - a timestamp or `Unparseable`;
  - for pagination, "absent or empty", "not a number" or the `parseInt` value.
  Fractional prices and `parseInt` truncation are therefore not captured.
- The clock is a parameter: `Date.now()`, `new Date()`, the current year and today's `YYYY-MM-DD` string.
- `moyenne_prix` in the dashboard is left out because it is a floating-point division.
- `toLowerCase` is modelled for ASCII and Latin-1 letters only. Other Unicode case mappings are not.
- The 500 error paths (`catch`) are left out. The model has no exceptions.
- Response bodies are reduced to the outcome and its data. Status codes and `success` flags are not modelled.
- Destination ids in the two routers are not linked. The reservation router checks ids against its own constant list `[1, 2, 3, 4]`, not against the destination store. `Destinations.SeedDestinationsValid` shows that this list equals the seed ids.
- `Destinations.DestinationStore.Update` models `disponible` as a boolean when supplied. A non-boolean value stored as-is is not captured. The `parseInt` of `placesDisponibles` is not modelled.
- Validation.Sanitize:
  - it works on values and returns the new tree rather than rewriting the request object in place;
  - aliasing (one object reachable twice) is not captured;
  - inherited enumerable properties seen by `for...in` are not captured.
- Validation.RateLimiter.Handle:
  - the address comes as a parameter, whereas the source reads `req.ip` or `req.connection.remoteAddress`;
  - the text of the 429 message (`windowMs / 1000 / 60` minutes) is not modelled.
- `validateJsonData`, `logRequests`, `handle404` and `handleErrors` in `server/middleware/validation.js` are left out. They are response and logging plumbing.
- The following are not part of this model: the Express/CORS wiring, the React client, the Prisma/pg database modules, their seed scripts, and the thin request-body wrapper.
- Destinations.DestinationStore.Create: uses the corrected id rule of "## Findings" (`NextId`). On an empty catalogue it gives id 1, whereas the source's `Math.max(...[]) + 1` gives -Infinity; the as-written rule is modelled by `Base.MathMaxPlusOne` and agrees on every non-empty catalogue (`Destinations.NouvelleDestinationIdAsWritten`). `Destinations.NouvelleDestination` is the same. The reservation list always holds its two seed entries and has no delete route, so the reservation ids are not affected.
- Seats are not modelled. The routers keep no seat ledger: creating a reservation does not reduce `placesDisponibles`, and cancelling one does not restore it.

How the routers work, as the model follows them:
- **Storage.** The routes keep in-memory arrays.
- **Reservation creation** checks the destination id against `[1, 2, 3, 4]` and prices every traveller at 899. It does not use the destination's own price.
- **Missing operations.** There is no seat accounting, no client table and no reservation deletion.

## Findings

| source | as written | input that shows it | evidently intended | confidence | as-written member | corrected member |
|---|---|---|---|---|---|---|
| server/routes/destinations.js:238 | the new id is `Math.max(...destinations.map(d => d.id)) + 1` | create two destinations after the list has become empty (every seed deleted): `Math.max()` is -Infinity, so both new destinations get id -Infinity (JSON `null`) and can no longer be found or deleted by id | the first id on an empty list is 1, and ids stay distinct | not executed | Base.MathMaxPlusOne, Base.EmptyListIdsCollide | Base.NextId, Base.EmptyListIdsCorrected |
