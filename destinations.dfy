/**
 * The destinations catalogue: an in-memory list of destinations that the
 * routes filter, search, and change in place (create, update, delete).
 */
module Destinations {
  import opened Base
  import opened Text
  import Reservations

  datatype Destination = Destination(
    id: int,
    nom: string,
    description: string,
    prix: int,
    duree: int,
    image: string,
    disponible: bool,
    categorie: string,
    activites: seq<string>,
    dateDepart: string,
    placesDisponibles: int)

  /** The ids of the stored destinations, in list order. */
  function DestinationIds(ds: seq<Destination>): (ids: seq<int>)
    ensures |ids| == |ds| && forall i :: 0 <= i < |ds| ==> ids[i] == ds[i].id
  {
    seq(|ds|, i requires 0 <= i < |ds| => ds[i].id)
  }

  /** The four destinations the catalogue starts with. */
  function SeedDestinations(): seq<Destination>
  {
    [ Destination(1, "Paris, France", "La ville lumière avec ses monuments iconiques", 899, 5,
        "https://images.unsplash.com/photo-1502602898536-47ad22581b52", true, "ville",
        ["Visite de la Tour Eiffel", "Louvre", "Montmartre"], "2024-07-15", 25),
      Destination(2, "Bali, Indonésie", "Île paradisiaque avec plages et temples", 1299, 8,
        "https://images.unsplash.com/photo-1518548419970-58e3b4079ab2", true, "plage",
        ["Plongée", "Temples", "Rizières"], "2024-08-01", 15),
      Destination(3, "Tokyo, Japon", "Métropole moderne entre tradition et innovation", 1599, 7,
        "https://images.unsplash.com/photo-1540959733332-eab4deabeeaf", true, "ville",
        ["Temples", "Quartier d'Akihabara", "Mont Fuji"], "2024-09-10", 20),
      Destination(4, "Marrakech, Maroc", "Ville impériale aux mille couleurs", 699, 4,
        "https://images.unsplash.com/photo-1539650116574-75c0c6d73a0e", true, "culture",
        ["Médina", "Jardins Majorelle", "Désert"], "2024-06-20", 30) ]
  }

  /**
   * The seed ids are 1 to 4, pairwise distinct, and exactly the destination
   * ids the reservation routes accept.
   */
  lemma SeedDestinationsValid()
    ensures DestinationIds(SeedDestinations()) == [1, 2, 3, 4] == Reservations.DestinationsDisponibles
    ensures Distinct(DestinationIds(SeedDestinations()))
  {
    var ds := SeedDestinations();
    assert |ds| == 4 && ds[0].id == 1 && ds[1].id == 2 && ds[2].id == 3 && ds[3].id == 4;
    assert DestinationIds(ds) == [1, 2, 3, 4];
    assert Distinct([1, 2, 3, 4]);
  }

  // ---------------------------------------------------------------------
  // GET `/`: filtered list
  // ---------------------------------------------------------------------

  /**
   * The query of GET `/`. `prixMax` is None when absent, empty or not a
   * number; `disponible` is None only when the parameter is absent.
   */
  datatype ListQuery = ListQuery(categorie: Option<string>, prixMax: Option<int>, disponible: Option<string>)

  predicate CategorieMatches(q: ListQuery, d: Destination)
  {
    Truthy(q.categorie) ==> ToLower(d.categorie) == ToLower(q.categorie.value)
  }

  predicate PrixAtMost(q: ListQuery, d: Destination)
  {
    q.prixMax.Some? ==> d.prix <= q.prixMax.value
  }

  /** Any value other than the text "true" selects the unavailable destinations. */
  predicate DisponibleMatches(q: ListQuery, d: Destination)
  {
    q.disponible.Some? ==> d.disponible == (q.disponible.value == "true")
  }

  predicate MatchesList(q: ListQuery, d: Destination)
  {
    CategorieMatches(q, d) && PrixAtMost(q, d) && DisponibleMatches(q, d)
  }

  function ByCategorie(q: ListQuery): Destination -> bool { x => CategorieMatches(q, x) }
  function ByPrixMax(q: ListQuery): Destination -> bool { x => PrixAtMost(q, x) }
  function ByDisponible(q: ListQuery): Destination -> bool { x => DisponibleMatches(q, x) }
  function ByList(q: ListQuery): Destination -> bool { x => MatchesList(q, x) }

  /** GET `/`: each filter applied only when its parameter is given. */
  function ListDestinations(ds: seq<Destination>, q: ListQuery): (r: seq<Destination>)
    ensures |r| <= |ds|
  {
    var r1 := if Truthy(q.categorie) then Filter(ds, ByCategorie(q)) else ds;
    var r2 := if q.prixMax.Some? then Filter(r1, ByPrixMax(q)) else r1;
    if q.disponible.Some? then Filter(r2, ByDisponible(q)) else r2
  }

  /**
   * The list keeps exactly the destinations that pass every given filter,
   * in catalogue order.
   */
  lemma ListDestinationsSpec(ds: seq<Destination>, q: ListQuery)
    ensures IsSubsequence(ListDestinations(ds, q), ds)
    ensures forall i :: 0 <= i < |ListDestinations(ds, q)| ==> MatchesList(q, ListDestinations(ds, q)[i])
    ensures forall i :: 0 <= i < |ds| && MatchesList(q, ds[i]) ==> ds[i] in ListDestinations(ds, q)
  {
    ListDestinationsIsFilter(ds, q);
    FilterSpec(ds, ByList(q));
  }

  /** The three conditional filters are one filter by the whole query. */
  lemma ListDestinationsIsFilter(ds: seq<Destination>, q: ListQuery)
    ensures ListDestinations(ds, q) == Filter(ds, ByList(q))
  {
    var r1 := Filter(ds, ByCategorie(q));
    if !Truthy(q.categorie) { FilterAll(ds, ByCategorie(q)); }
    var r2 := Filter(r1, ByPrixMax(q));
    if q.prixMax.None? { FilterAll(r1, ByPrixMax(q)); }
    if q.disponible.None? { FilterAll(r2, ByDisponible(q)); }
    var p12 := (x: Destination) => CategorieMatches(q, x) && PrixAtMost(q, x);
    FilterFilter(ds, ByCategorie(q), ByPrixMax(q), p12);
    FilterFilter(ds, p12, ByDisponible(q), ByList(q));
  }

  // ---------------------------------------------------------------------
  // GET `/search`
  // ---------------------------------------------------------------------

  /**
   * The query of GET `/search`. Each bound is None when absent, empty or
   * not a number.
   */
  datatype SearchQuery = SearchQuery(
    q: Option<string>,
    prixMin: Option<int>,
    prixMax: Option<int>,
    dureeMin: Option<int>,
    dureeMax: Option<int>)

  datatype SearchOutcome = SearchTermTooShort | SearchResults(destinations: seq<Destination>)

  /**
   * The term occurs, ignoring case, in the name, the description or one of
   * the activities. The term is used as given, untrimmed.
   */
  predicate MentionsTerm(term: string, d: Destination)
  {
    || IncludesIgnoringCase(d.nom, term)
    || IncludesIgnoringCase(d.description, term)
    || exists i :: 0 <= i < |d.activites| && IncludesIgnoringCase(d.activites[i], term)
  }

  predicate WithinBounds(q: SearchQuery, d: Destination)
  {
    && (q.prixMin.Some? ==> d.prix >= q.prixMin.value)
    && (q.prixMax.Some? ==> d.prix <= q.prixMax.value)
    && (q.dureeMin.Some? ==> d.duree >= q.dureeMin.value)
    && (q.dureeMax.Some? ==> d.duree <= q.dureeMax.value)
  }

  predicate MatchesSearch(term: string, q: SearchQuery, d: Destination)
  {
    MentionsTerm(term, d) && WithinBounds(q, d)
  }

  function ByTerm(term: string): Destination -> bool { x => MentionsTerm(term, x) }
  function ByPrixMin(q: SearchQuery): Destination -> bool { (x: Destination) => q.prixMin.Some? ==> x.prix >= q.prixMin.value }
  function BySearchPrixMax(q: SearchQuery): Destination -> bool { (x: Destination) => q.prixMax.Some? ==> x.prix <= q.prixMax.value }
  function ByDureeMin(q: SearchQuery): Destination -> bool { (x: Destination) => q.dureeMin.Some? ==> x.duree >= q.dureeMin.value }
  function ByDureeMax(q: SearchQuery): Destination -> bool { (x: Destination) => q.dureeMax.Some? ==> x.duree <= q.dureeMax.value }
  function BySearch(term: string, q: SearchQuery): Destination -> bool { x => MatchesSearch(term, q, x) }

  /** The four numeric bounds, each applied only when given. */
  function ApplyBounds(r0: seq<Destination>, q: SearchQuery): (r: seq<Destination>)
    ensures |r| <= |r0|
  {
    var r1 := if q.prixMin.Some? then Filter(r0, ByPrixMin(q)) else r0;
    var r2 := if q.prixMax.Some? then Filter(r1, BySearchPrixMax(q)) else r1;
    var r3 := if q.dureeMin.Some? then Filter(r2, ByDureeMin(q)) else r2;
    if q.dureeMax.Some? then Filter(r3, ByDureeMax(q)) else r3
  }

  /**
   * GET `/search`: 400 when the term is missing or shorter than two
   * characters once trimmed; otherwise the destinations mentioning the
   * term, narrowed by the bounds.
   */
  function Search(ds: seq<Destination>, q: SearchQuery): (o: SearchOutcome)
    ensures o.SearchTermTooShort? <==> q.q.None? || q.q.value == "" || JsLength(Trim(q.q.value)) < 2
    ensures o.SearchResults? ==> |o.destinations| <= |ds|
  {
    if ShortAfterTrim(q.q, 2) then SearchTermTooShort
    else SearchResults(ApplyBounds(Filter(ds, ByTerm(q.q.value)), q))
  }

  /** The bounds, applied one after the other, keep what passes all four. */
  lemma ApplyBoundsIsFilter(r0: seq<Destination>, q: SearchQuery)
    ensures ApplyBounds(r0, q) == Filter(r0, (x: Destination) => WithinBounds(q, x))
  {
    var r1 := Filter(r0, ByPrixMin(q));
    if q.prixMin.None? { FilterAll(r0, ByPrixMin(q)); }
    var r2 := Filter(r1, BySearchPrixMax(q));
    if q.prixMax.None? { FilterAll(r1, BySearchPrixMax(q)); }
    var r3 := Filter(r2, ByDureeMin(q));
    if q.dureeMin.None? { FilterAll(r2, ByDureeMin(q)); }
    if q.dureeMax.None? { FilterAll(r3, ByDureeMax(q)); }
    var p12 := (x: Destination) => (q.prixMin.Some? ==> x.prix >= q.prixMin.value) && (q.prixMax.Some? ==> x.prix <= q.prixMax.value);
    var p123 := (x: Destination) => p12(x) && (q.dureeMin.Some? ==> x.duree >= q.dureeMin.value);
    FilterFilter(r0, ByPrixMin(q), BySearchPrixMax(q), p12);
    FilterFilter(r0, p12, ByDureeMin(q), p123);
    FilterFilter(r0, p123, ByDureeMax(q), (x: Destination) => WithinBounds(q, x));
  }

  /**
   * A term of at least two non-space characters gives the destinations that
   * mention it and respect every bound, in catalogue order, and no others.
   */
  lemma SearchSpec(ds: seq<Destination>, q: SearchQuery)
    ensures Search(ds, q).SearchTermTooShort? <==> q.q.None? || JsLength(Trim(q.q.value)) < 2
    ensures Search(ds, q).SearchResults? ==>
      var r := Search(ds, q).destinations;
      && IsSubsequence(r, ds)
      && (forall i :: 0 <= i < |r| ==> MatchesSearch(q.q.value, q, r[i]))
      && (forall i :: 0 <= i < |ds| && MatchesSearch(q.q.value, q, ds[i]) ==> ds[i] in r)
  {
    if q.q.Some? && q.q.value == "" {
      assert Trim(q.q.value) == "";
    }
    if !ShortAfterTrim(q.q, 2) {
      SearchIsFilter(ds, q);
      FilterSpec(ds, BySearch(q.q.value, q));
    }
  }

  /** Keyword match and bounds are one filter by the whole query. */
  lemma SearchIsFilter(ds: seq<Destination>, q: SearchQuery)
    requires !ShortAfterTrim(q.q, 2)
    ensures Search(ds, q) == SearchResults(Filter(ds, BySearch(q.q.value, q)))
  {
    var term := q.q.value;
    ApplyBoundsIsFilter(Filter(ds, ByTerm(term)), q);
    FilterFilter(ds, ByTerm(term), (x: Destination) => WithinBounds(q, x), BySearch(term, q));
  }

  /** Matching ignores the case of the term. */
  lemma MentionsTermIgnoresCase(term: string, d: Destination)
    ensures MentionsTerm(ToLower(term), d) == MentionsTerm(term, d)
  {
    ToLowerIdempotent(term);
  }

  // ---------------------------------------------------------------------
  // GET `/:id`
  // ---------------------------------------------------------------------

  /** Position of the first destination with this id. */
  function IndexOfId(ds: seq<Destination>, id: int): (k: Option<nat>)
    ensures k.Some? ==> k.value < |ds| && ds[k.value].id == id
    ensures k.Some? ==> forall j :: 0 <= j < k.value ==> ds[j].id != id
    ensures k.None? <==> forall j :: 0 <= j < |ds| ==> ds[j].id != id
  {
    FindIndex(ds, (d: Destination) => d.id == id)
  }

  datatype Lookup = InvalidId | NotFound | Found(destination: Destination)

  /** GET `/:id`: 400 for an id that is not a number, 404 when no entry has it. */
  function GetById(ds: seq<Destination>, id: Option<int>): (o: Lookup)
    ensures o.InvalidId? <==> id.None?
    ensures o.NotFound? <==> id.Some? && forall j :: 0 <= j < |ds| ==> ds[j].id != id.value
    ensures o.Found? ==>
              && id.Some? && o.destination.id == id.value
              && exists j :: 0 <= j < |ds| && ds[j] == o.destination && forall i :: 0 <= i < j ==> ds[i].id != id.value
  {
    match id
    case None => InvalidId
    case Some(i) =>
      match IndexOfId(ds, i)
      case None => NotFound
      case Some(k) => Found(ds[k])
  }

  // ---------------------------------------------------------------------
  // POST `/`: validation and the new entry
  // ---------------------------------------------------------------------

  /**
   * A creation request body; a field is None when absent. `prix`, `duree`
   * and `placesDisponibles` are JSON numbers.
   */
  datatype DestinationInput = DestinationInput(
    nom: Option<string>,
    description: Option<string>,
    prix: Option<int>,
    duree: Option<int>,
    image: Option<string>,
    categorie: Option<string>,
    activites: Option<seq<string>>,
    dateDepart: Option<string>,
    placesDisponibles: Option<int>)

  /** The creation errors, in the order they are checked. */
  datatype DestinationError = ShortNom | ShortDescription | NonPositivePrix | NonPositiveDuree | MissingCategorie

  function Message(e: DestinationError): string
  {
    match e
    case ShortNom => "Le nom doit contenir au moins 3 caractères"
    case ShortDescription => "La description doit contenir au moins 10 caractères"
    case NonPositivePrix => "Le prix doit être supérieur à 0"
    case NonPositiveDuree => "La durée doit être supérieure à 0"
    case MissingCategorie => "La catégorie est obligatoire"
  }

  /** The field is missing, or has fewer than `min` characters once trimmed. */
  predicate TooShort(s: Option<string>, min: nat)
  {
    s.None? || JsLength(Trim(s.value)) < min
  }

  /** The rule behind each error, stated on the request alone. */
  predicate Breaks(input: DestinationInput, e: DestinationError)
  {
    match e
    case ShortNom => TooShort(input.nom, 3)
    case ShortDescription => TooShort(input.description, 10)
    case NonPositivePrix => input.prix.None? || input.prix.value <= 0
    case NonPositiveDuree => input.duree.None? || input.duree.value <= 0
    case MissingCategorie => !Truthy(input.categorie)
  }

  /** The list of errors for the outcomes `c0` to `c4` of the five checks, in check order. */
  function Listed(c0: bool, c1: bool, c2: bool, c3: bool, c4: bool): seq<DestinationError>
  {
    Push(Push(Push(Push(Push([], c0, ShortNom), c1, ShortDescription), c2, NonPositivePrix), c3, NonPositiveDuree), c4, MissingCategorie)
  }

  /** Which check reports an error. */
  predicate Reported(c0: bool, c1: bool, c2: bool, c3: bool, c4: bool, e: DestinationError)
  {
    match e
    case ShortNom => c0
    case ShortDescription => c1
    case NonPositivePrix => c2
    case NonPositiveDuree => c3
    case MissingCategorie => c4
  }

  /** Position of a check among the five. */
  function Rank(e: DestinationError): nat
  {
    match e
    case ShortNom => 0
    case ShortDescription => 1
    case NonPositivePrix => 2
    case NonPositiveDuree => 3
    case MissingCategorie => 4
  }

  /** Errors listed in check order, below check number `n`. */
  ghost predicate OrderedBelow(es: seq<DestinationError>, n: nat)
  {
    && (forall i, j :: 0 <= i < j < |es| ==> Rank(es[i]) < Rank(es[j]))
    && (forall i :: 0 <= i < |es| ==> Rank(es[i]) < n)
    && |es| <= n
  }

  lemma PushOrdered(es: seq<DestinationError>, c: bool, e: DestinationError)
    requires OrderedBelow(es, Rank(e))
    ensures OrderedBelow(Push(es, c, e), Rank(e) + 1)
  {
  }

  /** Each error is listed exactly when its check failed. */
  lemma ListedMembers(c0: bool, c1: bool, c2: bool, c3: bool, c4: bool, e: DestinationError)
    ensures e in Listed(c0, c1, c2, c3, c4) <==> Reported(c0, c1, c2, c3, c4, e)
  {
    var l0 := Push([], c0, ShortNom);
    var l1 := Push(l0, c1, ShortDescription);
    var l2 := Push(l1, c2, NonPositivePrix);
    var l3 := Push(l2, c3, NonPositiveDuree);
    InPush([], c0, ShortNom, e);
    InPush(l0, c1, ShortDescription, e);
    InPush(l1, c2, NonPositivePrix, e);
    InPush(l2, c3, NonPositiveDuree, e);
    InPush(l3, c4, MissingCategorie, e);
  }

  /** The errors are listed once each, in check order. */
  lemma ListedOrdered(c0: bool, c1: bool, c2: bool, c3: bool, c4: bool)
    ensures OrderedBelow(Listed(c0, c1, c2, c3, c4), 5)
  {
    var l0 := Push([], c0, ShortNom);
    PushOrdered([], c0, ShortNom);
    var l1 := Push(l0, c1, ShortDescription);
    PushOrdered(l0, c1, ShortDescription);
    var l2 := Push(l1, c2, NonPositivePrix);
    PushOrdered(l1, c2, NonPositivePrix);
    var l3 := Push(l2, c3, NonPositiveDuree);
    PushOrdered(l2, c3, NonPositiveDuree);
    PushOrdered(l3, c4, MissingCategorie);
  }

  /** The checks of POST `/`, each pushing its message when it fails. */
  function ValiderDestination(input: DestinationInput): (erreurs: seq<DestinationError>)
    ensures |erreurs| <= 5
    ensures erreurs == [] ==> input.nom.Some? && input.description.Some? && input.categorie.Some?
  {
    Listed(
      ShortAfterTrim(input.nom, 3),
      ShortAfterTrim(input.description, 10),
      !TruthyNumber(input.prix) || input.prix.value <= 0,
      !TruthyNumber(input.duree) || input.duree.value <= 0,
      !Truthy(input.categorie))
  }

  /** `!s || s.trim().length < min` is the rule with a missing field read as too short. */
  lemma ShortAfterTrimIsBreak(s: Option<string>, min: nat)
    requires min > 0
    ensures ShortAfterTrim(s, min) <==> TooShort(s, min)
  {
    if s.Some? && s.value == "" {
      assert Trim(s.value) == "";
    }
  }

  /** The validator lists its errors once each, in the order the rules are checked. */
  lemma ValiderDestinationOrder(input: DestinationInput)
    ensures OrderedBelow(ValiderDestination(input), 5)
  {
    ListedOrdered(
      ShortAfterTrim(input.nom, 3),
      ShortAfterTrim(input.description, 10),
      !TruthyNumber(input.prix) || input.prix.value <= 0,
      !TruthyNumber(input.duree) || input.duree.value <= 0,
      !Truthy(input.categorie));
  }

  /** The validator lists every broken rule and no other. */
  lemma ValiderDestinationSpec(input: DestinationInput)
    ensures forall e :: e in ValiderDestination(input) <==> Breaks(input, e)
  {
    var c0 := ShortAfterTrim(input.nom, 3);
    var c1 := ShortAfterTrim(input.description, 10);
    var c2 := !TruthyNumber(input.prix) || input.prix.value <= 0;
    var c3 := !TruthyNumber(input.duree) || input.duree.value <= 0;
    var c4 := !Truthy(input.categorie);
    assert c0 == Breaks(input, ShortNom) by { ShortAfterTrimIsBreak(input.nom, 3); }
    assert c1 == Breaks(input, ShortDescription) by { ShortAfterTrimIsBreak(input.description, 10); }
    forall e ensures e in ValiderDestination(input) <==> Breaks(input, e) {
      ListedMembers(c0, c1, c2, c3, c4, e);
      match e
      case ShortNom =>
      case ShortDescription =>
      case NonPositivePrix =>
      case NonPositiveDuree =>
      case MissingCategorie =>
    }
  }

  /** The fields the creation reads are all present. */
  predicate HasRequiredFields(input: DestinationInput)
  {
    input.nom.Some? && input.description.Some? && input.prix.Some? && input.duree.Some? && input.categorie.Some?
  }

  /** A request with no error carries every field the creation reads. */
  lemma AcceptedInputHasFields(input: DestinationInput)
    requires ValiderDestination(input) == []
    ensures HasRequiredFields(input)
    ensures JsLength(Trim(input.nom.value)) >= 3 && JsLength(Trim(input.description.value)) >= 10
    ensures input.prix.value > 0 && input.duree.value > 0 && input.categorie.value != ""
  {
    ValiderDestinationSpec(input);
    assert !Breaks(input, ShortNom) && !Breaks(input, ShortDescription);
    assert !Breaks(input, NonPositivePrix) && !Breaks(input, NonPositiveDuree) && !Breaks(input, MissingCategorie);
  }

  const PlaceholderImage := "https://via.placeholder.com/400x300"

  /** The seats a new destination gets when none (or 0) is given. */
  const DefaultPlaces := 20

  /**
   * The entry POST `/` appends: the next id, the text fields trimmed, the
   * category in lower case, and a default for each falsy optional field
   * (`today` is the current date as `YYYY-MM-DD`).
   */
  function NouvelleDestination(ds: seq<Destination>, input: DestinationInput, today: string): (d: Destination)
    requires HasRequiredFields(input)
    ensures forall j :: 0 <= j < |ds| ==> ds[j].id < d.id
    ensures d.disponible
  {
    Destination(
      NextId(DestinationIds(ds)),
      Trim(input.nom.value),
      Trim(input.description.value),
      input.prix.value,
      input.duree.value,
      if Truthy(input.image) then input.image.value else PlaceholderImage,
      true,
      ToLower(input.categorie.value),
      input.activites.GetOr([]),
      if Truthy(input.dateDepart) then input.dateDepart.value else today,
      if TruthyNumber(input.placesDisponibles) then input.placesDisponibles.value else DefaultPlaces)
  }

  /** The new id is above every id in use. */
  lemma NouvelleDestinationIdFresh(ds: seq<Destination>, input: DestinationInput, today: string)
    requires HasRequiredFields(input)
    ensures NouvelleDestination(ds, input, today).id == NextId(DestinationIds(ds))
    ensures forall i :: 0 <= i < |ds| ==> ds[i].id < NouvelleDestination(ds, input, today).id
  {
  }

  /** Appending an entry with the next id keeps the ids distinct. */
  lemma AppendNextIdKeepsDistinct(ds: seq<Destination>, d: Destination)
    requires Distinct(DestinationIds(ds)) && d.id == NextId(DestinationIds(ds))
    ensures Distinct(DestinationIds(ds + [d]))
  {
    assert DestinationIds(ds + [d]) == DestinationIds(ds) + [d.id];
    NextIdKeepsDistinct(DestinationIds(ds));
  }

  /**
   * On a non-empty catalogue the id is the one `Math.max(...ids) + 1`
   * gives; on an empty one see `Base.EmptyListIdsCollide`.
   */
  lemma NouvelleDestinationIdAsWritten(ds: seq<Destination>, input: DestinationInput, today: string)
    requires HasRequiredFields(input) && ds != []
    ensures MathMaxPlusOne(AsNumbers(DestinationIds(ds))) == Finite(NouvelleDestination(ds, input, today).id)
  {
    MathMaxAgreesOnNonEmpty(DestinationIds(ds));
  }

  /**
   * An accepted request gives an available destination whose stored name
   * and description keep their minimum lengths, whose category is
   * non-empty and already lower case, and whose price and duration are
   * positive.
   */
  lemma NouvelleDestinationWellFormed(ds: seq<Destination>, input: DestinationInput, today: string)
    requires ValiderDestination(input) == []
    ensures HasRequiredFields(input)
    ensures var d := NouvelleDestination(ds, input, today);
      && d.disponible
      && JsLength(d.nom) >= 3 && Trim(d.nom) == d.nom
      && JsLength(d.description) >= 10 && Trim(d.description) == d.description
      && d.categorie != "" && ToLower(d.categorie) == d.categorie
      && d.prix > 0 && d.duree > 0
  {
    AcceptedInputHasFields(input);
    TrimIdempotent(input.nom.value);
    TrimIdempotent(input.description.value);
    ToLowerIdempotent(input.categorie.value);
  }

  /** Falsy optional fields fall back to their defaults: 0 seats becomes 20, an empty image the placeholder. */
  lemma NouvelleDestinationDefaults(ds: seq<Destination>, input: DestinationInput, today: string)
    requires HasRequiredFields(input)
    ensures input.placesDisponibles.None? || input.placesDisponibles == Some(0) ==>
      NouvelleDestination(ds, input, today).placesDisponibles == DefaultPlaces
    ensures input.image.None? || input.image == Some("") ==>
      NouvelleDestination(ds, input, today).image == PlaceholderImage
    ensures input.dateDepart.None? || input.dateDepart == Some("") ==>
      NouvelleDestination(ds, input, today).dateDepart == today
    ensures input.activites.None? ==> NouvelleDestination(ds, input, today).activites == []
  {
  }

  // ---------------------------------------------------------------------
  // PUT `/:id`: partial update
  // ---------------------------------------------------------------------

  /**
   * A PUT body; a field is None when absent. `disponible` is taken as a
   * boolean.
   */
  datatype DestinationUpdate = DestinationUpdate(
    nom: Option<string>,
    description: Option<string>,
    prix: Option<int>,
    duree: Option<int>,
    image: Option<string>,
    categorie: Option<string>,
    activites: Option<seq<string>>,
    dateDepart: Option<string>,
    placesDisponibles: Option<int>,
    disponible: Option<bool>)

  /** A body with no field at all. */
  const NoUpdate := DestinationUpdate(None, None, None, None, None, None, None, None, None, None)

  /**
   * The destination after the update: truthy fields replace the stored ones
   * (name and description trimmed, category lower-cased); seats and
   * availability replace them whenever present, even as 0 or false.
   */
  function ApplyUpdate(d: Destination, u: DestinationUpdate): (r: Destination)
    ensures r.id == d.id
    ensures Truthy(u.nom) ==> r.nom == Trim(u.nom.value) && |r.nom| <= |u.nom.value|
  {
    d.(
      nom := if Truthy(u.nom) then Trim(u.nom.value) else d.nom,
      description := if Truthy(u.description) then Trim(u.description.value) else d.description,
      prix := if TruthyNumber(u.prix) then u.prix.value else d.prix,
      duree := if TruthyNumber(u.duree) then u.duree.value else d.duree,
      image := if Truthy(u.image) then u.image.value else d.image,
      categorie := if Truthy(u.categorie) then ToLower(u.categorie.value) else d.categorie,
      activites := u.activites.GetOr(d.activites),
      dateDepart := if Truthy(u.dateDepart) then u.dateDepart.value else d.dateDepart,
      placesDisponibles := u.placesDisponibles.GetOr(d.placesDisponibles),
      disponible := u.disponible.GetOr(d.disponible))
  }

  /** The id never changes, and a body with no field changes nothing. */
  lemma ApplyUpdateKeepsId(d: Destination, u: DestinationUpdate)
    ensures ApplyUpdate(d, u).id == d.id
    ensures ApplyUpdate(d, NoUpdate) == d
  {
  }

  /** Sending the same body twice has the effect of sending it once. */
  lemma ApplyUpdateIdempotent(d: Destination, u: DestinationUpdate)
    ensures ApplyUpdate(ApplyUpdate(d, u), u) == ApplyUpdate(d, u)
  {
    var once := ApplyUpdate(d, u);
    var twice := ApplyUpdate(once, u);
    assert twice.nom == once.nom && twice.description == once.description;
    assert twice.image == once.image && twice.categorie == once.categorie;
    assert twice.activites == once.activites && twice.dateDepart == once.dateDepart;
  }

  /** Replacing an entry by one with the same id keeps the id list. */
  lemma ReplaceKeepsIds(ds: seq<Destination>, k: nat, d: Destination)
    requires k < |ds| && d.id == ds[k].id
    ensures DestinationIds(ds[k := d]) == DestinationIds(ds)
  {
    assert forall i :: 0 <= i < |ds| ==> DestinationIds(ds[k := d])[i] == DestinationIds(ds)[i];
  }

  /**
   * A price of 0 or an empty name is ignored, while 0 seats or `false`
   * availability are stored.
   */
  lemma ApplyUpdateFalsyValues(d: Destination)
    ensures ApplyUpdate(d, NoUpdate.(prix := Some(0), duree := Some(0), nom := Some(""))) == d
    ensures ApplyUpdate(d, NoUpdate.(placesDisponibles := Some(0))).placesDisponibles == 0
    ensures ApplyUpdate(d, NoUpdate.(disponible := Some(false))).disponible == false
  {
  }

  /** Two bodies touching disjoint fields can be applied in either order. */
  lemma ApplyUpdateCommutes(d: Destination, u: DestinationUpdate, v: DestinationUpdate)
    requires !Truthy(u.nom) || !Truthy(v.nom)
    requires !Truthy(u.description) || !Truthy(v.description)
    requires !TruthyNumber(u.prix) || !TruthyNumber(v.prix)
    requires !TruthyNumber(u.duree) || !TruthyNumber(v.duree)
    requires !Truthy(u.image) || !Truthy(v.image)
    requires !Truthy(u.categorie) || !Truthy(v.categorie)
    requires u.activites.None? || v.activites.None?
    requires !Truthy(u.dateDepart) || !Truthy(v.dateDepart)
    requires u.placesDisponibles.None? || v.placesDisponibles.None?
    requires u.disponible.None? || v.disponible.None?
    ensures ApplyUpdate(ApplyUpdate(d, u), v) == ApplyUpdate(ApplyUpdate(d, v), u)
  {
  }

  // ---------------------------------------------------------------------
  // DELETE `/:id`
  // ---------------------------------------------------------------------

  function WithoutId(id: int): Destination -> bool { (d: Destination) => d.id != id }

  /** `splice(k, 1)`: the list without entry `k`. */
  function RemoveAt(ds: seq<Destination>, k: nat): (r: seq<Destination>)
    requires k < |ds|
    ensures |r| == |ds| - 1
    ensures forall i :: 0 <= i < k ==> r[i] == ds[i]
    ensures forall i :: k <= i < |r| ==> r[i] == ds[i + 1]
  {
    ds[..k] + ds[k + 1..]
  }

  /**
   * With distinct ids, removing the entry that has an id is filtering out
   * that id: every other entry stays, in order.
   */
  lemma RemoveAtIsFilter(ds: seq<Destination>, k: nat)
    requires k < |ds| && Distinct(DestinationIds(ds))
    ensures RemoveAt(ds, k) == Filter(ds, WithoutId(ds[k].id))
  {
    var p := WithoutId(ds[k].id);
    OthersHaveOtherIds(ds, k);
    FilterDropsOne(ds, k, p);
    var r, f := RemoveAt(ds, k), Filter(ds, p);
    assert |r| == |f|;
    forall i | 0 <= i < |r| ensures r[i] == f[i] {
      if i < k {
        assert r[i] == ds[i] == f[i];
      } else {
        assert r[i] == ds[i + 1] == f[i];
      }
    }
  }

  /** With distinct ids, no entry other than entry `k` has its id. */
  lemma OthersHaveOtherIds(ds: seq<Destination>, k: nat)
    requires k < |ds| && Distinct(DestinationIds(ds))
    ensures forall i :: 0 <= i < |ds| && i != k ==> WithoutId(ds[k].id)(ds[i])
  {
    forall i | 0 <= i < |ds| && i != k
      ensures ds[i].id != ds[k].id
    {
      if i < k {
        assert DestinationIds(ds)[i] != DestinationIds(ds)[k];
      } else {
        assert DestinationIds(ds)[k] != DestinationIds(ds)[i];
      }
    }
  }

  /** Removing an entry keeps the remaining ids distinct. */
  lemma RemoveAtKeepsDistinct(ds: seq<Destination>, k: nat)
    requires k < |ds| && Distinct(DestinationIds(ds))
    ensures Distinct(DestinationIds(RemoveAt(ds, k)))
  {
    var r := RemoveAt(ds, k);
    forall i, j | 0 <= i < j < |r|
      ensures DestinationIds(r)[i] != DestinationIds(r)[j]
    {
      var i' := if i < k then i else i + 1;
      var j' := if j < k then j else j + 1;
      assert r[i] == ds[i'] && r[j] == ds[j'];
      assert DestinationIds(ds)[i'] != DestinationIds(ds)[j'];
    }
  }

  datatype CreateOutcome = Invalid(erreurs: seq<DestinationError>) | Created(destination: Destination)
  datatype UpdateOutcome = UpdateInvalidId | UpdateNotFound | Updated(destination: Destination)
  datatype DeleteOutcome = DeleteInvalidId | DeleteNotFound | Deleted(destination: Destination)

  /** The catalogue as the routes hold it: one list changed in place. */
  class DestinationStore {
    var destinations: seq<Destination>

    /** No two destinations share an id. */
    ghost predicate Valid()
      reads this
    {
      Distinct(DestinationIds(destinations))
    }

    constructor ()
      ensures Valid() && destinations == SeedDestinations()
    {
      destinations := SeedDestinations();
      new;
      SeedDestinationsValid();
    }

    /** POST `/`: 400 with every error, else a new entry appended at the end. */
    method Create(input: DestinationInput, today: string) returns (outcome: CreateOutcome)
      requires Valid()
      modifies this
      ensures Valid()
      ensures outcome.Invalid? <==> ValiderDestination(input) != []
      ensures outcome.Invalid? ==> outcome.erreurs == ValiderDestination(input) && destinations == old(destinations)
      ensures outcome.Created? ==>
        && HasRequiredFields(input)
        && outcome.destination == NouvelleDestination(old(destinations), input, today)
        && destinations == old(destinations) + [outcome.destination]
    {
      var erreurs := ValiderDestination(input);
      if erreurs != [] {
        return Invalid(erreurs);
      }
      AcceptedInputHasFields(input);
      var d := NouvelleDestination(destinations, input, today);
      NouvelleDestinationIdFresh(destinations, input, today);
      AppendNextIdKeepsDistinct(destinations, d);
      destinations := destinations + [d];
      outcome := Created(d);
    }

    /**
     * PUT `/:id`: 400 for an id that is not a number, 404 for an unknown
     * one; otherwise the supplied fields of that entry are overwritten one
     * by one and nothing else changes.
     */
    method Update(id: Option<int>, u: DestinationUpdate) returns (outcome: UpdateOutcome)
      requires Valid()
      modifies this
      ensures Valid()
      ensures outcome.UpdateInvalidId? <==> id.None?
      ensures outcome.UpdateNotFound? <==> id.Some? && IndexOfId(old(destinations), id.value).None?
      ensures !outcome.Updated? ==> destinations == old(destinations)
      ensures outcome.Updated? ==>
        && id.Some? && IndexOfId(old(destinations), id.value).Some?
        && var k := IndexOfId(old(destinations), id.value).value;
           destinations == old(destinations)[k := ApplyUpdate(old(destinations)[k], u)]
           && outcome.destination == destinations[k]
    {
      if id.None? {
        return UpdateInvalidId;
      }
      var index := IndexOfId(destinations, id.value);
      if index.None? {
        return UpdateNotFound;
      }
      var k := index.value;
      var d := ApplyUpdate(destinations[k], u);
      ReplaceKeepsIds(destinations, k, d);
      destinations := destinations[k := d];
      outcome := Updated(d);
    }

    /**
     * DELETE `/:id`: 400 for an id that is not a number, 404 for an unknown
     * one; otherwise that entry is cut out and returned.
     */
    method Delete(id: Option<int>) returns (outcome: DeleteOutcome)
      requires Valid()
      modifies this
      ensures Valid()
      ensures outcome.DeleteInvalidId? <==> id.None?
      ensures outcome.DeleteNotFound? <==> id.Some? && IndexOfId(old(destinations), id.value).None?
      ensures !outcome.Deleted? ==> destinations == old(destinations)
      ensures outcome.Deleted? ==>
        && id.Some? && outcome.destination in old(destinations) && outcome.destination.id == id.value
        && destinations == Filter(old(destinations), WithoutId(id.value))
        && |destinations| == |old(destinations)| - 1
    {
      if id.None? {
        return DeleteInvalidId;
      }
      var index := IndexOfId(destinations, id.value);
      if index.None? {
        return DeleteNotFound;
      }
      var k := index.value;
      var removed := destinations[k];
      RemoveAtIsFilter(destinations, k);
      RemoveAtKeepsDistinct(destinations, k);
      destinations := RemoveAt(destinations, k);
      outcome := Deleted(removed);
    }
  }
}
