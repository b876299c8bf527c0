/**
 * The reservation entity and the shape of a reservation request, with the
 * rules the request validator enforces stated one error at a time.
 */
module ReservationTypes {
  import opened Base
  import opened Text

  /**
   * A date as `new Date(...)` sees it: a timestamp in milliseconds, or a
   * string it cannot read (an Invalid Date, which compares false with
   * everything).
   */
  datatype DateInput = DateAt(ms: int) | Unparseable

  /** `a <= b` on two dates; false as soon as one is an Invalid Date. */
  predicate NotAfter(a: DateInput, b: DateInput)
  {
    a.DateAt? && b.DateAt? && a.ms <= b.ms
  }

  /** The `client` object of a request body; a field is None when absent. */
  datatype ClientInput = ClientInput(
    nom: Option<string>,
    prenom: Option<string>,
    email: Option<string>,
    telephone: Option<string>)

  /**
   * A request body. `destinationId` and `nombrePersonnes` are JSON numbers
   * (None when absent, null or NaN); `dateVoyage` is None when absent or empty.
   */
  datatype ReservationInput = ReservationInput(
    destinationId: Option<int>,
    client: Option<ClientInput>,
    nombrePersonnes: Option<int>,
    dateVoyage: Option<DateInput>,
    commentaires: Option<string>)

  /** The messages of the validator, in the order it checks them. */
  datatype ReservationError =
    | InvalidDestinationId
    | MissingClient
    | ShortNom
    | ShortPrenom
    | InvalidEmail
    | InvalidPhone
    | InvalidTravellerCount
    | MissingTravelDate
    | TravelDateNotInFuture

  function Message(e: ReservationError): string
  {
    match e
    case InvalidDestinationId => "ID de destination invalide"
    case MissingClient => "Informations client manquantes"
    case ShortNom => "Le nom du client doit contenir au moins 2 caractères"
    case ShortPrenom => "Le prénom du client doit contenir au moins 2 caractères"
    case InvalidEmail => "Email invalide"
    case InvalidPhone => "Numéro de téléphone invalide"
    case InvalidTravellerCount => "Le nombre de personnes doit être entre 1 et 10"
    case MissingTravelDate => "Date de voyage manquante"
    case TravelDateNotInFuture => "La date de voyage doit être dans le futur"
  }

  /** Position of a check in the validator. */
  function Rank(e: ReservationError): nat
  {
    match e
    case InvalidDestinationId => 0
    case MissingClient => 1
    case ShortNom => 2
    case ShortPrenom => 3
    case InvalidEmail => 4
    case InvalidPhone => 5
    case InvalidTravellerCount => 6
    case MissingTravelDate => 7
    case TravelDateNotInFuture => 8
  }

  /** Errors listed in the order the checks run, each at most once. */
  ghost predicate InCheckOrder(es: seq<ReservationError>)
  {
    forall i, j :: 0 <= i < j < |es| ==> Rank(es[i]) < Rank(es[j])
  }

  /** All errors of `es` come from checks that run before check number `k`. */
  ghost predicate RanksBelow(es: seq<ReservationError>, k: nat)
  {
    forall i :: 0 <= i < |es| ==> Rank(es[i]) < k
  }

  /** The error reported by check number `k`. */
  function ErrorOfRank(k: nat): (e: ReservationError)
    requires k < 9
    ensures Rank(e) == k
  {
    if k == 0 then InvalidDestinationId
    else if k == 1 then MissingClient
    else if k == 2 then ShortNom
    else if k == 3 then ShortPrenom
    else if k == 4 then InvalidEmail
    else if k == 5 then InvalidPhone
    else if k == 6 then InvalidTravellerCount
    else if k == 7 then MissingTravelDate
    else TravelDateNotInFuture
  }

  lemma ErrorOfRankOfError(e: ReservationError)
    ensures Rank(e) < 9 && ErrorOfRank(Rank(e)) == e
  {
  }

  /**
   * The list built by running the first `|conds|` checks in order, check `k`
   * pushing its error when `conds[k]` holds.
   */
  function Chain(conds: seq<bool>): seq<ReservationError>
    requires |conds| <= 9
    decreases |conds|
  {
    if conds == [] then []
    else Push(Chain(conds[..|conds| - 1]), conds[|conds| - 1], ErrorOfRank(|conds| - 1))
  }

  lemma ChainStep(conds: seq<bool>, k: nat)
    requires k < |conds| <= 9
    ensures Chain(conds[..k + 1]) == Push(Chain(conds[..k]), conds[k], ErrorOfRank(k))
  {
    assert conds[..k + 1][..k] == conds[..k];
  }

  /** A chain of checks lists exactly the errors whose condition held, in check order. */
  lemma {:induction false} ChainSpec(conds: seq<bool>)
    requires |conds| <= 9
    ensures InCheckOrder(Chain(conds)) && RanksBelow(Chain(conds), |conds|)
    ensures forall x :: x in Chain(conds) <==> Rank(x) < |conds| && conds[Rank(x)]
    decreases |conds|
  {
    if conds != [] {
      var n := |conds| - 1;
      var prefix := conds[..n];
      ChainSpec(prefix);
      var c := Chain(prefix);
      var e := ErrorOfRank(n);
      assert Chain(conds) == Push(c, conds[n], e);
      forall x
        ensures x in Push(c, conds[n], e) <==> Rank(x) < |conds| && conds[Rank(x)]
      {
        if Rank(x) < n {
          assert conds[Rank(x)] == prefix[Rank(x)];
        }
        if Rank(x) == n {
          assert x == e by {
            match x
            case InvalidDestinationId =>
            case MissingClient =>
            case ShortNom =>
            case ShortPrenom =>
            case InvalidEmail =>
            case InvalidPhone =>
            case InvalidTravellerCount =>
            case MissingTravelDate =>
            case TravelDateNotInFuture =>
          }
        }
      }
    }
  }

  /**
   * The rule behind each error: `Violates(data, now, e)` holds exactly when
   * the request breaks the rule whose message is `Message(e)`.
   */
  ghost predicate Violates(data: ReservationInput, now: int, e: ReservationError)
  {
    match e
    case InvalidDestinationId => !TruthyNumber(data.destinationId)
    case MissingClient => data.client.None?
    case ShortNom => data.client.Some? && ShortAfterTrim(data.client.value.nom, 2)
    case ShortPrenom => data.client.Some? && ShortAfterTrim(data.client.value.prenom, 2)
    case InvalidEmail =>
      data.client.Some? && !(Truthy(data.client.value.email) && '@' in data.client.value.email.value)
    case InvalidPhone =>
      data.client.Some? && !(Truthy(data.client.value.telephone) && JsLength(data.client.value.telephone.value) >= 10)
    case InvalidTravellerCount =>
      !(data.nombrePersonnes.Some? && 1 <= data.nombrePersonnes.value <= 10)
    case MissingTravelDate => data.dateVoyage.None?
    case TravelDateNotInFuture =>
      data.dateVoyage.Some? && NotAfter(data.dateVoyage.value, DateAt(now))
  }

  /** The rules on the `client` fields, stated positively; a missing field reads as "". */
  ghost predicate ClientAcceptable(c: ClientInput)
  {
    && JsLength(Trim(c.nom.GetOr(""))) >= 2
    && JsLength(Trim(c.prenom.GetOr(""))) >= 2
    && '@' in c.email.GetOr("")
    && JsLength(c.telephone.GetOr("")) >= 10
  }

  /** Every rule of a reservation request, stated positively. */
  ghost predicate AcceptableRequest(data: ReservationInput, now: int)
  {
    && data.destinationId.Some? && data.destinationId.value != 0
    && data.client.Some? && ClientAcceptable(data.client.value)
    && data.nombrePersonnes.Some? && 1 <= data.nombrePersonnes.value <= 10
    && data.dateVoyage.Some?
    && (data.dateVoyage.value.DateAt? ==> data.dateVoyage.value.ms > now)
  }

  /** The four statuses a reservation can have. */
  datatype Statut = EnAttente | Confirmee | Annulee | Terminee

  function StatutName(s: Statut): string
  {
    match s
    case EnAttente => "en_attente"
    case Confirmee => "confirmee"
    case Annulee => "annulee"
    case Terminee => "terminee"
  }

  /** `statutsValides.includes(s)`, giving the status it names. */
  function ParseStatut(s: string): (r: Option<Statut>)
    ensures r.Some? ==> StatutName(r.value) == s
    ensures r.None? <==> s !in {"en_attente", "confirmee", "annulee", "terminee"}
  {
    if s == "en_attente" then Some(EnAttente)
    else if s == "confirmee" then Some(Confirmee)
    else if s == "annulee" then Some(Annulee)
    else if s == "terminee" then Some(Terminee)
    else None
  }

  lemma StatutRoundTrip(s: Statut)
    ensures ParseStatut(StatutName(s)) == Some(s)
  {
  }

  /** The `client` object stored with a reservation. */
  datatype Client = Client(nom: string, prenom: string, email: string, telephone: string)

  datatype Reservation = Reservation(
    id: int,
    destinationId: int,
    numeroReservation: string,
    client: Client,
    nombrePersonnes: int,
    dateReservation: int,
    dateVoyage: DateInput,
    prixTotal: int,
    statut: Statut,
    commentaires: string)

  /** The ids of the stored reservations, in list order. */
  function ReservationIds(rs: seq<Reservation>): (ids: seq<int>)
    ensures |ids| == |rs| && forall i :: 0 <= i < |rs| ==> ids[i] == rs[i].id
  {
    seq(|rs|, i requires 0 <= i < |rs| => rs[i].id)
  }
}
