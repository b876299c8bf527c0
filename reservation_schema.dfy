/**
 * The standalone reservation validator of the request-validation middleware.
 * It reports every rule the request breaks, in a fixed order, instead of
 * stopping at the first.
 */
module ReservationSchema {
  import opened Base
  import opened Text
  import opened ReservationTypes

  /**
   * The list of errors of a request body, `now` standing for the current time.
   * A missing `client` gives one error in place of the four client checks, and
   * a missing `dateVoyage` gives one error in place of the future-date check.
   */
  function ValiderDonneesReservation(data: ReservationInput, now: int): (erreurs: seq<ReservationError>)
    ensures erreurs == [] ==> TruthyNumber(data.destinationId) && data.client.Some? && data.dateVoyage.Some?
    ensures |erreurs| <= 7
  {
    var e0 := Push([], !TruthyNumber(data.destinationId), InvalidDestinationId);
    var e1 := ClientChecks(e0, data.client);
    var e2 := Push(e1, CountFails(data.nombrePersonnes), InvalidTravellerCount);
    TravelDateChecks(e2, data.dateVoyage, now)
  }

  /** The traveller-count check fails: the count is absent, 0, below 1 or above 10. */
  predicate CountFails(n: Option<int>)
  {
    !TruthyNumber(n) || n.value < 1 || n.value > 10
  }

  /** The `client` block: one error when it is missing, else its four field checks. */
  function ClientChecks(erreurs: seq<ReservationError>, client: Option<ClientInput>): (r: seq<ReservationError>)
    ensures client.None? ==> |r| == |erreurs| + 1
    ensures |erreurs| <= |r| <= |erreurs| + 4
  {
    match client
    case None => Push(erreurs, true, MissingClient)
    case Some(c) =>
      var e1 := Push(erreurs, ShortAfterTrim(c.nom, 2), ShortNom);
      var e2 := Push(e1, ShortAfterTrim(c.prenom, 2), ShortPrenom);
      var e3 := Push(e2, !Truthy(c.email) || '@' !in c.email.value, InvalidEmail);
      Push(e3, !Truthy(c.telephone) || JsLength(c.telephone.value) < 10, InvalidPhone)
  }

  /** The `dateVoyage` block: missing, or not after `now` (an Invalid Date is never before it). */
  function TravelDateChecks(erreurs: seq<ReservationError>, dateVoyage: Option<DateInput>, now: int): (r: seq<ReservationError>)
    ensures dateVoyage.None? ==> |r| == |erreurs| + 1
    ensures |erreurs| <= |r| <= |erreurs| + 1
  {
    match dateVoyage
    case None => Push(erreurs, true, MissingTravelDate)
    case Some(d) => Push(erreurs, NotAfter(d, DateAt(now)), TravelDateNotInFuture)
  }

  /** Checks 1 to 5 of a chain are the `client` block. */
  lemma ClientChecksAreChain(client: Option<ClientInput>, conds: seq<bool>)
    requires |conds| == 9
    requires conds[1] == client.None?
    requires conds[2] == (client.Some? && ShortAfterTrim(client.value.nom, 2))
    requires conds[3] == (client.Some? && ShortAfterTrim(client.value.prenom, 2))
    requires conds[4] == (client.Some? && !(Truthy(client.value.email) && '@' in client.value.email.value))
    requires conds[5] == (client.Some? && !(Truthy(client.value.telephone) && JsLength(client.value.telephone.value) >= 10))
    ensures Chain(conds[..6]) == ClientChecks(Chain(conds[..1]), client)
  {
    ChainStep(conds, 1);
    ChainStep(conds, 2);
    ChainStep(conds, 3);
    ChainStep(conds, 4);
    ChainStep(conds, 5);
  }

  /** Checks 7 and 8 of a chain are the `dateVoyage` block. */
  lemma TravelDateChecksAreChain(dateVoyage: Option<DateInput>, now: int, conds: seq<bool>)
    requires |conds| == 9
    requires conds[7] == dateVoyage.None?
    requires conds[8] == (dateVoyage.Some? && NotAfter(dateVoyage.value, DateAt(now)))
    ensures Chain(conds) == TravelDateChecks(Chain(conds[..7]), dateVoyage, now)
  {
    ChainStep(conds, 7);
    ChainStep(conds, 8);
    assert conds[..9] == conds;
  }

  /** The validator runs the nine checks in order; `conds[k]` says whether check `k` fails. */
  lemma ValidatorIsChain(data: ReservationInput, now: int, conds: seq<bool>)
    requires |conds| == 9 && forall k :: 0 <= k < 9 ==> conds[k] == Violates(data, now, ErrorOfRank(k))
    ensures ValiderDonneesReservation(data, now) == Chain(conds)
  {
    var client := data.client;
    assert conds[0] == !TruthyNumber(data.destinationId) by {
      assert conds[0] == Violates(data, now, ErrorOfRank(0));
    }
    assert conds[6] == CountFails(data.nombrePersonnes) by {
      assert conds[6] == Violates(data, now, ErrorOfRank(6));
    }
    assert conds[..0] == [];
    ChainStep(conds, 0);
    var c0 := Chain(conds[..1]);
    assert c0 == Push([], !TruthyNumber(data.destinationId), InvalidDestinationId);
    ClientChecksAreChain(client, conds) by {
      assert conds[1] == Violates(data, now, ErrorOfRank(1));
      assert conds[2] == Violates(data, now, ErrorOfRank(2));
      assert conds[3] == Violates(data, now, ErrorOfRank(3));
      assert conds[4] == Violates(data, now, ErrorOfRank(4));
      assert conds[5] == Violates(data, now, ErrorOfRank(5));
    }
    var c5 := Chain(conds[..6]);
    ChainStep(conds, 6);
    var c6 := Chain(conds[..7]);
    assert c6 == Push(c5, CountFails(data.nombrePersonnes), InvalidTravellerCount);
    TravelDateChecksAreChain(data.dateVoyage, now, conds) by {
      assert conds[7] == Violates(data, now, ErrorOfRank(7));
      assert conds[8] == Violates(data, now, ErrorOfRank(8));
    }
  }

  /** An error is reported exactly when its rule is broken, and errors come in check order. */
  lemma ValiderDonneesReservationSpec(data: ReservationInput, now: int)
    ensures forall e :: e in ValiderDonneesReservation(data, now) <==> Violates(data, now, e)
    ensures InCheckOrder(ValiderDonneesReservation(data, now))
  {
    var conds := seq(9, k requires 0 <= k < 9 => Violates(data, now, ErrorOfRank(k)));
    ValidatorIsChain(data, now, conds);
    ChainSpec(conds);
    forall e
      ensures Rank(e) < 9 && conds[Rank(e)] == Violates(data, now, e)
    {
      ErrorOfRankOfError(e);
    }
  }

  /** A falsy field reads as "" in the positive rules: the trimmed-length check. */
  lemma ShortAfterTrimAsDefault(s: Option<string>, min: nat)
    requires min > 0
    ensures ShortAfterTrim(s, min) <==> JsLength(Trim(s.GetOr(""))) < min
  {
    assert Trim("") == "";
  }

  /** The positive client rules hold exactly when none of the four field checks fails. */
  lemma ClientAcceptableIffChecksPass(c: ClientInput)
    ensures ClientAcceptable(c) <==>
      && !ShortAfterTrim(c.nom, 2) && !ShortAfterTrim(c.prenom, 2)
      && Truthy(c.email) && '@' in c.email.value
      && Truthy(c.telephone) && JsLength(c.telephone.value) >= 10
  {
    assert (JsLength(Trim(c.nom.GetOr(""))) >= 2) == !ShortAfterTrim(c.nom, 2) by {
      ShortAfterTrimAsDefault(c.nom, 2);
    }
    assert (JsLength(Trim(c.prenom.GetOr(""))) >= 2) == !ShortAfterTrim(c.prenom, 2) by {
      ShortAfterTrimAsDefault(c.prenom, 2);
    }
    assert ('@' in c.email.GetOr("")) == (Truthy(c.email) && '@' in c.email.value);
    assert (JsLength(c.telephone.GetOr("")) >= 10) == (Truthy(c.telephone) && JsLength(c.telephone.value) >= 10);
  }

  /** The rules stated positively are exactly the absence of each of the nine violations. */
  lemma AcceptableIffNoViolation(data: ReservationInput, now: int)
    ensures AcceptableRequest(data, now) <==>
      && !Violates(data, now, InvalidDestinationId) && !Violates(data, now, MissingClient)
      && !Violates(data, now, ShortNom) && !Violates(data, now, ShortPrenom)
      && !Violates(data, now, InvalidEmail) && !Violates(data, now, InvalidPhone)
      && !Violates(data, now, InvalidTravellerCount) && !Violates(data, now, MissingTravelDate)
      && !Violates(data, now, TravelDateNotInFuture)
  {
    if data.client.Some? {
      ClientAcceptableIffChecksPass(data.client.value);
    }
  }

  /** The request is accepted (no error at all) exactly when it satisfies every rule. */
  lemma ValiderEmptyIffAcceptable(data: ReservationInput, now: int)
    ensures ValiderDonneesReservation(data, now) == [] <==> AcceptableRequest(data, now)
  {
    var erreurs := ValiderDonneesReservation(data, now);
    ValiderDonneesReservationSpec(data, now);
    AcceptableIffNoViolation(data, now);
    if erreurs != [] {
      var e := erreurs[0];
      assert Violates(data, now, e);
      match e
      case InvalidDestinationId =>
      case MissingClient =>
      case ShortNom =>
      case ShortPrenom =>
      case InvalidEmail =>
      case InvalidPhone =>
      case InvalidTravellerCount =>
      case MissingTravelDate =>
      case TravelDateNotInFuture =>
    }
  }

  /**
   * At most seven messages: one for the id, four for the client fields (or
   * the single missing-client one), one for the count and one for the date.
   */
  lemma ValiderAtMostSeven(data: ReservationInput, now: int)
    ensures |ValiderDonneesReservation(data, now)| <= 7
  {
    var e0 := Push([], !TruthyNumber(data.destinationId), InvalidDestinationId);
    assert |e0| <= 1;
    var e1 := ClientChecks(e0, data.client);
    assert |e1| <= |e0| + 4;
    var e2 := Push(e1, CountFails(data.nombrePersonnes), InvalidTravellerCount);
    assert |TravelDateChecks(e2, data.dateVoyage, now)| <= |e2| + 1;
  }

  /** A missing `client` gives the missing-client message and none of the four field messages. */
  lemma MissingClientReplacesFieldChecks(data: ReservationInput, now: int)
    requires data.client.None?
    ensures MissingClient in ValiderDonneesReservation(data, now)
    ensures ShortNom !in ValiderDonneesReservation(data, now)
    ensures ShortPrenom !in ValiderDonneesReservation(data, now)
    ensures InvalidEmail !in ValiderDonneesReservation(data, now)
    ensures InvalidPhone !in ValiderDonneesReservation(data, now)
  {
    ValiderDonneesReservationSpec(data, now);
  }

  /** The count message appears exactly when the count is absent, 0, below 1 or above 10. */
  lemma TravellerCountRule(data: ReservationInput, now: int)
    ensures InvalidTravellerCount in ValiderDonneesReservation(data, now) <==>
      (data.nombrePersonnes.None? || data.nombrePersonnes.value < 1 || data.nombrePersonnes.value > 10)
  {
    ValiderDonneesReservationSpec(data, now);
  }

  /**
   * A missing date gives only the missing-date message; a readable date gives
   * the future-date message exactly when it is at or before `now`; an
   * unreadable date gives neither, since an Invalid Date is never `<=` now.
   */
  lemma TravelDateRule(data: ReservationInput, now: int)
    ensures data.dateVoyage.None? ==>
      MissingTravelDate in ValiderDonneesReservation(data, now)
      && TravelDateNotInFuture !in ValiderDonneesReservation(data, now)
    ensures data.dateVoyage.Some? && data.dateVoyage.value.DateAt? ==>
      MissingTravelDate !in ValiderDonneesReservation(data, now)
      && (TravelDateNotInFuture in ValiderDonneesReservation(data, now) <==> data.dateVoyage.value.ms <= now)
    ensures data.dateVoyage == Some(Unparseable) ==>
      MissingTravelDate !in ValiderDonneesReservation(data, now)
      && TravelDateNotInFuture !in ValiderDonneesReservation(data, now)
  {
    ValiderDonneesReservationSpec(data, now);
  }

  /**
   * With a client present, the phone message appears exactly when the number
   * is absent or has a `length` below 10, counted on the raw string in UTF-16
   * code units: ten spaces pass, and so do five emoji.
   */
  lemma PhoneCheckCountsRawLength(data: ReservationInput, now: int)
    requires data.client.Some?
    ensures InvalidPhone in ValiderDonneesReservation(data, now) <==>
      (data.client.value.telephone.None? || JsLength(data.client.value.telephone.value) < 10)
    ensures data.client.value.telephone == Some(Repeat(' ', 10)) ==>
      InvalidPhone !in ValiderDonneesReservation(data, now)
    ensures data.client.value.telephone == Some(Repeat('\U{1F600}', 5)) ==>
      InvalidPhone !in ValiderDonneesReservation(data, now)
  {
    var erreurs := ValiderDonneesReservation(data, now);
    assert InvalidPhone in erreurs <==> Violates(data, now, InvalidPhone) by {
      ValiderDonneesReservationSpec(data, now);
    }
    JsLengthRepeat(' ', 10);
    JsLengthRepeat('\U{1F600}', 5);
  }

  /** A name of one emoji has a `length` of 2, so it passes the two-character rule. */
  lemma EmojiNameIsLongEnough(data: ReservationInput, now: int)
    requires data.client.Some? && data.client.value.nom == Some("\U{1F600}")
    ensures ShortNom !in ValiderDonneesReservation(data, now)
  {
    ValiderDonneesReservationSpec(data, now);
    assert Trim("\U{1F600}") == "\U{1F600}";
    SurrogatePairCountsTwice();
  }
}
