/**
 * The reservations router: an in-memory list of reservations that POST
 * appends to and PATCH updates in place, with read-only lookups, list
 * filters and dashboard figures over it.
 */
module Reservations {
  import opened Base
  import opened Text
  import opened ReservationTypes
  import ReservationSchema

  /** Price of one traveller, whatever the destination. */
  const PrixParPersonne: int := 899

  /** The destination ids the router accepts. */
  const DestinationsDisponibles: seq<int> := [1, 2, 3, 4]

  // ---------------------------------------------------------------------
  // Reservation numbers
  // ---------------------------------------------------------------------

  predicate IsDash(c: char)
  {
    c == '-'
  }

  /**
   * `RES-<year>-<counter>` where the counter is the list length plus one,
   * padded to three digits.
   */
  function GenererNumeroReservation(annee: nat, count: nat): (numero: string)
    ensures |numero| >= 9 && numero[..4] == "RES-"
  {
    "RES-" + Decimal(annee) + "-" + Pad3(count + 1)
  }

  /** Reads back the year and the counter of a reservation number. */
  function ParseNumeroReservation(s: string): (r: Option<(nat, nat)>)
    ensures r.Some? ==> |s| > 4 && s[..4] == "RES-"
  {
    if |s| < 4 || s[..4] != "RES-" then None
    else
      var rest := s[4..];
      match FindIndex(rest, IsDash)
      case None => None
      case Some(k) =>
        var annee := rest[..k];
        var compteur := rest[k + 1..];
        if annee != [] && compteur != [] && AllDigits(annee) && AllDigits(compteur)
        then Some((ParseDecimal(annee), ParseDecimal(compteur)))
        else None
  }

  /** In digits, a dash and anything, the first dash is the one after the digits. */
  lemma FirstDashAfterDigits(d: string, p: string)
    requires AllDigits(d)
    ensures FindIndex(d + "-" + p, IsDash) == Some(|d|)
  {
    var t := d + "-" + p;
    assert IsDash(t[|d|]);
    assert forall j :: 0 <= j < |d| ==> t[j] == d[j];
  }

  /** A well-formed number reads back as the values of its two digit groups. */
  lemma ParseNumeroOfDigits(d: string, p: string)
    requires d != [] && p != [] && AllDigits(d) && AllDigits(p)
    ensures ParseNumeroReservation("RES-" + d + "-" + p) == Some((ParseDecimal(d), ParseDecimal(p)))
  {
    var s := "RES-" + d + "-" + p;
    var rest := d + "-" + p;
    assert s[..4] == "RES-" && s[4..] == rest;
    FirstDashAfterDigits(d, p);
    assert rest[..|d|] == d;
    assert rest[|d| + 1..] == p;
  }

  /**
   * A generated number reads back as its year and its counter; below 1000
   * the counter takes exactly three characters.
   */
  lemma NumeroRoundTrip(annee: nat, count: nat)
    ensures ParseNumeroReservation(GenererNumeroReservation(annee, count)) == Some((annee, count + 1))
    ensures count + 1 < 1000 <==> |GenererNumeroReservation(annee, count)| == |Decimal(annee)| + 8
  {
    Pad3RoundTrip(count + 1);
    ParseDecimalRoundTrip(annee);
    ParseNumeroOfDigits(Decimal(annee), Pad3(count + 1));
  }

  /** Two numbers differ as soon as their years or their counters differ. */
  lemma NumerosDistinct(annee1: nat, count1: nat, annee2: nat, count2: nat)
    requires annee1 != annee2 || count1 != count2
    ensures GenererNumeroReservation(annee1, count1) != GenererNumeroReservation(annee2, count2)
  {
    NumeroRoundTrip(annee1, count1);
    NumeroRoundTrip(annee2, count2);
  }

  /**
   * Entry `i` carries the number generated for counter `i + 1` in the year
   * `annees[i]` it was created: the numbering of a list only appended to.
   */
  ghost predicate NumberedInOrder(rs: seq<Reservation>, annees: seq<nat>)
  {
    |annees| == |rs| &&
    forall i :: 0 <= i < |rs| ==> rs[i].numeroReservation == GenererNumeroReservation(annees[i], i)
  }

  /** In a list numbered in order, no two entries share a number. */
  lemma NumberedInOrderDistinct(rs: seq<Reservation>, annees: seq<nat>)
    requires NumberedInOrder(rs, annees)
    ensures forall i, j :: 0 <= i < j < |rs| ==> rs[i].numeroReservation != rs[j].numeroReservation
  {
    forall i, j | 0 <= i < j < |rs|
      ensures rs[i].numeroReservation != rs[j].numeroReservation
    {
      NumerosDistinct(annees[i], i, annees[j], j);
    }
  }

  // ---------------------------------------------------------------------
  // The router's own copy of the request validator
  // ---------------------------------------------------------------------

  /** The validator as the router writes it, one `if` after the other. */
  function ValiderDonneesReservation(data: ReservationInput, now: int): (erreurs: seq<ReservationError>)
    ensures |erreurs| <= 7
  {
    var e0 := Push([], !TruthyNumber(data.destinationId), InvalidDestinationId);
    var e1 := ClientBlock(e0, data.client);
    var e5 := Push(e1, !TruthyNumber(data.nombrePersonnes) || data.nombrePersonnes.value < 1
                       || data.nombrePersonnes.value > 10, InvalidTravellerCount);
    match data.dateVoyage
    case None => Push(e5, true, MissingTravelDate)
    case Some(d) => Push(e5, NotAfter(d, DateAt(now)), TravelDateNotInFuture)
  }

  /** The router's `client` block: one message when it is missing, else its four field checks. */
  function ClientBlock(erreurs: seq<ReservationError>, client: Option<ClientInput>): (r: seq<ReservationError>)
    ensures client.None? ==> |r| == |erreurs| + 1
    ensures |erreurs| <= |r| <= |erreurs| + 4
  {
    match client
    case None => Push(erreurs, true, MissingClient)
    case Some(c) =>
      var e2 := Push(erreurs, !Truthy(c.nom) || JsLength(Trim(c.nom.value)) < 2, ShortNom);
      var e3 := Push(e2, !Truthy(c.prenom) || JsLength(Trim(c.prenom.value)) < 2, ShortPrenom);
      var e4 := Push(e3, !Truthy(c.email) || !Includes(c.email.value, "@"), InvalidEmail);
      Push(e4, !Truthy(c.telephone) || JsLength(c.telephone.value) < 10, InvalidPhone)
  }

  /** `s.includes('@')` is membership of the character. */
  lemma IncludesAt(s: string)
    ensures Includes(s, "@") <==> '@' in s
  {
    forall i | OccursAt(s, "@", i)
      ensures s[i] == '@' && s[i] in s
    {
      assert s[i] == s[i..i + 1][0];
    }
    if '@' in s {
      var i :| 0 <= i < |s| && s[i] == '@';
      assert OccursAt(s, "@", i);
    }
  }

  /** The router's validator and the middleware's return the same list for every request. */
  lemma RouteValidatorAgreesWithSchema(data: ReservationInput, now: int)
    ensures ValiderDonneesReservation(data, now) == ReservationSchema.ValiderDonneesReservation(data, now)
  {
    var e0 := Push([], !TruthyNumber(data.destinationId), InvalidDestinationId);
    ClientBlockAgrees(e0, data.client);
  }

  /** The route's `client` block and the middleware's push the same messages. */
  lemma ClientBlockAgrees(erreurs: seq<ReservationError>, client: Option<ClientInput>)
    ensures ClientBlock(erreurs, client) == ReservationSchema.ClientChecks(erreurs, client)
  {
    if client.Some? && client.value.email.Some? {
      IncludesAt(client.value.email.value);
    }
  }

  /** What an empty error list guarantees about the request body. */
  lemma AcceptedRequestHasFields(data: ReservationInput, now: int)
    requires ValiderDonneesReservation(data, now) == []
    ensures HasAllFields(data)
    ensures 1 <= data.nombrePersonnes.value <= 10
  {
    RouteValidatorAgreesWithSchema(data, now);
    ReservationSchema.ValiderDonneesReservationSpec(data, now);
    assert !Violates(data, now, MissingClient);
    assert !Violates(data, now, ShortNom);
    assert !Violates(data, now, ShortPrenom);
    assert !Violates(data, now, InvalidEmail);
    assert !Violates(data, now, InvalidPhone);
    assert !Violates(data, now, InvalidTravellerCount);
    assert !Violates(data, now, MissingTravelDate);
  }

  /** Every field the creation reads is present. */
  predicate HasAllFields(data: ReservationInput)
  {
    && data.destinationId.Some?
    && data.client.Some?
    && data.client.value.nom.Some? && data.client.value.prenom.Some?
    && data.client.value.email.Some? && data.client.value.telephone.Some?
    && data.nombrePersonnes.Some?
    && data.dateVoyage.Some?
  }

  // ---------------------------------------------------------------------
  // Read-only routes
  // ---------------------------------------------------------------------

  /** Position of the first reservation with this id. */
  function IndexOfId(rs: seq<Reservation>, id: int): (k: Option<nat>)
    ensures k.Some? ==> k.value < |rs| && rs[k.value].id == id
    ensures k.Some? ==> forall j :: 0 <= j < k.value ==> rs[j].id != id
    ensures k.None? <==> forall j :: 0 <= j < |rs| ==> rs[j].id != id
  {
    FindIndex(rs, (r: Reservation) => r.id == id)
  }

  datatype FindOutcome = FindInvalidId | FindNotFound | Found(reservation: Reservation)

  /** GET `/:id`: 400 for an id that is not a number, 404 when no entry has it. */
  function GetById(rs: seq<Reservation>, id: Option<int>): (o: FindOutcome)
    ensures o.FindInvalidId? <==> id.None?
    ensures o.FindNotFound? <==> id.Some? && forall j :: 0 <= j < |rs| ==> rs[j].id != id.value
    ensures o.Found? ==>
              && id.Some? && o.reservation.id == id.value
              && exists j :: 0 <= j < |rs| && rs[j] == o.reservation && forall i :: 0 <= i < j ==> rs[i].id != id.value
  {
    match id
    case None => FindInvalidId
    case Some(i) =>
      match IndexOfId(rs, i)
      case None => FindNotFound
      case Some(k) => Found(rs[k])
  }

  /** GET `/numero/:numero`: the first entry with that number, or None (404). */
  function GetByNumero(rs: seq<Reservation>, numero: string): (o: Option<Reservation>)
    ensures o.None? <==> forall j :: 0 <= j < |rs| ==> rs[j].numeroReservation != numero
    ensures o.Some? ==>
              && o.value.numeroReservation == numero
              && exists j :: 0 <= j < |rs| && rs[j] == o.value && forall i :: 0 <= i < j ==> rs[i].numeroReservation != numero
  {
    match FindIndex(rs, (r: Reservation) => r.numeroReservation == numero)
    case None => None
    case Some(k) => Some(rs[k])
  }

  /**
   * The query of GET `/`: each parameter is None when absent, and the two
   * dates are None when empty as well; an empty `statut` or `email` is
   * skipped like an absent one.
   */
  datatype ListQuery = ListQuery(
    statut: Option<string>,
    email: Option<string>,
    dateDebut: Option<DateInput>,
    dateFin: Option<DateInput>)

  predicate StatutMatches(q: ListQuery, r: Reservation)
  {
    Truthy(q.statut) ==> StatutName(r.statut) == q.statut.value
  }

  predicate EmailMatches(q: ListQuery, r: Reservation)
  {
    Truthy(q.email) ==> IncludesIgnoringCase(r.client.email, q.email.value)
  }

  predicate AfterDebut(q: ListQuery, r: Reservation)
  {
    q.dateDebut.Some? ==> NotAfter(q.dateDebut.value, r.dateVoyage)
  }

  predicate BeforeFin(q: ListQuery, r: Reservation)
  {
    q.dateFin.Some? ==> NotAfter(r.dateVoyage, q.dateFin.value)
  }

  /** A reservation passes every filter the query gives. */
  predicate MatchesQuery(q: ListQuery, r: Reservation)
  {
    StatutMatches(q, r) && EmailMatches(q, r) && AfterDebut(q, r) && BeforeFin(q, r)
  }

  function ByStatut(q: ListQuery): Reservation -> bool { x => StatutMatches(q, x) }
  function ByEmail(q: ListQuery): Reservation -> bool { x => EmailMatches(q, x) }
  function ByDebut(q: ListQuery): Reservation -> bool { x => AfterDebut(q, x) }
  function ByFin(q: ListQuery): Reservation -> bool { x => BeforeFin(q, x) }
  function ByQuery(q: ListQuery): Reservation -> bool { x => MatchesQuery(q, x) }

  /** GET `/`: the filters applied one after the other, each only when its parameter is given. */
  function ListReservations(rs: seq<Reservation>, q: ListQuery): (r: seq<Reservation>)
    ensures |r| <= |rs|
  {
    var r1 := if Truthy(q.statut) then Filter(rs, ByStatut(q)) else rs;
    var r2 := if Truthy(q.email) then Filter(r1, ByEmail(q)) else r1;
    var r3 := if q.dateDebut.Some? then Filter(r2, ByDebut(q)) else r2;
    if q.dateFin.Some? then Filter(r3, ByFin(q)) else r3
  }

  /** The four filters, each applied unconditionally: a filter whose parameter is absent keeps everything. */
  lemma ListReservationsIsFourFilters(rs: seq<Reservation>, q: ListQuery)
    ensures ListReservations(rs, q) == Filter(Filter(Filter(Filter(rs, ByStatut(q)), ByEmail(q)), ByDebut(q)), ByFin(q))
  {
    var r1 := Filter(rs, ByStatut(q));
    if !Truthy(q.statut) { FilterAll(rs, ByStatut(q)); }
    var r2 := Filter(r1, ByEmail(q));
    if !Truthy(q.email) { FilterAll(r1, ByEmail(q)); }
    var r3 := Filter(r2, ByDebut(q));
    if q.dateDebut.None? { FilterAll(r2, ByDebut(q)); }
    if q.dateFin.None? { FilterAll(r3, ByFin(q)); }
  }

  /**
   * The chain of filters keeps exactly the reservations that match the whole
   * query, in their original order.
   */
  lemma ListReservationsSpec(rs: seq<Reservation>, q: ListQuery)
    ensures IsSubsequence(ListReservations(rs, q), rs)
    ensures forall i :: 0 <= i < |ListReservations(rs, q)| ==> MatchesQuery(q, ListReservations(rs, q)[i])
    ensures forall i :: 0 <= i < |rs| && MatchesQuery(q, rs[i]) ==> rs[i] in ListReservations(rs, q)
  {
    ListReservationsIsFilter(rs, q);
    FilterSpec(rs, ByQuery(q));
  }

  /** The four conditional filters are one filter by the whole query. */
  lemma ListReservationsIsFilter(rs: seq<Reservation>, q: ListQuery)
    ensures ListReservations(rs, q) == Filter(rs, ByQuery(q))
  {
    ListReservationsIsFourFilters(rs, q);
    var p12 := (x: Reservation) => StatutMatches(q, x) && EmailMatches(q, x);
    var p123 := (x: Reservation) => StatutMatches(q, x) && EmailMatches(q, x) && AfterDebut(q, x);
    FilterFilter(rs, ByStatut(q), ByEmail(q), p12);
    FilterFilter(rs, p12, ByDebut(q), p123);
    FilterFilter(rs, p123, ByFin(q), ByQuery(q));
  }

  // ---------------------------------------------------------------------
  // Dashboard
  // ---------------------------------------------------------------------

  /** The entries with a given status, in list order. */
  function WithStatut(rs: seq<Reservation>, s: Statut): (r: seq<Reservation>)
  {
    Filter(rs, (x: Reservation) => x.statut == s)
  }

  /** `reduce((total, r) => total + r.prixTotal, 0)`, summing from the left. */
  function SumPrixTotal(rs: seq<Reservation>): int
  {
    if rs == [] then 0 else SumPrixTotal(rs[..|rs| - 1]) + rs[|rs| - 1].prixTotal
  }

  datatype Stats = Stats(total: nat, enAttente: nat, confirmees: nat, annulees: nat, chiffreAffaires: int)

  /** GET `/stats/dashboard`, without the floating-point average. */
  function Dashboard(rs: seq<Reservation>): (st: Stats)
    ensures st.total == |rs|
    ensures st.enAttente + st.confirmees + st.annulees <= st.total
  {
    StatusCountsPartition(rs);
    Stats(|rs|, |WithStatut(rs, EnAttente)|, |WithStatut(rs, Confirmee)|, |WithStatut(rs, Annulee)|,
          SumPrixTotal(WithStatut(rs, Confirmee)))
  }

  /** What a reservation adds to the turnover: its price when it is confirmed. */
  function Contribution(r: Reservation): int
  {
    if r.statut == Confirmee then r.prixTotal else 0
  }

  /** The turnover computed in one pass, as an independent reference. */
  function ConfirmedRevenue(rs: seq<Reservation>): int
  {
    if rs == [] then 0 else Contribution(rs[0]) + ConfirmedRevenue(rs[1..])
  }

  lemma {:induction false} SumPrixTotalCons(r: Reservation, rs: seq<Reservation>)
    ensures SumPrixTotal([r] + rs) == r.prixTotal + SumPrixTotal(rs)
    decreases |rs|
  {
    if rs != [] {
      var n := |rs| - 1;
      assert ([r] + rs)[..|rs|] == [r] + rs[..n];
      SumPrixTotalCons(r, rs[..n]);
    }
  }

  /** Summing the prices of the confirmed entries gives the one-pass turnover. */
  lemma {:induction false} SumConfirmedIsRevenue(rs: seq<Reservation>)
    ensures SumPrixTotal(WithStatut(rs, Confirmee)) == ConfirmedRevenue(rs)
    decreases |rs|
  {
    if rs != [] {
      SumConfirmedIsRevenue(rs[1..]);
      if rs[0].statut == Confirmee {
        SumPrixTotalCons(rs[0], WithStatut(rs[1..], Confirmee));
      }
    }
  }

  /** The four statuses split the list: every entry is counted under exactly one. */
  lemma {:induction false} StatusCountsPartition(rs: seq<Reservation>)
    ensures |WithStatut(rs, EnAttente)| + |WithStatut(rs, Confirmee)| + |WithStatut(rs, Annulee)|
            + |WithStatut(rs, Terminee)| == |rs|
    decreases |rs|
  {
    if rs != [] {
      StatusCountsPartition(rs[1..]);
    }
  }

  /**
   * The dashboard counts never exceed the total (the finished entries are
   * the difference), and the turnover is the sum over confirmed entries.
   */
  lemma DashboardSpec(rs: seq<Reservation>)
    ensures Dashboard(rs).enAttente + Dashboard(rs).confirmees + Dashboard(rs).annulees
            + |WithStatut(rs, Terminee)| == Dashboard(rs).total
    ensures Dashboard(rs).enAttente + Dashboard(rs).confirmees + Dashboard(rs).annulees <= Dashboard(rs).total
    ensures Dashboard(rs).chiffreAffaires == ConfirmedRevenue(rs)
  {
    StatusCountsPartition(rs);
    SumConfirmedIsRevenue(rs);
  }

  /** Appending an entry adds its contribution to the turnover. */
  lemma {:induction false} RevenueAppend(rs: seq<Reservation>, r: Reservation)
    ensures ConfirmedRevenue(rs + [r]) == ConfirmedRevenue(rs) + Contribution(r)
    decreases |rs|
  {
    if rs == [] {
      assert rs + [r] == [r];
      assert [r][1..] == [];
    } else {
      assert (rs + [r])[1..] == rs[1..] + [r];
      RevenueAppend(rs[1..], r);
    }
  }

  /** Changing the status of entry `k` swaps its old contribution for the new one. */
  lemma {:induction false} RevenueAfterStatusChange(rs: seq<Reservation>, k: nat, s: Statut)
    requires k < |rs|
    ensures ConfirmedRevenue(rs[k := rs[k].(statut := s)])
            == ConfirmedRevenue(rs) - Contribution(rs[k]) + Contribution(rs[k].(statut := s))
    decreases |rs|
  {
    var updated := rs[k := rs[k].(statut := s)];
    if k > 0 {
      assert updated[1..] == rs[1..][k - 1 := rs[k].(statut := s)];
      RevenueAfterStatusChange(rs[1..], k - 1, s);
    } else {
      assert updated[1..] == rs[1..];
    }
  }

  // ---------------------------------------------------------------------
  // The mutable list
  // ---------------------------------------------------------------------

  datatype CreateOutcome = Invalid(erreurs: seq<ReservationError>) | DestinationNotFound | Created(reservation: Reservation)

  datatype StatusOutcome = StatusInvalidId | StatusInvalid | StatusNotFound | StatusUpdated(reservation: Reservation)

  /** The entry POST builds from an accepted request, given the list before it. */
  function NouvelleReservation(rs: seq<Reservation>, data: ReservationInput, now: int, annee: nat): (r: Reservation)
    requires HasAllFields(data)
    ensures forall j :: 0 <= j < |rs| ==> rs[j].id < r.id
    ensures r.statut == EnAttente
  {
    var c := data.client.value;
    Reservation(
      NextId(ReservationIds(rs)),
      data.destinationId.value,
      GenererNumeroReservation(annee, |rs|),
      Client(Trim(c.nom.value), Trim(c.prenom.value), ToLower(Trim(c.email.value)), Trim(c.telephone.value)),
      data.nombrePersonnes.value,
      now,
      data.dateVoyage.value,
      PrixParPersonne * data.nombrePersonnes.value,
      EnAttente,
      data.commentaires.GetOr(""))
  }

  /** The two reservations the router starts with. */
  function SeedReservations(): seq<Reservation>
  {
    [ Reservation(1, 1, "RES-2024-001",
                  Client("Dupont", "Jean", "jean.dupont@email.com", "0123456789"),
                  2, 1716201000000, DateAt(1721001600000), 1798, Confirmee, "Voyage de noces"),
      Reservation(2, 2, "RES-2024-002",
                  Client("Martin", "Sophie", "sophie.martin@email.com", "0123456790"),
                  4, 1716300900000, DateAt(1722470400000), 5196, EnAttente, "Voyage en famille") ]
  }

  lemma YearDigits()
    ensures Decimal(2024) == "2024"
  {
    assert Decimal(2) == "2";
    assert Decimal(20) == "20";
    assert Decimal(202) == "202";
  }

  lemma CounterDigits()
    ensures Pad3(1) == "001" && Pad3(2) == "002"
  {
    assert Repeat('0', 2) == "00";
    assert Decimal(1) == "1";
    assert Decimal(2) == "2";
  }

  /**
   * The numbers of the starting entries are the ones the generator gives for
   * list lengths 0 and 1, that is counters 1 and 2.
   */
  lemma SeedNumbers()
    ensures GenererNumeroReservation(2024, 0) == "RES-2024-001"
    ensures GenererNumeroReservation(2024, 1) == "RES-2024-002"
  {
    YearDigits();
    CounterDigits();
  }

  /** The starting list satisfies the store invariant, both entries numbered in 2024. */
  lemma SeedReservationsValid()
    ensures SeedReservations() != []
    ensures Distinct(ReservationIds(SeedReservations()))
    ensures NumberedInOrder(SeedReservations(), [2024, 2024])
  {
    SeedNumbers();
  }

  /** Appending an entry with the next id and the next number keeps the store invariant. */
  lemma AppendKeepsInvariant(rs: seq<Reservation>, annees: seq<nat>, r: Reservation, annee: nat)
    requires Distinct(ReservationIds(rs)) && NumberedInOrder(rs, annees)
    requires r.id == NextId(ReservationIds(rs))
    requires r.numeroReservation == GenererNumeroReservation(annee, |rs|)
    ensures Distinct(ReservationIds(rs + [r])) && NumberedInOrder(rs + [r], annees + [annee])
  {
    NextIdKeepsDistinct(ReservationIds(rs));
    assert ReservationIds(rs + [r]) == ReservationIds(rs) + [r.id];
  }

  class ReservationStore {
    var reservations: seq<Reservation>
    /** The year each entry was numbered in, in list order. */
    ghost var annees: seq<nat>

    /**
     * The list is never empty (nothing deletes), its ids are distinct, and
     * entry `i` carries counter `i + 1` in its number.
     */
    ghost predicate Valid()
      reads this
    {
      && reservations != []
      && Distinct(ReservationIds(reservations))
      && NumberedInOrder(reservations, annees)
    }

    constructor ()
      ensures Valid() && reservations == SeedReservations()
    {
      reservations := SeedReservations();
      annees := [2024, 2024];
      new;
      SeedReservationsValid();
    }

    /**
     * POST `/`: 400 with every error, 404 for an unknown destination, else
     * a new entry appended at the end.
     */
    method Create(data: ReservationInput, now: int, annee: nat) returns (outcome: CreateOutcome)
      requires Valid()
      modifies this
      ensures Valid()
      ensures outcome.Invalid? <==> ValiderDonneesReservation(data, now) != []
      ensures outcome.Invalid? ==> outcome.erreurs == ValiderDonneesReservation(data, now)
      ensures outcome.DestinationNotFound? <==>
        ValiderDonneesReservation(data, now) == [] && data.destinationId.Some?
        && data.destinationId.value !in DestinationsDisponibles
      ensures !outcome.Created? ==> reservations == old(reservations) && annees == old(annees)
      ensures outcome.Created? ==>
        && reservations == old(reservations) + [outcome.reservation]
        && annees == old(annees) + [annee]
        && HasAllFields(data)
        && outcome.reservation == NouvelleReservation(old(reservations), data, now, annee)
    {
      var erreurs := ValiderDonneesReservation(data, now);
      if erreurs != [] {
        return Invalid(erreurs);
      }
      AcceptedRequestHasFields(data, now);
      var destinationId := data.destinationId.value;
      if destinationId !in DestinationsDisponibles {
        return DestinationNotFound;
      }
      var r := NouvelleReservation(reservations, data, now, annee);
      AppendKeepsInvariant(reservations, annees, r, annee);
      reservations := reservations + [r];
      annees := annees + [annee];
      outcome := Created(r);
    }

    /**
     * PATCH `/:id/statut`: the id must be a number and the status one of the
     * four names, checked in that order and before the lookup; then only
     * that entry's status changes.
     */
    method UpdateStatus(id: Option<int>, statut: Option<string>) returns (outcome: StatusOutcome)
      requires Valid()
      modifies this
      ensures Valid()
      ensures outcome.StatusInvalidId? <==> id.None?
      ensures outcome.StatusInvalid? <==> id.Some? && (statut.None? || ParseStatut(statut.value).None?)
      ensures outcome.StatusNotFound? <==>
        id.Some? && statut.Some? && ParseStatut(statut.value).Some? && IndexOfId(old(reservations), id.value).None?
      ensures annees == old(annees)
      ensures !outcome.StatusUpdated? ==> reservations == old(reservations)
      ensures outcome.StatusUpdated? ==>
        && id.Some? && statut.Some? && ParseStatut(statut.value).Some?
        && IndexOfId(old(reservations), id.value).Some?
        && var k := IndexOfId(old(reservations), id.value).value;
           reservations == old(reservations)[k := old(reservations)[k].(statut := ParseStatut(statut.value).value)]
           && outcome.reservation == reservations[k]
    {
      if id.None? {
        return StatusInvalidId;
      }
      if statut.None? || ParseStatut(statut.value).None? {
        return StatusInvalid;
      }
      var s := ParseStatut(statut.value).value;
      var index := IndexOfId(reservations, id.value);
      if index.None? {
        return StatusNotFound;
      }
      var k := index.value;
      var updated := reservations[k := reservations[k].(statut := s)];
      assert ReservationIds(updated) == ReservationIds(reservations);
      reservations := updated;
      outcome := StatusUpdated(reservations[k]);
    }
  }

  /** The new entry's id is above every id in use, so it collides with none. */
  lemma NouvelleReservationIdFresh(rs: seq<Reservation>, data: ReservationInput, now: int, annee: nat)
    requires HasAllFields(data)
    ensures forall i :: 0 <= i < |rs| ==> rs[i].id < NouvelleReservation(rs, data, now, annee).id
  {
  }

  /** The new entry's number reads back as the current year and the list length plus one. */
  lemma NouvelleReservationNumero(rs: seq<Reservation>, data: ReservationInput, now: int, annee: nat)
    requires HasAllFields(data)
    ensures ParseNumeroReservation(NouvelleReservation(rs, data, now, annee).numeroReservation) == Some((annee, |rs| + 1))
  {
    NumeroRoundTrip(annee, |rs|);
  }

  /**
   * For 1 to 10 travellers the new entry is pending and costs 899 per
   * traveller, so creating it leaves the turnover as it was.
   */
  lemma NouvelleReservationPricing(rs: seq<Reservation>, data: ReservationInput, now: int, annee: nat)
    requires HasAllFields(data) && 1 <= data.nombrePersonnes.value <= 10
    ensures var r := NouvelleReservation(rs, data, now, annee);
      && r.statut == EnAttente
      && r.prixTotal == 899 * r.nombrePersonnes && 899 <= r.prixTotal <= 8990
      && ConfirmedRevenue(rs + [r]) == ConfirmedRevenue(rs)
  {
    RevenueAppend(rs, NouvelleReservation(rs, data, now, annee));
  }

  /** The stored address is the given one trimmed and lower-cased, so already in lower case. */
  lemma NouvelleReservationEmail(rs: seq<Reservation>, data: ReservationInput, now: int, annee: nat)
    requires HasAllFields(data)
    ensures var email := NouvelleReservation(rs, data, now, annee).client.email;
      email == ToLower(Trim(data.client.value.email.value)) && ToLower(email) == email
  {
    ToLowerIdempotent(Trim(data.client.value.email.value));
  }
}
