/**
 * Enrolment cards and the rule nearly every page applies to them: copy the
 * list, sort it by `id` descending and take the first card, the latest
 * enrolment. Also the shape shared by the pages' data queries: fetch the
 * cards, stop with a page-specific empty value when there are none, otherwise
 * fetch one resource of the latest card.
 */
module Enrollment {
  import opened JsValues
  import opened Lists
  import Api

  /** One academic year's registration, with the fields the pages read. */
  datatype Card = Card(
    id: int,
    anneeAcademiqueCode: Option<string>,
    academicYearString: Option<string>,
    individuPrenomLatin: Option<string>,
    individualFirstNameLatin: Option<string>,
    individuNomLatin: Option<string>,
    individualLastNameLatin: Option<string>,
    numeroInscription: Option<string>,
    registrationNumber: Option<string>,
    niveauId: Option<int>,
    levelId: Option<int>,
    ouvertureOffreFormationId: Option<int>,
    openingTrainingOfferId: Option<int>)

  /** A response body that may or may not be an array (`Array.isArray`). */
  datatype Payload<+T> = Arr(items: seq<T>) | NotArray

  /**
   * The settled promise of an endpoint function called with the signed-in
   * user's token: what the backend and the interceptor make of that request.
   */
  type Backend<!T> = Api.Endpoint -> Result<T>

  /** A query function's outcome and the requests it issued, in order. */
  datatype Run<+T> = Run(result: Result<T>, requests: seq<Api.Endpoint>)

  /** The comparator `(a, b) => b.id - a.id` as "a may precede b". */
  predicate IdDescLe(a: Card, b: Card) {
    a.id >= b.id
  }

  lemma IdDescTotalPreorder()
    ensures TotalPreorder(IdDescLe)
  {
  }

  /** `[...cards].sort((a, b) => b.id - a.id)`. */
  function SortedByIdDesc(cards: seq<Card>): (r: seq<Card>)
    ensures multiset(r) == multiset(cards)
    ensures forall i, j :: 0 <= i < j < |r| ==> r[i].id >= r[j].id
  {
    IdDescTotalPreorder();
    SortBySorted(cards, IdDescLe);
    SortBy(cards, IdDescLe)
  }

  /** `c` is a card of the list whose id no other card exceeds. */
  ghost predicate IsLatest(c: Card, cards: seq<Card>) {
    c in cards && forall d :: d in cards ==> d.id <= c.id
  }

  /** `[...cards].sort((a, b) => b.id - a.id)[0]` for a non-empty list. */
  function Latest(cards: seq<Card>): (c: Card)
    requires |cards| > 0
    ensures IsLatest(c, cards)
  {
    var s := SortedByIdDesc(cards);
    assert s[0] in multiset(s);
    forall d | d in cards ensures d.id <= s[0].id {
      assert d in multiset(s);
      var k :| 0 <= k < |s| && s[k] == d;
    }
    s[0]
  }

  /** The sort is stable, so among cards sharing the greatest id the earliest one is taken. */
  lemma LatestIsFirstOfMaxId(cards: seq<Card>)
    requires |cards| > 0
    ensures exists k :: 0 <= k < |cards| && cards[k] == Latest(cards) && forall j :: 0 <= j < k ==> cards[j].id < cards[k].id
  {
    SortByHead(cards, IdDescLe);
  }

  ghost predicate DistinctIds(cards: seq<Card>) {
    forall i, j :: 0 <= i < j < |cards| ==> cards[i].id != cards[j].id
  }

  /** With distinct ids the latest card does not depend on the order the backend lists them in. */
  lemma LatestIgnoresOrder(a: seq<Card>, b: seq<Card>)
    requires |a| > 0 && DistinctIds(a) && multiset(a) == multiset(b)
    ensures Latest(a) == Latest(b)
  {
    assert |b| == |multiset(b)| == |a|;
    var x, y := Latest(a), Latest(b);
    assert y in multiset(a) && x in multiset(b);
    assert y in a && x in b;
    assert x.id == y.id;
    var i :| 0 <= i < |a| && a[i] == x;
    var j :| 0 <= j < |a| && a[j] == y;
    assert i == j;
  }

  /** `card.niveauId || card.levelId`: the French field unless it is missing or 0. */
  function LevelOf(c: Card): (l: Option<int>)
    ensures TruthyNum(c.niveauId) ==> l == c.niveauId
    ensures !TruthyNum(c.niveauId) ==> l == c.levelId
  {
    OrNum(c.niveauId, c.levelId)
  }

  /** `card.ouvertureOffreFormationId || card.openingTrainingOfferId`. */
  function OfferOf(c: Card): (o: Option<int>)
    ensures TruthyNum(c.ouvertureOffreFormationId) ==> o == c.ouvertureOffreFormationId
    ensures !TruthyNum(c.ouvertureOffreFormationId) ==> o == c.openingTrainingOfferId
  {
    OrNum(c.ouvertureOffreFormationId, c.openingTrainingOfferId)
  }

  /** `individuPrenomLatin || individualFirstNameLatin`. */
  function FirstName(c: Card): Option<string> {
    OrStr(c.individuPrenomLatin, c.individualFirstNameLatin)
  }

  /** `individuNomLatin || individualLastNameLatin`. */
  function LastName(c: Card): Option<string> {
    OrStr(c.individuNomLatin, c.individualLastNameLatin)
  }

  /** `anneeAcademiqueCode || academicYearString`. */
  function YearCode(c: Card): Option<string> {
    OrStr(c.anneeAcademiqueCode, c.academicYearString)
  }

  /** `numeroInscription || registrationNumber`. */
  function RegistrationOf(c: Card): Option<string> {
    OrStr(c.numeroInscription, c.registrationNumber)
  }

  /**
   * What a latest-card query does: request the cards; pass their error on;
   * with no cards return `noCards` and request nothing more; otherwise
   * request `endpoint` of the latest card and return its reply.
   */
  ghost predicate LatestCardRun<T>(r: Run<T>, uuid: string, getCards: Backend<seq<Card>>, noCards: T,
                                   endpoint: (string, Card) -> Api.Endpoint, fetch: Backend<T>)
  {
    var cards := getCards(Api.StudentCards(uuid));
    && (cards.Err? ==> r == Run(Err(cards.error), [Api.StudentCards(uuid)]))
    && (cards.Ok? && |cards.value| == 0 ==> r == Run(Ok(noCards), [Api.StudentCards(uuid)]))
    && (cards.Ok? && |cards.value| > 0 ==>
          var c := Latest(cards.value);
          r == Run(fetch(endpoint(uuid, c)), [Api.StudentCards(uuid), endpoint(uuid, c)]))
  }

  /** The query function shared by the single-enrolment pages. */
  function LatestCardQuery<T>(uuid: string, getCards: Backend<seq<Card>>, noCards: T,
                              endpoint: (string, Card) -> Api.Endpoint, fetch: Backend<T>): (r: Run<T>)
    ensures LatestCardRun(r, uuid, getCards, noCards, endpoint, fetch)
  {
    var ce := Api.StudentCards(uuid);
    match getCards(ce)
    case Err(e) => Run(Err(e), [ce])
    case Ok(cards) =>
      if |cards| == 0 then Run(Ok(noCards), [ce])
      else
        var c := Latest(cards);
        Run(fetch(endpoint(uuid, c)), [ce, endpoint(uuid, c)])
  }
}
