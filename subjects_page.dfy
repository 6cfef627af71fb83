/**
 * The subjects page: the coefficients of the training offer and level of the
 * latest enrolment.
 */
module SubjectsPage {
  import opened JsValues
  import opened Enrollment
  import Api

  /** A subject's coefficients, as listed on the page. */
  datatype SubjectCoefficients = SubjectCoefficients(
    mcLibelleFr: Option<string>,
    coefficientControleContinu: Option<real>,
    coefficientControleIntermediaire: Option<real>,
    coefficientExamen: Option<real>)

  /** The subjects request of card `c`: its offer id and its level id, each with its fallback field. */
  function SubjectsEndpoint(uuid: string, c: Card): Api.Endpoint {
    Api.Subjects(OfferOf(c), LevelOf(c))
  }

  /** The page's query function: `[]` without cards, else the subjects of the latest card's offer and level. */
  function SubjectsQuery(uuid: string, getCards: Backend<seq<Card>>, getSubjects: Backend<Payload<SubjectCoefficients>>)
    : (r: Run<Payload<SubjectCoefficients>>)
    ensures LatestCardRun(r, uuid, getCards, Arr([]), SubjectsEndpoint, getSubjects)
  {
    LatestCardQuery(uuid, getCards, Arr([]), SubjectsEndpoint, getSubjects)
  }

  /**
   * The subjects request carries the latest card's French offer and level
   * ids, each replaced by its English counterpart when missing or 0.
   */
  lemma SubjectsRequestFallbacks(uuid: string, getCards: Backend<seq<Card>>, getSubjects: Backend<Payload<SubjectCoefficients>>)
    requires getCards(Api.StudentCards(uuid)).Ok? && |getCards(Api.StudentCards(uuid)).value| > 0
    ensures var r := SubjectsQuery(uuid, getCards, getSubjects);
            var c := Latest(getCards(Api.StudentCards(uuid)).value);
            && r.requests == [Api.StudentCards(uuid), Api.Subjects(OfferOf(c), LevelOf(c))]
            && r.result == getSubjects(Api.Subjects(OfferOf(c), LevelOf(c)))
  {
  }
}
