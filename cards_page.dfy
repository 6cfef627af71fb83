/**
 * The student cards page: every enrolment card, most recent first, and the
 * query that fetches them, which only runs for a signed-in user.
 */
module CardsPage {
  import opened JsValues
  import opened UserCodec
  import opened Enrollment
  import Api

  /**
   * The `cards` query: not run at all without a user (`enabled: !!user`),
   * otherwise one request for the user's cards, whose reply is the data.
   */
  function CardsQuery(user: Option<User>, getCards: Backend<Payload<Card>>): (r: Option<Run<Payload<Card>>>)
    ensures r.Some? <==> user.Some?
    ensures r.Some? ==> r.value.requests == [Api.StudentCards(user.value.uuid)]
                        && r.value.result == getCards(Api.StudentCards(user.value.uuid))
  {
    match user
    case None => None
    case Some(u) => Some(Run(getCards(Api.StudentCards(u.uuid)), [Api.StudentCards(u.uuid)]))
  }

  /** `sortedCards`: all cards by id, highest first, or none when the data is not an array. */
  function SortedCards(cards: Payload<Card>): (r: seq<Card>)
    ensures cards.NotArray? ==> r == []
    ensures cards.Arr? ==> multiset(r) == multiset(cards.items)
    ensures forall i, j :: 0 <= i < j < |r| ==> r[i].id >= r[j].id
  {
    match cards
    case NotArray => []
    case Arr(items) => SortedByIdDesc(items)
  }

  /** "No cards found." shows when nothing is listed and the query is not loading. */
  function NoCardsMessage(cards: Payload<Card>, isLoading: bool): (shown: bool)
    ensures shown <==> !isLoading && (cards.NotArray? || |cards.items| == 0)
  {
    |SortedCards(cards)| == 0 && !isLoading
  }

  /** The first card listed is the latest enrolment every other page works with. */
  lemma FirstListedIsLatest(items: seq<Card>)
    requires |items| > 0
    ensures SortedCards(Arr(items))[0] == Latest(items)
  {
  }
}
