/**
 * The transport page: the transport request of the latest enrolment and
 * whether it is paid.
 */
module TransportPage {
  import opened JsValues
  import opened Enrollment
  import Api

  datatype TransportState = TransportState(transportPayed: bool)

  function TransportEndpoint(uuid: string, c: Card): Api.Endpoint {
    Api.TransportState(uuid, c.id)
  }

  /**
   * The page's query function: `null` (not `[]`) without cards, else the
   * transport state of the latest card, which the backend may also give as
   * `null`.
   */
  function TransportQuery(uuid: string, getCards: Backend<seq<Card>>, getTransport: Backend<Option<TransportState>>)
    : (r: Run<Option<TransportState>>)
    ensures LatestCardRun(r, uuid, getCards, None, TransportEndpoint, getTransport)
  {
    LatestCardQuery(uuid, getCards, None, TransportEndpoint, getTransport)
  }

  datatype TransportView = PaidLine(caption: string) | NoDataMessage | Blank

  /**
   * The rendered status: the paid line whenever there is data, "Yes" exactly
   * when it is paid; the no-data message without data once loading is over.
   */
  function Render(data: Option<TransportState>, isLoading: bool): (v: TransportView)
    ensures v.PaidLine? <==> data.Some?
    ensures v.PaidLine? ==> (v.caption == "Yes" <==> data.value.transportPayed) && (v.caption == "Yes" || v.caption == "No")
    ensures v.NoDataMessage? <==> data.None? && !isLoading
  {
    match data
    case Some(s) => PaidLine(if s.transportPayed then "Yes" else "No")
    case None => if isLoading then Blank else NoDataMessage
  }

  /** Without cards nothing but the cards is requested, and the page says there is no transport data. */
  lemma NoCardsNoTransport(uuid: string, getCards: Backend<seq<Card>>, getTransport: Backend<Option<TransportState>>)
    requires getCards(Api.StudentCards(uuid)) == Ok([])
    ensures TransportQuery(uuid, getCards, getTransport).requests == [Api.StudentCards(uuid)]
    ensures Render(TransportQuery(uuid, getCards, getTransport).result.value, false) == NoDataMessage
  {
  }
}
