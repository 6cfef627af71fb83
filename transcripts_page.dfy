/**
 * The transcripts page: the period transcripts and the annual decision of
 * the latest enrolment, and the accordion in which at most one transcript
 * is open.
 */
module TranscriptsPage {
  import opened JsValues
  import opened Enrollment
  import Api

  datatype Transcript = Transcript(periodeLibelleFr: Option<string>, moyenne: Option<real>)

  datatype Decision = Decision(typeDecisionLibelleFr: Option<string>, moyenne: Option<real>)

  function TranscriptsEndpoint(uuid: string, c: Card): Api.Endpoint {
    Api.AcademicTranscripts(uuid, c.id)
  }

  function DecisionEndpoint(uuid: string, c: Card): Api.Endpoint {
    Api.AcademicDecision(uuid, c.id)
  }

  /** The transcripts query: `[]` without cards, else the transcripts of the latest card. */
  function TranscriptsQuery(uuid: string, getCards: Backend<seq<Card>>, getTranscripts: Backend<Payload<Transcript>>)
    : (r: Run<Payload<Transcript>>)
    ensures LatestCardRun(r, uuid, getCards, Arr([]), TranscriptsEndpoint, getTranscripts)
  {
    LatestCardQuery(uuid, getCards, Arr([]), TranscriptsEndpoint, getTranscripts)
  }

  /** The decision query: `null` without cards, else the annual decision of the latest card. */
  function DecisionQuery(uuid: string, getCards: Backend<seq<Card>>, getDecision: Backend<Option<Decision>>)
    : (r: Run<Option<Decision>>)
    ensures LatestCardRun(r, uuid, getCards, None, DecisionEndpoint, getDecision)
  {
    LatestCardQuery(uuid, getCards, None, DecisionEndpoint, getDecision)
  }

  /** Given the same card list, both queries ask about the same enrolment. */
  lemma QueriesAgreeOnCard(uuid: string, getCards: Backend<seq<Card>>,
                           getTranscripts: Backend<Payload<Transcript>>, getDecision: Backend<Option<Decision>>)
    requires getCards(Api.StudentCards(uuid)).Ok? && |getCards(Api.StudentCards(uuid)).value| > 0
    ensures |TranscriptsQuery(uuid, getCards, getTranscripts).requests| == 2
    ensures |DecisionQuery(uuid, getCards, getDecision).requests| == 2
    ensures TranscriptsQuery(uuid, getCards, getTranscripts).requests[1].cardId
            == DecisionQuery(uuid, getCards, getDecision).requests[1].cardId
  {
  }

  /**
   * The open row after a click on row `idx`: the clicked row, unless it was
   * the open one, in which case none. Only the clicked row can be open
   * afterwards.
   */
  function Toggled(expanded: Option<nat>, idx: nat): (e: Option<nat>)
    ensures forall k: nat :: e == Some(k) <==> k == idx && expanded != Some(idx)
  {
    if expanded == Some(idx) then None else Some(idx)
  }

  /**
   * Two clicks on the same row restore the accordion when no row or that
   * row was open; when another row was open, they leave every row closed.
   */
  lemma ToggleTwice(expanded: Option<nat>, idx: nat)
    ensures expanded == None || expanded == Some(idx) ==> Toggled(Toggled(expanded, idx), idx) == expanded
    ensures expanded != None && expanded != Some(idx) ==> Toggled(Toggled(expanded, idx), idx) == None
  {
  }

  /** The `expanded` state cell of the accordion. */
  class Accordion {
    var expanded: Option<nat>

    constructor ()
      ensures expanded == None
    {
      expanded := None;
    }

    /** A click on the header of row `idx`. */
    method Click(idx: nat)
      modifies this
      ensures expanded == Toggled(old(expanded), idx)
      ensures expanded == Some(idx) <==> old(expanded) != Some(idx)
    {
      expanded := if expanded == Some(idx) then None else Some(idx);
    }
  }

  /** The decision panel: its caption and, when the decision has one, the year average. */
  datatype DecisionPanel = DecisionPanel(caption: string, yearAverage: Option<real>)

  /**
   * The panel shows exactly when there is a decision; its caption is the
   * decision type or "—"; the year average shows exactly when `moyenne` is
   * not null, 0 included.
   */
  function Panel(decision: Option<Decision>): (p: Option<DecisionPanel>)
    ensures p.Some? <==> decision.Some?
    ensures p.Some? ==> p.value.caption == OrText(decision.value.typeDecisionLibelleFr, "—") && p.value.caption != ""
    ensures p.Some? ==> p.value.yearAverage == decision.value.moyenne
  {
    match decision
    case None => None
    case Some(d) => Some(DecisionPanel(OrText(d.typeDecisionLibelleFr, "—"), d.moyenne))
  }

  /** `tr.moyenne ?? '—'`: a present average is shown as a number, 0 included. */
  function AverageCell(tr: Transcript): (c: Cell)
    ensures c.Number? <==> tr.moyenne.Some?
    ensures c.Number? ==> c.number == tr.moyenne.value
    ensures c.Text? ==> c.text == "—"
  {
    match tr.moyenne
    case Some(m) => Number(m)
    case None => Text("—")
  }
}
