/** The continuous-assessment grades page: the CC notes of the latest enrolment, in backend order. */
module CCGradesPage {
  import opened JsValues
  import opened Enrollment
  import Api

  datatype CCGrade = CCGrade(
    rattachementMcMcLibelleFr: Option<string>,
    note: Option<real>,
    absent: bool,
    observation: Option<string>)

  function CCGradesEndpoint(uuid: string, c: Card): Api.Endpoint {
    Api.CCGrades(c.id)
  }

  /** The page's query function: `[]` without cards, else the CC grades of the latest card. */
  function CCGradesQuery(uuid: string, getCards: Backend<seq<Card>>, getGrades: Backend<Payload<CCGrade>>)
    : (r: Run<Payload<CCGrade>>)
    ensures LatestCardRun(r, uuid, getCards, Arr([]), CCGradesEndpoint, getGrades)
  {
    LatestCardQuery(uuid, getCards, Arr([]), CCGradesEndpoint, getGrades)
  }

  /**
   * `note ?? (absent ? 'Absent' : '–')`: a present note always wins, 0
   * included; "Absent" only for a missing note with the absent flag.
   */
  function NoteCell(g: CCGrade): (c: Cell)
    ensures c.Number? <==> g.note.Some?
    ensures c.Number? ==> c.number == g.note.value
    ensures c == Text("Absent") <==> g.note.None? && g.absent
    ensures c == Text("–") <==> g.note.None? && !g.absent
  {
    match g.note
    case Some(n) => Number(n)
    case None => Text(if g.absent then "Absent" else "–")
  }

  /** `observation || '-'`: never blank. */
  function ObservationCell(g: CCGrade): (t: string)
    ensures t != ""
    ensures TruthyStr(g.observation) ==> t == g.observation.value
    ensures !TruthyStr(g.observation) ==> t == "-"
  {
    OrText(g.observation, "-")
  }

  datatype Row = Row(note: Cell, observation: string)

  /** The table rows: one per grade, in backend order; none for non-array data. */
  function Rows(data: Payload<CCGrade>): (rows: seq<Row>)
    ensures data.NotArray? ==> rows == []
    ensures data.Arr? ==> |rows| == |data.items|
                          && forall i :: 0 <= i < |rows| ==> rows[i] == Row(NoteCell(data.items[i]), ObservationCell(data.items[i]))
  {
    match data
    case NotArray => []
    case Arr(items) => seq(|items|, i requires 0 <= i < |items| => Row(NoteCell(items[i]), ObservationCell(items[i])))
  }
}
