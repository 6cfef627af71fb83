/** The exam grades page: the exam notes of the latest enrolment, in the order the backend gives them. */
module ExamGradesPage {
  import opened JsValues
  import opened Enrollment
  import Api

  datatype ExamGrade = ExamGrade(mcLibelleFr: Option<string>, noteExamen: Option<real>)

  function ExamGradesEndpoint(uuid: string, c: Card): Api.Endpoint {
    Api.ExamGrades(c.id)
  }

  /** The page's query function: `[]` without cards, else the exam grades of the latest card. */
  function ExamGradesQuery(uuid: string, getCards: Backend<seq<Card>>, getGrades: Backend<Payload<ExamGrade>>)
    : (r: Run<Payload<ExamGrade>>)
    ensures LatestCardRun(r, uuid, getCards, Arr([]), ExamGradesEndpoint, getGrades)
  {
    LatestCardQuery(uuid, getCards, Arr([]), ExamGradesEndpoint, getGrades)
  }

  /** `noteExamen ?? '–'`: any present note is shown as a number, 0 included. */
  function NoteCell(g: ExamGrade): (c: Cell)
    ensures c.Number? <==> g.noteExamen.Some?
    ensures c.Number? ==> c.number == g.noteExamen.value
    ensures c.Text? ==> c.text == "–"
  {
    match g.noteExamen
    case Some(n) => Number(n)
    case None => Text("–")
  }

  /** The note column: one cell per grade, in backend order, nothing sorted out or filtered; none for non-array data. */
  function NoteColumn(data: Payload<ExamGrade>): (cells: seq<Cell>)
    ensures data.NotArray? ==> cells == []
    ensures data.Arr? ==> |cells| == |data.items| && forall i :: 0 <= i < |cells| ==> cells[i] == NoteCell(data.items[i])
  {
    match data
    case NotArray => []
    case Arr(items) => seq(|items|, i requires 0 <= i < |items| => NoteCell(items[i]))
  }
}
