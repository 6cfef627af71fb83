/**
 * The exam timetable page: for the latest enrolment's level, the exams of
 * every period of the current academic year, gathered period by period,
 * flattened and sorted by date and start time.
 */
module ExamSchedulePage {
  import opened JsValues
  import opened Lists
  import opened Enrollment
  import Api

  datatype AcademicYear = AcademicYear(id: int)

  datatype Period = Period(id: int)

  /** An exam session, with the fields the sort key is built from. */
  datatype Exam = Exam(dateExamen: Option<string>, heureDebut: Option<string>, heureFin: Option<string>)

  /** `periods.map((p) => getExamSchedule(p.id, levelId, token))`: one request per period, in period order. */
  function PeriodRequests(periods: seq<Period>, levelId: Option<int>): (r: seq<Api.Endpoint>)
    ensures |r| == |periods|
    ensures forall i :: 0 <= i < |r| ==> r[i] == Api.ExamSchedule(Some(periods[i].id), levelId)
  {
    if periods == [] then []
    else [Api.ExamSchedule(Some(periods[0].id), levelId)] + PeriodRequests(periods[1..], levelId)
  }

  /**
   * `Promise.all` over the replies to `reqs`: every reply in request order
   * when all succeed, otherwise the error of the first request (in request
   * order) that failed.
   */
  function FetchAll<T>(reqs: seq<Api.Endpoint>, get: Backend<T>): (r: Result<seq<T>>)
    ensures r.Ok? <==> forall i :: 0 <= i < |reqs| ==> get(reqs[i]).Ok?
    ensures r.Ok? ==> |r.value| == |reqs| && forall i :: 0 <= i < |reqs| ==> r.value[i] == get(reqs[i]).value
    ensures r.Err? ==> exists i :: 0 <= i < |reqs| && get(reqs[i]).Err? && r.error == get(reqs[i]).error
                                   && forall j :: 0 <= j < i ==> get(reqs[j]).Ok?
  {
    if reqs == [] then Ok([])
    else
      match get(reqs[0])
      case Err(e) => Err(e)
      case Ok(first) =>
        match FetchAll(reqs[1..], get)
        case Err(e) =>
          ghost var i :| 0 <= i < |reqs[1..]| && get(reqs[1..][i]).Err? && e == get(reqs[1..][i]).error
                         && forall j :: 0 <= j < i ==> get(reqs[1..][j]).Ok?;
          assert forall j :: 0 <= j < i + 1 ==> get(reqs[j]).Ok? by {
            forall j | 0 <= j < i + 1 ensures get(reqs[j]).Ok? {
              if j > 0 { assert reqs[j] == reqs[1..][j - 1]; }
            }
          }
          Err(e)
        case Ok(rest) =>
          assert forall i :: 1 <= i < |reqs| ==> reqs[i] == reqs[1..][i - 1];
          Ok([first] + rest)
  }

  /** `{ ...null }`: a row with none of the exam fields. */
  const BlankExam := Exam(None, None, None)

  /**
   * What `.flat().map((s) => ({ ...s }))` makes of one period's reply: its
   * exams when it is an array; otherwise `flat` keeps the reply as a single
   * element, which spreads to a row without exam fields.
   */
  function Rows(reply: Payload<Exam>): (r: seq<Exam>)
    ensures reply.Arr? ==> r == reply.items
    ensures reply.NotArray? ==> r == [BlankExam]
  {
    match reply
    case Arr(items) => items
    case NotArray => [BlankExam]
  }

  /** The rows of every period's reply, period by period. */
  function AllRows(replies: seq<Payload<Exam>>): (r: seq<seq<Exam>>)
    ensures |r| == |replies|
    ensures forall i :: 0 <= i < |replies| ==> r[i] == Rows(replies[i])
  {
    seq(|replies|, i requires 0 <= i < |replies| => Rows(replies[i]))
  }

  /** `` `${a.dateExamen} ${a.heureDebut || ''}` ``. */
  function ExamKey(e: Exam): string {
    InterpStr(e.dateExamen) + " " + OrText(e.heureDebut, "")
  }

  predicate ExamLe(a: Exam, b: Exam) {
    StrLe(ExamKey(a), ExamKey(b))
  }

  lemma ExamLeTotalPreorder()
    ensures TotalPreorder(ExamLe)
  {
    forall a: Exam, b: Exam ensures ExamLe(a, b) || ExamLe(b, a) {
      StrLeTotal(ExamKey(a), ExamKey(b));
    }
    forall a: Exam, b: Exam, c: Exam | ExamLe(a, b) && ExamLe(b, c) ensures ExamLe(a, c) {
      StrLeTrans(ExamKey(a), ExamKey(b), ExamKey(c));
    }
  }

  /** The exams sorted by their date-and-time key, keeping every exam. */
  function SortedExams(exams: seq<Exam>): (r: seq<Exam>)
    ensures multiset(r) == multiset(exams)
    ensures forall i, j :: 0 <= i < j < |r| ==> StrLe(ExamKey(r[i]), ExamKey(r[j]))
  {
    ExamLeTotalPreorder();
    SortBySorted(exams, ExamLe);
    SortBy(exams, ExamLe)
  }

  /**
   * What the query does once the latest card's level is known: request the
   * current year, then its periods, then one exam list per period; pass on
   * the first failure; otherwise return the rows of all periods' replies,
   * sorted.
   */
  ghost predicate FromYearOn(r: Run<seq<Exam>>, done: seq<Api.Endpoint>, levelId: Option<int>,
                             getYear: Backend<AcademicYear>, getPeriods: Backend<seq<Period>>, getExams: Backend<Payload<Exam>>)
  {
    var ye := Api.CurrentAcademicYear;
    && (getYear(ye).Err? ==> r == Run(Err(getYear(ye).error), done + [ye]))
    && (getYear(ye).Ok? ==>
          var pe := Api.AcademicPeriods(getYear(ye).value.id);
          && (getPeriods(pe).Err? ==> r == Run(Err(getPeriods(pe).error), done + [ye, pe]))
          && (getPeriods(pe).Ok? ==>
                var reqs := PeriodRequests(getPeriods(pe).value, levelId);
                var all := FetchAll(reqs, getExams);
                && r.requests == done + [ye, pe] + reqs
                && (r.result.Ok? <==> all.Ok?)
                && (all.Err? ==> r.result.error == all.error)
                && (all.Ok? ==> multiset(r.result.value) == multiset(Flatten(AllRows(all.value)))
                                && forall i, j :: 0 <= i < j < |r.result.value| ==>
                                     StrLe(ExamKey(r.result.value[i]), ExamKey(r.result.value[j])))))
  }

  function FetchExams(done: seq<Api.Endpoint>, levelId: Option<int>,
                      getYear: Backend<AcademicYear>, getPeriods: Backend<seq<Period>>, getExams: Backend<Payload<Exam>>)
    : (r: Run<seq<Exam>>)
    ensures FromYearOn(r, done, levelId, getYear, getPeriods, getExams)
  {
    var ye := Api.CurrentAcademicYear;
    match getYear(ye)
    case Err(e) => Run(Err(e), done + [ye])
    case Ok(year) =>
      var pe := Api.AcademicPeriods(year.id);
      match getPeriods(pe)
      case Err(e) => Run(Err(e), done + [ye, pe])
      case Ok(periods) =>
        var reqs := PeriodRequests(periods, levelId);
        match FetchAll(reqs, getExams)
        case Err(e) => Run(Err(e), done + [ye, pe] + reqs)
        case Ok(replies) => Run(Ok(SortedExams(Flatten(AllRows(replies)))), done + [ye, pe] + reqs)
  }

  /**
   * The page's query function. Without cards it returns `[]` and requests
   * neither the year nor the periods; otherwise it continues with the level
   * of the latest card.
   */
  function ExamScheduleQuery(uuid: string, getCards: Backend<seq<Card>>, getYear: Backend<AcademicYear>,
                             getPeriods: Backend<seq<Period>>, getExams: Backend<Payload<Exam>>)
    : (r: Run<seq<Exam>>)
    ensures var ce := Api.StudentCards(uuid);
            && (getCards(ce).Err? ==> r == Run(Err(getCards(ce).error), [ce]))
            && (getCards(ce).Ok? && |getCards(ce).value| == 0 ==> r == Run(Ok([]), [ce]))
            && (getCards(ce).Ok? && |getCards(ce).value| > 0 ==>
                  FromYearOn(r, [ce], LevelOf(Latest(getCards(ce).value)), getYear, getPeriods, getExams))
  {
    var ce := Api.StudentCards(uuid);
    match getCards(ce)
    case Err(e) => Run(Err(e), [ce])
    case Ok(cards) =>
      if |cards| == 0 then Run(Ok([]), [ce])
      else FetchExams([ce], LevelOf(Latest(cards)), getYear, getPeriods, getExams)
  }

  /** Every row of every period reaches the page: the flattened list holds the `i`-th period's rows as a block. */
  lemma EveryPeriodKept(replies: seq<Payload<Exam>>, i: nat, e: Exam)
    requires i < |replies| && e in Rows(replies[i])
    ensures e in SortedExams(Flatten(AllRows(replies)))
  {
    var lists := AllRows(replies);
    FlattenSlice(lists, i);
    var lo := TotalLength(lists[..i]);
    var k :| 0 <= k < |lists[i]| && lists[i][k] == e;
    assert Flatten(lists)[lo + k] == e;
    assert e in multiset(Flatten(lists));
  }

  /** A period whose reply is not an array adds a blank row to the timetable rather than failing. */
  lemma NonArrayReplyShowsBlankRow(replies: seq<Payload<Exam>>, i: nat)
    requires i < |replies| && replies[i].NotArray?
    ensures BlankExam in SortedExams(Flatten(AllRows(replies)))
  {
    EveryPeriodKept(replies, i, BlankExam);
  }
}
