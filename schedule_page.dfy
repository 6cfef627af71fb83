/**
 * The weekly timetable page: the timetable of the latest enrolment, shown
 * sorted by day and then by start time, with a time cell that falls back to
 * the slot's label.
 */
module SchedulePage {
  import opened JsValues
  import opened Lists
  import opened Enrollment
  import Api

  /** A timetable entry, with the fields the page sorts and formats by. */
  datatype Slot = Slot(
    jourId: Option<int>,
    jourLibelleFr: Option<string>,
    plageHoraireHeureDebut: Option<string>,
    plageHoraireHeureFin: Option<string>,
    plageHoraireLibelleFr: Option<string>)

  /** The request for the timetable of card `c`. */
  function ScheduleEndpoint(uuid: string, c: Card): Api.Endpoint {
    Api.SubjectSchedule(c.id)
  }

  /** The page's query function: `[]` without cards, else the latest card's timetable. */
  function ScheduleQuery(uuid: string, getCards: Backend<seq<Card>>, getSchedule: Backend<Payload<Slot>>)
    : (r: Run<Payload<Slot>>)
    ensures LatestCardRun(r, uuid, getCards, Arr([]), ScheduleEndpoint, getSchedule)
  {
    LatestCardQuery(uuid, getCards, Arr([]), ScheduleEndpoint, getSchedule)
  }

  /** `a.jourId ?? 0`. */
  function Day(s: Slot): int {
    s.jourId.GetOr(0)
  }

  /** `a.plageHoraireHeureDebut || ''`. */
  function Start(s: Slot): string {
    OrText(s.plageHoraireHeureDebut, "")
  }

  /** The comparator: by day, then by start time. */
  predicate SlotLe(a: Slot, b: Slot) {
    Day(a) < Day(b) || (Day(a) == Day(b) && StrLe(Start(a), Start(b)))
  }

  lemma SlotLeTotalPreorder()
    ensures TotalPreorder(SlotLe)
  {
    forall a: Slot, b: Slot ensures SlotLe(a, b) || SlotLe(b, a) {
      StrLeTotal(Start(a), Start(b));
    }
    forall a: Slot, b: Slot, c: Slot | SlotLe(a, b) && SlotLe(b, c) ensures SlotLe(a, c) {
      if Day(a) == Day(b) == Day(c) {
        StrLeTrans(Start(a), Start(b), Start(c));
      }
    }
  }

  /**
   * `sorted`: a sorted copy of the data when it is an array, else `[]`. Days
   * ascend, and within a day the start times ascend.
   */
  function Sorted(data: Payload<Slot>): (r: seq<Slot>)
    ensures data.NotArray? ==> r == []
    ensures data.Arr? ==> multiset(r) == multiset(data.items)
    ensures forall i, j :: 0 <= i < j < |r| ==> Day(r[i]) <= Day(r[j])
    ensures forall i, j :: 0 <= i < j < |r| && Day(r[i]) == Day(r[j]) ==> StrLe(Start(r[i]), Start(r[j]))
  {
    match data
    case NotArray => []
    case Arr(items) =>
      SlotLeTotalPreorder();
      SortBySorted(items, SlotLe);
      SortBy(items, SlotLe)
  }

  /**
   * The time cell: `start – end` when both are truthy, else the slot label,
   * else "-". It is never blank.
   */
  function TimeCell(s: Slot): (t: string)
    ensures t != ""
    ensures TruthyStr(s.plageHoraireHeureDebut) && TruthyStr(s.plageHoraireHeureFin)
            ==> t == s.plageHoraireHeureDebut.value + " – " + s.plageHoraireHeureFin.value
    ensures !(TruthyStr(s.plageHoraireHeureDebut) && TruthyStr(s.plageHoraireHeureFin))
            ==> t == OrText(s.plageHoraireLibelleFr, "-")
  {
    if TruthyStr(s.plageHoraireHeureDebut) && TruthyStr(s.plageHoraireHeureFin) then
      s.plageHoraireHeureDebut.value + " – " + s.plageHoraireHeureFin.value
    else OrText(s.plageHoraireLibelleFr, "-")
  }
}
