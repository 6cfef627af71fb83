/**
 * The average calculator: an editable list of subjects with TP, TD and exam
 * marks as typed, and the averages derived from it. Subjects are addressed by
 * id, so the list keeps its ids pairwise distinct.
 */
module AverageCalculator {
  import opened JsValues

  /** A subject row; the marks are the raw text of their inputs. */
  datatype Subject = Subject(id: int, name: string, tp: string, td: string, exam: string)

  /** The fields an input can edit. */
  datatype Field = Name | Tp | Td | Exam

  /** The default subject name before its number ("Subject " in Arabic). */
  const NamePrefix := "المادة "

  /** A fresh subject: default name with its id, all marks empty. */
  function NewSubject(id: int): Subject {
    Subject(id, NamePrefix + IntToString(id), "", "", "")
  }

  /** The three subjects the page starts with. */
  const InitialSubjects: seq<Subject> := [NewSubject(1), NewSubject(2), NewSubject(3)]

  ghost predicate UniqueIds(s: seq<Subject>) {
    forall i, j :: 0 <= i < j < |s| ==> s[i].id != s[j].id
  }

  lemma InitialSubjectsShape()
    ensures |InitialSubjects| == 3 && UniqueIds(InitialSubjects)
    ensures forall i :: 0 <= i < 3 ==> InitialSubjects[i].id == i + 1
    ensures forall i :: 0 <= i < 3 ==> InitialSubjects[i].tp == InitialSubjects[i].td == InitialSubjects[i].exam == ""
    ensures InitialSubjects[0].name == "المادة 1" && InitialSubjects[1].name == "المادة 2" && InitialSubjects[2].name == "المادة 3"
  {
  }

  /** `Math.max(...prev.map((s) => s.id))`. */
  function MaxId(s: seq<Subject>): (m: int)
    requires |s| > 0
    ensures forall i :: 0 <= i < |s| ==> s[i].id <= m
    ensures exists i :: 0 <= i < |s| && s[i].id == m
  {
    if |s| == 1 then s[0].id
    else
      var m := MaxId(s[1..]);
      assert forall i :: 1 <= i < |s| ==> s[i] == s[1..][i - 1];
      if s[0].id >= m then s[0].id else m
  }

  /** The id `addSubject` allocates: one more than the greatest id, or 1 for an empty list. */
  function NextId(s: seq<Subject>): (n: int)
    ensures forall i :: 0 <= i < |s| ==> s[i].id < n
    ensures |s| == 0 ==> n == 1
    ensures |s| > 0 ==> exists i :: 0 <= i < |s| && s[i].id == n - 1
  {
    if |s| > 0 then MaxId(s) + 1 else 1
  }

  /** `addSubject`: the old list unchanged, then one new subject with a fresh id. */
  function WithNewSubject(s: seq<Subject>): (r: seq<Subject>)
    ensures |r| == |s| + 1 && r[..|s|] == s
    ensures r[|s|] == NewSubject(NextId(s))
    ensures forall i :: 0 <= i < |s| ==> r[|s|].id != s[i].id
  {
    s + [NewSubject(NextId(s))]
  }

  /** `removeSubject(id)`: drops every subject with that id, keeps the others. */
  function WithoutSubject(s: seq<Subject>, id: int): (r: seq<Subject>)
    ensures forall x :: x in r <==> x in s && x.id != id
    ensures (forall i :: 0 <= i < |s| ==> s[i].id != id) ==> r == s
    ensures |r| <= |s|
  {
    if s == [] then []
    else
      var rest := WithoutSubject(s[1..], id);
      assert forall x :: x in s <==> x == s[0] || x in s[1..];
      if s[0].id != id then [s[0]] + rest else rest
  }

  /** Removing keeps the order of the rest: it works piecewise on any split of the list. */
  lemma {:induction false} WithoutSubjectAppend(a: seq<Subject>, b: seq<Subject>, id: int)
    ensures WithoutSubject(a + b, id) == WithoutSubject(a, id) + WithoutSubject(b, id)
  {
    if a == [] {
      assert a + b == b;
    } else {
      var ab := a + b;
      assert ab != [] && ab[0] == a[0];
      assert ab[1..] == a[1..] + b;
      WithoutSubjectAppend(a[1..], b, id);
      var tail := WithoutSubject(a[1..], id) + WithoutSubject(b, id);
      if a[0].id != id {
        calc {
          WithoutSubject(ab, id);
          [a[0]] + WithoutSubject(a[1..] + b, id);
          [a[0]] + tail;
          ([a[0]] + WithoutSubject(a[1..], id)) + WithoutSubject(b, id);
        }
      }
    }
  }

  /** `{ ...subject, [field]: value }`. */
  function SetField(x: Subject, field: Field, value: string): (y: Subject)
    ensures y.id == x.id
    ensures y.name == (if field == Name then value else x.name)
    ensures y.tp == (if field == Tp then value else x.tp)
    ensures y.td == (if field == Td then value else x.td)
    ensures y.exam == (if field == Exam then value else x.exam)
  {
    match field
    case Name => x.(name := value)
    case Tp => x.(tp := value)
    case Td => x.(td := value)
    case Exam => x.(exam := value)
  }

  /** `handleSubjectChange(id, field, value)`: edits the subjects with that id in place, leaving the rest alone. */
  function WithChange(s: seq<Subject>, id: int, field: Field, value: string): (r: seq<Subject>)
    ensures |r| == |s|
    ensures forall i :: 0 <= i < |s| ==> r[i].id == s[i].id
    ensures forall i :: 0 <= i < |s| && s[i].id == id ==> r[i] == SetField(s[i], field, value)
    ensures forall i :: 0 <= i < |s| && s[i].id != id ==> r[i] == s[i]
  {
    seq(|s|, i requires 0 <= i < |s| => if s[i].id == id then SetField(s[i], field, value) else s[i])
  }

  lemma AddKeepsIdsUnique(s: seq<Subject>)
    requires UniqueIds(s)
    ensures UniqueIds(WithNewSubject(s))
  {
  }

  lemma {:induction false} RemoveKeepsIdsUnique(s: seq<Subject>, id: int)
    requires UniqueIds(s)
    ensures UniqueIds(WithoutSubject(s, id))
  {
    if s != [] {
      RemoveKeepsIdsUnique(s[1..], id);
      var rest := WithoutSubject(s[1..], id);
      if s[0].id != id {
        forall x | x in rest ensures x.id != s[0].id {
          var k :| 0 <= k < |s[1..]| && s[1..][k] == x;
          assert s[k + 1] == x;
        }
        var r := [s[0]] + rest;
        forall i, j | 0 <= i < j < |r| ensures r[i].id != r[j].id {
          if i == 0 {
            assert r[j] in rest;
          } else {
            assert r[i] == rest[i - 1] && r[j] == rest[j - 1];
          }
        }
      }
    }
  }

  lemma ChangeKeepsIdsUnique(s: seq<Subject>, id: int, field: Field, value: string)
    requires UniqueIds(s)
    ensures UniqueIds(WithChange(s, id, field, value))
  {
  }

  /** A subject's average next to its id, as `subjectAverages` lists it. */
  datatype SubjectAverage = SubjectAverage(id: int, average: real)

  /**
   * `subjectAverages`, with `parse` standing for `parseScore` (the mark, or 0
   * when the text is not a finite number): one entry per subject, same order,
   * same ids, each the mean of the three parsed marks.
   */
  function Averages(s: seq<Subject>, parse: string -> real): (r: seq<SubjectAverage>)
    ensures |r| == |s|
    ensures forall i :: 0 <= i < |s| ==> r[i].id == s[i].id
    ensures forall i :: 0 <= i < |s| ==> r[i].average * 3.0 == parse(s[i].tp) + parse(s[i].td) + parse(s[i].exam)
  {
    seq(|s|, i requires 0 <= i < |s| => SubjectAverage(s[i].id, (parse(s[i].tp) + parse(s[i].td) + parse(s[i].exam)) / 3.0))
  }

  /** `reduce((acc, item) => acc + item.average, 0)`. */
  function Sum(avgs: seq<SubjectAverage>): real {
    if avgs == [] then 0.0 else Sum(avgs[..|avgs| - 1]) + avgs[|avgs| - 1].average
  }

  /** `overallAverage`: the mean of the subject averages, 0 for no subjects. */
  function Overall(avgs: seq<SubjectAverage>): (o: real)
    ensures |avgs| == 0 ==> o == 0.0
    ensures |avgs| > 0 ==> o * (|avgs| as real) == Sum(avgs)
  {
    if |avgs| == 0 then 0.0 else Sum(avgs) / (|avgs| as real)
  }

  lemma {:induction false} SumBounds(avgs: seq<SubjectAverage>, lo: real, hi: real)
    requires forall i :: 0 <= i < |avgs| ==> lo <= avgs[i].average <= hi
    ensures lo * (|avgs| as real) <= Sum(avgs) <= hi * (|avgs| as real)
  {
    if avgs != [] {
      SumBounds(avgs[..|avgs| - 1], lo, hi);
    }
  }

  lemma CancelPositive(x: real, y: real, n: real)
    requires n > 0.0 && x * n <= y * n
    ensures x <= y
  {
  }

  /** The overall average lies between the lowest and the highest subject average. */
  lemma OverallBetween(avgs: seq<SubjectAverage>, lo: real, hi: real)
    requires |avgs| > 0
    requires forall i :: 0 <= i < |avgs| ==> lo <= avgs[i].average <= hi
    ensures lo <= Overall(avgs) <= hi
  {
    SumBounds(avgs, lo, hi);
    var n := |avgs| as real;
    CancelPositive(lo, Overall(avgs), n);
    CancelPositive(Overall(avgs), hi, n);
  }

  /** `subjectAverages.find((item) => item.id === id)`. */
  function Find(avgs: seq<SubjectAverage>, id: int): Option<SubjectAverage> {
    if avgs == [] then None
    else if avgs[0].id == id then Some(avgs[0])
    else Find(avgs[1..], id)
  }

  /** With distinct ids each subject's card shows its own average, never another subject's. */
  lemma {:induction false} FindsOwnAverage(avgs: seq<SubjectAverage>, i: nat)
    requires i < |avgs|
    requires forall j, k :: 0 <= j < k < |avgs| ==> avgs[j].id != avgs[k].id
    ensures Find(avgs, avgs[i].id) == Some(avgs[i])
  {
    if i > 0 {
      assert avgs[0].id != avgs[i].id;
      FindsOwnAverage(avgs[1..], i - 1);
    }
  }

  /** The `subjects` state cell and its three handlers. */
  class SubjectList {
    var subjects: seq<Subject>

    ghost predicate Valid()
      reads this
    {
      UniqueIds(subjects)
    }

    constructor ()
      ensures subjects == InitialSubjects && Valid()
    {
      subjects := InitialSubjects;
    }

    method AddSubject()
      requires Valid()
      modifies this
      ensures subjects == WithNewSubject(old(subjects)) && Valid()
    {
      AddKeepsIdsUnique(subjects);
      subjects := WithNewSubject(subjects);
    }

    method RemoveSubject(id: int)
      requires Valid()
      modifies this
      ensures subjects == WithoutSubject(old(subjects), id) && Valid()
    {
      RemoveKeepsIdsUnique(subjects, id);
      subjects := WithoutSubject(subjects, id);
    }

    method ChangeSubject(id: int, field: Field, value: string)
      requires Valid()
      modifies this
      ensures subjects == WithChange(old(subjects), id, field, value) && Valid()
    {
      ChangeKeepsIdsUnique(subjects, id, field, value);
      subjects := WithChange(subjects, id, field, value);
    }
  }
}
