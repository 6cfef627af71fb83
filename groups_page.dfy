/**
 * The groups page: the teaching groups of the latest enrolment, returned
 * together with that card.
 */
module GroupsPage {
  import opened JsValues
  import opened Enrollment
  import Api

  datatype Group = Group(id: int, nomGroupePedagogique: Option<string>, nomSection: Option<string>)

  /** The query's `{ groups, card }` object. */
  datatype GroupsData = GroupsData(groups: seq<Group>, card: Option<Card>)

  /**
   * The page's query function. Non-array or empty cards give no groups and no
   * card, with no groups request; otherwise the groups of the latest card
   * are requested, a non-array reply counts as no groups, and
   * that card is returned alongside.
   */
  function GroupsQuery(uuid: string, getCards: Backend<Payload<Card>>, getGroups: Backend<Payload<Group>>)
    : (r: Run<GroupsData>)
    ensures var ce := Api.StudentCards(uuid);
            var cards := getCards(ce);
            && (cards.Err? ==> r == Run(Err(cards.error), [ce]))
            && (cards.Ok? && (cards.value.NotArray? || |cards.value.items| == 0) ==>
                  r == Run(Ok(GroupsData([], None)), [ce]))
            && (cards.Ok? && cards.value.Arr? && |cards.value.items| > 0 ==>
                  var c := Latest(cards.value.items);
                  && r.requests == [ce, Api.Groups(c.id)]
                  && var g := getGroups(Api.Groups(c.id));
                     && (g.Err? ==> r.result == Err(g.error))
                     && (g.Ok? && g.value.Arr? ==> r.result == Ok(GroupsData(g.value.items, Some(c))))
                     && (g.Ok? && g.value.NotArray? ==> r.result == Ok(GroupsData([], Some(c)))))
  {
    var ce := Api.StudentCards(uuid);
    match getCards(ce)
    case Err(e) => Run(Err(e), [ce])
    case Ok(NotArray) => Run(Ok(GroupsData([], None)), [ce])
    case Ok(Arr(items)) =>
      if |items| == 0 then Run(Ok(GroupsData([], None)), [ce])
      else
        var latest := Latest(items);
        var ge := Api.Groups(latest.id);
        match getGroups(ge)
        case Err(e) => Run(Err(e), [ce, ge])
        case Ok(NotArray) => Run(Ok(GroupsData([], Some(latest))), [ce, ge])
        case Ok(Arr(groups)) => Run(Ok(GroupsData(groups, Some(latest))), [ce, ge])
  }
}
