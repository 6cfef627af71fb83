/**
 * The home page: a greeting, the academic-year badge and the block with the
 * latest enrolment's details, all derived from the cards query.
 */
module HomePage {
  import opened JsValues
  import opened UserCodec
  import opened Enrollment

  /** `latestCard`: the first card by id descending; absent for an empty list or non-array data. */
  function HomeLatest(cards: Payload<Card>): (l: Option<Card>)
    ensures l.Some? <==> cards.Arr? && |cards.items| > 0
    ensures l.Some? ==> IsLatest(l.value, cards.items)
  {
    if cards.Arr? && |cards.items| > 0 then Some(Latest(cards.items)) else None
  }

  /** The text after "Welcome": the card's names, else the user's name, else nothing. */
  function GreetingSuffix(latest: Option<Card>, user: Option<User>): (s: string)
    ensures latest.Some? ==> s == ", " + InterpStr(FirstName(latest.value)) + " " + InterpStr(LastName(latest.value))
    ensures latest.None? && user.Some? && TruthyStr(user.value.userName) ==> s == ", " + user.value.userName.value
    ensures s == "" <==> latest.None? && !(user.Some? && TruthyStr(user.value.userName))
  {
    match latest
    case Some(c) => ", " + InterpStr(FirstName(c)) + " " + InterpStr(LastName(c))
    case None =>
      if user.Some? && TruthyStr(user.value.userName) then ", " + user.value.userName.value else ""
  }

  /** The "Latest Enrollment" block: the name line and the registration number. */
  datatype LatestBlock = LatestBlock(name: string, registration: string)

  datatype HomeView = HomeView(greeting: string, yearBadge: Option<string>, latestBlock: Option<LatestBlock>)

  /**
   * The rendered page: the badge appears exactly with a latest card; the
   * block exactly with a latest card once loading has finished without error.
   */
  function Home(cards: Payload<Card>, user: Option<User>, isLoading: bool, hasError: bool): (v: HomeView)
    ensures v.yearBadge.Some? <==> cards.Arr? && |cards.items| > 0
    ensures v.latestBlock.Some? <==> cards.Arr? && |cards.items| > 0 && !isLoading && !hasError
    ensures cards.Arr? && |cards.items| > 0 ==>
              var c := Latest(cards.items);
              && v.greeting == "Welcome, " + InterpStr(FirstName(c)) + " " + InterpStr(LastName(c))
              && v.yearBadge == Some(JsxStr(YearCode(c)))
              && (v.latestBlock.Some? ==>
                    v.latestBlock.value == LatestBlock(JsxStr(FirstName(c)) + " " + JsxStr(LastName(c)),
                                                       JsxStr(RegistrationOf(c))))
    ensures !(cards.Arr? && |cards.items| > 0) ==>
              v.greeting == (if user.Some? && TruthyStr(user.value.userName) then "Welcome, " + user.value.userName.value
                             else "Welcome")
  {
    var latest := HomeLatest(cards);
    var greeting := "Welcome" + GreetingSuffix(latest, user);
    match latest
    case None => HomeView(greeting, None, None)
    case Some(c) =>
      var block := LatestBlock(JsxStr(FirstName(c)) + " " + JsxStr(LastName(c)), JsxStr(RegistrationOf(c)));
      HomeView(greeting, Some(JsxStr(YearCode(c))), if !isLoading && !hasError then Some(block) else None)
  }
}
