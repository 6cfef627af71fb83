# progres-frontend — a verified model of its logic

progres-frontend is a React client for the Progres student information
system. A student signs in, the session is kept in browser storage, and a
route guard sends anyone without a session to the login form. The dashboard
pages then fetch the student's enrolment cards. Each page picks the latest
enrolment (the card with the greatest `id`) and fetches one resource of it:
timetable, exam timetable, groups, subjects, transcripts and decision,
continuous-assessment grades, exam grades or transport status. Each page then
shows that resource with small display fallbacks. An offline calculator keeps
an editable list of subjects and averages their marks.

This project models that logic in Dafny and proves what it promises:

- Session store: the `user` cell and the `progres_user` storage entry kept in
  step by `login` and `logout`. This includes a JSON-style codec whose round
  trip is proved, so a reload after login restores the same user.
- Route guard: with no user it redirects to `/login` and carries the location
  asked for.
- Login form: the return target, trimming of the credentials, and the
  `error`/`loading` states around the awaited login.
- HTTP client: the authorization header, the interceptor's error message,
  the login request, and the method, path and headers of every endpoint.
- Latest-card rule: a stable sort by `id` descending, then element 0,
  defined once as `Enrollment.Latest`. The pages that fetch one resource of
  the latest card share one query function with a page-specific empty value.
  The exam timetable, groups, home and cards pages apply the rule, or the
  sort, directly.
- Per-page orderings and fallbacks: timetable by day then start time; exam
  timetable gathered per period, flattened and sorted by date key; cards most
  recent first; `??` versus `||` fallbacks in the cells.
- Average calculator: add, remove and change by id, with ids kept pairwise
  distinct, and the derived averages.

Replies from the backend are function parameters (`Backend<T>`: the settled
result of each request). A query therefore returns its result together with
the exact list of requests it issued, so "no further request when there are
no cards" and "one request per period" can be stated. JavaScript's `||`
tests truthiness (`""` and `0` fall through), `??` tests only for a missing
value, and a template literal prints an absent field as `undefined`. These
rules live in `js_values.dfy`. `Array.prototype.sort` is stable, so its result
is determined by the comparator; `lists.dfy` computes that result with an
insertion sort over a total preorder.

## Model

| member | source | states |
|---|---|---|
| Api.AuthHeader | src/services/api.js:29-31 | Authorization is present exactly when the token is truthy, holds the raw token with no scheme prefix, and is the only key |
| Api.ErrorMessage | src/services/api.js:23 | the backend's `data.message` if truthy, else `error.message` if truthy, else "Unknown error"; never empty |
| Api.Intercept | src/services/api.js:20-26 | a success passes its data through unchanged; every failure becomes an error carrying that message |
| Api.Login | src/services/api.js:33-36 | POST to `/api/authentication/v1/` with exactly `{username, password}` and no headers; the result is the response data or the interceptor's error |
| Api.Headers | src/services/api.js:118-137 | every endpoint sends the auth header except the discharge endpoint, which sends none; exactly the two image endpoints add `Accept: image/jpeg`; no other header |
| Api.StudentCardsRequest | src/services/api.js:38-41 | the cards request goes to `/api/infos/bac/{uuid}/dias` with the auth header |
| Api.RequestCarriesIds | src/services/api.js:38-139 | every endpoint is a GET with no body, on its fixed template with its ids spliced in, and every id appears verbatim in the path |
| UserCodec.DecodeEncode | src/context/AuthContext.jsx:10-16 | parsing the stored text gives back exactly the user that was stored |
| Session.ReloadAfterLogin | src/context/AuthContext.jsx:9-16 | the initial user restored after a login is the user that logged in |
| Session.ReloadAfterLogout | src/context/AuthContext.jsx:9-21 | the initial user restored after a logout is null |
| Session.LogoutIdempotent | src/context/AuthContext.jsx:19-22 | logging out twice leaves the same storage as logging out once |
| Session.OnlyOwnKeyWritten | src/context/AuthContext.jsx:13-22 | login and logout change no storage entry other than `progres_user` |
| Session.OnlyOwnKeyRead | src/context/AuthContext.jsx:8-11 | the restored user depends on the `progres_user` entry alone |
| Session.AuthStore.constructor | src/context/AuthContext.jsx:8-11 | the initial user is the parsed entry when truthy, else null, and agrees with storage |
| Session.AuthStore.Login | src/context/AuthContext.jsx:13-17 | on success the user is the response data and storage holds its serialisation; on rejection neither cell changes and the error is passed on |
| Session.AuthStore.Logout | src/context/AuthContext.jsx:19-22 | the user is null, `progres_user` is removed, and cell and storage still agree |
| RouteGuard.Guard | src/components/RequireAuth.jsx:11-18 | the outlet renders exactly when there is a user; otherwise a replacing redirect to `/login` carrying the location as `state.from` |
| LoginPage.ReturnTarget | src/pages/LoginPage.jsx:15 | `state.from.pathname` when present and non-empty, and "/" in every other case (no state, no `from`, or an empty pathname) |
| LoginPage.GuardThenLoginReturns | src/components/RequireAuth.jsx:13-15 | a visitor redirected by the guard is sent back, after login, to the path first asked for |
| LoginPage.Trim | src/pages/LoginPage.jsx:22 | the result is the input without leading and trailing JavaScript whitespace, and itself neither starts nor ends with whitespace |
| LoginPage.TrimIdempotent | src/pages/LoginPage.jsx:22 | trimming twice equals trimming once |
| LoginPage.FailureText | src/pages/LoginPage.jsx:25 | the error's message when it is non-empty, and "Failed to authenticate" exactly when it is empty |
| LoginPage.LoginFailureShowsBackendMessage | src/pages/LoginPage.jsx:24-25 | a rejected login always shows the interceptor's message, never the fallback text |
| LoginPage.LoginForm.constructor | src/pages/LoginPage.jsx:10-13 | empty fields, no error, not loading |
| LoginPage.LoginForm.BeginSubmit | src/pages/LoginPage.jsx:19-20 | a submit first clears the error and sets loading |
| LoginPage.LoginForm.FinishSubmit | src/pages/LoginPage.jsx:22-28 | success navigates to the target with replace; failure shows the message and stays; loading ends false either way |
| LoginPage.LoginForm.HandleSubmit | src/pages/LoginPage.jsx:17-29 | logs in with the trimmed credentials; navigation exactly on success, to the return target with replace; on success the user is the reply and storage is the old storage with the session entry written; on failure the error is the backend message and the session is unchanged; loading ends false |
| Lists.SortBy | src/pages/CardsPage.jsx:25 | sorting a copy keeps exactly the same elements (a permutation) |
| Lists.SortBySorted | src/pages/CardsPage.jsx:25 | the sorted copy is ordered by the comparator |
| Lists.SortByHead | src/pages/SchedulePage.jsx:19 | the first element of the stable sort is the earliest element that nothing before it precedes |
| Lists.FlattenSlice | src/pages/ExamSchedulePage.jsx:34 | the flattened list holds each inner list as one contiguous block, in order |
| Enrollment.SortedByIdDesc | src/pages/CardsPage.jsx:24-26 | a permutation of the cards ordered by id descending |
| Enrollment.Latest | src/pages/SchedulePage.jsx:19 | element 0 of the sorted copy is a card of the list whose id is at least every card's id |
| Enrollment.LatestIsFirstOfMaxId | src/pages/SchedulePage.jsx:19 | among cards sharing the greatest id, the one listed first is taken |
| Enrollment.LatestIgnoresOrder | src/pages/SchedulePage.jsx:19 | with distinct ids, the latest card does not depend on the order the backend lists the cards in |
| Enrollment.LevelOf | src/pages/ExamSchedulePage.jsx:26 | `niveauId`, or `levelId` when it is missing or 0 |
| Enrollment.OfferOf | src/pages/SubjectsPage.jsx:24 | `ouvertureOffreFormationId`, or `openingTrainingOfferId` when it is missing or 0 |
| Enrollment.LatestCardQuery | src/pages/SchedulePage.jsx:16-21 | a cards error is passed on; no cards gives the page's empty value with no second request; otherwise one request for the latest card (the first card with the greatest id), whose reply is the result |
| SchedulePage.ScheduleQuery | src/pages/SchedulePage.jsx:16-21 | `[]` without cards, else the timetable of the latest card |
| SchedulePage.Sorted | src/pages/SchedulePage.jsx:26-35 | non-array data gives `[]`; otherwise a permutation of the data with days ascending (missing day = 0) and, within a day, start times ascending (missing = "") |
| SchedulePage.TimeCell | src/pages/SchedulePage.jsx:63-65 | `start – end` when both are truthy, else the slot label, else "-"; never empty |
| ExamSchedulePage.PeriodRequests | src/pages/ExamSchedulePage.jsx:30-32 | one exam request per period, in period order, each with that period's id and the same level id |
| ExamSchedulePage.FetchAll | src/pages/ExamSchedulePage.jsx:30-32 | succeeds exactly when every request does, with the replies in request order; otherwise fails with the error of the first failed request |
| ExamSchedulePage.SortedExams | src/pages/ExamSchedulePage.jsx:36-40 | a permutation ordered by the key `dateExamen + ' ' + (heureDebut or '')` |
| ExamSchedulePage.FetchExams | src/pages/ExamSchedulePage.jsx:28-41 | year, then its periods, then the per-period requests; the first failure is passed on; else the rows of all periods' replies (the exams of an array reply, one blank row for any other reply), sorted and none lost |
| ExamSchedulePage.ExamScheduleQuery | src/pages/ExamSchedulePage.jsx:21-42 | a cards error is passed on; no cards gives `[]` with no year or period request; otherwise the remaining steps use the level of the latest card |
| ExamSchedulePage.EveryPeriodKept | src/pages/ExamSchedulePage.jsx:34 | every row of every period's reply appears in the sorted result |
| ExamSchedulePage.NonArrayReplyShowsBlankRow | src/pages/ExamSchedulePage.jsx:34 | a period whose reply is not an array contributes one row without exam fields instead of failing |
| CardsPage.CardsQuery | src/pages/CardsPage.jsx:18-22 | the query runs exactly when there is a user, with one request for that user's cards |
| CardsPage.SortedCards | src/pages/CardsPage.jsx:24-26 | non-array data gives `[]`; otherwise a permutation of the cards ordered by id descending |
| CardsPage.NoCardsMessage | src/pages/CardsPage.jsx:63 | "No cards found." shows exactly when the data is not a non-empty array and the page is not loading |
| HomePage.HomeLatest | src/pages/HomePage.jsx:25-27 | a latest card exists exactly for a non-empty array, and it has the greatest id |
| HomePage.GreetingSuffix | src/pages/HomePage.jsx:36-42 | the card's first and last names (French, else English) with a latest card, else the user name when truthy; empty exactly when neither applies |
| HomePage.Home | src/pages/HomePage.jsx:34-106 | the year badge shows exactly with a latest card; the enrolment block exactly with a latest card, not loading and no error; it shows the card's names and registration number with their fallbacks |
| GroupsPage.GroupsQuery | src/pages/GroupsPage.jsx:16-31 | non-array or empty cards give no groups and no card, with no groups request; otherwise the groups of the latest card, `[]` for a non-array reply, returned with that card |
| SubjectsPage.SubjectsQuery | src/pages/SubjectsPage.jsx:20-27 | `[]` without cards, else the subjects of the latest card's offer and level |
| SubjectsPage.SubjectsRequestFallbacks | src/pages/SubjectsPage.jsx:23-26 | the subjects request carries exactly the latest card's offer id and level id, each with its fallback field |
| TranscriptsPage.TranscriptsQuery | src/pages/TranscriptsPage.jsx:27-32 | `[]` without cards, else the transcripts of the latest card |
| TranscriptsPage.DecisionQuery | src/pages/TranscriptsPage.jsx:38-43 | null without cards, else the decision of the latest card |
| TranscriptsPage.QueriesAgreeOnCard | src/pages/TranscriptsPage.jsx:30-42 | given the same cards, both queries ask about the same card id |
| TranscriptsPage.Toggled | src/pages/TranscriptsPage.jsx:67-71 | after a click on a row, that row is open exactly when it was closed, and no other row is open |
| TranscriptsPage.ToggleTwice | src/pages/TranscriptsPage.jsx:71 | two clicks on a row restore the state when no row or that row was open; otherwise all rows end closed |
| TranscriptsPage.Accordion.constructor | src/pages/TranscriptsPage.jsx:20 | no row is open at first |
| TranscriptsPage.Accordion.Click | src/pages/TranscriptsPage.jsx:71 | the open row becomes the toggled one |
| TranscriptsPage.Panel | src/pages/TranscriptsPage.jsx:50-60 | the panel shows exactly with a decision; its caption is the decision type or "—"; the year average shows exactly when `moyenne` is not null |
| TranscriptsPage.AverageCell | src/pages/TranscriptsPage.jsx:77 | a present average (0 included) shows as a number, else "—" |
| CCGradesPage.CCGradesQuery | src/pages/CCGradesPage.jsx:20-25 | `[]` without cards, else the CC grades of the latest card |
| CCGradesPage.NoteCell | src/pages/CCGradesPage.jsx:53 | a present note (0 included) shows as a number; "Absent" exactly for a missing note with the absent flag; "–" exactly for a missing note without it |
| CCGradesPage.ObservationCell | src/pages/CCGradesPage.jsx:54 | the observation when truthy, else "-"; never empty |
| CCGradesPage.Rows | src/pages/CCGradesPage.jsx:46-56 | one row per grade, in backend order, unsorted and unfiltered |
| ExamGradesPage.ExamGradesQuery | src/pages/ExamGradesPage.jsx:19-24 | `[]` without cards, else the exam grades of the latest card |
| ExamGradesPage.NoteCell | src/pages/ExamGradesPage.jsx:51 | a present note (0 included) shows as a number, else "–" |
| ExamGradesPage.NoteColumn | src/pages/ExamGradesPage.jsx:45-54 | one cell per grade, in backend order, with no partitioning or filtering |
| TransportPage.TransportQuery | src/pages/TransportPage.jsx:16-21 | null (not `[]`) without cards, else the transport state of the latest card |
| TransportPage.Render | src/pages/TransportPage.jsx:30-38 | the paid line shows exactly with data, reading "Yes" exactly when paid; the no-data message exactly without data when not loading |
| TransportPage.NoCardsNoTransport | src/pages/TransportPage.jsx:16-37 | without cards only the cards are requested and the page says there is no transport data |
| AverageCalculator.InitialSubjectsShape | src/pages/AverageCalculatorPage.jsx:3-7 | three subjects with ids 1, 2, 3, the default names and empty marks; ids distinct |
| AverageCalculator.MaxId | src/pages/AverageCalculatorPage.jsx:27 | the greatest id, attained by some subject |
| AverageCalculator.NextId | src/pages/AverageCalculatorPage.jsx:27 | greater than every id; 1 for an empty list, else one more than an existing id |
| AverageCalculator.WithNewSubject | src/pages/AverageCalculatorPage.jsx:25-33 | the old list unchanged, followed by exactly one new subject with the next id, the default name and empty marks |
| AverageCalculator.WithoutSubject | src/pages/AverageCalculatorPage.jsx:35-37 | keeps exactly the subjects whose id differs; an absent id changes nothing |
| AverageCalculator.WithoutSubjectAppend | src/pages/AverageCalculatorPage.jsx:36 | removal works piecewise over any split of the list, so the rest keep their order |
| AverageCalculator.SetField | src/pages/AverageCalculatorPage.jsx:20 | only the named field takes the new value; id and other fields unchanged |
| AverageCalculator.WithChange | src/pages/AverageCalculatorPage.jsx:17-23 | same length, order and ids; the subjects with that id get the field set; all others unchanged |
| AverageCalculator.AddKeepsIdsUnique | src/pages/AverageCalculatorPage.jsx:25-33 | adding keeps ids pairwise distinct |
| AverageCalculator.RemoveKeepsIdsUnique | src/pages/AverageCalculatorPage.jsx:35-37 | removing keeps ids pairwise distinct |
| AverageCalculator.ChangeKeepsIdsUnique | src/pages/AverageCalculatorPage.jsx:17-23 | a change keeps ids pairwise distinct |
| AverageCalculator.Averages | src/pages/AverageCalculatorPage.jsx:39-47 | one entry per subject, same order, same ids, each the mean of the three parsed marks |
| AverageCalculator.Overall | src/pages/AverageCalculatorPage.jsx:49-53 | 0 with no subjects, else the sum of the averages divided by their count |
| AverageCalculator.OverallBetween | src/pages/AverageCalculatorPage.jsx:49-53 | the overall average lies between the lowest and the highest subject average |
| AverageCalculator.FindsOwnAverage | src/pages/AverageCalculatorPage.jsx:78-80 | with distinct ids, each subject's lookup finds its own average |
| AverageCalculator.SubjectList.constructor | src/pages/AverageCalculatorPage.jsx:15 | starts from the initial subjects, ids distinct |
| AverageCalculator.SubjectList.AddSubject | src/pages/AverageCalculatorPage.jsx:25-33 | the list becomes the list with a new subject, ids still distinct |
| AverageCalculator.SubjectList.RemoveSubject | src/pages/AverageCalculatorPage.jsx:35-37 | the list loses the subjects with that id, ids still distinct |
| AverageCalculator.SubjectList.ChangeSubject | src/pages/AverageCalculatorPage.jsx:17-23 | the list gets the field change, ids still distinct |

## Left out

- HTTP, axios and React Query: the network, caching, retries and the loading and error flags are not modelled. Each awaited reply is a parameter. The base URL prefix from the build environment is left out, so paths are relative.
- The `enabled: !!user` guard is modelled once, in `CardsPage.CardsQuery`. The other page queries take the signed-in user's uuid, since they only run with a user.
- Lists.SortBy: stability is proved only for the first element (`Lists.SortByHead`), not for the whole order.
- SchedulePage.Sorted: `localeCompare` is modelled as plain lexicographic order on code points. Locale collation is not modelled.
- ExamSchedulePage.SortedExams: `localeCompare` is modelled as plain lexicographic order on code points.
- ExamSchedulePage.FetchAll: `Promise.all` is modelled as reporting the first failure in request order. The real call reports the first to reject in time. All requests are issued either way.
- ExamSchedulePage.FetchExams: the in-place sort of the local `annotated` array is modelled as returning a sorted copy. That array is fresh and unshared, so nothing can observe the difference.
- Enrollment.LatestCardQuery: the cards reply is modelled as a list, so non-array replies are not modelled. The exam timetable, subjects, transcripts, decision, CC grades, exam grades and transport queries test `!cards.length`. For them a non-array object counts as no cards and gives the page's empty value, and only a `null` reply throws a `TypeError`. The timetable query tests `cards.length === 0`, so a non-array object gets past the test and `[...cards]` throws a `TypeError`; a `null` reply throws too. The groups, home and cards pages test `Array.isArray` and are modelled with non-array replies.
- ExamSchedulePage.FetchExams: the periods and year replies are modelled as a list and an object with an `id`; other shapes are not modelled. A non-array per-period reply is modelled as one row without exam fields. That is exact for `null` and for values without own properties, but a non-array object carrying exam field names would show them.
- JsValues.InterpStr and JsValues.InterpNum: `Option` does not tell a JSON `null` from an absent field. The model prints both as `undefined`, while a template literal prints `null` for a `null` value. This affects `ExamSchedulePage.ExamKey` (a `null` `dateExamen`), `HomePage.GreetingSuffix` and `HomePage.Home` (the name fallbacks) and `Api.Params` (the offer and level ids of the subjects and exam-timetable paths).
- UserCodec.Decode: it accepts only the layout `UserCodec.Encode` writes. Key order, whitespace, extra fields and `\u` escapes are not parsed.
- UserCodec.Encode: control characters are written as they are rather than escaped as `JSON.stringify` does. The round trip is unaffected.
- Session.AuthStore: the `setUser` exposed by the context is not modelled. Only `login` and `logout` write the session.
- LoginPage.LoginForm.HandleSubmit: the re-render between setting `loading` and the awaited login is not observable in the model. `BeginSubmit` and `FinishSubmit` state the two halves.
- AverageCalculator.Averages: `parseScore` is a parameter standing for `parseFloat` with its finiteness check. Marks are exact reals rather than IEEE doubles, and `toFixed(2)` formatting is not modelled.
- HomePage.HomeLatest: the `null` for non-array data and the `undefined` for an empty array both become "no latest card". Both are falsy, and the page treats them alike.
- TransportPage.Render and TranscriptsPage.Panel: the reply is modelled as an object or null. Other falsy replies (`0`, `""`) are not modelled.
- Pure presentation is not modelled: markup, styling, the accordion body (units and subject tables), base64 images, the layouts and the menu toggle, the route table and the dev-server proxy.
- The display-only pages are not modelled: bac information, accommodation, profile and discharge. Their only logic repeats the latest-card rule.
