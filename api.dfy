/**
 * The HTTP client of the front end: which request each endpoint function sends
 * (method, path, headers, body), the authorization header, and the response
 * interceptor that turns every failure into one error carrying a message.
 * The network itself is a parameter: `send` maps a request to the reply the
 * backend gives.
 */
module Api {
  import opened JsValues

  datatype Verb = Get | Post

  datatype Credentials = Credentials(username: string, password: string)

  datatype Request = Request(verb: Verb, path: string, headers: map<string, string>, body: Option<Credentials>)

  /** What the transport hands to the interceptor. */
  datatype HttpReply<+T> = Response(data: T) | Failure(err: HttpError)

  /**
   * A failed request: `dataMessage` is `error.response.data.message` (missing
   * when there is no response, no body or no message), `message` is
   * `error.message`.
   */
  datatype HttpError = HttpError(dataMessage: Option<string>, message: Option<string>)

  const AuthorizationKey := "Authorization"
  const AcceptKey := "Accept"
  const ImageJpeg := "image/jpeg"
  const LoginPath := "/api/authentication/v1/"
  const UnknownError := "Unknown error"

  /** The raw token as the `Authorization` value, with no scheme prefix, when it is truthy. */
  function AuthHeader(token: Option<string>): (h: map<string, string>)
    ensures AuthorizationKey in h <==> TruthyStr(token)
    ensures AuthorizationKey in h ==> h[AuthorizationKey] == token.value
    ensures h.Keys <= {AuthorizationKey}
  {
    if TruthyStr(token) then map[AuthorizationKey := token.value] else map[]
  }

  /** The interceptor's message: the backend's message, else the transport's, else a fixed text. */
  function ErrorMessage(e: HttpError): (m: string)
    ensures m != ""
    ensures TruthyStr(e.dataMessage) ==> m == e.dataMessage.value
    ensures !TruthyStr(e.dataMessage) && TruthyStr(e.message) ==> m == e.message.value
    ensures !TruthyStr(e.dataMessage) && !TruthyStr(e.message) ==> m == UnknownError
  {
    OrText(e.dataMessage, OrText(e.message, UnknownError))
  }

  /**
   * The response interceptor followed by the `const { data } = ...` of every
   * endpoint function: a success yields its data untouched, a failure rejects
   * with a fresh error whose message is never empty.
   */
  function Intercept<T>(reply: HttpReply<T>): (r: Result<T>)
    ensures r.Ok? <==> reply.Response?
    ensures reply.Response? ==> r.value == reply.data
    ensures reply.Failure? ==> r.error == ErrorMessage(reply.err) && r.error != ""
  {
    match reply
    case Response(data) => Ok(data)
    case Failure(e) => Err(ErrorMessage(e))
  }

  /** The login POST: exactly the two credentials as body, no headers. */
  function LoginRequest(username: string, password: string): Request {
    Request(Post, LoginPath, map[], Some(Credentials(username, password)))
  }

  /** `login(username, password)`: the response data unchanged, or the interceptor's error. */
  function Login<T>(send: Request -> HttpReply<T>, username: string, password: string): (r: Result<T>)
    ensures var q := LoginRequest(username, password);
            && q.verb == Post && q.path == LoginPath && q.headers == map[]
            && q.body == Some(Credentials(username, password))
            && (r.Ok? <==> send(q).Response?)
            && (r.Ok? ==> r.value == send(q).data)
            && (r.Err? ==> r.error == ErrorMessage(send(q).err))
  {
    Intercept(send(LoginRequest(username, password)))
  }

  /** Every GET endpoint of the client, with the identifiers it interpolates. */
  datatype Endpoint =
    | StudentCards(uuid: string)
    | TransportState(uuid: string, cardId: int)
    | Accommodation(uuid: string)
    | IndividualInfo(uuid: string)
    | ExamGrades(cardId: int)
    | ExamSchedule(offerId: Option<int>, levelId: Option<int>)
    | Groups(cardId: int)
    | Subjects(offerId: Option<int>, levelId: Option<int>)
    | SubjectSchedule(cardId: int)
    | BacInfo(uuid: string)
    | BacGrades(uuid: string)
    | AcademicTranscripts(uuid: string, cardId: int)
    | AcademicDecision(uuid: string, cardId: int)
    | CCGrades(cardId: int)
    | CurrentAcademicYear
    | AcademicPeriods(yearId: int)
    | Discharge(uuid: string)
    | Debts(uuid: string)
    | StudentPhoto(uuid: string)
    | EstablishmentLogo(establishmentId: string)

  /**
   * The literal pieces of each endpoint's path template; the identifiers of
   * `Params` go between consecutive pieces.
   */
  function Pieces(e: Endpoint): (lits: seq<string>)
    ensures |lits| == |Params(e)| + 1
  {
    match e
    case StudentCards(_) => ["/api/infos/bac/", "/dias"]
    case TransportState(_, _) => ["/api/infos/demandeTransport/", "/", ""]
    case Accommodation(_) => ["/api/infos/bac/", "/demandesHebregement"]
    case IndividualInfo(_) => ["/api/infos/bac/", "/individu"]
    case ExamGrades(_) => ["/api/infos/planningSession/dia/", "/noteExamens"]
    case ExamSchedule(_, _) => ["/api/infos/Examens/", "/niveau/", "/examens"]
    case Groups(_) => ["/api/infos/dia/", "/groups"]
    case Subjects(_, _) => ["/api/infos/offreFormation/", "/niveau/", "/Coefficients"]
    case SubjectSchedule(_) => ["/api/infos/seanceEmploi/inscription/", ""]
    case BacInfo(_) => ["/api/infos/bac/", ""]
    case BacGrades(_) => ["/api/infos/bac/", "/notes"]
    case AcademicTranscripts(_, _) => ["/api/infos/bac/", "/dias/", "/periode/bilans"]
    case AcademicDecision(_, _) => ["/api/infos/bac/", "/dia/", "/annuel/bilan"]
    case CCGrades(_) => ["/api/infos/controleContinue/dia/", "/notesCC"]
    case CurrentAcademicYear => ["/api/infos/AnneeAcademicqueEncours"]
    case AcademicPeriods(_) => ["/api/infos/niveau/", "/periodes"]
    case Discharge(_) => ["/api/", "/qitus"]
    case Debts(_) => ["/api/infos/dettes/", ""]
    case StudentPhoto(_) => ["/api/infos/image/", ""]
    case EstablishmentLogo(_) => ["/api/infos/logoEtablissement/", ""]
  }

  /** A template literal: `lits[0] + ps[0] + lits[1] + ... + lits[n]`. */
  function Weave(lits: seq<string>, ps: seq<string>): string
    requires |lits| == |ps| + 1
  {
    if ps == [] then lits[0] else lits[0] + ps[0] + Weave(lits[1..], ps[1..])
  }

  /** The path of each endpoint: its template with its identifiers spliced in. */
  function Path(e: Endpoint): string {
    Weave(Pieces(e), Params(e))
  }

  /** The text of each identifier an endpoint interpolates, in template order. */
  function Params(e: Endpoint): seq<string> {
    match e
    case StudentCards(u) => [u]
    case TransportState(u, c) => [u, IntToString(c)]
    case Accommodation(u) => [u]
    case IndividualInfo(u) => [u]
    case ExamGrades(c) => [IntToString(c)]
    case ExamSchedule(o, l) => [InterpNum(o), InterpNum(l)]
    case Groups(c) => [IntToString(c)]
    case Subjects(o, l) => [InterpNum(o), InterpNum(l)]
    case SubjectSchedule(c) => [IntToString(c)]
    case BacInfo(u) => [u]
    case BacGrades(u) => [u]
    case AcademicTranscripts(u, c) => [u, IntToString(c)]
    case AcademicDecision(u, c) => [u, IntToString(c)]
    case CCGrades(c) => [IntToString(c)]
    case CurrentAcademicYear => []
    case AcademicPeriods(y) => [IntToString(y)]
    case Discharge(u) => [u]
    case Debts(u) => [u]
    case StudentPhoto(u) => [u]
    case EstablishmentLogo(id) => [id]
  }

  predicate IsImage(e: Endpoint) {
    e.StudentPhoto? || e.EstablishmentLogo?
  }

  /**
   * The headers of each GET: the authorization header everywhere except the
   * discharge endpoint, which sends none, plus `Accept: image/jpeg` on the two
   * image endpoints.
   */
  function Headers(e: Endpoint, token: Option<string>): (h: map<string, string>)
    ensures AuthorizationKey in h <==> !e.Discharge? && TruthyStr(token)
    ensures AuthorizationKey in h ==> h[AuthorizationKey] == token.value
    ensures AcceptKey in h <==> IsImage(e)
    ensures AcceptKey in h ==> h[AcceptKey] == ImageJpeg
    ensures h.Keys <= {AuthorizationKey, AcceptKey}
  {
    if e.Discharge? then map[]
    else if IsImage(e) then AuthHeader(token)[AcceptKey := ImageJpeg]
    else AuthHeader(token)
  }

  function RequestFor(e: Endpoint, token: Option<string>): Request {
    Request(Get, Path(e), Headers(e, token), None)
  }

  /** `x` appears as a contiguous piece of `s`. */
  ghost predicate Occurs(x: string, s: string) {
    exists i :: 0 <= i <= |s| - |x| && OccursAt(x, s, i)
  }

  ghost predicate OccursAt(x: string, s: string, i: int)
    requires 0 <= i <= |s| - |x|
  {
    s[i..i + |x|] == x
  }

  lemma {:induction false} WeaveOccurs(lits: seq<string>, ps: seq<string>, k: nat)
    requires |lits| == |ps| + 1 && k < |ps|
    ensures Occurs(ps[k], Weave(lits, ps))
  {
    var rest := Weave(lits[1..], ps[1..]);
    var w := Weave(lits, ps);
    assert w == lits[0] + ps[0] + rest;
    if k == 0 {
      assert OccursAt(ps[0], w, |lits[0]|);
    } else {
      WeaveOccurs(lits[1..], ps[1..], k - 1);
      var i :| 0 <= i <= |rest| - |ps[k]| && OccursAt(ps[k], rest, i);
      var j := |lits[0]| + |ps[0]| + i;
      assert w[j..j + |ps[k]|] == rest[i..i + |ps[k]|];
      assert OccursAt(ps[k], w, j);
    }
  }

  /** The cards endpoint: `/api/infos/bac/{uuid}/dias`, authorized by the raw token when there is one. */
  lemma StudentCardsRequest(uuid: string, token: Option<string>)
    ensures RequestFor(StudentCards(uuid), token).path == "/api/infos/bac/" + uuid + "/dias"
    ensures RequestFor(StudentCards(uuid), token).headers == AuthHeader(token)
  {
    var lits, ps := Pieces(StudentCards(uuid)), Params(StudentCards(uuid));
    assert Weave(lits[1..], ps[1..]) == "/dias";
  }

  /**
   * Every request is a GET without body on a path built from a
   * fixed template in which every identifier of the endpoint appears verbatim.
   */
  lemma RequestCarriesIds(e: Endpoint, token: Option<string>)
    ensures var q := RequestFor(e, token);
            && q.verb == Get && q.body == None
            && q.path == Weave(Pieces(e), Params(e))
            && forall k :: 0 <= k < |Params(e)| ==> Occurs(Params(e)[k], q.path)
  {
    forall k | 0 <= k < |Params(e)| ensures Occurs(Params(e)[k], Path(e)) {
      WeaveOccurs(Pieces(e), Params(e), k);
    }
  }
}
