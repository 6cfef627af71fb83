/**
 * The login form: where to go back to after signing in, the trimming of the
 * credentials, and the submit handler's `error`/`loading` states around the
 * awaited login.
 */
module LoginPage {
  import opened JsValues
  import opened UserCodec
  import opened RouteGuard
  import Session
  import Api

  const DefaultTarget := "/"
  const DefaultError := "Failed to authenticate"

  /** `location.state?.from?.pathname || '/'`. */
  function ReturnTarget(location: Location): (t: string)
    ensures t != ""
    ensures location.state.Some? && location.state.value.from.Some? && location.state.value.from.value.pathname != ""
            ==> t == location.state.value.from.value.pathname
    ensures !(location.state.Some? && location.state.value.from.Some? && location.state.value.from.value.pathname != "")
            ==> t == DefaultTarget
  {
    match location.state
    case Some(NavState(Some(from))) => if from.pathname != "" then from.pathname else DefaultTarget
    case _ => DefaultTarget
  }

  /**
   * The guard and the login page together: a visitor sent to the login route
   * from a (non-empty) path is sent back to that same path after signing in.
   */
  lemma GuardThenLoginReturns(location: Location)
    requires location.pathname != ""
    ensures Guard(None, location).Redirect?
    ensures Arrive(Guard(None, location).nav).pathname == LoginRoute
    ensures ReturnTarget(Arrive(Guard(None, location).nav)) == location.pathname
  {
  }

  /** JavaScript's WhiteSpace and LineTerminator characters, which `trim` removes. */
  predicate IsWhitespace(c: char) {
    || c == '\t' || c == '\U{B}' || c == '\U{C}' || c == ' ' || c == '\U{A0}' || c == '\U{FEFF}'
    || c == '\n' || c == '\r' || c == '\U{2028}' || c == '\U{2029}'
    || c == '\U{1680}' || ('\U{2000}' <= c <= '\U{200A}') || c == '\U{202F}' || c == '\U{205F}' || c == '\U{3000}'
  }

  ghost predicate AllWhitespace(s: string) {
    forall k :: 0 <= k < |s| ==> IsWhitespace(s[k])
  }

  /** The number of whitespace characters at the start of `s`. */
  function LeadingWhitespace(s: string): (n: nat)
    ensures n <= |s|
    ensures AllWhitespace(s[..n])
    ensures n < |s| ==> !IsWhitespace(s[n])
  {
    if s == [] || !IsWhitespace(s[0]) then 0
    else
      var n := 1 + LeadingWhitespace(s[1..]);
      assert forall k :: 1 <= k < n ==> s[..n][k] == s[1..][..n - 1][k - 1];
      n
  }

  /** The number of whitespace characters at the end of `s`. */
  function TrailingWhitespace(s: string): (n: nat)
    ensures n <= |s|
    ensures AllWhitespace(s[|s| - n..])
    ensures n < |s| ==> !IsWhitespace(s[|s| - 1 - n])
  {
    if s == [] || !IsWhitespace(s[|s| - 1]) then 0
    else
      var p := s[..|s| - 1];
      var n := 1 + TrailingWhitespace(p);
      assert forall k :: |s| - n <= k < |s| - 1 ==> s[k] == p[k];
      n
  }

  ghost predicate TrimmedAt(s: string, r: string, i: int) {
    0 <= i <= |s| - |r| && s[i..i + |r|] == r && AllWhitespace(s[..i]) && AllWhitespace(s[i + |r|..])
  }

  /**
   * `s.trim()`: the part of `s` between its leading and trailing whitespace,
   * which neither starts nor ends with whitespace.
   */
  function Trim(s: string): (r: string)
    ensures exists i :: TrimmedAt(s, r, i)
    ensures r != [] ==> !IsWhitespace(r[0]) && !IsWhitespace(r[|r| - 1])
  {
    var i := LeadingWhitespace(s);
    var t := s[i..];
    var j := TrailingWhitespace(t);
    var r := t[..|t| - j];
    assert s[i..i + |r|] == r;
    assert s[i + |r|..] == t[|t| - j..];
    assert TrimmedAt(s, r, i);
    r
  }

  /** Trimming twice is trimming once. */
  lemma TrimIdempotent(s: string)
    ensures Trim(Trim(s)) == Trim(s)
  {
  }

  /** `err.message || 'Failed to authenticate'`. */
  function FailureText(message: string): (t: string)
    ensures t != ""
    ensures message != "" ==> t == message
    ensures message == "" ==> t == DefaultError
  {
    if message != "" then message else DefaultError
  }

  /**
   * A rejected login always carries the interceptor's non-empty message, so
   * the form shows that message and never its own fallback text.
   */
  lemma LoginFailureShowsBackendMessage<T>(send: Api.Request -> Api.HttpReply<T>, username: string, password: string)
    requires Api.Login(send, username, password).Err?
    ensures FailureText(Api.Login(send, username, password).error) == Api.Login(send, username, password).error
  {
  }

  class LoginForm {
    var username: string
    var password: string
    var error: Option<string>
    var loading: bool

    constructor ()
      ensures username == "" && password == "" && error == None && !loading
    {
      username, password := "", "";
      error, loading := None, false;
    }

    /** The synchronous part of `handleSubmit`, before the await. */
    method BeginSubmit()
      modifies this`error, this`loading
      ensures error == None && loading
    {
      error := None;
      loading := true;
    }

    /** The part after the await: navigate on success, show the error otherwise, then stop loading. */
    method FinishSubmit(outcome: Result<()>, target: string) returns (nav: Option<Navigation>)
      modifies this`error, this`loading
      ensures !loading
      ensures outcome.Ok? ==> nav == Some(Navigation(target, true, None)) && error == old(error)
      ensures outcome.Err? ==> nav == None && error == Some(FailureText(outcome.error))
    {
      if outcome.Ok? {
        nav := Some(Navigation(target, true, None));
      } else {
        error := Some(FailureText(outcome.error));
        nav := None;
      }
      loading := false;
    }

    /**
     * `handleSubmit`: log in with the trimmed credentials; on success go to
     * the return target, replacing the login entry; on failure stay and show
     * the message. `loading` ends false either way.
     */
    method HandleSubmit(auth: Session.AuthStore, send: Api.Request -> Api.HttpReply<User>, location: Location)
      returns (nav: Option<Navigation>)
      requires auth.Consistent()
      modifies this`error, this`loading, auth
      ensures auth.Consistent() && !loading
      ensures username == old(username) && password == old(password)
      ensures var reply := Api.Login(send, Trim(username), Trim(password));
              && (nav.Some? <==> reply.Ok?)
              && (reply.Ok? ==> nav == Some(Navigation(ReturnTarget(location), true, None)) && error == None)
              && (reply.Ok? ==> auth.user == Some(reply.value) && auth.storage == Session.StoredAfterLogin(old(auth.storage), reply.value))
              && (reply.Err? ==> error == Some(reply.error))
              && (reply.Err? ==> auth.user == old(auth.user) && auth.storage == old(auth.storage))
    {
      var target := ReturnTarget(location);
      BeginSubmit();
      var outcome := auth.Login(Trim(username), Trim(password), send);
      nav := FinishSubmit(outcome, target);
    }
  }
}
