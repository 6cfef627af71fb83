/**
 * The signed-in user record and the text it is kept as in browser storage.
 * `JSON.stringify` and `JSON.parse` are modelled by an encoder that writes the
 * record as a JSON object with its string fields quoted and escaped, and a
 * decoder that reads that text back; `Decode(Encode(u))` gives `u` back.
 */
module UserCodec {
  import opened JsValues

  /** The fields of the login response that the front end reads. */
  datatype User = User(uuid: string, token: Option<string>, userName: Option<string>)

  const SyntaxError := "SyntaxError: Unexpected token in JSON"

  function EscapeChar(c: char): string {
    if c == '"' || c == '\\' then ['\\', c] else [c]
  }

  /** The body of a JSON string literal for `s`, without the quotes. */
  function Escape(s: string): string {
    if s == [] then [] else EscapeChar(s[0]) + Escape(s[1..])
  }

  function Quote(s: string): string {
    "\"" + Escape(s) + "\""
  }

  function Nullable(o: Option<string>): string {
    match o
    case Some(s) => Quote(s)
    case None => "null"
  }

  /** `JSON.stringify(user)`. */
  function Encode(u: User): string {
    "{\"uuid\":" + (Quote(u.uuid) + (",\"token\":" + (Nullable(u.token) + (",\"userName\":" + (Nullable(u.userName) + "}")))))
  }

  /** The text after `lit` when `s` starts with it. */
  function Strip(lit: string, s: string): Option<string> {
    if |lit| <= |s| && s[..|lit|] == lit then Some(s[|lit|..]) else None
  }

  /** Reads the rest of a string literal up to its closing quote: the text and what follows. */
  function ParseStringBody(s: string): Option<(string, string)>
    decreases |s|
  {
    if s == [] then None
    else if s[0] == '"' then Some(([], s[1..]))
    else if s[0] == '\\' then
      if |s| >= 2 && (s[1] == '"' || s[1] == '\\') then
        match ParseStringBody(s[2..])
        case Some((v, rest)) => Some(([s[1]] + v, rest))
        case None => None
      else None
    else
      match ParseStringBody(s[1..])
      case Some((v, rest)) => Some(([s[0]] + v, rest))
      case None => None
  }

  function ParseString(s: string): Option<(string, string)> {
    if s != [] && s[0] == '"' then ParseStringBody(s[1..]) else None
  }

  function ParseNullable(s: string): Option<(Option<string>, string)> {
    match Strip("null", s)
    case Some(rest) => Some((None, rest))
    case None =>
      match ParseString(s)
      case Some((v, rest)) => Some((Some(v), rest))
      case None => None
  }

  /** `JSON.parse(text)`: a user, `null`, or the exception for any other text. */
  function Decode(text: string): Result<Option<User>> {
    if text == "null" then Ok(None)
    else
      match Strip("{\"uuid\":", text)
      case None => Err(SyntaxError)
      case Some(s1) =>
        match ParseString(s1)
        case None => Err(SyntaxError)
        case Some((uuid, s2)) =>
          match Strip(",\"token\":", s2)
          case None => Err(SyntaxError)
          case Some(s3) =>
            match ParseNullable(s3)
            case None => Err(SyntaxError)
            case Some((token, s4)) =>
              match Strip(",\"userName\":", s4)
              case None => Err(SyntaxError)
              case Some(s5) =>
                match ParseNullable(s5)
                case None => Err(SyntaxError)
                case Some((userName, s6)) =>
                  if s6 == "}" then Ok(Some(User(uuid, token, userName))) else Err(SyntaxError)
  }

  lemma StripPrefix(lit: string, rest: string)
    ensures Strip(lit, lit + rest) == Some(rest)
  {
    assert (lit + rest)[..|lit|] == lit;
  }

  lemma {:induction false} ParseEscaped(x: string, rest: string)
    ensures ParseStringBody(Escape(x) + ("\"" + rest)) == Some((x, rest))
  {
    if x == [] {
      assert Escape(x) + ("\"" + rest) == "\"" + rest;
    } else {
      ParseEscaped(x[1..], rest);
      var tail := Escape(x[1..]) + ("\"" + rest);
      assert Escape(x) + ("\"" + rest) == EscapeChar(x[0]) + tail;
      if x[0] == '"' || x[0] == '\\' {
        assert (EscapeChar(x[0]) + tail)[2..] == tail;
      } else {
        assert (EscapeChar(x[0]) + tail)[1..] == tail;
      }
      assert [x[0]] + x[1..] == x;
    }
  }

  lemma ParseQuoted(x: string, rest: string)
    ensures ParseString(Quote(x) + rest) == Some((x, rest))
  {
    ParseEscaped(x, rest);
    assert Quote(x) + rest == "\"" + (Escape(x) + ("\"" + rest));
    assert (Quote(x) + rest)[1..] == Escape(x) + ("\"" + rest);
  }

  lemma ParseNullableOf(o: Option<string>, rest: string)
    ensures ParseNullable(Nullable(o) + rest) == Some((o, rest))
  {
    match o
    case None => StripPrefix("null", rest);
    case Some(x) =>
      ParseQuoted(x, rest);
      assert (Nullable(o) + rest)[..1] == "\"";
  }

  /** Reading back what was stored gives the same user (the reload after login). */
  lemma {:induction false} DecodeEncode(u: User)
    ensures Decode(Encode(u)) == Ok(Some(u))
  {
    var tail5 := Nullable(u.userName) + "}";
    var tail4 := ",\"userName\":" + tail5;
    var tail3 := Nullable(u.token) + tail4;
    var tail2 := ",\"token\":" + tail3;
    var tail1 := Quote(u.uuid) + tail2;
    assert Encode(u) == "{\"uuid\":" + tail1;
    assert Encode(u) != "null" by { assert Encode(u)[0] == '{'; }
    StripPrefix("{\"uuid\":", tail1);
    ParseQuoted(u.uuid, tail2);
    StripPrefix(",\"token\":", tail3);
    ParseNullableOf(u.token, tail4);
    StripPrefix(",\"userName\":", tail5);
    ParseNullableOf(u.userName, "}");
  }
}
