/** The connection to the server (`DatabaseConnection`): setting up the base URL and
    the login credentials, sending create/read/update/delete and query requests,
    and sorting the server's answers into results and errors (`handleresult`).

    The HTTP transport itself is not modelled: the connection keeps the log of the
    requests it has sent, and the server's answer to a request is a function of
    every request sent before it and of the request itself. */
module Connection {
  import opened Values
  import opened Text
  import opened Params

  /** The default server address of the constructor. */
  const DEFAULT_URL: string := "https://connectordb.com"

  /** The message of the ServerError raised when an error answer has no readable message. */
  const UNREADABLE_ERROR: string := "Server returned error, but did not give a valid error message"

  /** The body of an answer: text that decodes as JSON, or text that does not. */
  datatype Body = Unparsable | Parsed(json: Json)

  datatype Response = Response(status: int, body: Body)

  /** One request sent to the server. CRUD requests name the object path that is
      joined to the CRUD part of the API URL; `data` is what is sent as JSON. */
  datatype Request =
    | CreateRequest(path: string, data: Json)
    | ReadRequest(path: string, params: Option<Params>)
    | UpdateRequest(path: string, data: Json)
    | DeleteRequest(path: string)
    | QueryRequest(queryType: string, query: Json)

  /** `url` after the two fix-ups of the constructor: a scheme when it does not start
      with "http", a closing slash when it has none. The result starts with "http"
      and ends with a slash. */
  function NormalizeUrl(url: string): (r: string)
    ensures StartsWith(r, "http")
    ensures EndsWith(r, "/")
  {
    var withScheme := if StartsWith(url, "http") then url else "http://" + url;
    assert StartsWith(withScheme, "http");
    assert (withScheme + "/")[..4] == withScheme[..4];
    if EndsWith(withScheme, "/") then withScheme else withScheme + "/"
  }

  /** The constructor's default address gains only its closing slash. */
  lemma NormalizeUrlDefault()
    ensures NormalizeUrl(DEFAULT_URL) == "https://connectordb.com/"
  {
    assert StartsWith(DEFAULT_URL, "http");
    assert !EndsWith(DEFAULT_URL, "/");
  }

  /** A URL starting with "http" keeps its beginning; any other URL gets "http://"
      in front. Only a slash is ever added at the end. */
  lemma NormalizeUrlPrefix(url: string)
    ensures StartsWith(url, "http") ==> StartsWith(NormalizeUrl(url), url)
    ensures !StartsWith(url, "http") ==> StartsWith(NormalizeUrl(url), "http://" + url)
    ensures |NormalizeUrl(url)| <= |url| + 8
    ensures StartsWith(url, "http") ==> NormalizeUrl(url) in {url, url + "/"}
    ensures !StartsWith(url, "http") ==>
      NormalizeUrl(url) in {"http://" + url, "http://" + url + "/"}
  {
  }

  /** Normalising twice is normalising once. */
  lemma NormalizeUrlIdempotent(url: string)
    ensures NormalizeUrl(NormalizeUrl(url)) == NormalizeUrl(url)
  {
  }

  /** The basic-auth user and password: without a password the single argument is an
      API key, sent as the password of the empty user. */
  function Credentials(userOrApikey: string, userPassword: Option<string>): (auth: (string, string))
    ensures userPassword.None? ==> auth == ("", userOrApikey)
    ensures userPassword.Some? ==> auth == (userOrApikey, userPassword.value)
  {
    if userPassword.None? then ("", userOrApikey) else (userOrApikey, userPassword.value)
  }

  /** `r.json()`: the decoded body, or InvalidJson. */
  function JsonOf(r: Response): (j: Result<Json>)
    ensures j.Success? <==> r.body.Parsed?
    ensures r.body.Parsed? ==> j == Success(r.body.json)
    ensures r.body.Unparsable? ==> j == Failure(InvalidJson)
  {
    match r.body
    case Parsed(v) => Success(v)
    case Unparsable => Failure(InvalidJson)
  }

  /** Python 2's `str(v)` on an error code as `json` decodes it: the digits of a
      number, `True`/`False`, `None`, and the text itself, which `str()` can encode
      only when it is ASCII. Lists and objects are refused. The text of a readable
      code is always ASCII. */
  function CodeText(v: Json): (r: Result<string>)
    ensures r.Success? <==> v.JNum? || v.JBool? || v.JNull? || (v.JStr? && IsAscii(v.s))
    ensures r.Success? ==> IsAscii(r.value)
    ensures v.JNum? ==> r == Success(IntToString(v.n))
    ensures v.JStr? && IsAscii(v.s) ==> r == Success(v.s)
    ensures v.JStr? && !IsAscii(v.s) ==> r == Failure(UnicodeEncodeError)
  {
    match v
    case JNum(n) => Success(IntToString(n))
    case JStr(s) => if IsAscii(s) then Success(s) else Failure(UnicodeEncodeError)
    case JBool(b) => Success(if b then "True" else "False")
    case JNull => Success("None")
    case _ => Failure(TypeError)
  }

  /** `str(msg["code"]) + ": " + msg["msg"] + " (" + msg["ref"] + ")"` on the decoded
      body, or the exception that expression raises, in Python's evaluation order. */
  function ErrorMessage(body: Body): (r: Result<string>)
    ensures body.Unparsable? ==> r == Failure(InvalidJson)
    ensures body.Parsed? && !body.json.JObj? ==> r == Failure(TypeError)
    ensures body.Parsed? && body.json.JObj? && "code" !in body.json.fields ==> r == Failure(KeyError("code"))
    ensures body.Parsed? && body.json.JObj? && "code" in body.json.fields && CodeText(body.json.fields["code"]).Failure?
      ==> r == Failure(CodeText(body.json.fields["code"]).error)
    ensures r.Success? ==>
      && body.Parsed? && body.json.JObj?
      && (var m := body.json.fields;
          && "code" in m && "msg" in m && "ref" in m && m["msg"].JStr? && m["ref"].JStr?
          && r.value == CodeText(m["code"]).value + ": " + m["msg"].s + " (" + m["ref"].s + ")")
  {
    match body
    case Unparsable => Failure(InvalidJson)
    case Parsed(j) =>
      match j
      case JObj(m) =>
        if "code" !in m then Failure(KeyError("code"))
        else if CodeText(m["code"]).Failure? then Failure(CodeText(m["code"]).error)
        else if "msg" !in m then Failure(KeyError("msg"))
        else if !m["msg"].JStr? then Failure(TypeError)
        else if "ref" !in m then Failure(KeyError("ref"))
        else if !m["ref"].JStr? then Failure(TypeError)
        else Success(CodeText(m["code"]).value + ": " + m["msg"].s + " (" + m["ref"].s + ")")
      case _ => Failure(TypeError)
  }

  /** A well-formed error body with a numeric code gives "code: msg (ref)". */
  lemma ErrorMessageFormat(code: int, msg: string, ref: string, extra: map<string, Json>)
    ensures var m := extra["code" := JNum(code)]["msg" := JStr(msg)]["ref" := JStr(ref)];
            ErrorMessage(Parsed(JObj(m))) == Success(IntToString(code) + ": " + msg + " (" + ref + ")")
  {
  }

  /** `handleresult`: an answer with status up to 300 is passed on; a 4xx answer
      raises AuthenticationError with the server's message (or the exception that
      reading the message raises); every other answer above 300 raises ServerError,
      with the server's message when it can be read and a fixed text otherwise. */
  function HandleResult(r: Response): (res: Result<Response>)
    ensures res.Success? <==> r.status <= 300
    ensures res.Success? ==> res.value == r
    ensures 400 <= r.status < 500 ==>
      res == Failure(if ErrorMessage(r.body).Success? then AuthenticationError(ErrorMessage(r.body).value)
                     else ErrorMessage(r.body).error)
    ensures 300 < r.status && !(400 <= r.status < 500) ==>
      res == Failure(ServerError(if ErrorMessage(r.body).Success? then ErrorMessage(r.body).value else UNREADABLE_ERROR))
  {
    if 400 <= r.status < 500 then
      match ErrorMessage(r.body)
      case Success(text) => Failure(AuthenticationError(text))
      case Failure(e) => Failure(e)
    else if r.status > 300 then
      match ErrorMessage(r.body)
      case Success(text) => Failure(ServerError(text))
      case Failure(_) => Failure(ServerError(UNREADABLE_ERROR))
    else
      Success(r)
  }

  /** Authentication errors come only from 4xx answers, server errors only from
      answers above 300 outside 4xx, and the other exceptions only from 4xx answers
      whose message cannot be read. */
  lemma HandleResultClasses(r: Response)
    ensures HandleResult(r).Failure? && HandleResult(r).error.AuthenticationError? ==> 400 <= r.status < 500
    ensures HandleResult(r).Failure? && HandleResult(r).error.ServerError? ==> 300 < r.status && !(400 <= r.status < 500)
    ensures (HandleResult(r).Failure? && !HandleResult(r).error.AuthenticationError? && !HandleResult(r).error.ServerError?)
      ==> 400 <= r.status < 500 && ErrorMessage(r.body).Failure?
  {
  }

  /** An error code holding a non-ASCII character cannot go through Python 2's `str()`:
      a 4xx answer raises that UnicodeEncodeError, and any other error answer falls
      back to the fixed ServerError text. */
  lemma NonAsciiCode(status: int, code: string, msg: string, ref: string)
    requires !IsAscii(code) && status > 300
    ensures var r := Response(status, Parsed(JObj(map["code" := JStr(code), "msg" := JStr(msg), "ref" := JStr(ref)])));
      HandleResult(r) == Failure(if 400 <= status < 500 then UnicodeEncodeError else ServerError(UNREADABLE_ERROR))
  {
    var body := Parsed(JObj(map["code" := JStr(code), "msg" := JStr(msg), "ref" := JStr(ref)]));
    assert CodeText(JStr(code)) == Failure(UnicodeEncodeError);
    assert ErrorMessage(body) == Failure(UnicodeEncodeError);
  }

  /** What a request's answer decodes to: the error `handleresult` raised, or `.json()`
      of the answer. */
  function Decoded(res: Result<Response>): (j: Result<Json>)
    ensures res.Failure? ==> j == Failure(res.error)
    ensures res.Success? ==> j == JsonOf(res.value)
  {
    match res
    case Failure(e) => Failure(e)
    case Success(r) => JsonOf(r)
  }

  class DatabaseConnection {
    /** The normalised server URL; the API URL is joined from it and "/api/v1/". */
    const url: string
    const authUser: string
    const authPassword: string
    /** The server: its answer to a request, given the requests sent before. */
    const server: (seq<Request>, Request) -> Response
    /** Every request sent over this connection, oldest first. */
    var log: seq<Request>

    constructor (userOrApikey: string, userPassword: Option<string>, url: string,
                 server: (seq<Request>, Request) -> Response)
      ensures this.url == NormalizeUrl(url)
      ensures (authUser, authPassword) == Credentials(userOrApikey, userPassword)
      ensures this.server == server && log == []
    {
      var u := url;
      if !StartsWith(u, "http") {
        u := "http://" + u;
      }
      if !EndsWith(u, "/") {
        u := u + "/";
      }
      this.url := u;
      var user, password := userOrApikey, userPassword;
      if password.None? {
        password := Some(user);
        user := "";
      }
      authUser := user;
      authPassword := password.value;
      this.server := server;
      log := [];
    }

    /** The result the next request would get: the server's answer after `handleresult`. */
    function Answer(req: Request): Result<Response>
      reads this
    {
      HandleResult(server(log, req))
    }

    method Send(req: Request) returns (r: Result<Response>)
      modifies this
      ensures log == old(log) + [req]
      ensures r == old(Answer(req))
    {
      r := HandleResult(server(log, req));
      log := log + [req];
    }

    /** `query(query_type, query)`: a POST of the query, as JSON, to "query/<type>". */
    method Query(queryType: string, query: Json) returns (r: Result<Response>)
      modifies this
      ensures log == old(log) + [QueryRequest(queryType, query)]
      ensures r == old(Answer(QueryRequest(queryType, query)))
    {
      r := Send(QueryRequest(queryType, query));
    }

    /** `create(path, data)`: a POST of `data`, as JSON, to the object's CRUD URL. */
    method Create(path: string, data: Json) returns (r: Result<Response>)
      modifies this
      ensures log == old(log) + [CreateRequest(path, data)]
      ensures r == old(Answer(CreateRequest(path, data)))
    {
      r := Send(CreateRequest(path, data));
    }

    /** `read(path, params)`: a GET of the object's CRUD URL with optional URL parameters. */
    method Read(path: string, params: Option<Params>) returns (r: Result<Response>)
      modifies this
      ensures log == old(log) + [ReadRequest(path, params)]
      ensures r == old(Answer(ReadRequest(path, params)))
    {
      r := Send(ReadRequest(path, params));
    }

    /** `update(path, data)`: a PUT of `data`, as JSON, to the object's CRUD URL. */
    method Update(path: string, data: Json) returns (r: Result<Response>)
      modifies this
      ensures log == old(log) + [UpdateRequest(path, data)]
      ensures r == old(Answer(UpdateRequest(path, data)))
    {
      r := Send(UpdateRequest(path, data));
    }

    /** `delete(path)`: a DELETE of the object's CRUD URL. */
    method Delete(path: string) returns (r: Result<Response>)
      modifies this
      ensures log == old(log) + [DeleteRequest(path)]
      ensures r == old(Answer(DeleteRequest(path)))
    {
      r := Send(DeleteRequest(path));
    }
  }
}
