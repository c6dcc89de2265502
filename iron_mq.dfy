/**
 * `IronMQ::Client` and `IronMQ::Error`: option defaulting and the cached base
 * URL, the common request headers, how `get`, `post` and `delete` shape their
 * requests, and how `check_response` classifies what comes back.
 *
 * The HTTP transport is a parameter `net` from a request descriptor to what
 * the transport delivers; the JSON library is the `Codec` parameter. Ruby's
 * exceptions are values of `Outcome`.
 */
module IronMQ {
  import opened Wrappers
  import opened RubyValues
  import opened Json
  import Decimal
  import Strings

  // ---------------------------------------------------------------------------
  // IronMQ::Error and the exceptions that leave the client
  // ---------------------------------------------------------------------------

  /** `IronMQ::Error`: its message and the options hash it was created with. */
  datatype Error = Error(message: string, options: map<Key, Value>) {

    /** `Error#status`: the `:status` option, `nil` when it was not given. */
    function Status(): (s: Value)
      ensures SymbolKey("status") in options ==> s == options[SymbolKey("status")]
      ensures SymbolKey("status") !in options ==> s == Nil
    {
      Fetch(options, SymbolKey("status"))
    }
  }

  /** `IronMQ::Error.new(message, :status => status)`. */
  function StatusError(message: string, status: int): (e: Error)
    ensures e.message == message && e.Status() == Int(status)
  {
    Error(message, map[SymbolKey("status") := Int(status)])
  }

  /** An exception raised out of a client call: an `IronMQ::Error`, or one of another class. */
  datatype Exception = MqError(error: Error) | Foreign(className: string, message: string)

  /** A call either returns a value or raises. */
  datatype Outcome<+T> = Returned(value: T) | Raised(exc: Exception)

  /** The message format of both errors `check_response` raises: `"Status <status>: <detail>"`. */
  function StatusMessage(status: int, detail: string): string {
    "Status " + Decimal.FromInt(status) + ": " + detail
  }

  /**
   * Reads a message of the form `"Status <status>: <detail>"` back into its
   * status and detail. The status text must be exactly what `Integer#to_s`
   * writes (no leading zeros, no `-0`).
   */
  function ParseStatusMessage(m: string): Option<(int, string)> {
    if |m| < 7 || m[..7] != "Status " then None
    else
      var rest := m[7..];
      var k := Strings.FirstIndex(rest, ':');
      if k + 2 > |rest| || rest[k..k + 2] != ": " || !Decimal.IsIntText(rest[..k]) then None
      else if Decimal.FromInt(Decimal.ParseInt(rest[..k])) != rest[..k] then None
      else Some((Decimal.ParseInt(rest[..k]), rest[k + 2..]))
  }

  /** The status and the detail can be read back from a status message: the format loses nothing. */
  lemma StatusMessageRoundTrip(status: int, detail: string)
    ensures ParseStatusMessage(StatusMessage(status, detail)) == Some((status, detail))
  {
    var t := Decimal.FromInt(status);
    var m := StatusMessage(status, detail);
    assert m[..7] == "Status ";
    var rest := m[7..];
    assert rest == t + [':'] + (" " + detail);
    assert ':' !in t by {
      forall k | 0 <= k < |t| ensures t[k] != ':' {
        assert Decimal.IsDigit(t[k]) || t[k] == '-';
      }
    }
    Strings.FirstIndexAfter(t, ':', " " + detail);
    assert rest[..|t|] == t;
    assert rest[|t|..|t| + 2] == ": ";
    assert rest[|t| + 2..] == detail;
    Decimal.ParseFromInt(status);
  }

  /** Whatever reads back as a status and a detail is exactly the message they format to. */
  lemma ParseStatusMessageExact(m: string, status: int, detail: string)
    requires ParseStatusMessage(m) == Some((status, detail))
    ensures m == StatusMessage(status, detail)
  {
    var rest := m[7..];
    var k := Strings.FirstIndex(rest, ':');
    assert rest == rest[..k] + rest[k..k + 2] + rest[k + 2..];
    assert m == m[..7] + rest;
  }

  // ---------------------------------------------------------------------------
  // Option defaulting and the base URL
  // ---------------------------------------------------------------------------

  const DefaultQueueName := "default"
  const DefaultScheme := "https"
  const DefaultHost := "mq-aws-us-east-1.iron.io"
  const DefaultPort := 443

  /** `options[:name] || options['name']`: the symbol key wins when its value is truthy. */
  function Lookup(options: map<Key, Value>, name: string): (v: Value)
    ensures Truthy(Fetch(options, SymbolKey(name))) ==> v == options[SymbolKey(name)]
    ensures !Truthy(Fetch(options, SymbolKey(name))) ==> v == Fetch(options, StringKey(name))
  {
    Or(Fetch(options, SymbolKey(name)), Fetch(options, StringKey(name)))
  }

  /** `options[:name] || options['name'] || default`. */
  function LookupOr(options: map<Key, Value>, name: string, default: Value): (v: Value)
    ensures Truthy(Fetch(options, SymbolKey(name))) ==> v == options[SymbolKey(name)]
    ensures (!Truthy(Fetch(options, SymbolKey(name))) && Truthy(Fetch(options, StringKey(name))))
      ==> v == options[StringKey(name)]
    ensures (!Truthy(Fetch(options, SymbolKey(name))) && !Truthy(Fetch(options, StringKey(name))))
      ==> v == default
    ensures Truthy(default) ==> Truthy(v)
  {
    Or(Lookup(options, name), default)
  }

  /** `"#{scheme}://#{host}:#{port}/1"`, on the interpolated texts. */
  function ComposeBaseUrl(scheme: string, host: string, port: string): string {
    scheme + "://" + host + ":" + port + "/1"
  }

  /**
   * Splits a base URL back into scheme, host and port: the scheme ends at the
   * first `:`, which must open `://`; the host ends at the next `:`; the port
   * is what lies between that and the closing `/1`.
   */
  function ParseBaseUrl(u: string): Option<(string, string, string)> {
    var i := Strings.FirstIndex(u, ':');
    if i + 3 > |u| || u[i..i + 3] != "://" then None
    else
      var rest := u[i + 3..];
      var j := Strings.FirstIndex(rest, ':');
      if j == |rest| then None
      else
        var tail := rest[j + 1..];
        if |tail| < 2 || tail[|tail| - 2..] != "/1" then None
        else Some((u[..i], rest[..j], tail[..|tail| - 2]))
  }

  /**
   * The base URL is the literal composition of its parts: when neither scheme
   * nor host contains a colon, all three parts can be read back unchanged.
   */
  lemma BaseUrlRoundTrip(scheme: string, host: string, port: string)
    requires ':' !in scheme && ':' !in host
    ensures ParseBaseUrl(ComposeBaseUrl(scheme, host, port)) == Some((scheme, host, port))
  {
    var u := ComposeBaseUrl(scheme, host, port);
    assert u == scheme + [':'] + ("//" + host + ":" + port + "/1");
    Strings.FirstIndexAfter(scheme, ':', "//" + host + ":" + port + "/1");
    var i := |scheme|;
    assert u[i..i + 3] == "://";
    assert u[..i] == scheme;
    var rest := u[i + 3..];
    assert rest == host + [':'] + (port + "/1");
    Strings.FirstIndexAfter(host, ':', port + "/1");
    var j := |host|;
    assert rest[..j] == host;
    var tail := rest[j + 1..];
    assert tail == port + "/1";
    assert tail[|tail| - 2..] == "/1";
    assert tail[..|tail| - 2] == port;
  }

  /** Different colon-free scheme/host/port triples never share a base URL. */
  lemma BaseUrlInjective(s1: string, h1: string, p1: string, s2: string, h2: string, p2: string)
    requires ':' !in s1 && ':' !in h1 && ':' !in s2 && ':' !in h2
    requires ComposeBaseUrl(s1, h1, p1) == ComposeBaseUrl(s2, h2, p2)
    ensures s1 == s2 && h1 == h2 && p1 == p2
  {
    BaseUrlRoundTrip(s1, h1, p1);
    BaseUrlRoundTrip(s2, h2, p2);
  }

  /** A client built from an empty options hash talks to the production endpoint. */
  lemma DefaultBaseUrl()
    ensures var none: map<Key, Value> := map[];
      ComposeBaseUrl(Interpolate(LookupOr(none, "scheme", Str(DefaultScheme))),
                     Interpolate(LookupOr(none, "host", Str(DefaultHost))),
                     Interpolate(LookupOr(none, "port", Int(DefaultPort))))
      == "https://mq-aws-us-east-1.iron.io:443/1"
  {
    var none: map<Key, Value> := map[];
    assert Interpolate(LookupOr(none, "scheme", Str(DefaultScheme))) == "https";
    assert Interpolate(LookupOr(none, "host", Str(DefaultHost))) == "mq-aws-us-east-1.iron.io";
    assert Interpolate(LookupOr(none, "port", Int(DefaultPort))) == "443" by {
      assert Decimal.FromNat(4) == "4";
      assert Decimal.FromNat(44) == "44";
    }
    ProductionUrl();
  }

  /** The production endpoint spelled out. */
  lemma ProductionUrl()
    ensures ComposeBaseUrl("https", "mq-aws-us-east-1.iron.io", "443") == "https://mq-aws-us-east-1.iron.io:443/1"
  {
  }

  // ---------------------------------------------------------------------------
  // Requests and responses
  // ---------------------------------------------------------------------------

  const ContentType := "Content-Type"
  const Authorization := "Authorization"
  const UserAgent := "User-Agent"
  const JsonMediaType := "application/json"
  const ClientName := "IronMQ Ruby Client"

  /** The credential of an `Authorization: OAuth <token>` header value. */
  function OAuthCredential(value: string): Option<string> {
    if |value| >= 6 && value[..6] == "OAuth " then Some(value[6..]) else None
  }

  datatype Verb = GET | POST | DELETE

  /** One request as handed to the transport. */
  datatype Request = Request(
    verb: Verb,
    url: string,
    headers: map<string, string>,
    query: Option<Json>,   // `req.params`
    body: Option<string>)  // `req.body`

  /** What the transport hands back: `response.status` and `response.body`. */
  datatype Response = Response(status: int, body: string)

  /** A response, or the exception the transport raised before one arrived. */
  datatype Transported = Delivered(resp: Response) | Failed(exc: Exception)

  /**
   * `"#{x}"` for a parsed JSON value: `nil` gives "", a string itself, an
   * integer the text `Integer#to_s` writes, and an Array or a Hash its
   * `inspect` rendering.
   */
  function Display(x: Json, codec: Codec): (s: string)
    ensures x.JNull? ==> s == ""
    ensures x.JStr? ==> s == x.s
    ensures x.JBool? ==> (s == "true" <==> x.b) && (s == "true" || s == "false")
    ensures x.JInt? ==>
      (Decimal.IsIntText(s) && Decimal.ParseInt(s) == x.i && Decimal.FromInt(Decimal.ParseInt(s)) == s)
    ensures x.JArr? || x.JObj? ==> s == codec.inspect(x)
  {
    match x
    case JNull => ""
    case JBool(b) => if b then "true" else "false"
    case JInt(i) => Decimal.ParseFromInt(i); Decimal.FromInt(i)
    case JStr(s) => s
    case _ => codec.inspect(x)
  }

  /**
   * `"#{res["msg"]}"`. A Hash gives its `"msg"` entry, `nil` (so "") when
   * absent; `String#[]` gives `"msg"` when the string contains it, else `nil`;
   * `Array#[]` and `Integer#[]` reject a String index; `nil`, `true` and
   * `false` have no `[]`.
   */
  function MsgText(res: Json, codec: Codec): (r: Outcome<string>)
    ensures r.Returned? <==> res.JObj? || res.JStr?
    ensures res.JObj? && "msg" in res.fields ==> r == Returned(Display(res.fields["msg"], codec))
    ensures res.JObj? && "msg" !in res.fields ==> r == Returned("")
    ensures res.JStr? ==> r.Returned? && (r.value == "msg" || r.value == "")
    ensures res.JStr? ==> (r.value == "msg" <==> exists i :: Strings.OccursAt(res.s, "msg", i))
    ensures r.Raised? ==> r.exc.Foreign?
    ensures res.JArr? || res.JInt? ==> r == Raised(Foreign("TypeError", "no implicit conversion of String into Integer"))
    ensures res.JNull? || res.JBool? ==> r.Raised? && r.exc.className == "NoMethodError"
  {
    match res
    case JObj(fields) => Returned(if "msg" in fields then Display(fields["msg"], codec) else "")
    case JStr(s) =>
      Strings.ContainsWitness(s, "msg");
      Returned(if Strings.Contains(s, "msg") then "msg" else "")
    case JArr(_) => Raised(Foreign("TypeError", "no implicit conversion of String into Integer"))
    case JInt(_) => Raised(Foreign("TypeError", "no implicit conversion of String into Integer"))
    case JNull => Raised(Foreign("NoMethodError", "undefined method `[]' for nil:NilClass"))
    case JBool(b) =>
      Raised(Foreign("NoMethodError",
                     if b then "undefined method `[]' for true:TrueClass"
                     else "undefined method `[]' for false:FalseClass"))
  }

  /**
   * `check_response`: parse first, then classify by status. Success exactly
   * when the body parses and the status is below 400, and then the payload is
   * the parsed value unchanged; an unparsable body is an error whatever the status.
   */
  function CheckResponse(resp: Response, codec: Codec): (r: Outcome<Json>)
    ensures codec.parse(resp.body).Unparsable? ==>
      var p := codec.parse(resp.body);
      r == Raised(MqError(StatusError(StatusMessage(resp.status, p.className + ": " + p.message), resp.status)))
    ensures r.Returned? <==> codec.parse(resp.body).Parsed? && resp.status < 400
    ensures r.Returned? ==> r.value == codec.parse(resp.body).value
  {
    match codec.parse(resp.body)
    case Unparsable(className, message) =>
      Raised(MqError(StatusError(StatusMessage(resp.status, className + ": " + message), resp.status)))
    case Parsed(res) =>
      if resp.status < 400 then Returned(res)
      else
        match MsgText(res, codec)
        case Returned(text) => Raised(MqError(StatusError(StatusMessage(resp.status, text), resp.status)))
        case Raised(e) => Raised(e)
  }

  /**
   * A parsed error body that is a Hash always raises an `IronMQ::Error` whose
   * status is the HTTP status and whose message is `"Status <s>: <msg>"`, with
   * an empty `<msg>` when the key is absent.
   */
  lemma HashErrorBody(resp: Response, codec: Codec, fields: map<string, Json>)
    requires codec.parse(resp.body) == Parsed(JObj(fields)) && resp.status >= 400
    ensures var r := CheckResponse(resp, codec);
      && r.Raised? && r.exc.MqError?
      && r.exc.error.Status() == Int(resp.status)
      && ParseStatusMessage(r.exc.error.message)
         == Some((resp.status, if "msg" in fields then Display(fields["msg"], codec) else ""))
  {
    StatusMessageRoundTrip(resp.status, if "msg" in fields then Display(fields["msg"], codec) else "");
  }

  /**
   * Every `IronMQ::Error` that `check_response` raises carries the HTTP status,
   * both as its `status` and at the head of its message.
   */
  lemma ErrorCarriesStatus(resp: Response, codec: Codec)
    ensures var r := CheckResponse(resp, codec);
      r.Raised? && r.exc.MqError? ==>
        && r.exc.error.Status() == Int(resp.status)
        && ParseStatusMessage(r.exc.error.message).Some?
        && ParseStatusMessage(r.exc.error.message).value.0 == resp.status
  {
    var r := CheckResponse(resp, codec);
    match codec.parse(resp.body)
    case Unparsable(className, message) =>
      StatusMessageRoundTrip(resp.status, className + ": " + message);
    case Parsed(res) =>
      if resp.status >= 400 && MsgText(res, codec).Returned? {
        StatusMessageRoundTrip(resp.status, MsgText(res, codec).value);
      }
  }

  /**
   * An error status never gets through: with status 400 or above the call
   * raises. What it raises is an `IronMQ::Error` exactly when the body is
   * unparsable, a Hash or a String; for any other parsed body `res["msg"]`
   * itself raises, a `TypeError` for an Array or an Integer and a
   * `NoMethodError` for `nil`, `true` or `false`.
   */
  lemma ErrorStatusRaises(resp: Response, codec: Codec)
    requires resp.status >= 400
    ensures CheckResponse(resp, codec).Raised?
    ensures var p := codec.parse(resp.body);
      CheckResponse(resp, codec).exc.MqError? <==> (p.Unparsable? || p.value.JObj? || p.value.JStr?)
    ensures var p := codec.parse(resp.body);
      p.Parsed? && (p.value.JArr? || p.value.JInt?) ==>
        CheckResponse(resp, codec).exc == Foreign("TypeError", "no implicit conversion of String into Integer")
    ensures var p := codec.parse(resp.body);
      p.Parsed? && (p.value.JNull? || p.value.JBool?) ==>
        CheckResponse(resp, codec).exc.Foreign? && CheckResponse(resp, codec).exc.className == "NoMethodError"
  {
  }

  /**
   * A parsed error body that is a String raises an `IronMQ::Error` with the
   * HTTP status; `String#[]` makes its detail `"msg"` when the body contains
   * that text and empty otherwise.
   */
  lemma StringErrorBody(resp: Response, codec: Codec, s: string)
    requires codec.parse(resp.body) == Parsed(JStr(s)) && resp.status >= 400
    ensures var r := CheckResponse(resp, codec);
      && r.Raised? && r.exc.MqError?
      && r.exc.error.Status() == Int(resp.status)
      && ParseStatusMessage(r.exc.error.message)
         == Some((resp.status, if exists i :: Strings.OccursAt(s, "msg", i) then "msg" else ""))
  {
    var detail := MsgText(JStr(s), codec).value;
    StatusMessageRoundTrip(resp.status, detail);
  }

  /** Paired result of `get`, `post` and `delete`: `check_response`'s value and `response.status`. */
  predicate Answers(t: Transported, codec: Codec, r: Outcome<(Json, int)>) {
    match t
    case Failed(e) => r == Raised(e)
    case Delivered(resp) =>
      var c := CheckResponse(resp, codec);
      && (r.Returned? <==> c.Returned?)
      && (r.Returned? ==> r.value == (c.value, resp.status))
      && (r.Raised? ==> r.exc == c.exc)
  }

  /**
   * The tail of `get`, `post` and `delete`: pairs the value `check_response`
   * returns with the HTTP status of the response, and lets any exception through.
   */
  function Finish(t: Transported, codec: Codec): (r: Outcome<(Json, int)>)
    ensures Answers(t, codec, r)
    ensures r.Returned? <==> t.Delivered? && codec.parse(t.resp.body).Parsed? && t.resp.status < 400
  {
    match t
    case Failed(e) => Raised(e)
    case Delivered(resp) =>
      match CheckResponse(resp, codec)
      case Returned(res) => Returned((res, resp.status))
      case Raised(e) => Raised(e)
  }

  // ---------------------------------------------------------------------------
  // The client
  // ---------------------------------------------------------------------------

  /** `IronMQ::Client`: the resolved options, writable through accessors, and the cached base URL. */
  class Client {
    var token: Value
    var projectId: Value
    var queueName: Value
    var scheme: Value
    var host: Value
    var port: Value
    /** `@base_url`: composed once by the constructor; no accessor writes it. */
    var baseUrl: string
    /** The interpolated scheme, host and port the constructor resolved. */
    ghost var schemeAtNew: string
    ghost var hostAtNew: string
    ghost var portAtNew: string

    /** The cached base URL is the one composed from the settings at construction. */
    ghost predicate Valid()
      reads this`baseUrl, this`schemeAtNew, this`hostAtNew, this`portAtNew
    {
      baseUrl == ComposeBaseUrl(schemeAtNew, hostAtNew, portAtNew)
    }

    /** `Client.new(options)`: each option by symbol key, else string key, else its default. */
    constructor (options: map<Key, Value>)
      ensures token == Lookup(options, "token")
      ensures projectId == Lookup(options, "project_id")
      ensures queueName == LookupOr(options, "queue_name", Str(DefaultQueueName))
      ensures scheme == LookupOr(options, "scheme", Str(DefaultScheme))
      ensures host == LookupOr(options, "host", Str(DefaultHost))
      ensures port == LookupOr(options, "port", Int(DefaultPort))
      ensures baseUrl == ComposeBaseUrl(Interpolate(scheme), Interpolate(host), Interpolate(port))
      ensures schemeAtNew == Interpolate(scheme) && hostAtNew == Interpolate(host) && portAtNew == Interpolate(port)
      ensures Valid()
    {
      token := Lookup(options, "token");
      projectId := Lookup(options, "project_id");
      queueName := LookupOr(options, "queue_name", Str(DefaultQueueName));
      scheme := LookupOr(options, "scheme", Str(DefaultScheme));
      host := LookupOr(options, "host", Str(DefaultHost));
      port := LookupOr(options, "port", Int(DefaultPort));
      new;
      var schemeText, hostText, portText := Interpolate(scheme), Interpolate(host), Interpolate(port);
      schemeAtNew, hostAtNew, portAtNew := schemeText, hostText, portText;
      baseUrl := ComposeBaseUrl(schemeText, hostText, portText);
    }

    /** `token=` */
    method SetToken(v: Value)
      modifies this`token
      ensures token == v
    {
      token := v;
    }

    /** `project_id=` */
    method SetProjectId(v: Value)
      modifies this`projectId
      ensures projectId == v
    {
      projectId := v;
    }

    /** `queue_name=` */
    method SetQueueName(v: Value)
      modifies this`queueName
      ensures queueName == v
    {
      queueName := v;
    }

    /** `scheme=`: the cached base URL keeps the old scheme. */
    method SetScheme(v: Value)
      modifies this`scheme
      ensures scheme == v && baseUrl == old(baseUrl)
      ensures Valid() == old(Valid())
    {
      scheme := v;
    }

    /** `host=`: the cached base URL keeps the old host. */
    method SetHost(v: Value)
      modifies this`host
      ensures host == v && baseUrl == old(baseUrl)
      ensures Valid() == old(Valid())
    {
      host := v;
    }

    /** `port=`: the cached base URL keeps the old port. */
    method SetPort(v: Value)
      modifies this`port
      ensures port == v && baseUrl == old(baseUrl)
      ensures Valid() == old(Valid())
    {
      port := v;
    }

    /**
     * `base_url`: the URL composed from the scheme, host and port resolved at
     * construction, whatever the accessors have written since.
     */
    function BaseUrl(): (u: string)
      reads this
      ensures Valid() ==> u == ComposeBaseUrl(schemeAtNew, hostAtNew, portAtNew)
    {
      baseUrl
    }

    /** `full_url(path)`: the base URL followed by `path`, nothing added or removed. */
    function FullUrl(path: string): (u: string)
      reads this
      ensures |u| == |baseUrl| + |path|
      ensures u[..|baseUrl|] == baseUrl && u[|baseUrl|..] == path
    {
      BaseUrl() + path
    }

    /** `common_req_hash[:headers]`: exactly three headers, the token in the OAuth one. */
    function CommonHeaders(): (h: map<string, string>)
      reads this
      ensures h.Keys == {ContentType, Authorization, UserAgent}
      ensures h[ContentType] == JsonMediaType && h[UserAgent] == ClientName
      ensures OAuthCredential(h[Authorization]) == Some(Interpolate(token))
    {
      var auth := "OAuth " + Interpolate(token);
      assert auth[..6] == "OAuth " && auth[6..] == Interpolate(token);
      map[ContentType := JsonMediaType, Authorization := auth, UserAgent := ClientName]
    }

    /** Sent to `full_url(path)` with the common headers. */
    predicate Addressed(r: Request, path: string)
      reads this
    {
      r.url == FullUrl(path) && r.headers == CommonHeaders()
    }

    /** The request `get` sends: `params` as the query, no body. */
    function GetRequest(path: string, params: Json): (r: Request)
      reads this
      ensures Addressed(r, path) && r.verb == GET
      ensures r.query == Some(params) && r.body == None
    {
      Request(GET, FullUrl(path), CommonHeaders(), Some(params), None)
    }

    /** The request `post` sends: `params.to_json` as the body, no query. */
    function PostRequest(path: string, params: Json, codec: Codec): (r: Request)
      reads this
      ensures Addressed(r, path) && r.verb == POST
      ensures r.query == None && r.body == Some(codec.serialize(params))
    {
      Request(POST, FullUrl(path), CommonHeaders(), None, Some(codec.serialize(params)))
    }

    /** The request `delete` sends; its URL is composed inline, yet equals `full_url(path)`. */
    function DeleteRequest(path: string, params: Json): (r: Request)
      reads this
      ensures Addressed(r, path) && r.verb == DELETE
      ensures r.query == Some(params) && r.body == None
    {
      Request(DELETE, baseUrl + path, CommonHeaders(), Some(params), None)
    }

    /** `get(path, params)`: one GET through the transport, answered as `check_response` classifies it. */
    function Get(path: string, params: Json, net: Request -> Transported, codec: Codec): (r: Outcome<(Json, int)>)
      reads this
      ensures Answers(net(GetRequest(path, params)), codec, r)
    {
      Finish(net(GetRequest(path, params)), codec)
    }

    /** `post(path, params)`: one POST through the transport, answered as `check_response` classifies it. */
    function Post(path: string, params: Json, net: Request -> Transported, codec: Codec): (r: Outcome<(Json, int)>)
      reads this
      ensures Answers(net(PostRequest(path, params, codec)), codec, r)
    {
      Finish(net(PostRequest(path, params, codec)), codec)
    }

    /** `delete(path, params)`: one DELETE through the transport, answered as `check_response` classifies it. */
    function Delete(path: string, params: Json, net: Request -> Transported, codec: Codec): (r: Outcome<(Json, int)>)
      reads this
      ensures Answers(net(DeleteRequest(path, params)), codec, r)
    {
      Finish(net(DeleteRequest(path, params)), codec)
    }
  }
}
