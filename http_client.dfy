/** The transport core of the Hub client: option resolution, request construction and
    the response policy shared by the four verbs. */
module Http {
  import opened Errors

  const DefaultAPIBaseURL := "https://huggingface.co/api"

  /** The one status that counts as success: 200 OK (section 15.3.1 of RFC 9110). */
  const StatusOK := 200

  const EmptyKeyMessage := "api key should not be empty"
  const EmptyURLMessage := "base URL should not be empty"
  const GetFailedPrefix := "GET request failed: "
  const CreateFailedPrefix := "failed to create request: "
  const SerializeFailedPrefix := "failed to serialize body: "

  const ContentType := "Content-Type"
  const Authorization := "Authorization"
  const JsonMediaType := "application/json"

  // ---------------------------------------------------------------------------
  // Configuration
  // ---------------------------------------------------------------------------

  /** The settings the options act on. */
  datatype Config = Config(apiKey: string, baseURL: string)

  /** The record a client starts from: the key it was given and the default base URL. */
  function Defaults(apiKey: string): Config {
    Config(apiKey, DefaultAPIBaseURL)
  }

  /** An option, as WithAPIKey and WithBaseURL build it. */
  datatype Option = WithAPIKey(apiKey: string) | WithBaseURL(baseURL: string)
  {
    /** The value the option would install. */
    function Argument(): string {
      match this
      case WithAPIKey(k) => k
      case WithBaseURL(u) => u
    }

    /** The option passes its validation. */
    predicate Accepted() {
      Argument() != ""
    }

    /** The error the option returns when its validation fails. */
    function Rejection(): Error {
      if WithAPIKey? then Plain(EmptyKeyMessage) else Plain(EmptyURLMessage)
    }
  }

  /** Running one option on the record `c`. */
  function Applied(opt: Option, c: Config): (r: Result<Config>)
    ensures r.Ok? <==> opt.Accepted()
    ensures r.Err? ==> r.error == opt.Rejection()
    ensures r.Ok? && opt.WithAPIKey? ==> r.value.apiKey == opt.apiKey && r.value.baseURL == c.baseURL
    ensures r.Ok? && opt.WithBaseURL? ==> r.value.baseURL == opt.baseURL && r.value.apiKey == c.apiKey
  {
    match opt
    case WithAPIKey(k) => if k == "" then Err(Plain(EmptyKeyMessage)) else Ok(c.(apiKey := k))
    case WithBaseURL(u) => if u == "" then Err(Plain(EmptyURLMessage)) else Ok(c.(baseURL := u))
  }

  /** Every option in `opts` passes its validation. */
  predicate AllAccepted(opts: seq<Option>) {
    forall i :: 0 <= i < |opts| ==> opts[i].Accepted()
  }

  /** Running `opts` on `c` in order; the first option that fails ends the run. */
  function Resolve(c: Config, opts: seq<Option>): (r: Result<Config>)
    ensures r.Ok? <==> AllAccepted(opts)
    decreases |opts|
  {
    if opts == [] then Ok(c)
    else match Applied(opts[0], c)
      case Err(e) => Err(e)
      case Ok(c') => Resolve(c', opts[1..])
  }

  /** The key the last WithAPIKey in `opts` installs, or `initial` when there is none. */
  function LastAPIKey(opts: seq<Option>, initial: string): string
    decreases |opts|
  {
    if opts == [] then initial
    else match opts[|opts| - 1]
      case WithAPIKey(k) => k
      case WithBaseURL(_) => LastAPIKey(opts[..|opts| - 1], initial)
  }

  /** The URL the last WithBaseURL in `opts` installs, or `initial` when there is none. */
  function LastBaseURL(opts: seq<Option>, initial: string): string
    decreases |opts|
  {
    if opts == [] then initial
    else match opts[|opts| - 1]
      case WithBaseURL(u) => u
      case WithAPIKey(_) => LastBaseURL(opts[..|opts| - 1], initial)
  }

  lemma {:induction false} LastAPIKeyFirst(o: Option, rest: seq<Option>, initial: string)
    ensures LastAPIKey([o] + rest, initial)
         == LastAPIKey(rest, if o.WithAPIKey? then o.apiKey else initial)
    decreases |rest|
  {
    var s := [o] + rest;
    if rest != [] {
      assert s[|s| - 1] == rest[|rest| - 1];
      assert s[..|s| - 1] == [o] + rest[..|rest| - 1];
      LastAPIKeyFirst(o, rest[..|rest| - 1], initial);
    }
  }

  lemma {:induction false} LastBaseURLFirst(o: Option, rest: seq<Option>, initial: string)
    ensures LastBaseURL([o] + rest, initial)
         == LastBaseURL(rest, if o.WithBaseURL? then o.baseURL else initial)
    decreases |rest|
  {
    var s := [o] + rest;
    if rest != [] {
      assert s[|s| - 1] == rest[|rest| - 1];
      assert s[..|s| - 1] == [o] + rest[..|rest| - 1];
      LastBaseURLFirst(o, rest[..|rest| - 1], initial);
    }
  }

  /** When every option is valid, each field ends up with the value of the last option
      that sets it (later options overwrite earlier ones), or keeps its starting value. */
  lemma {:induction false} ResolveLastWriterWins(c: Config, opts: seq<Option>)
    requires AllAccepted(opts)
    ensures Resolve(c, opts) == Ok(Config(LastAPIKey(opts, c.apiKey), LastBaseURL(opts, c.baseURL)))
    decreases |opts|
  {
    if opts != [] {
      var o, rest := opts[0], opts[1..];
      assert opts == [o] + rest;
      assert o.Accepted();
      var c' := Applied(o, c).value;
      assert AllAccepted(rest) by {
        forall i | 0 <= i < |rest| ensures rest[i].Accepted() { assert rest[i] == opts[i + 1]; }
      }
      ResolveLastWriterWins(c', rest);
      LastAPIKeyFirst(o, rest, c.apiKey);
      LastBaseURLFirst(o, rest, c.baseURL);
    }
  }

  /** Resolution stops at the first invalid option: it returns that option's error, and
      the options after it play no part in the outcome. */
  lemma {:induction false} ResolveFailsAtFirstInvalid(c: Config, pre: seq<Option>, bad: Option, post: seq<Option>)
    requires AllAccepted(pre) && !bad.Accepted()
    ensures Resolve(c, pre + [bad] + post) == Err(bad.Rejection())
    decreases |pre|
  {
    var s := pre + [bad] + post;
    if pre == [] {
      assert s == [bad] + post;
      assert s[0] == bad;
    } else {
      assert s[0] == pre[0];
      assert s[1..] == pre[1..] + [bad] + post;
      assert pre[0].Accepted();
      var c' := Applied(pre[0], c).value;
      assert AllAccepted(pre[1..]) by {
        forall i | 0 <= i < |pre[1..]| ensures pre[1..][i].Accepted() { assert pre[1..][i] == pre[i + 1]; }
      }
      ResolveFailsAtFirstInvalid(c', pre[1..], bad, post);
    }
  }

  /** Without options the client keeps the given key, whatever it is (the key passed to
      the constructor is not validated, so an empty one is accepted), and the default base
      URL; the test's custom options replace both. */
  lemma ResolveExamples(apiKey: string)
    ensures Resolve(Defaults(apiKey), []) == Ok(Config(apiKey, DefaultAPIBaseURL))
    ensures Resolve(Defaults("apiKey"), [WithBaseURL("customURL"), WithAPIKey("customApiKey")])
         == Ok(Config("customApiKey", "customURL"))
  {
  }

  /** huggo's `options` record, which the option functions update in place. */
  class Options {
    var apiKey: string
    var baseURL: string

    constructor (apiKey: string)
      ensures Value() == Defaults(apiKey)
    {
      this.apiKey := apiKey;
      baseURL := DefaultAPIBaseURL;
    }

    function Value(): Config
      reads this
    {
      Config(apiKey, baseURL)
    }

    /** Runs one option on this record: a failing option leaves it unchanged. */
    method Apply(opt: Option) returns (err: Outcome)
      modifies this
      ensures Applied(opt, old(Value())).Ok? ==> err == Pass && Value() == Applied(opt, old(Value())).value
      ensures Applied(opt, old(Value())).Err? ==> err == Fail(opt.Rejection()) && Value() == old(Value())
    {
      match opt {
        case WithAPIKey(k) =>
          if k == "" {
            return Fail(Plain(EmptyKeyMessage));
          }
          apiKey := k;
        case WithBaseURL(u) =>
          if u == "" {
            return Fail(Plain(EmptyURLMessage));
          }
          baseURL := u;
      }
      err := Pass;
    }
  }

  /** Builds a client: starts from the given key and the default base URL, runs the
      options in order and gives up at the first one that fails. */
  method NewHttpClient(apiKey: string, opts: seq<Option>, net: Net) returns (client: HttpClient?, err: Outcome)
    ensures Resolve(Defaults(apiKey), opts).Ok? ==>
      err == Pass && client != null && fresh(client) && client.net == net &&
      client.Settings() == Resolve(Defaults(apiKey), opts).value
    ensures Resolve(Defaults(apiKey), opts).Err? ==>
      err == Fail(Resolve(Defaults(apiKey), opts).error) && client == null
  {
    var options := new Options(apiKey);
    var i := 0;
    while i < |opts|
      invariant 0 <= i <= |opts|
      invariant Resolve(options.Value(), opts[i..]) == Resolve(Defaults(apiKey), opts)
    {
      assert opts[i..][0] == opts[i] && opts[i..][1..] == opts[i + 1..];
      err := options.Apply(opts[i]);
      if err.Fail? {
        return null, err;
      }
      i := i + 1;
    }
    client := new HttpClient(options.apiKey, options.baseURL, net);
    err := Pass;
  }

  // ---------------------------------------------------------------------------
  // Requests and responses
  // ---------------------------------------------------------------------------

  datatype Verb = GET | POST | PUT | DELETE

  /** A request body: none (GET), or the JSON text of the payload. */
  datatype Body = NoBody | JsonBody(text: string)

  /** A request as it is handed to the HTTP stack. */
  datatype Wire = Wire(verb: Verb, url: string, header: map<string, string>, body: Body)

  /** A response: the numeric code, the status line Go reports (such as "404 Not Found")
      and the whole body. */
  datatype Response = Response(code: int, status: string, body: string)

  /** The standard library's networking as the client sees it: whether a URL parses
      (http.NewRequest), and the outcome of sending a request (http.Client.Do). */
  datatype Net = Net(parseUrl: string -> Outcome, roundTrip: Wire -> Result<Response>)

  /** What a verb call leaves behind: its error result and the caller's result slot. */
  datatype Reply<T> = Reply(err: Outcome, out: T)

  /** Decoding a response body into a result slot (json.Decoder.Decode). */
  type Decoder<!T> = (string, T) -> Reply<T>

  /** Serialising a payload to JSON text (json.Marshal). */
  type Marshaller<-P> = P -> Result<string>

  /** The credentials of section 2.1 of RFC 6750 for `token`. */
  function Bearer(token: string): (v: string)
    ensures |v| == 7 + |token| && v[..7] == "Bearer " && v[7..] == token
  {
    "Bearer " + token
  }

  /** A character of the b64token syntax of section 2.1 of RFC 6750, other than "=". */
  predicate TokenChar(c: char) {
    ('A' <= c <= 'Z') || ('a' <= c <= 'z') || ('0' <= c <= '9') || c in "-._~+/"
  }

  /** `t` is a b64token: one or more token characters followed by any number of "=". */
  predicate IsB64Token(t: string) {
    && |t| > 0
    && TokenChar(t[0])
    && (forall i :: 0 <= i < |t| ==> TokenChar(t[i]) || t[i] == '=')
    && (forall i, j :: 0 <= i < j < |t| && t[i] == '=' ==> t[j] == '=')
  }

  function SkipSpaces(s: string): string {
    if s != [] && s[0] == ' ' then SkipSpaces(s[1..]) else s
  }

  /** Reads an Authorization value as RFC 6750 credentials: "Bearer", one or more
      spaces, a b64token. */
  function ParseBearer(v: string): Result<string> {
    if |v| > 6 && v[..6] == "Bearer" && v[6] == ' ' then
      var t := SkipSpaces(v[7..]);
      if IsB64Token(t) then Ok(t) else Err(Plain("malformed bearer token"))
    else Err(Plain("not a bearer credential"))
  }

  /** The Authorization value hands the key back exactly when the key is a b64token;
      an empty key in particular yields no credential at all. */
  lemma BearerRoundTrip(token: string)
    ensures ParseBearer(Bearer(token)) == Ok(token) <==> IsB64Token(token)
    ensures token == "" ==> ParseBearer(Bearer(token)).Err?
  {
    var v := Bearer(token);
    assert v[..6] == "Bearer" && v[6] == ' ' && v[7..] == token;
    if IsB64Token(token) {
      assert SkipSpaces(token) == token;
    }
  }

  /** The two headers every request carries. */
  function Headers(apiKey: string): (h: map<string, string>)
    ensures h.Keys == {ContentType, Authorization}
    ensures h[ContentType] == JsonMediaType && h[Authorization] == "Bearer " + apiKey
  {
    map[ContentType := JsonMediaType, Authorization := Bearer(apiKey)]
  }

  /** The message of a non-200 response: it quotes the status line and the full body. */
  function StatusMessage(resp: Response): (m: string)
    ensures Contains(m, resp.status) && Contains(m, resp.body)
  {
    var head := "request failed (status: ";
    var mid := ", body: ";
    var m := head + resp.status + mid + resp.body + ")";
    assert resp.status <= m[|head|..];
    assert resp.body <= m[|head + resp.status + mid|..];
    m
  }

  /** The response policy of doRequest: a transport error is returned as it is; any
      status but 200 becomes an error quoting the status and the whole body, with the
      slot untouched; a 200 response is decoded into the slot. */
  function Settle<T>(resp: Result<Response>, out: T, decode: Decoder<T>): (r: Reply<T>)
    ensures resp.Err? ==> r == Reply(Fail(resp.error), out)
    ensures resp.Ok? && resp.value.code != StatusOK ==>
      && r.out == out && r.err.Fail? && r.err.error.Plain?
      && Contains(r.err.error.text, resp.value.status)
      && Contains(r.err.error.text, resp.value.body)
    ensures resp.Ok? && resp.value.code == StatusOK ==> r == decode(resp.value.body, out)
    ensures r.err.Pass? ==> resp.Ok? && resp.value.code == StatusOK
  {
    match resp
    case Err(e) => Reply(Fail(e), out)
    case Ok(rsp) =>
      if rsp.code != StatusOK then Reply(Fail(Plain(StatusMessage(rsp))), out)
      else decode(rsp.body, out)
  }

  /** How http.NewRequest fails is worded by the verb that called it. */
  function BuildFailurePrefix(verb: Verb): string {
    if verb == GET then GetFailedPrefix else CreateFailedPrefix
  }

  /** A request object: its header map is filled in after it is created. */
  class Request {
    const verb: Verb
    const url: string
    const body: Body
    var header: map<string, string>

    constructor (verb: Verb, url: string, body: Body)
      ensures this.verb == verb && this.url == url && this.body == body && header == map[]
    {
      this.verb := verb;
      this.url := url;
      this.body := body;
      header := map[];
    }

    /** Header.Set: replaces whatever `key` held. */
    method SetHeader(key: string, value: string)
      modifies this
      ensures header == old(header)[key := value]
    {
      header := header[key := value];
    }

    function OnWire(): Wire
      reads this
    {
      Wire(verb, url, header, body)
    }
  }

  /** A client: the resolved key and base URL, and the HTTP stack it sends with. */
  class HttpClient {
    const apiKey: string
    const baseURL: string
    const net: Net

    constructor (apiKey: string, baseURL: string, net: Net)
      ensures this.apiKey == apiKey && this.baseURL == baseURL && this.net == net
    {
      this.apiKey := apiKey;
      this.baseURL := baseURL;
      this.net := net;
    }

    function Settings(): Config {
      Config(apiKey, baseURL)
    }

    /** The request a call puts on the wire: the base URL and the path joined with no
        separator or escaping, and exactly the two fixed headers, the Authorization one
        carrying the key as a bearer credential. */
    function Prepared(verb: Verb, path: string, body: Body): (w: Wire)
      ensures w.verb == verb && w.body == body
      ensures |w.url| == |baseURL| + |path| && w.url[..|baseURL|] == baseURL && w.url[|baseURL|..] == path
      ensures w.header.Keys == {ContentType, Authorization}
      ensures w.header[ContentType] == JsonMediaType
      ensures w.header[Authorization] == "Bearer " + apiKey
      ensures IsB64Token(apiKey) ==> ParseBearer(w.header[Authorization]) == Ok(apiKey)
    {
      BearerRoundTrip(apiKey);
      Wire(verb, baseURL + path, Headers(apiKey), body)
    }

    /** newRequest: targets baseURL + path and sets the two headers on the new request. */
    method NewRequest(verb: Verb, path: string, body: Body) returns (req: Request?, err: Outcome)
      ensures err == net.parseUrl(baseURL + path)
      ensures err.Pass? ==> req != null && fresh(req) && req.OnWire() == Prepared(verb, path, body)
      ensures err.Fail? ==> req == null
    {
      var url := baseURL + path;
      err := net.parseUrl(url);
      if err.Fail? {
        return null, err;
      }
      req := new Request(verb, url, body);
      req.SetHeader(ContentType, JsonMediaType);
      req.SetHeader(Authorization, Bearer(apiKey));
      assert req.header == Headers(apiKey);
    }

    /** doRequest: the response policy applied to the round trip of `req`'s wire form. */
    method DoRequest<T>(req: Request, out: T, decode: Decoder<T>) returns (r: Reply<T>)
      ensures r == Settle(net.roundTrip(req.OnWire()), out, decode)
    {
      var resp := net.roundTrip(req.OnWire());
      if resp.Err? {
        return Reply(Fail(resp.error), out);
      }
      if resp.value.code != StatusOK {
        return Reply(Fail(Plain(StatusMessage(resp.value))), out);
      }
      r := decode(resp.value.body, out);
    }

    /** A call whose body is ready: build the request, then send it. Success, and any
        change to the slot, come only from decoding the body of a 200 response to the
        prepared request. */
    function Send<T>(verb: Verb, path: string, body: Body, out: T, decode: Decoder<T>): (r: Reply<T>)
      ensures net.parseUrl(baseURL + path).Fail? ==>
        r == Reply(Fail(Plain(BuildFailurePrefix(verb) + net.parseUrl(baseURL + path).error.text)), out)
      ensures net.parseUrl(baseURL + path).Pass? && net.roundTrip(Prepared(verb, path, body)).Err? ==>
        r == Reply(Fail(net.roundTrip(Prepared(verb, path, body)).error), out)
      ensures var resp := net.roundTrip(Prepared(verb, path, body));
        net.parseUrl(baseURL + path).Pass? && resp.Ok? && resp.value.code != StatusOK ==>
          && r.out == out && r.err.Fail? && r.err.error.Plain?
          && Contains(r.err.error.text, resp.value.status)
          && Contains(r.err.error.text, resp.value.body)
      ensures r.err.Pass? || r.out != out ==>
        && net.parseUrl(baseURL + path).Pass?
        && net.roundTrip(Prepared(verb, path, body)).Ok?
        && net.roundTrip(Prepared(verb, path, body)).value.code == StatusOK
      ensures var resp := net.roundTrip(Prepared(verb, path, body));
        net.parseUrl(baseURL + path).Pass? && resp.Ok? && resp.value.code == StatusOK ==>
          r == decode(resp.value.body, out)
    {
      match net.parseUrl(baseURL + path)
      case Fail(e) => Reply(Fail(Plain(BuildFailurePrefix(verb) + e.text)), out)
      case Pass => Settle(net.roundTrip(Prepared(verb, path, body)), out, decode)
    }

    /** A call with a payload: serialise it first; a serialisation failure decides the
        result whatever the network does, otherwise the JSON text is the body. */
    function Issue<P, T>(verb: Verb, path: string, payload: P, marshal: Marshaller<P>, out: T, decode: Decoder<T>): (r: Reply<T>)
      ensures marshal(payload).Err? ==>
        r == Reply(Fail(Plain(SerializeFailedPrefix + marshal(payload).error.text)), out)
      ensures marshal(payload).Ok? ==> r == Send(verb, path, JsonBody(marshal(payload).value), out, decode)
    {
      match marshal(payload)
      case Err(e) => Reply(Fail(Plain(SerializeFailedPrefix + e.text)), out)
      case Ok(json) => Send(verb, path, JsonBody(json), out, decode)
    }

    /** Get sends no body. */
    method Get<T>(path: string, out: T, decode: Decoder<T>) returns (r: Reply<T>)
      ensures r == Send(GET, path, NoBody, out, decode)
    {
      var req, err := NewRequest(GET, path, NoBody);
      if err.Fail? {
        return Reply(Fail(Plain(GetFailedPrefix + err.error.text)), out);
      }
      r := DoRequest(req, out, decode);
    }

    method Post<P, T>(path: string, payload: P, marshal: Marshaller<P>, out: T, decode: Decoder<T>) returns (r: Reply<T>)
      ensures r == Issue(POST, path, payload, marshal, out, decode)
    {
      var body := marshal(payload);
      if body.Err? {
        return Reply(Fail(Plain(SerializeFailedPrefix + body.error.text)), out);
      }
      var req, err := NewRequest(POST, path, JsonBody(body.value));
      if err.Fail? {
        return Reply(Fail(Plain(CreateFailedPrefix + err.error.text)), out);
      }
      r := DoRequest(req, out, decode);
    }

    method Put<P, T>(path: string, payload: P, marshal: Marshaller<P>, out: T, decode: Decoder<T>) returns (r: Reply<T>)
      ensures r == Issue(PUT, path, payload, marshal, out, decode)
    {
      var body := marshal(payload);
      if body.Err? {
        return Reply(Fail(Plain(SerializeFailedPrefix + body.error.text)), out);
      }
      var req, err := NewRequest(PUT, path, JsonBody(body.value));
      if err.Fail? {
        return Reply(Fail(Plain(CreateFailedPrefix + err.error.text)), out);
      }
      r := DoRequest(req, out, decode);
    }

    /** Delete carries the serialised payload as its body, like Post and Put. */
    method Delete<P, T>(path: string, payload: P, marshal: Marshaller<P>, out: T, decode: Decoder<T>) returns (r: Reply<T>)
      ensures r == Issue(DELETE, path, payload, marshal, out, decode)
    {
      var body := marshal(payload);
      if body.Err? {
        return Reply(Fail(Plain(SerializeFailedPrefix + body.error.text)), out);
      }
      var req, err := NewRequest(DELETE, path, JsonBody(body.value));
      if err.Fail? {
        return Reply(Fail(Plain(CreateFailedPrefix + err.error.text)), out);
      }
      r := DoRequest(req, out, decode);
    }
  }

  /** The request of huggo's own test: GET /hello on a default client. */
  lemma RequestExample(client: HttpClient)
    requires client.Settings() == Defaults("apiKey")
    ensures client.Prepared(GET, "/hello", NoBody)
         == Wire(GET, "https://huggingface.co/api/hello",
                 map["Content-Type" := "application/json", "Authorization" := "Bearer apiKey"], NoBody)
  {
    assert DefaultAPIBaseURL + "/hello" == "https://huggingface.co/api/hello";
    assert Bearer("apiKey") == "Bearer apiKey";
  }
}
