/** The request client: one `request` routine over the platform's fetch, with GET, POST,
    PUT and DELETE shorthands. */
module ApiClient {
  import opened JsValues
  import Decimal
  import Config

  /** The fields of a fetch RequestInit that the client reads or writes; `None` is an absent key. */
  datatype RequestInit = RequestInit(
    httpMethod: Option<string>,
    headers: Option<map<string, string>>,
    body: Option<string>)

  /** One call of the platform's fetch. */
  datatype FetchCall = FetchCall(url: string, init: RequestInit)

  /** What fetch produced: a rejection, or a response whose body, read with `response.json()`,
      is the JSON value given, or `None` when it is not JSON. */
  datatype FetchReply =
    | NetworkFailure(reason: Exception)
    | Response(status: int, statusText: string, body: Option<Json>)

  const JsonHeaders: map<string, string> := map["Content-Type" := "application/json"]

  /** `{ ...under, ...over }`: each key present in `over` wins. */
  function Spread(under: RequestInit, over: RequestInit): RequestInit {
    RequestInit(
      if over.httpMethod.Some? then over.httpMethod else under.httpMethod,
      if over.headers.Some? then over.headers else under.headers,
      if over.body.Some? then over.body else under.body)
  }

  /** The init fetch receives:
      `{ headers: { 'Content-Type': 'application/json', ...options.headers }, ...options }`.
      Because `options` is spread last, headers supplied by the caller replace the merged
      object wholesale, and the JSON content type is then sent only if the caller included it. */
  function SentInit(options: RequestInit): (init: RequestInit)
    ensures init.httpMethod == options.httpMethod && init.body == options.body
    ensures options.headers.None? ==> init.headers == Some(JsonHeaders)
    ensures options.headers.Some? ==> init.headers == options.headers
    ensures init.headers.Some?
    ensures "Content-Type" in init.headers.value <==>
              options.headers.None? || "Content-Type" in options.headers.value
  {
    var merged := JsonHeaders + (if options.headers.Some? then options.headers.value else map[]);
    assert options.headers.None? ==> merged == JsonHeaders;
    Spread(RequestInit(None, Some(merged), None), options)
  }

  /** `response.ok`. */
  predicate IsOk(status: int) {
    200 <= status <= 299
  }

  /** `API Error: ${response.status} ${response.statusText}`. */
  function FallbackMessage(status: int, statusText: string): string {
    "API Error: " + Decimal.IntText(status) + " " + statusText
  }

  /** The error body is an object with a truthy `message`. */
  predicate CarriesMessage(body: Option<Json>) {
    body.Some? && body.value.JObj? && "message" in body.value.fields && Truthy(body.value.fields["message"])
  }

  /** The message of the error thrown for a response that is not ok: the body's `message`
      when it is truthy, converted to text as `new Error` does, and otherwise the status line.
      A body that is not JSON, or is `null`, only selects the status line. The message is
      non-empty unless `message` is an array whose text is empty, such as `[]`: a truthy
      non-array converts to non-empty text (TruthyTextNonEmpty), and the status line is
      never empty. */
  function ErrorMessage(status: int, statusText: string, body: Option<Json>): (m: string)
    ensures CarriesMessage(body) ==> m == ToJsString(body.value.fields["message"])
    ensures !CarriesMessage(body) ==> m == FallbackMessage(status, statusText)
    ensures m == "" ==> CarriesMessage(body) && body.value.fields["message"].JArr?
  {
    match body
    case None => FallbackMessage(status, statusText)
    case Some(data) =>
      match GetProp(data, "message")
      case Thrown(_) => FallbackMessage(status, statusText)
      case Ok(message) =>
        if PropTruthy(message) then
          ToJsString(message.value)
        else
          FallbackMessage(status, statusText)
  }

  /** What one fetch reply makes `request` return or throw. Only an ok status with a JSON
      body yields a payload, and it is that body; a status outside 200..299 always throws an
      Error; a rejection from fetch and an unparsable ok body are rethrown as they are. */
  function Classify(reply: FetchReply): (r: Outcome<Json>)
    ensures r.Ok? <==> reply.Response? && IsOk(reply.status) && reply.body.Some?
    ensures r.Ok? ==> r.value == reply.body.value
    ensures reply.NetworkFailure? ==> r == Thrown(reply.reason)
    ensures reply.Response? && IsOk(reply.status) && reply.body.None? ==> r == Thrown(SyntaxError)
    ensures reply.Response? && !IsOk(reply.status) ==>
              r == Thrown(Error(ErrorMessage(reply.status, reply.statusText, reply.body)))
  {
    match reply
    case NetworkFailure(reason) => Thrown(reason)
    case Response(status, statusText, body) =>
      if !IsOk(status) then Thrown(Error(ErrorMessage(status, statusText, body)))
      else if body.Some? then Ok(body.value)
      else Thrown(SyntaxError)
  }

  /** The platform's fetch. It records every call made through it, and answers the n-th call
      (counting from 0) from `replies`, so a second attempt may be answered differently. */
  class Network {
    var calls: seq<FetchCall>
    const replies: (nat, FetchCall) -> FetchReply

    constructor (replies: (nat, FetchCall) -> FetchReply)
      ensures calls == [] && this.replies == replies
    {
      calls := [];
      this.replies := replies;
    }

    /** `fetch(url, init)`. */
    method Fetch(call: FetchCall) returns (reply: FetchReply)
      modifies this
      ensures calls == old(calls) + [call]
      ensures reply == replies(|old(calls)|, call)
    {
      reply := replies(|calls|, call);
      calls := calls + [call];
    }
  }

  /** `apiClient.request`: builds the URL by plain concatenation, calls fetch exactly once,
      with no retry, and returns or throws what that one reply dictates. */
  method Request(env: Option<string>, endpoint: string, options: RequestInit, net: Network)
    returns (r: Outcome<Json>)
    modifies net
    ensures net.calls == old(net.calls) + [FetchCall(Config.BaseUrl(env) + endpoint, SentInit(options))]
    ensures r == Classify(net.replies(|old(net.calls)|, FetchCall(Config.BaseUrl(env) + endpoint, SentInit(options))))
  {
    var url := Config.BaseUrl(env) + endpoint;
    var response := net.Fetch(FetchCall(url, SentInit(options)));
    if response.NetworkFailure? {
      // caught by the outer catch and rethrown as it is
      return Thrown(response.reason);
    }
    if !IsOk(response.status) {
      var errorMessage := FallbackMessage(response.status, response.statusText);
      if response.body.Some? {
        var message := GetProp(response.body.value, "message");
        if message.Ok? && PropTruthy(message.value) {
          errorMessage := ToJsString(message.value.value);
        }
      }
      return Thrown(Error(errorMessage));
    }
    if response.body.None? {
      return Thrown(SyntaxError);
    }
    r := Ok(response.body.value);
  }

  /** `apiClient.get`: one fetch with method GET, no body, the JSON content type. */
  method Get(env: Option<string>, endpoint: string, net: Network) returns (r: Outcome<Json>)
    modifies net
    ensures net.calls == old(net.calls) +
              [FetchCall(Config.BaseUrl(env) + endpoint, RequestInit(Some("GET"), Some(JsonHeaders), None))]
    ensures r == Classify(net.replies(|old(net.calls)|, net.calls[|old(net.calls)|]))
  {
    r := Request(env, endpoint, RequestInit(Some("GET"), None, None), net);
  }

  /** `apiClient.post`: one fetch with method POST, the data as JSON text, the JSON content type. */
  method Post(env: Option<string>, endpoint: string, data: Json, codec: Codec, net: Network)
    returns (r: Outcome<Json>)
    modifies net
    ensures net.calls == old(net.calls) +
              [FetchCall(Config.BaseUrl(env) + endpoint,
                         RequestInit(Some("POST"), Some(JsonHeaders), Some(codec.stringify(data))))]
    ensures r == Classify(net.replies(|old(net.calls)|, net.calls[|old(net.calls)|]))
  {
    r := Request(env, endpoint, RequestInit(Some("POST"), None, Some(codec.stringify(data))), net);
  }

  /** `apiClient.put`: one fetch with method PUT, the data as JSON text, the JSON content type. */
  method Put(env: Option<string>, endpoint: string, data: Json, codec: Codec, net: Network)
    returns (r: Outcome<Json>)
    modifies net
    ensures net.calls == old(net.calls) +
              [FetchCall(Config.BaseUrl(env) + endpoint,
                         RequestInit(Some("PUT"), Some(JsonHeaders), Some(codec.stringify(data))))]
    ensures r == Classify(net.replies(|old(net.calls)|, net.calls[|old(net.calls)|]))
  {
    r := Request(env, endpoint, RequestInit(Some("PUT"), None, Some(codec.stringify(data))), net);
  }

  /** `apiClient.delete`: one fetch with method DELETE, no body, the JSON content type. */
  method Delete(env: Option<string>, endpoint: string, net: Network) returns (r: Outcome<Json>)
    modifies net
    ensures net.calls == old(net.calls) +
              [FetchCall(Config.BaseUrl(env) + endpoint, RequestInit(Some("DELETE"), Some(JsonHeaders), None))]
    ensures r == Classify(net.replies(|old(net.calls)|, net.calls[|old(net.calls)|]))
  {
    r := Request(env, endpoint, RequestInit(Some("DELETE"), None, None), net);
  }

  /** The status-line message names the status and its text unambiguously: two different
      responses without a usable body never throw the same message. */
  lemma FallbackIdentifiesResponse(s1: int, t1: string, s2: int, t2: string)
    requires FallbackMessage(s1, t1) == FallbackMessage(s2, t2)
    ensures s1 == s2 && t1 == t2
  {
    var prefix := "API Error: ";
    var d1, d2 := Decimal.IntText(s1), Decimal.IntText(s2);
    assert FallbackMessage(s1, t1) == prefix + (d1 + " " + t1);
    assert FallbackMessage(s2, t2) == prefix + (d2 + " " + t2);
    assert d1 + " " + t1 == FallbackMessage(s1, t1)[|prefix|..] == d2 + " " + t2;
    SplitAtFirstSpace(d1, t1, d2, t2);
    Decimal.IntTextInjective(s1, s2);
  }

  /** Text without spaces, a space, then anything: the first space splits it one way only. */
  lemma SplitAtFirstSpace(a: string, x: string, b: string, y: string)
    requires forall i :: 0 <= i < |a| ==> a[i] != ' '
    requires forall i :: 0 <= i < |b| ==> b[i] != ' '
    requires a + " " + x == b + " " + y
    ensures a == b && x == y
  {
    var s := a + " " + x;
    assert s[|a|] == ' ' && s[|b|] == ' ';
    assert forall i :: 0 <= i < |a| ==> s[i] == a[i];
    assert forall i :: 0 <= i < |b| ==> s[i] == b[i];
    assert |a| == |b|;
    assert a == s[..|a|] == b;
    assert x == s[|a| + 1..] == y;
  }

  /** The thrown message can be empty: a 500 whose body is `{"message": []}`. */
  lemma EmptyArrayMessage()
    ensures ErrorMessage(500, "Internal Server Error", Some(JObj(map["message" := JArr([])]))) == ""
  {
  }

  /** A rejection from fetch and a status failure are not told apart: a fetch that rejects
      with an Error carrying the status line throws exactly what that status throws when its
      body gives no usable `message`. */
  lemma RejectionMatchesStatusFailure(status: int, statusText: string, body: Option<Json>)
    requires !IsOk(status) && !CarriesMessage(body)
    ensures Classify(NetworkFailure(Error(FallbackMessage(status, statusText))))
         == Classify(Response(status, statusText, body))
  {
  }
}
