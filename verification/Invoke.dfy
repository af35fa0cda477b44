/** The invoke codec: a response of a machine as a JSON model, and a JSON model as a request to one. */
module Invoke {
  import opened Wrappers
  import Base64
  import Headers

  /** A response received from a machine; reading its body can fail. */
  datatype Received = Received(status: int, payload: Option<seq<Base64.Byte>>, cookies: seq<string>, header: Headers.Header)

  datatype ResponseModel = ResponseModel(
    statusCode: int,
    body: string,
    isBase64Encoded: bool,
    cookies: seq<string>,
    headers: map<string, string>,
    multiValueHeaders: map<string, seq<string>>)

  datatype RequestModel = RequestModel(
    httpMethod: string,
    rawPath: string,
    rawQueryString: string,
    body: string,
    isBase64Encoded: bool,
    cookies: seq<string>,
    headers: map<string, string>,
    multiValueHeaders: map<string, seq<string>>)

  /** The body reader of a request: decoded bytes, or the bytes of a string. */
  datatype Body = Decoded(bytes: seq<Base64.Byte>) | Text(text: string)

  /** The parts of a URL, before the library escapes and prints them. */
  datatype Url = Url(scheme: string, ip: string, port: int, rawQuery: string, path: string)

  datatype Request = Request(httpMethod: string, url: Url, body: Body, header: Headers.Header)

  datatype Error = UnreadableBody | CorruptBody | InvalidRequest

  /** What reading the body yields; `utf8` is the byte encoding of strings. */
  function Read(b: Body, utf8: string -> seq<Base64.Byte>): seq<Base64.Byte> {
    match b
    case Decoded(bytes) => bytes
    case Text(text) => utf8(text)
  }

  function BodyOf(body: string, isBase64Encoded: bool): Result<Body, Error> {
    if body != "" && isBase64Encoded then
      match Base64.Decode(body)
      case Some(bytes) => Success(Decoded(bytes))
      case None => Failure(CorruptBody)
    else
      Success(Text(body))
  }

  method ToHttpResponse(resp: Received) returns (r: Result<ResponseModel, Error>)
    ensures r.Failure? <==> resp.payload.None?
    ensures r.Failure? ==> r.error == UnreadableBody
    ensures r.Success? ==>
              && Base64.Decode(r.value.body) == resp.payload && r.value.isBase64Encoded
              && r.value.body == Base64.Encode(resp.payload.value)
              && r.value.statusCode == resp.status && r.value.cookies == resp.cookies
              && r.value.headers == Headers.Singles(resp.header)
              && r.value.multiValueHeaders == Headers.Multis(resp.header)
    ensures r.Success? ==>
              Headers.IsSplit(resp.header, r.value.headers, r.value.multiValueHeaders)
  {
    hide Base64.Encode, Base64.Decode, Headers.Singles, Headers.Multis;
    if resp.payload.None? {
      return Failure(UnreadableBody);
    }
    var body := Base64.Encode(resp.payload.value);
    Base64.RoundTrip(resp.payload.value);
    var cookies := [];
    for i := 0 to |resp.cookies|
      invariant cookies == resp.cookies[..i]
    {
      cookies := cookies + [resp.cookies[i]];
    }
    var headers, multi := Headers.Split(resp.header);
    return Success(ResponseModel(resp.status, body, true, cookies, headers, multi));
  }

  /** `acceptable` is the library's check of a method and a URL. */
  method ToHttpRequest(canon: string -> string, acceptable: (string, Url) -> bool,
                       scheme: string, ip: string, port: int, req: RequestModel)
    returns (r: Result<Request, Error>, ghost ho: seq<string>, ghost mo: seq<string>)
    ensures r == Failure(CorruptBody) <==>
            req.body != "" && req.isBase64Encoded && Base64.Decode(req.body).None?
    ensures r == Failure(InvalidRequest) <==>
            && BodyOf(req.body, req.isBase64Encoded).Success?
            && !acceptable(req.httpMethod,
                           Url(scheme := scheme, ip := ip, port := port, rawQuery := req.rawQueryString, path := req.rawPath))
    ensures r.Failure? ==> r.error == CorruptBody || r.error == InvalidRequest
    ensures r.Success? ==>
              && r.value.httpMethod == req.httpMethod
              && r.value.url.scheme == scheme && r.value.url.ip == ip && r.value.url.port == port
              && r.value.url.path == req.rawPath && r.value.url.rawQuery == req.rawQueryString
    ensures r.Success? ==>
              r.value.body == if req.isBase64Encoded && req.body != "" then Decoded(Base64.Decode(req.body).value)
                              else Text(req.body)
    ensures r.Success? ==>
              && BodyOf(req.body, req.isBase64Encoded) == Success(r.value.body)
              && Headers.IsOrder(req.headers, ho) && Headers.IsOrder(req.multiValueHeaders, mo)
              && r.value.header == Headers.AddAll(canon, map[],
                                     Headers.Log(req.cookies, req.headers, ho, req.multiValueHeaders, mo))
              && Headers.Pairs(Headers.Same, r.value.header)
                 == multiset(Headers.Tagged(canon("Cookie"), req.cookies))
                    + Headers.Pairs(canon, Headers.AsLists(req.headers)) + Headers.Pairs(canon, req.multiValueHeaders)
  {
    ho, mo := [], [];
    var body := Text(req.body);
    if req.body != "" && req.isBase64Encoded {
      var bytes := Base64.Decode(req.body);
      if bytes.None? {
        return Failure(CorruptBody), ho, mo;
      }
      body := Decoded(bytes.value);
    }
    var url := Url(scheme := scheme, ip := ip, port := port, rawQuery := req.rawQueryString, path := req.rawPath);
    if !acceptable(req.httpMethod, url) {
      return Failure(InvalidRequest), ho, mo;
    }
    var header;
    header, ho, mo := Headers.Build(canon, req.cookies, req.headers, req.multiValueHeaders);
    return Success(Request(req.httpMethod, url, body, header)), ho, mo;
  }

  /** The body round trip, for every byte sequence; the empty one takes the text branch. */
  lemma BodyRoundTrip(bytes: seq<Base64.Byte>, utf8: string -> seq<Base64.Byte>)
    requires utf8("") == []
    ensures BodyOf(Base64.Encode(bytes), true).Success?
    ensures Read(BodyOf(Base64.Encode(bytes), true).value, utf8) == bytes
    ensures BodyOf(Base64.Encode(bytes), true).value.Text? <==> bytes == []
  {
    Base64.RoundTrip(bytes);
  }

  /**
   A response model sent back as a request, without its cookies, keeps body and header, in every
   iteration order, if and only if the header keys are canonical and none is without values.
   */
  lemma ModelRoundTrip(canon: string -> string, payload: seq<Base64.Byte>, header: Headers.Header,
                       ho: seq<string>, mo: seq<string>, utf8: string -> seq<Base64.Byte>)
    requires Headers.Idempotent(canon) && utf8("") == []
    requires Headers.IsOrder(Headers.Singles(header), ho) && Headers.IsOrder(Headers.Multis(header), mo)
    ensures var body := BodyOf(Base64.Encode(payload), true);
            var sent := Headers.AddAll(canon, map[],
                          Headers.Log([], Headers.Singles(header), ho, Headers.Multis(header), mo));
            && body.Success?
            && ((Read(body.value, utf8) == payload && sent == header)
                <==> forall k :: k in header ==> canon(k) == k && header[k] != [])
  {
    BodyRoundTrip(payload, utf8);
    Headers.SplitMergeRoundTrip(canon, header, ho, mo);
  }
}
