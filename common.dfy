/** The generic transport shared by every endpoint (common/common.go): request construction with
    the authentication and organization headers, the HTTP exchange, and the JSON or raw-bytes
    handling of the response body. Everything the Go code delegates to net/http, encoding/json,
    net/url and os is an oracle in `Env`. */
module Common {
  import opened Wrappers
  import opened Errors
  import opened Authentication
  import Strings

  const APIVersion := "v1"
  const BaseURL := "https://api.openai.com/" + APIVersion + "/"

  const ContentTypeKey := "Content-Type"
  const JsonContentType := "application/json"

  const MethodGet := "GET"
  const MethodPost := "POST"
  const MethodDelete := "DELETE"

  const NilResponseText := "nil response received"
  const NilBodyText := "unable to parse response body"
  const FetchFailedText := "failed to retrieve file from url, status code: "
  const StatusOK := 200

  newtype byte = b: int | 0 <= b < 256

  type Header = map<string, string>

  /** textproto.CanonicalMIMEHeaderKey, which Header.Set applies to every key made of token
      characters (every key the library sets): the first letter and each letter after a '-' in
      upper case, every other letter in lower case. */
  function CanonicalKey(k: string): (c: string)
    ensures |c| == |k|
    ensures forall i :: 0 <= i < |k| ==> (c[i] == '-' <==> k[i] == '-')
  {
    Canonical(k, true)
  }

  /** The rest of a key, `upper` telling whether its first letter opens a word. */
  function Canonical(k: string, upper: bool): (c: string)
    ensures |c| == |k|
    ensures forall i :: 0 <= i < |k| ==> (c[i] == '-' <==> k[i] == '-')
  {
    if k == [] then []
    else [LetterCase(k[0], upper)] + Canonical(k[1..], k[0] == '-')
  }

  function LetterCase(ch: char, upper: bool): (r: char)
    ensures upper ==> !('a' <= r <= 'z')
    ensures !upper ==> !('A' <= r <= 'Z')
    ensures (r == '-') == (ch == '-')
  {
    if upper && 'a' <= ch <= 'z' then (ch as int - 32) as char
    else if !upper && 'A' <= ch <= 'Z' then (ch as int + 32) as char
    else ch
  }

  /** Whether the letter at index i of a key opens a word. */
  function OpensWord(k: string, upper: bool, i: nat): bool
    requires i < |k|
  {
    if i == 0 then upper else k[i - 1] == '-'
  }

  /** Canonicalizing twice changes nothing: a key Header.Set stored is found again under itself. */
  lemma {:induction false} CanonicalIdempotent(k: string, upper: bool)
    ensures Canonical(Canonical(k, upper), upper) == Canonical(k, upper)
    decreases |k|
  {
    if k != [] {
      var c := Canonical(k, upper);
      CanonicalIdempotent(k[1..], k[0] == '-');
      assert c[1..] == Canonical(k[1..], k[0] == '-');
      assert c[0] == LetterCase(k[0], upper);
    }
  }

  /** Canonicalization letter by letter: a key whose every letter is cased as its position asks
      canonicalizes to the string of those letters. */
  lemma {:induction false} CanonicalByLetters(k: string, upper: bool, c: string)
    requires |c| == |k|
    requires forall i :: 0 <= i < |k| ==> LetterCase(k[i], OpensWord(k, upper, i)) == c[i]
    ensures Canonical(k, upper) == c
    decreases |k|
  {
    if k != [] {
      forall i | 0 <= i < |k| - 1
        ensures LetterCase(k[1..][i], OpensWord(k[1..], k[0] == '-', i)) == c[1..][i]
      {
        assert LetterCase(k[i + 1], OpensWord(k, upper, i + 1)) == c[i + 1];
      }
      CanonicalByLetters(k[1..], k[0] == '-', c[1..]);
      assert LetterCase(k[0], OpensWord(k, upper, 0)) == c[0];
    }
  }

  /** The key under which Header.Set files OrgHeaderKey. */
  const OrgHeaderField := "Openai-Organization"

  /** Header.Set files the organization key as "Openai-Organization". */
  lemma OrgHeaderKeyFiled()
    ensures CanonicalKey(OrgHeaderKey) == OrgHeaderField
  {
    CanonicalByLetters(OrgHeaderKey, true, OrgHeaderField);
  }

  /** The content type key is already canonical. */
  lemma ContentTypeKeyCanonical()
    ensures CanonicalKey(ContentTypeKey) == ContentTypeKey
  {
    CanonicalByLetters(ContentTypeKey, true, ContentTypeKey);
  }

  /** The authorization key is already canonical. */
  lemma AuthHeaderKeyCanonical()
    ensures CanonicalKey(AuthHeaderKey) == AuthHeaderKey
  {
    CanonicalByLetters(AuthHeaderKey, true, AuthHeaderKey);
  }

  datatype Part =
    | Field(name: string, value: string)
    | File(name: string, filename: string, content: seq<byte>)

  datatype Body = NoBody | JsonBody(bytes: seq<byte>) | FormBody(parts: seq<Part>)

  /** The request as the HTTP client receives it. */
  datatype HttpRequest = HttpRequest(verb: string, url: string, header: Header, body: Body)

  /** What executing a request and reading its body gives back. */
  datatype HttpOutcome =
    | DoFailed(err: Error)       // http.DefaultClient.Do reported an error
    | NilResponse                // Do returned no response and no error
    | ReadFailed(err: Error)     // io.ReadAll reported an error
    | NilBody                    // io.ReadAll returned a nil slice
    | Received(bytes: seq<byte>)

  /** The (*T, error) pair a Go function returns; `None` is nil. */
  datatype Reply<T> = Reply(value: Option<T>, err: Option<Error>)

  /** The two fields of url.Parse's result that IsUrl reads. */
  datatype Url = Url(scheme: string, host: string)

  /** What http.Get and reading its body give back. */
  datatype Fetch = GetFailed(err: Error) | Fetched(status: int, body: seq<byte>)

  /** The library's collaborators, as functions of their inputs. */
  datatype Env = Env(
    newRequest: (string, string) -> Option<Error>,    // the error http.NewRequest reports for a method and URL
    transport: HttpRequest -> HttpOutcome,            // http.DefaultClient.Do followed by io.ReadAll
    probe: seq<byte> -> Option<ResponseError>,        // json.Unmarshal of a body into {"error": ...}
    parseUrl: string -> Option<Url>,                  // url.Parse; None when it reports an error
    get: string -> Fetch,                             // http.Get followed by reading the body
    open: string -> Result<seq<byte>, Error>,         // os.Open followed by reading the file
    create: string -> Option<Error>)                  // the error os.Create reports for a path

  /** json.Marshal and json.Unmarshal for one request type and one response type. */
  datatype Codec<!Req, Resp> = Codec(
    encode: Req -> Result<seq<byte>, Error>,
    decode: seq<byte> -> Result<Resp, Error>)

  // ----- Request headers ------------------------------------------------------------------------

  /** The header map after SetRequestHeaders: the content type, the bearer key, and the
      organization header taken from the per-call override, else from a non-empty default. */
  function Headers(h: Header, contentType: string, creds: Credentials, org: Option<string>): (r: Header)
    ensures ContentTypeKey in r && r[ContentTypeKey] == contentType
    ensures AuthHeaderKey in r && r[AuthHeaderKey] == AuthHeaderPrefix + creds.apiKey
    ensures org.Some? ==> OrgHeaderField in r && r[OrgHeaderField] == org.value
    ensures org.None? && creds.defaultOrgID != "" ==>
              OrgHeaderField in r && r[OrgHeaderField] == creds.defaultOrgID
    ensures org.None? && creds.defaultOrgID == "" ==>
              (OrgHeaderField in r <==> OrgHeaderField in h) &&
              (OrgHeaderField in h ==> r[OrgHeaderField] == h[OrgHeaderField])
    ensures r.Keys == h.Keys + {ContentTypeKey, AuthHeaderKey} +
                      (if org.Some? || creds.defaultOrgID != "" then {OrgHeaderField} else {})
    ensures forall k :: k in h && k != ContentTypeKey && k != AuthHeaderKey && k != OrgHeaderField ==>
              r[k] == h[k]
  {
    var fixed := h[ContentTypeKey := contentType][AuthHeaderKey := AuthHeaderPrefix + creds.apiKey];
    if org.Some? then fixed[OrgHeaderField := org.value]
    else if |creds.defaultOrgID| != 0 then fixed[OrgHeaderField := creds.defaultOrgID]
    else fixed
  }

  /** An http.Request under construction; SetRequestHeaders writes its header map in place. */
  class Request {
    const verb: string
    const url: string
    const body: Body
    var header: Header

    constructor (verb: string, url: string, body: Body)
      ensures this.verb == verb && this.url == url && this.body == body && header == map[]
    {
      this.verb := verb;
      this.url := url;
      this.body := body;
      header := map[];
    }

    function Sent(): HttpRequest
      reads this
    {
      HttpRequest(verb, url, header, body)
    }

    /** Header.Set: replaces whatever the key held, filing it under its canonical form. */
    method Set(key: string, value: string)
      modifies this`header
      ensures header == old(header)[CanonicalKey(key) := value]
    {
      header := header[CanonicalKey(key) := value];
    }
  }

  /** SetRequestHeaders; a nil request is left alone, since nothing is in the frame. */
  method SetRequestHeaders(req: Request?, contentType: string, org: Option<string>, store: CredentialStore)
    modifies req
    ensures req != null ==> req.header == Headers(old(req.header), contentType, store.Snapshot(), org)
  {
    if req == null {
      return;
    }
    ContentTypeKeyCanonical();
    AuthHeaderKeyCanonical();
    OrgHeaderKeyFiled();
    req.Set(ContentTypeKey, contentType);
    var key := store.APIKey();
    req.Set(AuthHeaderKey, AuthHeaderPrefix + key);
    if org.Some? {
      req.Set(OrgHeaderKey, org.value);
    } else {
      var defaultOrgID := store.DefaultOrganizationID();
      if |defaultOrgID| != 0 {
        defaultOrgID := store.DefaultOrganizationID();
        req.Set(OrgHeaderKey, defaultOrgID);
      }
    }
  }

  /** The request the transport receives for a freshly built request. */
  function Outgoing(creds: Credentials, verb: string, url: string, body: Body, contentType: string,
                    org: Option<string>): (q: HttpRequest)
    ensures q.verb == verb && q.url == url && q.body == body
    ensures q.header.Keys == {ContentTypeKey, AuthHeaderKey} +
                             (if org.Some? || creds.defaultOrgID != "" then {OrgHeaderField} else {})
    ensures q.header[ContentTypeKey] == contentType
    ensures q.header[AuthHeaderKey] == AuthHeaderPrefix + creds.apiKey
    ensures OrgHeaderField in q.header ==>
              q.header[OrgHeaderField] == if org.Some? then org.value else creds.defaultOrgID
  {
    HttpRequest(verb, url, Headers(map[], contentType, creds, org), body)
  }

  /** Every key of an outgoing request is canonical, so Header.Get finds each value under it. */
  lemma OutgoingKeysCanonical(creds: Credentials, verb: string, url: string, body: Body,
                              contentType: string, org: Option<string>)
    ensures forall k :: k in Outgoing(creds, verb, url, body, contentType, org).header ==>
              CanonicalKey(k) == k
  {
    ContentTypeKeyCanonical();
    AuthHeaderKeyCanonical();
    OrgHeaderKeyFiled();
    CanonicalIdempotent(OrgHeaderKey, true);
  }

  // ----- Response handling (makeRequest) ---------------------------------------------------------

  /** makeRequest for a JSON response type: transport and read failures are passed on, a nil
      response or nil body becomes an error, and the body is decoded. */
  function Receive<T>(o: HttpOutcome, decode: seq<byte> -> Result<T, Error>): (r: Reply<T>)
    ensures r.value.Some? != r.err.Some?
    ensures r.value.Some? <==> o.Received? && decode(o.bytes).Success?
    ensures r.value.Some? ==> r.value.value == decode(o.bytes).value
    ensures o.Received? && decode(o.bytes).Failure? ==> r.err == Some(decode(o.bytes).error)
    ensures (o.DoFailed? || o.ReadFailed?) ==> r.err == Some(o.err)
    ensures o.NilResponse? ==> r.err == Some(Plain(NilResponseText))
    ensures o.NilBody? ==> r.err == Some(Plain(NilBodyText))
  {
    match o
    case DoFailed(e) => Reply(None, Some(e))
    case NilResponse => Reply(None, Some(Plain(NilResponseText)))
    case ReadFailed(e) => Reply(None, Some(e))
    case NilBody => Reply(None, Some(Plain(NilBodyText)))
    case Received(bytes) =>
      (match decode(bytes)
       case Success(v) => Reply(Some(v), None)
       case Failure(e) => Reply(None, Some(e)))
  }

  /** makeRequest when the response type is []byte: the body is returned verbatim, and an
      error object probed from the same bytes comes back beside it. */
  function ReceiveBytes(o: HttpOutcome, probe: seq<byte> -> Option<ResponseError>): (r: Reply<seq<byte>>)
    ensures r.value.Some? <==> o.Received?
    ensures o.Received? ==> r.value.value == o.bytes
    ensures o.Received? ==> (r.err.Some? <==> probe(o.bytes).Some?)
    ensures o.Received? && probe(o.bytes).Some? ==> r.err == Some(Api(probe(o.bytes).value))
    ensures !o.Received? ==> r.err.Some?
  {
    match o
    case Received(bytes) =>
      (match probe(bytes)
       case Some(e) => Reply(Some(bytes), Some(Api(e)))
       case None => Reply(Some(bytes), None))
    case DoFailed(e) => Reply(None, Some(e))
    case NilResponse => Reply(None, Some(Plain(NilResponseText)))
    case ReadFailed(e) => Reply(None, Some(e))
    case NilBody => Reply(None, Some(Plain(NilBodyText)))
  }

  function JsonReceiver<T>(decode: seq<byte> -> Result<T, Error>): HttpOutcome -> Reply<T> {
    o => Receive(o, decode)
  }

  function BytesReceiver(probe: seq<byte> -> Option<ResponseError>): HttpOutcome -> Reply<seq<byte>> {
    o => ReceiveBytes(o, probe)
  }

  // ----- MakeRequest and MakeRequestWithForm -----------------------------------------------------

  /** The body MakeRequest builds: none for a nil payload, else the payload's JSON encoding. */
  function EncodeBody<Req>(request: Option<Req>, encode: Req -> Result<seq<byte>, Error>): Result<Body, Error> {
    match request
    case None => Success(NoBody)
    case Some(payload) =>
      (match encode(payload)
       case Success(bytes) => Success(JsonBody(bytes))
       case Failure(e) => Failure(e))
  }

  /** A request built with http.NewRequest, given the headers, executed and received. */
  function Deliver<T>(creds: Credentials, env: Env, verb: string, url: string, body: Body,
                      contentType: string, org: Option<string>, receive: HttpOutcome -> Reply<T>): Reply<T>
  {
    match env.newRequest(verb, url)
    case Some(e) => Reply(None, Some(e))
    case None => receive(env.transport(Outgoing(creds, verb, url, body, contentType, org)))
  }

  /** MakeRequest: the encoded payload sent as application/json. */
  function Send<T>(creds: Credentials, env: Env, body: Result<Body, Error>, url: string, verb: string,
                   org: Option<string>, receive: HttpOutcome -> Reply<T>): Reply<T>
  {
    match body
    case Failure(e) => Reply(None, Some(e))
    case Success(b) => Deliver(creds, env, verb, url, b, JsonContentType, org, receive)
  }

  /** Where a request goes: an HTTP method and a URL. */
  datatype Target = Target(verb: string, url: string)

  /** MakeRequest with a nil payload, for which EncodeBody gives no body. */
  function Call<T>(creds: Credentials, env: Env, target: Target, org: Option<string>,
                   decode: seq<byte> -> Result<T, Error>): Reply<T>
  {
    Send(creds, env, Success(NoBody), target.url, target.verb, org, JsonReceiver(decode))
  }

  /** Two transports that answer alike for one URL. */
  ghost predicate AgreeOn(t1: HttpRequest -> HttpOutcome, t2: HttpRequest -> HttpOutcome, url: string) {
    forall q: HttpRequest :: q.url == url ==> t1(q) == t2(q)
  }

  /** A call reaches the network only at its own URL: its reply does not depend on what the
      transport would answer for any other URL. */
  lemma SendOnlyAt<T>(creds: Credentials, env: Env, t2: HttpRequest -> HttpOutcome, body: Result<Body, Error>,
                      url: string, verb: string, org: Option<string>, receive: HttpOutcome -> Reply<T>)
    requires AgreeOn(env.transport, t2, url)
    ensures Send(creds, env, body, url, verb, org, receive)
         == Send(creds, env.(transport := t2), body, url, verb, org, receive)
  {
    if body.Success? && env.newRequest(verb, url).None? {
      var q := Outgoing(creds, verb, url, body.value, JsonContentType, org);
      assert env.transport(q) == t2(q);
    }
  }

  method MakeRequest<Req, T>(store: CredentialStore, env: Env, request: Option<Req>,
                             encode: Req -> Result<seq<byte>, Error>, url: string, verb: string,
                             org: Option<string>, receive: HttpOutcome -> Reply<T>) returns (r: Reply<T>)
    ensures r == Send(store.Snapshot(), env, EncodeBody(request, encode), url, verb, org, receive)
  {
    var body := NoBody;
    if request.Some? {
      var json := encode(request.value);
      if json.Failure? {
        return Reply(None, Some(json.error));
      }
      body := JsonBody(json.value);
    }
    var e := env.newRequest(verb, url);
    if e.Some? {
      return Reply(None, e);
    }
    var req := new Request(verb, url, body);
    SetRequestHeaders(req, JsonContentType, org, store);
    r := receive(env.transport(req.Sent()));
  }

  method MakeRequestWithForm<T>(store: CredentialStore, env: Env, form: seq<Part>, url: string, verb: string,
                                contentType: string, org: Option<string>, receive: HttpOutcome -> Reply<T>)
    returns (r: Reply<T>)
    ensures r == Deliver(store.Snapshot(), env, verb, url, FormBody(form), contentType, org, receive)
  {
    var e := env.newRequest(verb, url);
    if e.Some? {
      return Reply(None, e);
    }
    var req := new Request(verb, url, FormBody(form));
    SetRequestHeaders(req, contentType, org, store);
    r := receive(env.transport(req.Sent()));
  }

  // ----- Multipart forms ---------------------------------------------------------------------

  /** IsUrl: the string parses as a URL that names both a scheme and a host. */
  function IsUrl(env: Env, s: string): (b: bool)
    ensures env.parseUrl(s).None? ==> !b
    ensures env.parseUrl(s).Some? && (env.parseUrl(s).value.scheme == "" || env.parseUrl(s).value.host == "") ==> !b
    ensures env.parseUrl(s).Some? && env.parseUrl(s).value.scheme != "" && env.parseUrl(s).value.host != "" ==> b
  {
    match env.parseUrl(s)
    case None => false
    case Some(u) => u.scheme != "" && u.host != ""
  }

  /** The content CreateFormFile streams into a file part: fetched over HTTP when the path is a
      URL, else read from the local file. */
  function FileSource(env: Env, path: string): (r: Result<seq<byte>, Error>)
    ensures IsUrl(env, path) && env.get(path).Fetched? && env.get(path).status != StatusOK ==>
              r == Failure(Plain(FetchFailedText + Strings.IntToString(env.get(path).status)))
    ensures r.Success? && IsUrl(env, path) ==> env.get(path) == Fetched(StatusOK, r.value)
    ensures r.Success? && !IsUrl(env, path) ==> env.open(path) == Success(r.value)
    ensures r.Failure? <==> (if IsUrl(env, path) then !(env.get(path).Fetched? && env.get(path).status == StatusOK)
                             else env.open(path).Failure?)
    ensures IsUrl(env, path) && env.get(path).GetFailed? ==> r == Failure(env.get(path).err)
    ensures !IsUrl(env, path) && env.open(path).Failure? ==> r == env.open(path)
  {
    if IsUrl(env, path) then
      match env.get(path)
      case GetFailed(e) => Failure(e)
      case Fetched(status, body) =>
        if status != StatusOK then Failure(Plain(FetchFailedText + Strings.IntToString(status)))
        else Success(body)
    else
      env.open(path)
  }

  const BoundarySpecials := "()<>@,;:\\\"/[]?= "

  /** The form's content type: the boundary is quoted when it holds a special character. */
  function FormDataContentType(boundary: string): string {
    "multipart/form-data; boundary=" +
    if exists i :: 0 <= i < |boundary| && boundary[i] in BoundarySpecials
    then "\"" + boundary + "\"" else boundary
  }

  /** The names of a form's parts, in order. */
  function Names(parts: seq<Part>): (names: seq<string>)
    ensures |names| == |parts|
    ensures forall i :: 0 <= i < |parts| ==> names[i] == parts[i].name
  {
    if parts == [] then [] else [parts[0].name] + Names(parts[1..])
  }

  /** A multipart.Writer over a bytes.Buffer: the parts written so far, in order. */
  class FormWriter {
    const boundary: string
    var parts: seq<Part>

    constructor (boundary: string)
      ensures this.boundary == boundary && parts == []
    {
      this.boundary := boundary;
      parts := [];
    }

    /** FormDataContentType for this writer's boundary. */
    function ContentType(): string {
      FormDataContentType(boundary)
    }

    /** CreateFormField followed by copying the value into the new part. */
    method AddField(name: string, value: string)
      modifies this`parts
      ensures parts == old(parts) + [Field(name, value)]
    {
      parts := parts + [Field(name, value)];
    }

    /** CreateFormFile: opens a file part that is still empty. */
    method AddFile(name: string, filename: string)
      modifies this`parts
      ensures parts == old(parts) + [File(name, filename, [])]
    {
      parts := parts + [File(name, filename, [])];
    }

    /** Copies bytes into the file part opened last. */
    method Write(data: seq<byte>)
      requires parts != [] && parts[|parts| - 1].File?
      modifies this`parts
      ensures var last := old(parts[|parts| - 1]);
              parts == old(parts[..|parts| - 1]) + [last.(content := last.content + data)]
    {
      var last := parts[|parts| - 1];
      parts := parts[..|parts| - 1] + [last.(content := last.content + data)];
    }
  }

  /** What a form upload returns: the error that ended the form, else MakeRequestWithForm's result
      unchanged. */
  function SubmitForm<T>(creds: Credentials, env: Env, form: Result<seq<Part>, Error>, boundary: string, url: string,
                         org: Option<string>, decode: seq<byte> -> Result<T, Error>): Reply<T>
  {
    match form
    case Failure(e) => Reply(None, Some(e))
    case Success(parts) =>
      Deliver(creds, env, MethodPost, url, FormBody(parts), FormDataContentType(boundary), org, JsonReceiver(decode))
  }

  /** common.CreateFormFile: the part is opened first, then filled from the source; when the
      source fails the part stays empty and the error is returned. */
  method CreateFormFile(env: Env, fieldname: string, filename: string, path: string, writer: FormWriter)
    returns (err: Option<Error>)
    modifies writer`parts
    ensures var src := FileSource(env, path);
            && writer.parts == old(writer.parts) + [File(fieldname, filename, if src.Success? then src.value else [])]
            && err == if src.Success? then None else Some(src.error)
  {
    writer.AddFile(fieldname, filename);
    var data: seq<byte>;
    if IsUrl(env, path) {
      var resp := env.get(path);
      if resp.GetFailed? {
        return Some(resp.err);
      }
      if resp.status != StatusOK {
        return Some(Plain(FetchFailedText + Strings.IntToString(resp.status)));
      }
      data := resp.body;
    } else {
      var file := env.open(path);
      if file.Failure? {
        return Some(file.error);
      }
      data := file.value;
    }
    ghost var withPart := writer.parts;
    writer.Write(data);
    assert withPart[..|withPart| - 1] == old(writer.parts);
    assert [] + data == data;
    assert FileSource(env, path) == Success(data);
    return None;
  }

  // ----- The wrappers' checks ----------------------------------------------------------------

  /** Whether a wrapper treats an empty result collection as an error, and with which message. */
  datatype EmptyCheck<!T> = NoEmptyCheck | EmptyCheck(isEmpty: T -> bool, message: string)

  /** The early returns every endpoint wrapper runs, in this order, on what MakeRequest gave it:
      an error is passed on without the response; a missing response is an error; an error
      object inside the response is returned with the response; then, where the wrapper checks
      it, an empty result collection is an error returned with the response. */
  function Screen<T>(s: Reply<T>, apiError: T -> Option<ResponseError>, check: EmptyCheck<T>): (r: Reply<T>)
    ensures s.err.Some? ==> r == Reply(None, s.err)
    ensures s.err.None? ==> r.value == s.value
    ensures s.err.None? && s.value.None? ==> r.err == Some(Plain(NilResponseText))
    ensures s.err.None? && s.value.Some? && apiError(s.value.value).Some? ==>
              r.err == Some(Api(apiError(s.value.value).value))
    ensures s.err.None? && s.value.Some? && apiError(s.value.value).None? &&
            check.EmptyCheck? && check.isEmpty(s.value.value)
            ==> r.err == Some(Plain(check.message))
    ensures r.err.None? <==> s.err.None? && s.value.Some? && apiError(s.value.value).None? &&
                             !(check.EmptyCheck? && check.isEmpty(s.value.value))
  {
    if s.err.Some? then Reply(None, s.err)
    else if s.value.None? then Reply(None, Some(Plain(NilResponseText)))
    else
      var v := s.value.value;
      if apiError(v).Some? then Reply(s.value, Some(Api(apiError(v).value)))
      else if check.EmptyCheck? && check.isEmpty(v) then Reply(s.value, Some(Plain(check.message)))
      else Reply(s.value, None)
  }
}
