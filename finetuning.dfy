/** The fine-tuning jobs endpoint (finetuning/finetuning.go), with its paged listings. */
module Finetuning {
  import opened Wrappers
  import opened Errors
  import opened Authentication
  import opened Common
  import opened Strings
  import Models

  const Endpoint := BaseURL + "fine_tuning/jobs"

  /** Go's uint64, the type of the `limit` parameter. */
  newtype u64 = x: int | 0 <= x < 0x1_0000_0000_0000_0000

  datatype HyperParameters = HyperParameters(batchSize: u64, nEpochs: u64)

  datatype CreationRequest = CreationRequest(model: string, trainingFile: string, hyperparams: HyperParameters,
                                             suffix: Option<string>, validationFile: Option<string>)

  datatype FineTuneEvent = FineTuneEvent(id: string, createdAt: u64, level: string, message: string,
                                         object: string, eventType: string)

  datatype FineTune = FineTune(id: string, createdAt: u64, error: Option<ResponseError>, fineTunedModel: string,
                               model: string, object: string, status: string, resultFiles: seq<string>)

  datatype ListResponse = ListResponse(object: string, data: seq<FineTune>, error: Option<ResponseError>,
                                       hasMore: bool)

  datatype ListEventsResponse = ListEventsResponse(object: string, data: seq<FineTuneEvent>,
                                                   error: Option<ResponseError>, hasMore: bool)

  datatype DeleteResponse = DeleteResponse(id: int, object: string, deleted: bool, error: Option<ResponseError>)

  // ----- Paging ------------------------------------------------------------------------------

  /** The optional `limit` and `after` arguments of the two listings. */
  datatype Page = Page(limit: Option<u64>, after: Option<string>)

  /** The query string appended to a listing's URL: `after` before `limit`, each only when given,
      both written verbatim. */
  function Query(p: Page): string {
    match (p.after, p.limit)
    case (Some(a), Some(n)) => "?after=" + a + "&limit=" + NatToString(n as nat)
    case (Some(a), None) => "?after=" + a
    case (None, Some(n)) => "?limit=" + NatToString(n as nat)
    case (None, None) => ""
  }

  /** A decimal `limit` as Query writes it: digits with no leading zero, below 2^64. */
  function ParseLimit(s: string): Option<u64> {
    if IsCanonical(s) && ParseNat(s) < 0x1_0000_0000_0000_0000 then Some(ParseNat(s) as u64)
    else None
  }

  function ParseQuery(q: string): Option<Page> {
    if q == "" then Some(Page(None, None))
    else if HasPrefix(q, "?limit=") then
      (match ParseLimit(q[7..])
       case Some(n) => Some(Page(Some(n), None))
       case None => None)
    else if HasPrefix(q, "?after=") then ParseAfter(q[7..])
    else None
  }

  /** What follows "?after=": the cursor up to the first '&', then possibly the limit. */
  function ParseAfter(s: string): Option<Page> {
    var split := SplitAt(s, '&');
    if split.1 == "" then Some(Page(None, Some(split.0)))
    else if HasPrefix(split.1, "&limit=") then
      (match ParseLimit(split.1[7..])
       case Some(n) => Some(Page(Some(n), Some(split.0)))
       case None => None)
    else None
  }

  lemma LimitParses(n: u64)
    ensures ParseLimit(NatToString(n as nat)) == Some(n)
  {
    ParseNatToString(n as nat);
  }

  lemma LimitOfParsed(d: string)
    requires ParseLimit(d).Some?
    ensures NatToString(ParseLimit(d).value as nat) == d
  {
    NatToStringOfParse(d);
  }

  /** Query strings read back as the arguments they were built from, as long as `after` holds no
      '&'; in particular the four combinations of present and absent arguments never collide. */
  lemma {:induction false} QueryParses(p: Page)
    requires p.after.Some? ==> '&' !in p.after.value
    ensures ParseQuery(Query(p)) == Some(p)
  {
    var q := Query(p);
    match (p.after, p.limit)
    case (Some(a), Some(n)) =>
      var d := NatToString(n as nat);
      assert q == "?after=" + (a + ("&limit=" + d));
      assert q[..7] == "?after=";
      assert q[7..] == a + ("&limit=" + d);
      SplitAtConcat(a, '&', "&limit=" + d);
      assert ("&limit=" + d)[7..] == d;
      LimitParses(n);
    case (Some(a), None) =>
      assert q[..7] == "?after=";
      assert q[7..] == a;
      SplitAtConcat(a, '&', "");
      assert a + "" == a;
    case (None, Some(n)) =>
      assert q[..7] == "?limit=";
      assert q[7..] == NatToString(n as nat);
      LimitParses(n);
    case (None, None) =>
  }

  /** Every query string that reads back is exactly the one Query builds from what it reads. */
  lemma QueryOfParsed(q: string)
    ensures ParseQuery(q).Some? ==> Query(ParseQuery(q).value) == q
  {
    if ParseQuery(q).Some? && q != "" {
      assert q == q[..7] + q[7..];
      if HasPrefix(q, "?limit=") {
        LimitOfParsed(q[7..]);
      } else {
        AfterOfParsed(q[7..]);
      }
    }
  }

  lemma AfterOfParsed(s: string)
    ensures ParseAfter(s).Some? ==> Query(ParseAfter(s).value) == "?after=" + s
  {
    var split := SplitAt(s, '&');
    if ParseAfter(s).Some? {
      if split.1 == "" {
        assert split.0 == s;
      } else {
        var d := split.1[7..];
        assert split.1 == "&limit=" + d;
        var n := ParseLimit(d).value;
        assert ParseAfter(s) == Some(Page(Some(n), Some(split.0)));
        LimitOfParsed(d);
        assert "?after=" + s == "?after=" + split.0 + "&limit=" + d;
      }
    }
  }

  /** `after` is written verbatim, so a cursor holding "&limit=" reads as a limit. */
  lemma AfterNotEscaped()
    ensures Query(Page(None, Some("x&limit=5"))) == Query(Page(Some(5), Some("x")))
  {
    assert NatToString(5) == "5";
  }

  // ----- Routes ------------------------------------------------------------------------------

  /** The six requests this package makes. */
  datatype Operation =
    | Create
    | List(page: Page)
    | Retrieve(fineTuneID: string)
    | Cancel(fineTuneID: string)
    | ListEvents(fineTuneID: string, page: Page)
    | Delete(fineTuneModel: string)

  /** The method and URL of each operation; deletion goes to the models endpoint. */
  function Route(op: Operation): Target {
    match op
    case Create => Target(MethodPost, Endpoint)
    case List(p) => Target(MethodGet, Endpoint + Query(p))
    case Retrieve(id) => Target(MethodGet, Endpoint + "/" + id)
    case Cancel(id) => Target(MethodPost, Endpoint + "/" + id + "/cancel")
    case ListEvents(id, p) => Target(MethodGet, Endpoint + "/" + id + "/events" + Query(p))
    case Delete(model) => Target(MethodDelete, Models.Endpoint + "/" + model)
  }

  function ParseRoute(t: Target): Option<Operation> {
    var jobs := Endpoint + "/";
    var models := Models.Endpoint + "/";
    if t.verb == MethodDelete then
      if HasPrefix(t.url, models) then Some(Delete(t.url[|models|..])) else None
    else if HasPrefix(t.url, jobs) then ParseJobRoute(t.verb, t.url[|jobs|..])
    else if t.verb == MethodPost then
      if t.url == Endpoint then Some(Create) else None
    else if t.verb == MethodGet && HasPrefix(t.url, Endpoint) then
      (match ParseQuery(t.url[|Endpoint|..])
       case Some(p) => Some(List(p))
       case None => None)
    else None
  }

  /** A URL below one job: the ID up to the next '/', then what is asked of the job. */
  function ParseJobRoute(verb: string, rest: string): Option<Operation> {
    var split := SplitAt(rest, '/');
    if verb == MethodPost && split.1 == "/cancel" then Some(Cancel(split.0))
    else if verb == MethodGet && split.1 == "" then Some(Retrieve(split.0))
    else if verb == MethodGet && HasPrefix(split.1, "/events") then
      (match ParseQuery(split.1[7..])
       case Some(p) => Some(ListEvents(split.0, p))
       case None => None)
    else None
  }

  /** A job ID is a single path segment and an `after` cursor holds no '&'. */
  predicate PlainArgs(op: Operation) {
    match op
    case List(p) => p.after.Some? ==> '&' !in p.after.value
    case Retrieve(id) => '/' !in id
    case Cancel(id) => '/' !in id
    case ListEvents(id, p) => '/' !in id && (p.after.Some? ==> '&' !in p.after.value)
    case _ => true
  }

  /** A job URL is read below the job prefix. */
  lemma JobUrl(verb: string, id: string, tail: string)
    requires verb != MethodDelete
    ensures var url := Endpoint + "/" + id + tail;
            && HasPrefix(url, Endpoint + "/")
            && ParseRoute(Target(verb, url)) == ParseJobRoute(verb, id + tail)
  {
    var jobs := Endpoint + "/";
    var url := Endpoint + "/" + id + tail;
    assert url == jobs + (id + tail);
    assert url[..|jobs|] == jobs;
    assert url[|jobs|..] == id + tail;
  }

  /** Distinct operations with plain arguments never share a target. */
  lemma {:induction false} RouteParses(op: Operation)
    requires PlainArgs(op)
    ensures ParseRoute(Route(op)) == Some(op)
  {
    match op
    case Create =>
    case List(p) =>
      ListRouteParses(p);
    case Retrieve(id) =>
      JobUrl(MethodGet, id, "");
      assert Endpoint + "/" + id + "" == Endpoint + "/" + id;
      SplitAtConcat(id, '/', "");
      assert id + "" == id;
    case Cancel(id) =>
      JobUrl(MethodPost, id, "/cancel");
      SplitAtConcat(id, '/', "/cancel");
    case ListEvents(id, p) =>
      EventsRouteParses(id, p);
    case Delete(model) =>
      var url := Models.Endpoint + "/" + model;
      assert url[..|Models.Endpoint + "/"|] == Models.Endpoint + "/";
      assert url[|Models.Endpoint + "/"|..] == model;
  }

  lemma ListRouteParses(p: Page)
    requires p.after.Some? ==> '&' !in p.after.value
    ensures ParseRoute(Route(List(p))) == Some(List(p))
  {
    QueryParses(p);
    QueryStart(p);
    ListUrl(Query(p));
  }

  /** A query string is empty or starts with '?'. */
  lemma QueryStart(p: Page)
    ensures Query(p) == "" || Query(p)[0] == '?'
  {
  }

  /** A URL that is the endpoint followed by a query string is read as a listing. */
  lemma ListUrl(q: string)
    requires q == "" || q[0] == '?'
    ensures ParseRoute(Target(MethodGet, Endpoint + q)) ==
              (match ParseQuery(q) case Some(p) => Some(List(p)) case None => None)
  {
    var url := Endpoint + q;
    assert url[..|Endpoint|] == Endpoint;
    assert url[|Endpoint|..] == q;
    assert !HasPrefix(url, Endpoint + "/") by {
      if |url| > |Endpoint| {
        assert url[|Endpoint|] == '?';
      }
    }
  }

  lemma EventsRouteParses(id: string, p: Page)
    requires '/' !in id && (p.after.Some? ==> '&' !in p.after.value)
    ensures ParseRoute(Route(ListEvents(id, p))) == Some(ListEvents(id, p))
  {
    var tail := "/events" + Query(p);
    JobUrl(MethodGet, id, tail);
    assert Endpoint + "/" + id + "/events" + Query(p) == Endpoint + "/" + id + tail;
    SplitAtConcat(id, '/', tail);
    assert tail[..7] == "/events";
    assert tail[7..] == Query(p);
    QueryParses(p);
  }

  /** Every target that reads back as an operation is that operation's own target. */
  lemma ParsedRoutes(t: Target)
    ensures ParseRoute(t).Some? ==> Route(ParseRoute(t).value) == t
  {
    var jobs := Endpoint + "/";
    if ParseRoute(t).Some? {
      if t.verb == MethodDelete {
        var models := Models.Endpoint + "/";
        assert t.url == models + t.url[|models|..];
      } else if HasPrefix(t.url, jobs) {
        var rest := t.url[|jobs|..];
        JobRouteOfParsed(t.verb, rest);
        assert t.url == jobs + rest;
      } else if t.verb == MethodGet {
        var rest := t.url[|Endpoint|..];
        QueryOfParsed(rest);
        assert t.url == Endpoint + rest;
      }
    }
  }

  lemma JobRouteOfParsed(verb: string, rest: string)
    ensures ParseJobRoute(verb, rest).Some? ==>
              Route(ParseJobRoute(verb, rest).value) == Target(verb, Endpoint + "/" + rest)
  {
    var split := SplitAt(rest, '/');
    if ParseJobRoute(verb, rest).Some? {
      if verb == MethodGet && split.1 != "" {
        EventsOfParsed(split.0, split.1);
      } else {
        assert Endpoint + "/" + rest == Endpoint + "/" + split.0 + split.1;
      }
    }
  }

  lemma EventsOfParsed(id: string, tail: string)
    requires HasPrefix(tail, "/events") && ParseQuery(tail[7..]).Some?
    ensures Route(ListEvents(id, ParseQuery(tail[7..]).value)) == Target(MethodGet, Endpoint + "/" + (id + tail))
  {
    var q := tail[7..];
    QueryOfParsed(q);
    assert tail == "/events" + q;
    assert Endpoint + "/" + (id + tail) == Endpoint + "/" + id + "/events" + q;
  }

  // ----- Requests ----------------------------------------------------------------------------

  function Get<T>(creds: Credentials, env: Env, op: Operation, org: Option<string>,
                  decode: seq<byte> -> Result<T, Error>): Reply<T>
  {
    Call(creds, env, Route(op), org, decode)
  }

  /** MakeCreationRequest: POST of the request to the endpoint; only the embedded error is checked. */
  function MakeCreationRequest(creds: Credentials, env: Env, request: Option<CreationRequest>, org: Option<string>,
                               codec: Codec<CreationRequest, FineTune>): (r: Reply<FineTune>)
    ensures var s := Send(creds, env, EncodeBody(request, codec.encode), Endpoint, MethodPost, org,
                          JsonReceiver(codec.decode));
            && (s.err.Some? ==> r == Reply(None, s.err))
            && (s.err.None? ==> r.value == s.value)
            && (s.err.None? && s.value.None? ==> r.err == Some(Plain(NilResponseText)))
            && (s.err.None? && s.value.Some? && s.value.value.error.Some? ==>
                  r.err == Some(Api(s.value.value.error.value)))
            && (r.err.None? <==> s.err.None? && s.value.Some? && s.value.value.error.None?)
  {
    Screen(Send(creds, env, EncodeBody(request, codec.encode), Route(Create).url, Route(Create).verb, org,
                JsonReceiver(codec.decode)),
           (resp: FineTune) => resp.error, NoEmptyCheck)
  }

  /** MakeListRequest: GET on the endpoint with the paging query; an empty job list is not an error. */
  function MakeListRequest(creds: Credentials, env: Env, limit: Option<u64>, after: Option<string>,
                           org: Option<string>, decode: seq<byte> -> Result<ListResponse, Error>)
    : (r: Reply<ListResponse>)
    ensures var s := Call(creds, env, Target(MethodGet, Endpoint + Query(Page(limit, after))), org, decode);
            && (s.err.Some? ==> r == Reply(None, s.err))
            && (s.err.None? ==> r.value == s.value)
            && (s.err.None? && s.value.None? ==> r.err == Some(Plain(NilResponseText)))
            && (s.err.None? && s.value.Some? && s.value.value.error.Some? ==>
                  r.err == Some(Api(s.value.value.error.value)))
            && (r.err.None? <==> s.err.None? && s.value.Some? && s.value.value.error.None?)
  {
    Screen(Get(creds, env, List(Page(limit, after)), org, decode), (resp: ListResponse) => resp.error,
           NoEmptyCheck)
  }

  /** MakeRetrieveRequest: GET on the job's URL; only the embedded error is checked. */
  function MakeRetrieveRequest(creds: Credentials, env: Env, fineTuneID: string, org: Option<string>,
                               decode: seq<byte> -> Result<FineTune, Error>): (r: Reply<FineTune>)
    ensures var s := Call(creds, env, Target(MethodGet, Endpoint + "/" + fineTuneID), org, decode);
            && (s.err.Some? ==> r == Reply(None, s.err))
            && (s.err.None? ==> r.value == s.value)
            && (s.err.None? && s.value.None? ==> r.err == Some(Plain(NilResponseText)))
            && (s.err.None? && s.value.Some? && s.value.value.error.Some? ==>
                  r.err == Some(Api(s.value.value.error.value)))
            && (r.err.None? <==> s.err.None? && s.value.Some? && s.value.value.error.None?)
  {
    Screen(Get(creds, env, Retrieve(fineTuneID), org, decode), (resp: FineTune) => resp.error, NoEmptyCheck)
  }

  /** MakeCancelRequest: POST with no body to the job's "/cancel" URL; only the embedded error is
      checked. */
  function MakeCancelRequest(creds: Credentials, env: Env, fineTuneID: string, org: Option<string>,
                             decode: seq<byte> -> Result<FineTune, Error>): (r: Reply<FineTune>)
    ensures var s := Call(creds, env, Target(MethodPost, Endpoint + "/" + fineTuneID + "/cancel"), org, decode);
            && (s.err.Some? ==> r == Reply(None, s.err))
            && (s.err.None? ==> r.value == s.value)
            && (s.err.None? && s.value.None? ==> r.err == Some(Plain(NilResponseText)))
            && (s.err.None? && s.value.Some? && s.value.value.error.Some? ==>
                  r.err == Some(Api(s.value.value.error.value)))
            && (r.err.None? <==> s.err.None? && s.value.Some? && s.value.value.error.None?)
  {
    Screen(Get(creds, env, Cancel(fineTuneID), org, decode), (resp: FineTune) => resp.error, NoEmptyCheck)
  }

  /** MakeListEventsRequest: GET on the job's "/events" URL with the paging query; an empty event
      list is not an error. */
  function MakeListEventsRequest(creds: Credentials, env: Env, fineTuneID: string, limit: Option<u64>,
                                 after: Option<string>, org: Option<string>,
                                 decode: seq<byte> -> Result<ListEventsResponse, Error>)
    : (r: Reply<ListEventsResponse>)
    ensures var s := Call(creds, env, Target(MethodGet, Endpoint + "/" + fineTuneID + "/events" +
                                                        Query(Page(limit, after))), org, decode);
            && (s.err.Some? ==> r == Reply(None, s.err))
            && (s.err.None? ==> r.value == s.value)
            && (s.err.None? && s.value.None? ==> r.err == Some(Plain(NilResponseText)))
            && (s.err.None? && s.value.Some? && s.value.value.error.Some? ==>
                  r.err == Some(Api(s.value.value.error.value)))
            && (r.err.None? <==> s.err.None? && s.value.Some? && s.value.value.error.None?)
  {
    Screen(Get(creds, env, ListEvents(fineTuneID, Page(limit, after)), org, decode),
           (resp: ListEventsResponse) => resp.error, NoEmptyCheck)
  }

  /** MakeDeleteRequest: DELETE on the models endpoint followed by the fine-tuned model's name;
      only the embedded error is checked. */
  function MakeDeleteRequest(creds: Credentials, env: Env, fineTuneModel: string, org: Option<string>,
                             decode: seq<byte> -> Result<DeleteResponse, Error>): (r: Reply<DeleteResponse>)
    ensures var s := Call(creds, env, Target(MethodDelete, Models.Endpoint + "/" + fineTuneModel), org, decode);
            && (s.err.Some? ==> r == Reply(None, s.err))
            && (s.err.None? ==> r.value == s.value)
            && (s.err.None? && s.value.None? ==> r.err == Some(Plain(NilResponseText)))
            && (s.err.None? && s.value.Some? && s.value.value.error.Some? ==>
                  r.err == Some(Api(s.value.value.error.value)))
            && (r.err.None? <==> s.err.None? && s.value.Some? && s.value.value.error.None?)
  {
    Screen(Get(creds, env, Delete(fineTuneModel), org, decode), (resp: DeleteResponse) => resp.error, NoEmptyCheck)
  }
}
