/** The legacy fine-tunes endpoint (finetunes/finetunes.go). */
module Finetunes {
  import opened Wrappers
  import opened Errors
  import opened Authentication
  import opened Common
  import opened Strings
  import Models

  const Endpoint := BaseURL + "fine-tunes"
  const NoDataText := "no data in response"

  /** The creation request; only its training file is named here, the rest is encoded as is. */
  datatype CreationRequest = CreationRequest(trainingFile: string, model: Option<string>, suffix: Option<string>)

  datatype FineTuneEvent = FineTuneEvent(object: string, createdAt: nat, level: string, message: string)

  datatype FineTune = FineTune(id: string, object: string, model: string, status: string,
                               events: seq<FineTuneEvent>, error: Option<ResponseError>)

  datatype ListResponse = ListResponse(object: string, data: seq<FineTune>, error: Option<ResponseError>)

  datatype ListEventsResponse = ListEventsResponse(object: string, data: seq<FineTuneEvent>,
                                                   error: Option<ResponseError>)

  datatype DeleteResponse = DeleteResponse(id: int, object: string, deleted: bool, error: Option<ResponseError>)

  /** The six requests this package makes. */
  datatype Operation =
    | Create
    | List
    | Retrieve(fineTuneID: string)
    | Cancel(fineTuneID: string)
    | ListEvents(fineTuneID: string)
    | Delete(fineTuneModel: string)

  /** The method and URL of each operation; deletion goes to the models endpoint. */
  function Route(op: Operation): Target {
    match op
    case Create => Target(MethodPost, Endpoint)
    case List => Target(MethodGet, Endpoint)
    case Retrieve(id) => Target(MethodGet, Endpoint + "/" + id)
    case Cancel(id) => Target(MethodPost, Endpoint + "/" + id + "/cancel")
    case ListEvents(id) => Target(MethodGet, Endpoint + "/" + id + "/events")
    case Delete(model) => Target(MethodDelete, Models.Endpoint + "/" + model)
  }

  /** Reads a target back as the operation that produces it. */
  function ParseRoute(t: Target): Option<Operation> {
    var jobs := Endpoint + "/";
    var models := Models.Endpoint + "/";
    if t.verb == MethodDelete then
      if HasPrefix(t.url, models) then Some(Delete(t.url[|models|..])) else None
    else if HasPrefix(t.url, jobs) then ParseJobRoute(t.verb, t.url[|jobs|..])
    else if t.url == Endpoint then
      if t.verb == MethodPost then Some(Create)
      else if t.verb == MethodGet then Some(List)
      else None
    else None
  }

  /** A URL below one job: the ID up to the next '/', then what is asked of the job. */
  function ParseJobRoute(verb: string, rest: string): Option<Operation> {
    var split := SplitAt(rest, '/');
    if verb == MethodGet && split.1 == "" then Some(Retrieve(split.0))
    else if verb == MethodGet && split.1 == "/events" then Some(ListEvents(split.0))
    else if verb == MethodPost && split.1 == "/cancel" then Some(Cancel(split.0))
    else None
  }

  /** A job ID is a single path segment. */
  predicate PlainIDs(op: Operation) {
    match op
    case Retrieve(id) => '/' !in id
    case Cancel(id) => '/' !in id
    case ListEvents(id) => '/' !in id
    case _ => true
  }

  /** A job URL is read below the job prefix. */
  lemma JobUrl(verb: string, id: string, tail: string)
    requires verb != MethodDelete
    ensures ParseRoute(Target(verb, Endpoint + "/" + id + tail)) == ParseJobRoute(verb, id + tail)
  {
    var jobs := Endpoint + "/";
    var url := Endpoint + "/" + id + tail;
    assert url == jobs + (id + tail);
    assert url[..|jobs|] == jobs;
    assert url[|jobs|..] == id + tail;
  }

  /** Distinct operations with single-segment IDs never share a target. */
  lemma {:induction false} RouteParses(op: Operation)
    requires PlainIDs(op)
    ensures ParseRoute(Route(op)) == Some(op)
  {
    match op
    case Create =>
    case List =>
    case Retrieve(id) =>
      JobUrl(MethodGet, id, "");
      assert Endpoint + "/" + id + "" == Endpoint + "/" + id;
      SplitAtConcat(id, '/', "");
      assert id + "" == id;
    case Cancel(id) =>
      JobUrl(MethodPost, id, "/cancel");
      SplitAtConcat(id, '/', "/cancel");
    case ListEvents(id) =>
      JobUrl(MethodGet, id, "/events");
      SplitAtConcat(id, '/', "/events");
    case Delete(model) =>
      var url := Models.Endpoint + "/" + model;
      assert url[..|Models.Endpoint + "/"|] == Models.Endpoint + "/";
      assert url[|Models.Endpoint + "/"|..] == model;
  }

  /** Every target that reads back as an operation is that operation's own target. */
  lemma ParsedRoutes(t: Target)
    ensures ParseRoute(t).Some? ==> Route(ParseRoute(t).value) == t
  {
    var jobs := Endpoint + "/";
    if ParseRoute(t).Some? {
      if t.verb == MethodDelete {
        var models := Models.Endpoint + "/";
        assert t.url == models + t.url[|models|..];
      } else if HasPrefix(t.url, jobs) {
        var rest := t.url[|jobs|..];
        JobRouteOfParsed(t.verb, rest);
        assert t.url == jobs + rest;
      }
    }
  }

  lemma JobRouteOfParsed(verb: string, rest: string)
    ensures ParseJobRoute(verb, rest).Some? ==>
              Route(ParseJobRoute(verb, rest).value) == Target(verb, Endpoint + "/" + rest)
  {
    var split := SplitAt(rest, '/');
    if ParseJobRoute(verb, rest).Some? {
      assert Endpoint + "/" + rest == Endpoint + "/" + split.0 + split.1;
      assert split.1 == "" ==> split.0 == rest;
    }
  }

  /** An ID holding a '/' makes a retrieval and a listing of events share a target. */
  lemma SlashInIDCollides()
    ensures Route(Retrieve("ft-1/events")) == Route(ListEvents("ft-1"))
  {
  }

  function Get<T>(creds: Credentials, env: Env, op: Operation, org: Option<string>,
                  decode: seq<byte> -> Result<T, Error>): Reply<T>
  {
    Call(creds, env, Route(op), org, decode)
  }

  /** MakeCreationRequest: POST of the request to the endpoint; only the embedded error is checked. */
  function MakeCreationRequest(creds: Credentials, env: Env, request: Option<CreationRequest>, org: Option<string>,
                               codec: Codec<CreationRequest, FineTune>): (r: Reply<FineTune>)
    ensures var s := Send(creds, env, EncodeBody(request, codec.encode), Endpoint, MethodPost, org,
                          JsonReceiver(codec.decode));
            && (s.err.Some? ==> r == Reply(None, s.err))
            && (s.err.None? ==> r.value == s.value)
            && (s.err.None? && s.value.None? ==> r.err == Some(Plain(NilResponseText)))
            && (s.err.None? && s.value.Some? && s.value.value.error.Some? ==>
                  r.err == Some(Api(s.value.value.error.value)))
            && (r.err.None? <==> s.err.None? && s.value.Some? && s.value.value.error.None?)
  {
    Screen(Send(creds, env, EncodeBody(request, codec.encode), Route(Create).url, Route(Create).verb, org,
                JsonReceiver(codec.decode)),
           (resp: FineTune) => resp.error, NoEmptyCheck)
  }

  /** MakeListRequest: GET on the endpoint; an empty job list is an error. */
  function MakeListRequest(creds: Credentials, env: Env, org: Option<string>,
                           decode: seq<byte> -> Result<ListResponse, Error>): (r: Reply<ListResponse>)
    ensures var s := Call(creds, env, Target(MethodGet, Endpoint), org, decode);
            && (s.err.Some? ==> r == Reply(None, s.err))
            && (s.err.None? ==> r.value == s.value)
            && (s.err.None? && s.value.None? ==> r.err == Some(Plain(NilResponseText)))
            && (s.err.None? && s.value.Some? && s.value.value.error.Some? ==>
                  r.err == Some(Api(s.value.value.error.value)))
            && (s.err.None? && s.value.Some? && s.value.value.error.None? && s.value.value.data == [] ==>
                  r.err == Some(Plain(NoDataText)))
            && (r.err.None? <==> s.err.None? && s.value.Some? && s.value.value.error.None? &&
                                 s.value.value.data != [])
  {
    Screen(Get(creds, env, List, org, decode), (resp: ListResponse) => resp.error,
           EmptyCheck((resp: ListResponse) => resp.data == [], NoDataText))
  }

  /** MakeRetrieveRequest: GET on the job's URL; only the embedded error is checked. */
  function MakeRetrieveRequest(creds: Credentials, env: Env, fineTuneID: string, org: Option<string>,
                               decode: seq<byte> -> Result<FineTune, Error>): (r: Reply<FineTune>)
    ensures var s := Call(creds, env, Target(MethodGet, Endpoint + "/" + fineTuneID), org, decode);
            && (s.err.Some? ==> r == Reply(None, s.err))
            && (s.err.None? ==> r.value == s.value)
            && (s.err.None? && s.value.None? ==> r.err == Some(Plain(NilResponseText)))
            && (s.err.None? && s.value.Some? && s.value.value.error.Some? ==>
                  r.err == Some(Api(s.value.value.error.value)))
            && (r.err.None? <==> s.err.None? && s.value.Some? && s.value.value.error.None?)
  {
    Screen(Get(creds, env, Retrieve(fineTuneID), org, decode), (resp: FineTune) => resp.error, NoEmptyCheck)
  }

  /** MakeCancelRequest: POST with no body to the job's "/cancel" URL; only the embedded error is
      checked. */
  function MakeCancelRequest(creds: Credentials, env: Env, fineTuneID: string, org: Option<string>,
                             decode: seq<byte> -> Result<FineTune, Error>): (r: Reply<FineTune>)
    ensures var s := Call(creds, env, Target(MethodPost, Endpoint + "/" + fineTuneID + "/cancel"), org, decode);
            && (s.err.Some? ==> r == Reply(None, s.err))
            && (s.err.None? ==> r.value == s.value)
            && (s.err.None? && s.value.None? ==> r.err == Some(Plain(NilResponseText)))
            && (s.err.None? && s.value.Some? && s.value.value.error.Some? ==>
                  r.err == Some(Api(s.value.value.error.value)))
            && (r.err.None? <==> s.err.None? && s.value.Some? && s.value.value.error.None?)
  {
    Screen(Get(creds, env, Cancel(fineTuneID), org, decode), (resp: FineTune) => resp.error, NoEmptyCheck)
  }

  /** MakeListEventsRequest: GET on the job's "/events" URL; an empty event list is an error. */
  function MakeListEventsRequest(creds: Credentials, env: Env, fineTuneID: string, org: Option<string>,
                                 decode: seq<byte> -> Result<ListEventsResponse, Error>)
    : (r: Reply<ListEventsResponse>)
    ensures var s := Call(creds, env, Target(MethodGet, Endpoint + "/" + fineTuneID + "/events"), org, decode);
            && (s.err.Some? ==> r == Reply(None, s.err))
            && (s.err.None? ==> r.value == s.value)
            && (s.err.None? && s.value.None? ==> r.err == Some(Plain(NilResponseText)))
            && (s.err.None? && s.value.Some? && s.value.value.error.Some? ==>
                  r.err == Some(Api(s.value.value.error.value)))
            && (s.err.None? && s.value.Some? && s.value.value.error.None? && s.value.value.data == [] ==>
                  r.err == Some(Plain(NoDataText)))
            && (r.err.None? <==> s.err.None? && s.value.Some? && s.value.value.error.None? &&
                                 s.value.value.data != [])
  {
    Screen(Get(creds, env, ListEvents(fineTuneID), org, decode), (resp: ListEventsResponse) => resp.error,
           EmptyCheck((resp: ListEventsResponse) => resp.data == [], NoDataText))
  }

  /** MakeDeleteRequest: DELETE on the models endpoint followed by the fine-tuned model's name;
      only the embedded error is checked. */
  function MakeDeleteRequest(creds: Credentials, env: Env, fineTuneModel: string, org: Option<string>,
                             decode: seq<byte> -> Result<DeleteResponse, Error>): (r: Reply<DeleteResponse>)
    ensures var s := Call(creds, env, Target(MethodDelete, Models.Endpoint + "/" + fineTuneModel), org, decode);
            && (s.err.Some? ==> r == Reply(None, s.err))
            && (s.err.None? ==> r.value == s.value)
            && (s.err.None? && s.value.None? ==> r.err == Some(Plain(NilResponseText)))
            && (s.err.None? && s.value.Some? && s.value.value.error.Some? ==>
                  r.err == Some(Api(s.value.value.error.value)))
            && (r.err.None? <==> s.err.None? && s.value.Some? && s.value.value.error.None?)
  {
    Screen(Get(creds, env, Delete(fineTuneModel), org, decode), (resp: DeleteResponse) => resp.error, NoEmptyCheck)
  }
}
