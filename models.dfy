/** The models endpoint (models/models.go): listing the models and retrieving one of them. */
module Models {
  import opened Wrappers
  import opened Errors
  import opened Authentication
  import opened Common
  import opened Strings

  const Endpoint := BaseURL + "models"
  const NoDataText := "no data in response"

  datatype ModelResponse = ModelResponse(id: string, created: nat, object: string, ownedBy: string,
                                         error: Option<ResponseError>)

  datatype ListModelsResponse = ListModelsResponse(object: string, data: seq<ModelResponse>,
                                                   error: Option<ResponseError>)

  /** The two requests this package makes. */
  datatype Operation = List | Retrieve(model: string)

  function Route(op: Operation): Target {
    match op
    case List => Target(MethodGet, Endpoint)
    case Retrieve(model) => Target(MethodGet, Endpoint + "/" + model)
  }

  /** Reads a target back as the operation that produces it. */
  function ParseRoute(t: Target): Option<Operation> {
    if t.verb != MethodGet then None
    else if t.url == Endpoint then Some(List)
    else if HasPrefix(t.url, Endpoint + "/") then Some(Retrieve(t.url[|Endpoint| + 1..]))
    else None
  }

  /** Every operation has its own target, and every target read back is produced by its operation:
      a model name is never confused with the listing, whatever characters it holds. */
  lemma RouteParses(op: Operation)
    ensures ParseRoute(Route(op)) == Some(op)
  {
    if op.Retrieve? {
      var url := Endpoint + "/" + op.model;
      assert url[..|Endpoint + "/"|] == Endpoint + "/";
      assert url[|Endpoint| + 1..] == op.model;
    }
  }

  lemma ParsedRoutes(t: Target)
    ensures ParseRoute(t).Some? ==> Route(ParseRoute(t).value) == t
  {
    if ParseRoute(t).Some? && ParseRoute(t).value.Retrieve? {
      var e := Endpoint + "/";
      assert t.url == t.url[..|e|] + t.url[|e|..];
    }
  }

  /** MakeListModelsRequest: GET on the endpoint; an embedded error comes first, then an empty
      `data` list is an error. */
  function MakeListModelsRequest(creds: Credentials, env: Env, org: Option<string>,
                                 decode: seq<byte> -> Result<ListModelsResponse, Error>)
    : (r: Reply<ListModelsResponse>)
    ensures var s := Call(creds, env, Target(MethodGet, Endpoint), org, decode);
            && (s.err.Some? ==> r == Reply(None, s.err))
            && (s.err.None? ==> r.value == s.value)
            && (s.err.None? && s.value.None? ==> r.err == Some(Plain(NilResponseText)))
            && (s.err.None? && s.value.Some? && s.value.value.error.Some? ==>
                  r.err == Some(Api(s.value.value.error.value)))
            && (s.err.None? && s.value.Some? && s.value.value.error.None? && s.value.value.data == [] ==>
                  r.err == Some(Plain(NoDataText)))
            && (r.err.None? <==> s.err.None? && s.value.Some? && s.value.value.error.None? &&
                                 s.value.value.data != [])
  {
    Screen(Call(creds, env, Route(List), org, decode), (resp: ListModelsResponse) => resp.error,
           EmptyCheck((resp: ListModelsResponse) => resp.data == [], NoDataText))
  }

  /** MakeRetrieveModelRequest: GET on the endpoint followed by "/" and the model name; only the
      embedded error is checked, nothing is required of the response's contents. */
  function MakeRetrieveModelRequest(creds: Credentials, env: Env, model: string, org: Option<string>,
                                    decode: seq<byte> -> Result<ModelResponse, Error>)
    : (r: Reply<ModelResponse>)
    ensures var s := Call(creds, env, Target(MethodGet, Endpoint + "/" + model), org, decode);
            && (s.err.Some? ==> r == Reply(None, s.err))
            && (s.err.None? ==> r.value == s.value)
            && (s.err.None? && s.value.None? ==> r.err == Some(Plain(NilResponseText)))
            && (s.err.None? && s.value.Some? && s.value.value.error.Some? ==>
                  r.err == Some(Api(s.value.value.error.value)))
            && (r.err.None? <==> s.err.None? && s.value.Some? && s.value.value.error.None?)
  {
    Screen(Call(creds, env, Route(Retrieve(model)), org, decode), (resp: ModelResponse) => resp.error,
           NoEmptyCheck)
  }
}
