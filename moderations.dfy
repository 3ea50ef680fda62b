/** The moderations endpoint (moderations/moderations.go): the plain request, and the moderated
    variant that turns a flagged input into a ModerationFlagError. */
module Moderations {
  import opened Wrappers
  import opened Errors
  import opened Authentication
  import opened Common

  const Endpoint := BaseURL + "moderations"
  const ModelStable := "text-moderation-stable"
  const ModelLatest := "text-moderation-latest"
  const NoDataText := "no data in response"

  datatype Request = Request(input: seq<string>, model: string)

  /** One entry of `results`; the per-category scores are floating point and left out. */
  datatype Classification = Classification(flagged: bool, categories: map<string, bool>)

  datatype Response = Response(id: string, model: string, results: seq<Classification>,
                               error: Option<ResponseError>)

  /** The (*T, *moderations.Response, error) triple the moderated wrappers of the other
      endpoints return. */
  datatype ModeratedReply<T> = ModeratedReply(value: Option<T>, moderation: Option<Response>, err: Option<Error>)

  /** What common.MakeRequest returns for a POST of the request to the moderations endpoint. */
  function Posted(creds: Credentials, env: Env, request: Option<Request>, org: Option<string>,
                  codec: Codec<Request, Response>): Reply<Response>
  {
    Send(creds, env, EncodeBody(request, codec.encode), Endpoint, MethodPost, org, JsonReceiver(codec.decode))
  }

  /** MakeRequest: a transport error, then a missing response, then an embedded error, then an
      empty result list, each end the call; only a non-empty, error-free response succeeds. */
  function MakeRequest(creds: Credentials, env: Env, request: Option<Request>, org: Option<string>,
                       codec: Codec<Request, Response>): (r: Reply<Response>)
    ensures var s := Posted(creds, env, request, org, codec);
            && (s.err.Some? ==> r == Reply(None, s.err))
            && (s.err.None? ==> r.value == s.value)
            && (s.err.None? && s.value.None? ==> r.err == Some(Plain(NilResponseText)))
            && (s.err.None? && s.value.Some? && s.value.value.error.Some? ==>
                  r.err == Some(Api(s.value.value.error.value)))
            && (s.err.None? && s.value.Some? && s.value.value.error.None? && s.value.value.results == [] ==>
                  r.err == Some(Plain(NoDataText)))
            && (r.err.None? <==> s.err.None? && s.value.Some? && s.value.value.error.None? &&
                                 s.value.value.results != [])
    ensures r.err.None? ==> r.value.Some?
  {
    Screen(Posted(creds, env, request, org, codec), (resp: Response) => resp.error,
           EmptyCheck((resp: Response) => resp.results == [], NoDataText))
  }

  /** The scan of MakeModeratedRequest's loop: some entry is flagged. */
  function AnyFlagged(results: seq<Classification>): (b: bool)
    ensures b <==> exists i :: 0 <= i < |results| && results[i].flagged
  {
    if results == [] then false
    else if results[0].flagged then true
    else
      var rest := AnyFlagged(results[1..]);
      assert forall i :: 1 <= i < |results| ==> results[i] == results[1..][i - 1];
      rest
  }

  /** MakeModeratedRequest: a failed MakeRequest is passed on without its response; otherwise
      the response comes back, with a ModerationFlagError exactly when some input was flagged. */
  function MakeModeratedRequest(creds: Credentials, env: Env, request: Option<Request>, org: Option<string>,
                                codec: Codec<Request, Response>): (r: Reply<Response>)
    ensures var m := MakeRequest(creds, env, request, org, codec);
            && (m.err.Some? ==> r == Reply(None, m.err))
            && (m.err.None? ==> r.value == m.value && m.value.Some?)
            && (m.err.None? ==>
                  (r.err == Some(ModerationFlag) <==>
                     exists i :: 0 <= i < |m.value.value.results| && m.value.value.results[i].flagged))
            && (m.err.None? ==> (r.err.None? <==> r.err != Some(ModerationFlag)))
  {
    var m := MakeRequest(creds, env, request, org, codec);
    if m.err.Some? then Reply(None, m.err)
    else if AnyFlagged(m.value.value.results) then Reply(m.value, Some(ModerationFlag))
    else Reply(m.value, None)
  }

  /** The moderated call reaches the network only at the moderations endpoint. */
  lemma ModeratedOnlyAtEndpoint(creds: Credentials, env: Env, t2: HttpRequest -> HttpOutcome,
                                request: Option<Request>, org: Option<string>, codec: Codec<Request, Response>)
    requires AgreeOn(env.transport, t2, Endpoint)
    ensures MakeModeratedRequest(creds, env, request, org, codec)
         == MakeModeratedRequest(creds, env.(transport := t2), request, org, codec)
  {
    SendOnlyAt(creds, env, t2, EncodeBody(request, codec.encode), Endpoint, MethodPost, org,
               JsonReceiver(codec.decode));
  }
}
