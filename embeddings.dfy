/** The embeddings endpoint (embeddings/embeddings.go). */
module Embeddings {
  import opened Wrappers
  import opened Errors
  import opened Authentication
  import opened Common
  import Moderations

  const Endpoint := BaseURL + "embeddings"
  const NoDataText := "no data in response"

  datatype Request = Request(model: string, input: seq<string>, user: string)

  /** One entry of `data`; the embedding vector itself is floating point and left out. */
  datatype Embedding = Embedding(object: string, index: nat)

  datatype Response = Response(object: string, data: seq<Embedding>, model: string, error: Option<ResponseError>)

  function Posted(creds: Credentials, env: Env, request: Option<Request>, org: Option<string>,
                  codec: Codec<Request, Response>): Reply<Response>
  {
    Send(creds, env, EncodeBody(request, codec.encode), Endpoint, MethodPost, org, JsonReceiver(codec.decode))
  }

  /** MakeRequest: transport error, missing response, embedded error, then no data. */
  function MakeRequest(creds: Credentials, env: Env, request: Option<Request>, org: Option<string>,
                       codec: Codec<Request, Response>): (r: Reply<Response>)
    ensures var s := Posted(creds, env, request, org, codec);
            && (s.err.Some? ==> r == Reply(None, s.err))
            && (s.err.None? ==> r.value == s.value)
            && (s.err.None? && s.value.None? ==> r.err == Some(Plain(NilResponseText)))
            && (s.err.None? && s.value.Some? && s.value.value.error.Some? ==>
                  r.err == Some(Api(s.value.value.error.value)))
            && (s.err.None? && s.value.Some? && s.value.value.error.None? && s.value.value.data == [] ==>
                  r.err == Some(Plain(NoDataText)))
            && (r.err.None? <==> s.err.None? && s.value.Some? && s.value.value.error.None? &&
                                 s.value.value.data != [])
  {
    Screen(Posted(creds, env, request, org, codec), (resp: Response) => resp.error,
           EmptyCheck((resp: Response) => resp.data == [], NoDataText))
  }

  /** The moderation request built from an embeddings request: its inputs unchanged, the
      latest model. */
  function ModerationRequest(request: Request): Moderations.Request {
    Moderations.Request(request.input, Moderations.ModelLatest)
  }

  /** MakeModeratedRequest: the inputs are moderated first; a failed or flagged moderation ends
      the call, otherwise the embeddings call's own outcome follows. */
  function MakeModeratedRequest(creds: Credentials, env: Env, request: Request, org: Option<string>,
                                codec: Codec<Request, Response>,
                                modCodec: Codec<Moderations.Request, Moderations.Response>)
    : (r: Moderations.ModeratedReply<Response>)
    ensures var m := Moderations.MakeModeratedRequest(
                       creds, env, Some(Moderations.Request(request.input, Moderations.ModelLatest)), org, modCodec);
            && r.moderation == m.value
            && (m.err.Some? ==> r.value.None? && r.err == m.err)
            && (m.err.None? ==>
                  var c := MakeRequest(creds, env, Some(request), org, codec);
                  r.value == (if c.err.Some? then None else c.value) && r.err == c.err)
  {
    var m := Moderations.MakeModeratedRequest(creds, env, Some(ModerationRequest(request)), org, modCodec);
    if m.err.Some? then Moderations.ModeratedReply(None, m.value, m.err)
    else
      var c := MakeRequest(creds, env, Some(request), org, codec);
      if c.err.Some? then Moderations.ModeratedReply(None, m.value, c.err)
      else Moderations.ModeratedReply(c.value, m.value, None)
  }

  /** When moderation fails or flags, the embeddings request is never made. */
  lemma ModerationFailureSkipsEmbedding(creds: Credentials, env: Env, t2: HttpRequest -> HttpOutcome,
                                        request: Request, org: Option<string>, codec: Codec<Request, Response>,
                                        modCodec: Codec<Moderations.Request, Moderations.Response>)
    requires AgreeOn(env.transport, t2, Moderations.Endpoint)
    requires Moderations.MakeModeratedRequest(creds, env, Some(ModerationRequest(request)), org, modCodec).err.Some?
    ensures MakeModeratedRequest(creds, env, request, org, codec, modCodec)
         == MakeModeratedRequest(creds, env.(transport := t2), request, org, codec, modCodec)
  {
    Moderations.ModeratedOnlyAtEndpoint(creds, env, t2, Some(ModerationRequest(request)), org, modCodec);
  }
}
