/** The edits endpoint (edits/edits.go). */
module Edits {
  import opened Wrappers
  import opened Errors
  import opened Authentication
  import opened Common
  import Moderations

  const Endpoint := BaseURL + "edits"
  const NoChoicesText := "no choices in response"

  /** The request fields the wrappers read; the sampling parameters pass through unread. */
  datatype Request = Request(model: string, input: string, instruction: string)

  datatype Choice = Choice(text: string, index: int)

  datatype Response = Response(object: string, created: int, choices: seq<Choice>, error: Option<ResponseError>)

  function Posted(creds: Credentials, env: Env, request: Option<Request>, org: Option<string>,
                  codec: Codec<Request, Response>): Reply<Response>
  {
    Send(creds, env, EncodeBody(request, codec.encode), Endpoint, MethodPost, org, JsonReceiver(codec.decode))
  }

  /** MakeRequest: transport error, missing response, embedded error, then no choices. */
  function MakeRequest(creds: Credentials, env: Env, request: Option<Request>, org: Option<string>,
                       codec: Codec<Request, Response>): (r: Reply<Response>)
    ensures var s := Posted(creds, env, request, org, codec);
            && (s.err.Some? ==> r == Reply(None, s.err))
            && (s.err.None? ==> r.value == s.value)
            && (s.err.None? && s.value.None? ==> r.err == Some(Plain(NilResponseText)))
            && (s.err.None? && s.value.Some? && s.value.value.error.Some? ==>
                  r.err == Some(Api(s.value.value.error.value)))
            && (s.err.None? && s.value.Some? && s.value.value.error.None? && s.value.value.choices == [] ==>
                  r.err == Some(Plain(NoChoicesText)))
            && (r.err.None? <==> s.err.None? && s.value.Some? && s.value.value.error.None? &&
                                 s.value.value.choices != [])
  {
    Screen(Posted(creds, env, request, org, codec), (resp: Response) => resp.error,
           EmptyCheck((resp: Response) => resp.choices == [], NoChoicesText))
  }

  /** The moderation request built from an edit request: its single input, the latest model. */
  function ModerationRequest(request: Request): Moderations.Request {
    Moderations.Request([request.input], Moderations.ModelLatest)
  }

  /** MakeModeratedRequest: the input, as a one-element list, is moderated first; a failed or
      flagged moderation ends the call, otherwise the edit's own outcome follows. */
  function MakeModeratedRequest(creds: Credentials, env: Env, request: Request, org: Option<string>,
                                codec: Codec<Request, Response>,
                                modCodec: Codec<Moderations.Request, Moderations.Response>)
    : (r: Moderations.ModeratedReply<Response>)
    ensures var m := Moderations.MakeModeratedRequest(
                       creds, env, Some(Moderations.Request([request.input], Moderations.ModelLatest)), org, modCodec);
            && r.moderation == m.value
            && (m.err.Some? ==> r.value.None? && r.err == m.err)
            && (m.err.None? ==>
                  var c := MakeRequest(creds, env, Some(request), org, codec);
                  r.value == (if c.err.Some? then None else c.value) && r.err == c.err)
  {
    var m := Moderations.MakeModeratedRequest(creds, env, Some(ModerationRequest(request)), org, modCodec);
    if m.err.Some? then Moderations.ModeratedReply(None, m.value, m.err)
    else
      var c := MakeRequest(creds, env, Some(request), org, codec);
      if c.err.Some? then Moderations.ModeratedReply(None, m.value, c.err)
      else Moderations.ModeratedReply(c.value, m.value, None)
  }

  /** When moderation fails or flags, the edit request is never made. */
  lemma ModerationFailureSkipsEdit(creds: Credentials, env: Env, t2: HttpRequest -> HttpOutcome,
                                   request: Request, org: Option<string>, codec: Codec<Request, Response>,
                                   modCodec: Codec<Moderations.Request, Moderations.Response>)
    requires AgreeOn(env.transport, t2, Moderations.Endpoint)
    requires Moderations.MakeModeratedRequest(creds, env, Some(ModerationRequest(request)), org, modCodec).err.Some?
    ensures MakeModeratedRequest(creds, env, request, org, codec, modCodec)
         == MakeModeratedRequest(creds, env.(transport := t2), request, org, codec, modCodec)
  {
    Moderations.ModeratedOnlyAtEndpoint(creds, env, t2, Some(ModerationRequest(request)), org, modCodec);
  }
}
