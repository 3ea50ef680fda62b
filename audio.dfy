/** The audio endpoints (audio/audio.go): transcription and translation upload a two-part form,
    speech returns the raw bytes of the generated audio. */
module Audio {
  import opened Wrappers
  import opened Errors
  import opened Authentication
  import opened Common

  const BaseEndpoint := BaseURL + "audio/"
  const TranscriptionEndpoint := BaseEndpoint + "transcriptions"
  const TranslationEndpoint := BaseEndpoint + "translations"
  const SpeechEndpoint := BaseEndpoint + "speech"

  /** The request fields; `file` is a path or a URL. The temperature is floating point and left out. */
  datatype TranscriptionRequest = TranscriptionRequest(file: string, model: string, prompt: string,
                                                       responseFormat: string, language: string)

  datatype TranslationRequest = TranslationRequest(file: string, model: string, prompt: string,
                                                   responseFormat: string)

  datatype Response = Response(text: string, error: Option<ResponseError>)

  datatype SpeechRequest = SpeechRequest(model: string, input: string, voice: string, responseFormat: string)

  // ----- filepath.Base -----------------------------------------------------------------------

  /** `s` without its trailing slashes. */
  function TrimSlashes(s: string): (r: string)
    ensures |r| <= |s| && r == s[..|r|]
    ensures r == [] || r[|r| - 1] != '/'
    ensures forall i :: |r| <= i < |s| ==> s[i] == '/'
  {
    if s == [] || s[|s| - 1] != '/' then s else TrimSlashes(s[..|s| - 1])
  }

  /** The part of `s` after its last slash. */
  function LastElement(s: string): (r: string)
    ensures |r| <= |s| && r == s[|s| - |r|..]
    ensures '/' !in r
    ensures |r| < |s| ==> s[|s| - |r| - 1] == '/'
  {
    if s == [] || s[|s| - 1] == '/' then [] else LastElement(s[..|s| - 1]) + [s[|s| - 1]]
  }

  /** filepath.Base on a slash-separated path: the last element once trailing slashes are
      dropped; "." for the empty path and "/" for a path of slashes only. */
  function Base(path: string): (b: string)
    ensures b != []
    ensures b == "/" || '/' !in b
    ensures path != [] && '/' !in path ==> b == path
  {
    if path == [] then "."
    else
      var trimmed := TrimSlashes(path);
      if trimmed == [] then "/" else LastElement(trimmed)
  }

  lemma {:induction false} LastElementAfterSlash(dir: string, name: string)
    requires '/' !in name
    ensures LastElement(dir + "/" + name) == name
    decreases |name|
  {
    var s := dir + "/" + name;
    if name == [] {
      assert s[|s| - 1] == '/';
    } else {
      var init := name[..|name| - 1];
      assert s[..|s| - 1] == dir + "/" + init;
      assert s[|s| - 1] == name[|name| - 1];
      LastElementAfterSlash(dir, init);
      assert init + [name[|name| - 1]] == name;
    }
  }

  /** The file part is named after the last element of a path, whatever directories precede it. */
  lemma BaseOfJoin(dir: string, name: string)
    requires name != [] && '/' !in name
    ensures Base(dir + "/" + name) == name
  {
    var s := dir + "/" + name;
    assert s[|s| - 1] == name[|name| - 1];
    assert s[|s| - 1] != '/';
    assert TrimSlashes(s) == s;
    LastElementAfterSlash(dir, name);
  }

  // ----- Transcription and translation -------------------------------------------------------

  /** The form both uploads send: the model field, then the audio under the name "file" with the
      path's base name as its filename. Nothing else of the request is written. */
  function AudioForm(env: Env, model: string, file: string): (r: Result<seq<Part>, Error>)
    ensures r.Failure? <==> FileSource(env, file).Failure?
    ensures r.Failure? ==> r.error == FileSource(env, file).error
    ensures r.Success? ==> Names(r.value) == ["model", "file"]
    ensures r.Success? ==> r.value[0] == Field("model", model)
    ensures r.Success? ==> r.value[1].File? && r.value[1].filename == Base(file)
                           && r.value[1].content == FileSource(env, file).value
  {
    match FileSource(env, file)
    case Failure(e) => Failure(e)
    case Success(content) => Success([Field("model", model), File("file", Base(file), content)])
  }

  /** What an upload returns: the form's error, else the response with its embedded error checked
      and no emptiness check. */
  function Uploaded(creds: Credentials, env: Env, form: Result<seq<Part>, Error>, boundary: string, url: string,
                    org: Option<string>, decode: seq<byte> -> Result<Response, Error>): (r: Reply<Response>)
    ensures form.Failure? ==> r == Reply(None, Some(form.error))
    ensures form.Success? ==>
              var s := Deliver(creds, env, MethodPost, url, FormBody(form.value), FormDataContentType(boundary),
                               org, JsonReceiver(decode));
              && (s.err.Some? ==> r == Reply(None, s.err))
              && (s.err.None? ==> r.value == s.value)
              && (s.err.None? && s.value.None? ==> r.err == Some(Plain(NilResponseText)))
              && (s.err.None? && s.value.Some? && s.value.value.error.Some? ==>
                    r.err == Some(Api(s.value.value.error.value)))
              && (r.err.None? <==> s.err.None? && s.value.Some? && s.value.value.error.None?)
  {
    match form
    case Failure(e) => Reply(None, Some(e))
    case Success(parts) =>
      Screen(Deliver(creds, env, MethodPost, url, FormBody(parts), FormDataContentType(boundary), org,
                     JsonReceiver(decode)),
             (resp: Response) => resp.error, NoEmptyCheck)
  }

  /** Writes the two parts into a fresh form and posts it to `url`. */
  method Upload(store: CredentialStore, env: Env, boundary: string, model: string, file: string, url: string,
                org: Option<string>, decode: seq<byte> -> Result<Response, Error>) returns (r: Reply<Response>)
    ensures r == Uploaded(store.Snapshot(), env, AudioForm(env, model, file), boundary, url, org, decode)
  {
    var writer := new FormWriter(boundary);
    writer.AddField("model", model);
    var err := CreateFormFile(env, "file", Base(file), file, writer);
    if err.Some? {
      return Reply(None, err);
    }
    assert writer.parts == AudioForm(env, model, file).value;
    var s := MakeRequestWithForm(store, env, writer.parts, url, MethodPost, writer.ContentType(), org,
                                 JsonReceiver(decode));
    r := Screen(s, (resp: Response) => resp.error, NoEmptyCheck);
  }

  method MakeTranscriptionRequest(store: CredentialStore, env: Env, boundary: string, request: TranscriptionRequest,
                                  org: Option<string>, decode: seq<byte> -> Result<Response, Error>)
    returns (r: Reply<Response>)
    ensures r == Uploaded(store.Snapshot(), env, AudioForm(env, request.model, request.file), boundary,
                          TranscriptionEndpoint, org, decode)
  {
    r := Upload(store, env, boundary, request.model, request.file, TranscriptionEndpoint, org, decode);
  }

  method MakeTranslationRequest(store: CredentialStore, env: Env, boundary: string, request: TranslationRequest,
                                org: Option<string>, decode: seq<byte> -> Result<Response, Error>)
    returns (r: Reply<Response>)
    ensures r == Uploaded(store.Snapshot(), env, AudioForm(env, request.model, request.file), boundary,
                          TranslationEndpoint, org, decode)
  {
    r := Upload(store, env, boundary, request.model, request.file, TranslationEndpoint, org, decode);
  }

  // ----- Speech ------------------------------------------------------------------------------

  /** MakeSpeechRequest: the raw-bytes transport; any error, including one probed from the body,
      drops the bytes. */
  function MakeSpeechRequest(creds: Credentials, env: Env, request: Option<SpeechRequest>, org: Option<string>,
                             encode: SpeechRequest -> Result<seq<byte>, Error>): (r: Reply<seq<byte>>)
    ensures var s := Send(creds, env, EncodeBody(request, encode), SpeechEndpoint, MethodPost, org,
                          BytesReceiver(env.probe));
            && (s.err.Some? ==> r == Reply(None, s.err))
            && (s.err.None? && s.value.None? ==> r == Reply(None, Some(Plain(NilResponseText))))
            && (s.err.None? && s.value.Some? ==> r == Reply(s.value, None))
  {
    var s := Send(creds, env, EncodeBody(request, encode), SpeechEndpoint, MethodPost, org, BytesReceiver(env.probe));
    if s.err.Some? then Reply(None, s.err)
    else if s.value.None? then Reply(None, Some(Plain(NilResponseText)))
    else Reply(s.value, None)
  }

  /** When the request goes out and the body arrives, speech returns exactly the body's bytes, or
      exactly the error envelope found in them and no bytes. */
  lemma SpeechReturnsBody(creds: Credentials, env: Env, request: Option<SpeechRequest>, org: Option<string>,
                          encode: SpeechRequest -> Result<seq<byte>, Error>, body: Body, bytes: seq<byte>)
    requires EncodeBody(request, encode) == Success(body)
    requires env.newRequest(MethodPost, SpeechEndpoint).None?
    requires env.transport(Outgoing(creds, MethodPost, SpeechEndpoint, body, JsonContentType, org)) == Received(bytes)
    ensures env.probe(bytes).None? ==> MakeSpeechRequest(creds, env, request, org, encode) == Reply(Some(bytes), None)
    ensures env.probe(bytes).Some? ==>
              MakeSpeechRequest(creds, env, request, org, encode) == Reply(None, Some(Api(env.probe(bytes).value)))
  {
    var s := Send(creds, env, EncodeBody(request, encode), SpeechEndpoint, MethodPost, org, BytesReceiver(env.probe));
    assert s == ReceiveBytes(Received(bytes), env.probe);
  }
}
