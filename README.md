# gopenai: a Dafny model of the OpenAI client binding

gopenai is a Go binding for the OpenAI HTTP API. This project models its core: the package
state holding the API key and the default organization ID; the shared request machinery in
`common`; and one package per endpoint family, each turning a Go request value into an HTTPS
request and the service's JSON reply into a Go value or an error. The endpoint families are
completions, edits, embeddings, moderations, models, the legacy fine-tunes, fine-tuning jobs,
audio, images and files.

Each Dafny module follows one Go package:

| module | Go package | form |
|---|---|---|
| `Authentication` | `authentication` | a `CredentialStore` class whose two fields the setters update in place |
| `Common` | `common` | header construction on an in-place `Request`; response handling as functions; a `FormWriter` class for `mime/multipart` |
| `Errors` | the error values of `common` and `moderations` | one datatype of error kinds |
| `Moderations`, `Completions`, `Edits`, `Embeddings`, `Models`, `Finetunes`, `Finetuning` | the JSON endpoints | functions over the reply of one call, plus route tables |
| `Audio` | `audio` | transcription and translation as methods that write a form; speech as a function |
| `Images` | `images` | creation as a function; editing and variation as methods that write a form |
| `Files` | `files` | upload as a method writing a form; content download as a method writing to a `Disk` |
| `Strings`, `Wrappers` | helpers | decimal rendering and parsing, splitting, `Option`/`Result` |

Everything outside the Go process is a parameter. `Common.Env` bundles the oracles:
- `http.NewRequest`'s error for a method and URL;
- the transport (`http.DefaultClient.Do` followed by reading the body);
- `url.Parse`;
- `http.Get` for a remote file;
- `os.Open`;
- `os.Create`;
- the JSON probe for an error object in a raw body.

A JSON codec per request and response type is a parameter too. Every operation is therefore a
deterministic function of the credentials, these oracles and its arguments. The multipart
boundary, which Go draws at random, is a parameter as well.

The replies `common.MakeRequest` can give are one `Reply` value: a transport error, a nil
response, a body that is not JSON, or a decoded value. Each endpoint then adds its own checks:
- an `error` object embedded in the body;
- an empty `choices`, `data` or `results` list;
- a flagged moderation.

For each endpoint the contracts state which of these checks run and which are skipped.

## Model

| member | source | states |
|---|---|---|
| Authentication.CredentialStore.constructor | authentication/authentication.go:16-19 | the key and the default organization ID start empty |
| Authentication.CredentialStore.SetAPIKey | authentication/authentication.go:23-31 | an empty key is refused with its error and the stored key is kept; any other key is stored; the organization ID is untouched |
| Authentication.CredentialStore.APIKey | authentication/authentication.go:36-40 | returns the stored key |
| Authentication.CredentialStore.SetDefaultOrganizationID | authentication/authentication.go:47-55 | an empty ID is refused with its error and the stored ID is kept; any other ID is stored; the key is untouched |
| Authentication.CredentialStore.DefaultOrganizationID | authentication/authentication.go:60-64 | returns the stored organization ID |
| Errors.Render | common/common.go:40-42 | the error text is the type, the four characters " -> ", then the message |
| Errors.RenderParses | common/common.go:40-42 | the rendering loses nothing: for a type without '>', the type and the message are read back from the text |
| Errors.Text | moderations/moderations.go:76-78 | a flag error reads as the moderation message; an API error's text reads back as that error; library and external errors keep their text |
| Common.Headers | common/common.go:90-102 | Content-Type and `Authorization: Bearer <key>` are set; the organization header is the explicit ID, else the default ID when non-empty, else left as it was; no other header changes |
| Common.Request.Set | common/common.go:94-100 | the value replaces whatever the key held, filed under the key's canonical form |
| Common.CanonicalIdempotent | common/common.go:94-100 | canonicalizing a key twice gives the same key as once, so a key `Header.Set` filed is found again under itself |
| Common.CanonicalByLetters | common/common.go:94-100 | a key canonicalizes to the string whose every letter is the key's letter upper-cased where it opens a word and lower-cased elsewhere |
| Common.OrgHeaderKeyFiled | authentication/authentication.go:13 | `OpenAI-Organization` is filed as `Openai-Organization` |
| Common.ContentTypeKeyCanonical | common/common.go:94 | `Content-Type` is filed under itself |
| Common.AuthHeaderKeyCanonical | authentication/authentication.go:11 | `Authorization` is filed under itself |
| Common.SetRequestHeaders | common/common.go:90-102 | the request's header map becomes `Headers` of the old one, read from the credential store |
| Common.Outgoing | common/common.go:55-75 | the request sent carries the verb, URL, body and exactly the content-type, authorization and (when some ID applies) organization headers, the last filed as `Openai-Organization` |
| Common.OutgoingKeysCanonical | common/common.go:55-75 | every header key of the request sent is in canonical form |
| Common.MakeRequest | common/common.go:55-75 | a failing JSON encoding or `NewRequest` ends the call with its error; otherwise the reply is the transport's outcome for the request with headers, read by the receiver |
| Common.MakeRequestWithForm | common/common.go:77-88 | the same, with the form as body and the caller's content type |
| Common.SendOnlyAt | common/common.go:55-75 | a call depends on the transport only at its own URL |
| Common.Receive | common/common.go:104-148 | exactly one of value and error; a value exactly when the body arrived and decodes; transport and read errors pass through; a nil response and a nil body each get their own error |
| Common.ReceiveBytes | common/common.go:104-148 | raw bytes are returned exactly when a body arrived; they are an error as well exactly when the body holds an error object |
| Common.IsUrl | common/common.go:150-153 | a string is a URL exactly when url.Parse accepts it and the result names both a scheme and a host; a parse error, an empty scheme or an empty host each make it no URL |
| Common.FileSource | common/common.go:150-186 | a URL is fetched and must answer 200 OK, whose body is the content; any other path is opened locally; a non-OK status gives the status-code error; a failed fetch or a failed open gives its own error; failure exactly when the chosen source fails |
| Common.CreateFormFile | common/common.go:155-186 | one file part is appended with the source's content (empty if the source failed); the error is the source's |
| Common.FormWriter.AddField | common/common.go:188-199 | a field part with the given name and value is appended after the existing parts |
| Common.Screen | completions/completions.go:141-156 | the post-checks in the order the source runs them: call error, nil response, embedded API error, then the empty check; success exactly when all of them pass |
| Moderations.MakeRequest | moderations/moderations.go:56-71 | call errors pass through; a nil response, an embedded error and empty results are errors in that order; success exactly when none apply |
| Moderations.AnyFlagged | moderations/moderations.go:90-94 | true exactly when some result is flagged |
| Moderations.MakeModeratedRequest | moderations/moderations.go:84-97 | call errors drop the response; otherwise the response is kept and the error is the flag error exactly when some result is flagged |
| Moderations.ModeratedOnlyAtEndpoint | moderations/moderations.go:84-97 | the moderated call uses the transport only at the moderations endpoint |
| Completions.MakeRequest | completions/completions.go:141-156 | as the moderations check, with an empty `choices` list |
| Completions.MakeModeratedRequest | completions/completions.go:161-175 | the prompts are moderated first; a moderation failure or flag ends the call with no completion; otherwise the completion's outcome, with the moderation response alongside |
| Completions.ModerationFailureSkipsCompletion | completions/completions.go:161-175 | after a failed or flagged moderation the result does not depend on what the transport answers anywhere but the moderations endpoint, so no completion request is made |
| Edits.MakeRequest | edits/edits.go:64-79 | as the moderations check, with an empty `choices` list |
| Edits.MakeModeratedRequest | edits/edits.go:84-98 | the edit's input is moderated first, with the same outcomes as for completions |
| Edits.ModerationFailureSkipsEdit | edits/edits.go:84-98 | after a failed or flagged moderation no edit request is made |
| Embeddings.MakeRequest | embeddings/embeddings.go:52-67 | as the moderations check, with an empty `data` list |
| Embeddings.MakeModeratedRequest | embeddings/embeddings.go:72-86 | the inputs are moderated first, with the same outcomes as for completions |
| Embeddings.ModerationFailureSkipsEmbedding | embeddings/embeddings.go:72-86 | after a failed or flagged moderation no embedding request is made |
| Models.RouteParses | models/models.go:52-82 | the listing and every model name have their own target, whatever characters the name holds |
| Models.ParsedRoutes | models/models.go:52-82 | every target that reads back as an operation is that operation's target |
| Models.MakeListModelsRequest | models/models.go:52-67 | GET on the models endpoint; nil response, embedded error and empty `data` are errors |
| Models.MakeRetrieveModelRequest | models/models.go:70-82 | GET on `models/<name>`; nil response and embedded error are errors, no empty check |
| Finetunes.RouteParses | finetunes/finetunes.go:146-259 | every operation whose ID is one path segment reads back from its method and URL; deletion goes to the models endpoint |
| Finetunes.ParsedRoutes | finetunes/finetunes.go:146-259 | every target that reads back as an operation is that operation's target |
| Finetunes.SlashInIDCollides | finetunes/finetunes.go:185-223 | an ID holding '/' is not escaped: retrieving "ft-1/events" targets the event list of "ft-1" |
| Finetunes.MakeCreationRequest | finetunes/finetunes.go:146-158 | POST of the encoded request; nil response and embedded error are errors |
| Finetunes.MakeListRequest | finetunes/finetunes.go:167-182 | GET on the endpoint; nil response, embedded error and empty `data` are errors |
| Finetunes.MakeRetrieveRequest | finetunes/finetunes.go:185-197 | GET on `fine-tunes/<id>`; nil response and embedded error are errors |
| Finetunes.MakeCancelRequest | finetunes/finetunes.go:200-212 | POST on `fine-tunes/<id>/cancel`; nil response and embedded error are errors |
| Finetunes.MakeListEventsRequest | finetunes/finetunes.go:221-237 | GET on `fine-tunes/<id>/events`; nil response, embedded error and empty `data` are errors |
| Finetunes.MakeDeleteRequest | finetunes/finetunes.go:247-259 | DELETE on `models/<model>`; nil response and embedded error are errors |
| Finetuning.LimitParses | finetuning/finetuning.go:138-144 | every 64-bit limit is written in decimal and read back |
| Finetuning.QueryParses | finetuning/finetuning.go:138-144 | every page (limit and `after` each present or absent, `after` without '&') is recovered from its query string |
| Finetuning.QueryOfParsed | finetuning/finetuning.go:138-144 | every query string that reads back as a page is that page's query string |
| Finetuning.AfterNotEscaped | finetuning/finetuning.go:138-144 | `after` is not escaped: `after = "x&limit=5"` gives the same URL as `after = "x"` with limit 5 |
| Finetuning.RouteParses | finetuning/finetuning.go:136-241 | every operation, with its page, reads back from its method and URL when IDs are single segments and cursors hold no '&' |
| Finetuning.ParsedRoutes | finetuning/finetuning.go:136-241 | every target that reads back as an operation is that operation's target |
| Finetuning.MakeCreationRequest | finetuning/finetuning.go:114-126 | POST of the encoded request; nil response and embedded error are errors |
| Finetuning.MakeListRequest | finetuning/finetuning.go:136-156 | GET on the endpoint followed by the page's query; nil response and embedded error are errors, no empty check |
| Finetuning.MakeRetrieveRequest | finetuning/finetuning.go:159-171 | GET on `jobs/<id>`; nil response and embedded error are errors |
| Finetuning.MakeCancelRequest | finetuning/finetuning.go:174-186 | POST on `jobs/<id>/cancel`; nil response and embedded error are errors |
| Finetuning.MakeListEventsRequest | finetuning/finetuning.go:196-219 | GET on `jobs/<id>/events` followed by the page's query; nil response and embedded error are errors |
| Finetuning.MakeDeleteRequest | finetuning/finetuning.go:229-241 | DELETE on `models/<model>`; nil response and embedded error are errors |
| Audio.Base | audio/audio.go:115 | the file name sent is never empty, is "/" or holds no '/', and is the path itself when the path has no '/' |
| Audio.BaseOfJoin | audio/audio.go:115 | the file name sent for `dir/name` is `name` |
| Audio.AudioForm | audio/audio.go:107-118 | the form is the model field, then the file part named after the path's last element with the source's content; it fails exactly when the source fails, with its error |
| Audio.Uploaded | audio/audio.go:119-131 | a failed form ends the call; otherwise the form is posted and nil response and embedded error are errors |
| Audio.Upload | audio/audio.go:107-131 | writing the form part by part and posting it gives `Uploaded` of `AudioForm` |
| Audio.MakeTranscriptionRequest | audio/audio.go:107-131 | the upload to the transcriptions endpoint |
| Audio.MakeTranslationRequest | audio/audio.go:133-157 | the upload to the translations endpoint |
| Audio.MakeSpeechRequest | audio/audio.go:191-200 | the call's error passes through; a nil response is an error; otherwise the raw bytes, or the probe's error and no bytes |
| Audio.SpeechReturnsBody | audio/audio.go:191-200 | a delivered body comes back as it is, or as the error object it holds |
| Images.MakeCreationRequest | images/images.go:69-71 | a nil request is posted to the generations endpoint with no body; an encoding failure ends the call with its error; otherwise the encoded request is posted as JSON and the reply is the transport's outcome, received unchanged; exactly one of a response and an error comes back |
| Images.CreationIsUnchecked | images/images.go:69-71 | creation returns MakeRequest's reply unchecked, so an embedded error is not reported |
| Images.CountTextAsWritten | images/images.go:127-134 | the "n" field as written: "0" for a nil count, otherwise the decimal address of the count |
| Images.CountTextIsNotTheCount | images/images.go:127-134 | a request for 2 images sends something other than "2" unless the count sits at address 2 |
| Images.EditFormAsWritten | images/images.go:115-171 | the edit form as written: seven parts, the second always an "n" field holding the written count text; fails exactly when the image or the mask does |
| Images.EditFormDiffersOnlyInCount | images/images.go:127-134 | the edit form as written fails with the same error as the intended one, and on success differs from it only in holding the written "n" field where the intended count part stands |
| Images.VariationFormAsWritten | images/images.go:207-247 | the variation form as written: five parts, the first always an "n" field holding the written count text; fails exactly when the image does |
| Images.VariationFormDiffersOnlyInCount | images/images.go:207-214 | the variation form as written fails with the same error as the intended one, and on success differs from it only in its leading "n" field |
| Images.CountPart | images/images.go:127-134 | the "n" field as intended: the count in decimal, which reads back as the count; no field when there is no count |
| Images.EditForm | images/images.go:115-171 | the prompt, the count, size, response format and user, then the image and the mask; an unreadable image ends the form with its error, and an unreadable mask after a readable image ends it with the mask's error |
| Images.WriteEditForm | images/images.go:115-171 | writing the parts one by one yields `EditForm`, or its error |
| Images.MakeEditRequest | images/images.go:110-175 | a nil request is refused; otherwise the edit form is posted and the reply is unchecked |
| Images.VariationForm | images/images.go:205-247 | the count, size, response format and user, then the image; fails exactly when the image does |
| Images.WriteVariationForm | images/images.go:205-247 | writing the parts one by one yields `VariationForm`, or its error |
| Images.MakeVariationRequest | images/images.go:200-251 | a nil request is refused; otherwise the variation form is posted and the reply is unchecked |
| Files.RouteParses | files/files.go:42-132 | every operation whose file ID is one path segment reads back from its method and URL |
| Files.ParsedRoutes | files/files.go:42-132 | every target that reads back as an operation is that operation's target |
| Files.SlashInIDCollides | files/files.go:119-132 | a file ID holding '/' is not escaped: retrieving "file-1/content" targets the content of "file-1" |
| Files.MakeListRequest | files/files.go:42-44 | a GET of the files endpoint with no body, whose reply is the transport's outcome received unchanged |
| Files.MakeDeleteRequest | files/files.go:114-116 | a DELETE of `files/<id>` with no body, whose reply is the transport's outcome received unchanged |
| Files.MakeRetrieveRequest | files/files.go:119-121 | a GET of `files/<id>` with no body, whose reply is the transport's outcome received unchanged |
| Files.UncheckedRequests | files/files.go:42-121 | listing, deletion and retrieval return MakeRequest's reply at their targets, with no check of their own |
| Files.UploadForm | files/files.go:72-99 | the purpose field, then the file part with the local file's content; fails exactly when the file cannot be opened |
| Files.MakeUploadRequest | files/files.go:69-103 | writing and posting the form gives the reply for `UploadForm` |
| Files.FetchContentCases | files/files.go:132-161 | the download writes nothing when the request cannot be built, the exchange fails or the file cannot be created; otherwise it writes the received body, and succeeds exactly when the whole body arrived |
| Files.OpenContent | files/files.go:132-153 | building and sending the request and creating the file either fail as the download does or leave a delivered response and a created file |
| Files.MakeRetrieveContentRequest | files/files.go:126-161 | an existing path without `overwrite` gives the exists error and the disk is unchanged; otherwise the disk changes only at the path, to what the download writes, and the error is the download's |

## Left out

- The read-write mutexes of `authentication` are left out: the model is sequential.
- The `req == nil` branches after `http.NewRequest` and their "nil request created" error are left out: `NewRequest` never returns a nil request without an error.
- Multipart framing is left out: boundaries, part headers and `writer.Close`. A form is the sequence of its parts, and the random boundary is a parameter.
- Errors from the multipart writer itself are not modelled, because writing into a `bytes.Buffer` does not fail.
- A body copy that fails part way leaves the form part empty: how much was copied is not known to the model.
- Files.MakeRetrieveContentRequest: when reading the response body fails, the local file is left empty. Go's `io.Copy` may already have written a prefix of the body into it, and the model does not track that prefix.
- Status codes are not modelled for the JSON calls, because nothing in those paths reads them. The only status check, the 200 OK check in `CreateFormFile`, is modelled.
- Floating-point fields (temperatures, scores, speeds) and token usage are not modelled: no contract depends on them.
- JSON encoding and decoding are left to the codec parameters, and `url.Parse` to an oracle returning the scheme and host.
- `os.Stat` errors other than "the path exists" are treated as "does not exist", as the source's `err == nil` test does.
- `filepath.Base` is modelled for '/' separators only.
- Requests are values, not pointers, where the source dereferences the pointer without a nil check: Completions.MakeModeratedRequest (completions/completions.go:163), Embeddings.MakeModeratedRequest (embeddings/embeddings.go:74), Edits.MakeModeratedRequest (edits/edits.go:86), Files.MakeUploadRequest (files/files.go:80), Audio.MakeTranscriptionRequest (audio/audio.go:110) and Audio.MakeTranslationRequest (audio/audio.go:136). Go would panic on a nil request there, and the model has no nil.
- Images.EditForm: when the image cannot be read, the mask is never read. The contract states the image's error and does not say whether the mask was consulted, since that is not observable.
- Counts and timestamps are unbounded naturals, except the 64-bit fine-tuning page limit.
- The transport is a function of the request, so repeated identical requests get identical answers.
- The chat package is not part of this model: it has no implementation beside its test. The `openai-common` package is a single constant, folded into `Common.BaseURL`.
- Images.EditForm, Images.VariationForm, Images.WriteEditForm, Images.WriteVariationForm, Images.MakeEditRequest and Images.MakeVariationRequest build the "n" part as intended, not as written. Images.EditFormAsWritten and Images.VariationFormAsWritten give the forms as written, and the two DiffersOnlyInCount lemmas show that the forms differ in that part alone: see Findings.

## Findings

| source | as written | input that shows it | evidently intended | confidence | as-written member | corrected member |
|---|---|---|---|---|---|---|
| images/images.go:131 | the "n" form field (here and at line 212 for variations) is `fmt.Sprintf("%d", request.N)` with `N` a `*uint64`; `%d` prints the pointer as a decimal integer | `N` pointing to 2 sends the address of that `uint64`; `N == nil` sends "0" | send the count itself in decimal, and no field when no count is given | high; not executed | Images.CountTextAsWritten, Images.CountTextIsNotTheCount, Images.EditFormAsWritten, Images.VariationFormAsWritten | Images.CountPart, Images.EditForm, Images.VariationForm |
