/** The image endpoints (images/images.go): creation takes JSON, editing and variation upload a
    multipart form written part by part. */
module Images {
  import opened Wrappers
  import opened Errors
  import opened Authentication
  import opened Common
  import Strings

  const BaseEndpoint := BaseURL + "images/"
  const CreateEndpoint := BaseEndpoint + "generations"
  const EditEndpoint := BaseEndpoint + "edits"
  const VariationEndpoint := BaseEndpoint + "variations"

  const NilRequestText := "nil request provided"

  datatype Image = Image(url: string, b64Json: string)

  datatype Response = Response(created: nat, data: seq<Image>, error: Option<ResponseError>)

  datatype CreationRequest = CreationRequest(prompt: string, n: Option<nat>, size: string, responseFormat: string,
                                             user: string)

  datatype EditRequest = EditRequest(image: string, imageName: string, mask: string, maskName: string,
                                     prompt: string, n: Option<nat>, size: string, responseFormat: string,
                                     user: string)

  datatype VariationRequest = VariationRequest(image: string, imageName: string, n: Option<nat>, size: string,
                                               responseFormat: string, user: string)

  /** MakeCreationRequest: the JSON request posted to the generations endpoint. */
  function MakeCreationRequest(creds: Credentials, env: Env, request: Option<CreationRequest>, org: Option<string>,
                               codec: Codec<CreationRequest, Response>): (r: Reply<Response>)
    ensures r.value.Some? != r.err.Some?
    ensures request.None? ==>
              r == Deliver(creds, env, MethodPost, CreateEndpoint, NoBody, JsonContentType, org, JsonReceiver(codec.decode))
    ensures request.Some? && codec.encode(request.value).Failure? ==>
              r == Reply(None, Some(codec.encode(request.value).error))
    ensures request.Some? && codec.encode(request.value).Success? ==>
              r == Deliver(creds, env, MethodPost, CreateEndpoint, JsonBody(codec.encode(request.value).value),
                           JsonContentType, org, JsonReceiver(codec.decode))
  {
    Send(creds, env, EncodeBody(request, codec.encode), CreateEndpoint, MethodPost, org, JsonReceiver(codec.decode))
  }

  /** Creation hands back what MakeRequest gave it: an error embedded in the response is not
      reported, and neither is an empty image list. */
  lemma CreationIsUnchecked(creds: Credentials, env: Env, request: Option<CreationRequest>, org: Option<string>,
                            codec: Codec<CreationRequest, Response>)
    ensures var s := Send(creds, env, EncodeBody(request, codec.encode), CreateEndpoint, MethodPost, org,
                          JsonReceiver(codec.decode));
            var r := MakeCreationRequest(creds, env, request, org, codec);
            && r.err == s.err && r.value == s.value
            && (s.err.None? && s.value.Some? && s.value.value.error.Some? ==> r.err.None?)
  {
  }

  /** The text the "n" field receives as the source writes it: the `%d` verb applied to the
      pointer to the count, which prints the pointer itself as a decimal integer, and 0 for a nil
      pointer. Where the count is stored is not known to the model, so `address` is a parameter. */
  function CountTextAsWritten(n: Option<nat>, address: nat): (s: string)
    ensures n.None? ==> s == "0"
    ensures n.Some? ==> Strings.IsDigits(s) && Strings.ParseNat(s) == address
  {
    if n.None? then "0"
    else
      Strings.ParseNatToString(address);
      Strings.NatToString(address)
  }

  /** The count is lost as written: a request for two images sends the address of the count,
      which is "2" only if the count happens to live at address 2, and a request without a count
      asks for zero images. */
  lemma CountTextIsNotTheCount(address: nat)
    requires address != 2
    ensures CountTextAsWritten(Some(2), address) != "2"
    ensures CountTextAsWritten(None, address) == "0"
  {
  }

  /** The "n" part as intended: the requested count in decimal, read back by the service as that
      count; no part at all when no count is given, as the JSON creation request omits it. */
  function CountPart(n: Option<nat>): (p: seq<Part>)
    ensures n.None? ==> p == []
    ensures n.Some? ==> && |p| == 1 && p[0].Field? && p[0].name == "n"
                        && Strings.IsDigits(p[0].value) && Strings.ParseNat(p[0].value) == n.value
  {
    match n
    case None => []
    case Some(count) =>
      Strings.ParseNatToString(count);
      [Field("n", Strings.NatToString(count))]
  }

  /** The text fields an edit writes first, in order. */
  function EditFields(q: EditRequest): seq<Part> {
    [Field("prompt", q.prompt)] + CountPart(q.n) +
    [Field("size", q.size), Field("response_format", q.responseFormat), Field("user", q.user)]
  }

  function VariationFields(q: VariationRequest): seq<Part> {
    CountPart(q.n) + [Field("size", q.size), Field("response_format", q.responseFormat), Field("user", q.user)]
  }

  /** The edit form: the prompt, the count, three more text fields, then the image, then the mask;
      the first source that fails ends the form with its error. */
  function EditForm(env: Env, q: EditRequest): (r: Result<seq<Part>, Error>)
    ensures r.Failure? <==> FileSource(env, q.image).Failure? || FileSource(env, q.mask).Failure?
    ensures FileSource(env, q.image).Failure? ==> r == Failure(FileSource(env, q.image).error)
    ensures FileSource(env, q.image).Success? && FileSource(env, q.mask).Failure? ==>
              r == Failure(FileSource(env, q.mask).error)
    ensures r.Success? ==>
              && |r.value| == |CountPart(q.n)| + 6
              && r.value[0] == Field("prompt", q.prompt)
              && r.value[1..|r.value| - 5] == CountPart(q.n)
              && r.value[|r.value| - 5..] ==
                 [Field("size", q.size), Field("response_format", q.responseFormat), Field("user", q.user),
                  File("image", q.imageName, FileSource(env, q.image).value),
                  File("mask", q.maskName, FileSource(env, q.mask).value)]
  {
    match FileSource(env, q.image)
    case Failure(e) => Failure(e)
    case Success(image) =>
      (match FileSource(env, q.mask)
       case Failure(e) => Failure(e)
       case Success(mask) =>
         Success(EditFields(q) + [File("image", q.imageName, image), File("mask", q.maskName, mask)]))
  }

  /** The variation form: the count, three text fields and the image; no prompt and no mask. */
  function VariationForm(env: Env, q: VariationRequest): (r: Result<seq<Part>, Error>)
    ensures r.Failure? <==> FileSource(env, q.image).Failure?
    ensures r.Failure? ==> r.error == FileSource(env, q.image).error
    ensures r.Success? ==>
              && |r.value| == |CountPart(q.n)| + 4
              && r.value[..|r.value| - 4] == CountPart(q.n)
              && r.value[|r.value| - 4..] ==
                 [Field("size", q.size), Field("response_format", q.responseFormat), Field("user", q.user),
                  File("image", q.imageName, FileSource(env, q.image).value)]
  {
    match FileSource(env, q.image)
    case Failure(e) => Failure(e)
    case Success(image) => Success(VariationFields(q) + [File("image", q.imageName, image)])
  }

  /** The edit form as the source writes it: an "n" part is always written, holding the text
      CountTextAsWritten gives; everything else is as in EditForm. */
  function EditFormAsWritten(env: Env, q: EditRequest, address: nat): (r: Result<seq<Part>, Error>)
    ensures r.Failure? <==> FileSource(env, q.image).Failure? || FileSource(env, q.mask).Failure?
    ensures r.Success? ==> |r.value| == 7 && r.value[1] == Field("n", CountTextAsWritten(q.n, address))
  {
    match FileSource(env, q.image)
    case Failure(e) => Failure(e)
    case Success(image) =>
      (match FileSource(env, q.mask)
       case Failure(e) => Failure(e)
       case Success(mask) =>
         Success([Field("prompt", q.prompt), Field("n", CountTextAsWritten(q.n, address)),
                  Field("size", q.size), Field("response_format", q.responseFormat), Field("user", q.user),
                  File("image", q.imageName, image), File("mask", q.maskName, mask)]))
  }

  /** The variation form as the source writes it: the "n" part comes first, always. */
  function VariationFormAsWritten(env: Env, q: VariationRequest, address: nat): (r: Result<seq<Part>, Error>)
    ensures r.Failure? <==> FileSource(env, q.image).Failure?
    ensures r.Success? ==> |r.value| == 5 && r.value[0] == Field("n", CountTextAsWritten(q.n, address))
  {
    match FileSource(env, q.image)
    case Failure(e) => Failure(e)
    case Success(image) =>
      Success([Field("n", CountTextAsWritten(q.n, address)),
               Field("size", q.size), Field("response_format", q.responseFormat), Field("user", q.user),
               File("image", q.imageName, image)])
  }

  /** The edit form as written and as intended differ in the "n" part alone: they fail alike, and
      on success the intended count part stands where the written "n" field stood. */
  lemma EditFormDiffersOnlyInCount(env: Env, q: EditRequest, address: nat)
    ensures EditFormAsWritten(env, q, address).Failure? ==> EditFormAsWritten(env, q, address) == EditForm(env, q)
    ensures EditForm(env, q).Success? ==>
              EditFormAsWritten(env, q, address).Success? &&
              EditForm(env, q).value ==
                EditFormAsWritten(env, q, address).value[..1] + CountPart(q.n) +
                EditFormAsWritten(env, q, address).value[2..]
  {
  }

  /** The same for variations, where the "n" part opens the form. */
  lemma VariationFormDiffersOnlyInCount(env: Env, q: VariationRequest, address: nat)
    ensures VariationFormAsWritten(env, q, address).Failure? ==>
              VariationFormAsWritten(env, q, address) == VariationForm(env, q)
    ensures VariationForm(env, q).Success? ==>
              VariationFormAsWritten(env, q, address).Success? &&
              VariationForm(env, q).value == CountPart(q.n) + VariationFormAsWritten(env, q, address).value[1..]
  {
  }

  /** MakeEditRequest: a nil request is refused before anything is built; otherwise the form is
      written and posted, and the transport's result is returned unchanged. */
  method MakeEditRequest(store: CredentialStore, env: Env, boundary: string, request: Option<EditRequest>,
                         org: Option<string>, decode: seq<byte> -> Result<Response, Error>)
    returns (r: Reply<Response>)
    ensures request.None? ==> r == Reply(None, Some(Plain(NilRequestText)))
    ensures request.Some? ==>
              r == SubmitForm(store.Snapshot(), env, EditForm(env, request.value), boundary, EditEndpoint, org, decode)
  {
    if request.None? {
      return Reply(None, Some(Plain(NilRequestText)));
    }
    var writer, err := WriteEditForm(env, boundary, request.value);
    if err.Some? {
      return Reply(None, err);
    }
    r := MakeRequestWithForm(store, env, writer.parts, EditEndpoint, MethodPost, writer.ContentType(), org,
                             JsonReceiver(decode));
  }

  /** The part of MakeEditRequest that writes the form into a fresh multipart writer: the text
      fields, then the image, then the mask, stopping at the first file that cannot be read. */
  method WriteEditForm(env: Env, boundary: string, q: EditRequest) returns (writer: FormWriter, err: Option<Error>)
    ensures fresh(writer) && writer.boundary == boundary
    ensures err.Some? <==> EditForm(env, q).Failure?
    ensures err.Some? ==> err.value == EditForm(env, q).error
    ensures err.None? ==> writer.parts == EditForm(env, q).value
  {
    writer := new FormWriter(boundary);
    writer.AddField("prompt", q.prompt);
    if q.n.Some? {
      writer.AddField("n", Strings.NatToString(q.n.value));
    }
    assert writer.parts == [Field("prompt", q.prompt)] + CountPart(q.n);
    writer.AddField("size", q.size);
    writer.AddField("response_format", q.responseFormat);
    writer.AddField("user", q.user);
    assert writer.parts == EditFields(q);
    err := CreateFormFile(env, "image", q.imageName, q.image, writer);
    if err.Some? {
      return;
    }
    var image := File("image", q.imageName, FileSource(env, q.image).value);
    assert writer.parts == EditFields(q) + [image];
    err := CreateFormFile(env, "mask", q.maskName, q.mask, writer);
    if err.Some? {
      return;
    }
    assert writer.parts == EditFields(q) + [image, File("mask", q.maskName, FileSource(env, q.mask).value)];
  }

  /** MakeVariationRequest: as editing, with the variation form. */
  method MakeVariationRequest(store: CredentialStore, env: Env, boundary: string, request: Option<VariationRequest>,
                              org: Option<string>, decode: seq<byte> -> Result<Response, Error>)
    returns (r: Reply<Response>)
    ensures request.None? ==> r == Reply(None, Some(Plain(NilRequestText)))
    ensures request.Some? ==>
              r == SubmitForm(store.Snapshot(), env, VariationForm(env, request.value), boundary, VariationEndpoint,
                             org, decode)
  {
    if request.None? {
      return Reply(None, Some(Plain(NilRequestText)));
    }
    var writer, err := WriteVariationForm(env, boundary, request.value);
    if err.Some? {
      return Reply(None, err);
    }
    r := MakeRequestWithForm(store, env, writer.parts, VariationEndpoint, MethodPost, writer.ContentType(), org,
                             JsonReceiver(decode));
  }

  /** The part of MakeVariationRequest that writes the form: the text fields, then the image. */
  method WriteVariationForm(env: Env, boundary: string, q: VariationRequest)
    returns (writer: FormWriter, err: Option<Error>)
    ensures fresh(writer) && writer.boundary == boundary
    ensures err.Some? <==> VariationForm(env, q).Failure?
    ensures err.Some? ==> err.value == VariationForm(env, q).error
    ensures err.None? ==> writer.parts == VariationForm(env, q).value
  {
    writer := new FormWriter(boundary);
    if q.n.Some? {
      writer.AddField("n", Strings.NatToString(q.n.value));
    }
    assert writer.parts == CountPart(q.n);
    writer.AddField("size", q.size);
    writer.AddField("response_format", q.responseFormat);
    writer.AddField("user", q.user);
    assert writer.parts == VariationFields(q);
    err := CreateFormFile(env, "image", q.imageName, q.image, writer);
  }
}
