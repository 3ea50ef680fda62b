/** The files endpoint (files/files.go): listing, uploading, deleting and retrieving files, and
    downloading a file's content to a local path. */
module Files {
  import opened Wrappers
  import opened Errors
  import opened Authentication
  import opened Common
  import opened Strings

  const Endpoint := BaseURL + "files"

  datatype UploadedFile = UploadedFile(id: string, object: string, bytes: nat, createdAt: nat, filename: string,
                                       purpose: string, error: Option<ResponseError>)

  datatype ListResponse = ListResponse(object: string, data: seq<UploadedFile>, error: Option<ResponseError>)

  /** `filename` is the name sent with the part, `filepath` where the file is read from. */
  datatype UploadRequest = UploadRequest(purpose: string, filename: string, filepath: string)

  datatype DeleteResponse = DeleteResponse(id: string, object: string, deleted: bool, error: Option<ResponseError>)

  // ----- Routes ------------------------------------------------------------------------------

  /** The five requests this package makes. */
  datatype Operation = List | Upload | Delete(fileID: string) | Retrieve(fileID: string) | Content(fileID: string)

  function Route(op: Operation): Target {
    match op
    case List => Target(MethodGet, Endpoint)
    case Upload => Target(MethodPost, Endpoint)
    case Delete(id) => Target(MethodDelete, Endpoint + "/" + id)
    case Retrieve(id) => Target(MethodGet, Endpoint + "/" + id)
    case Content(id) => Target(MethodGet, Endpoint + "/" + id + "/content")
  }

  function ParseRoute(t: Target): Option<Operation> {
    var prefix := Endpoint + "/";
    if t.url == Endpoint then
      if t.verb == MethodGet then Some(List)
      else if t.verb == MethodPost then Some(Upload)
      else None
    else if HasPrefix(t.url, prefix) then ParseFileRoute(t.verb, t.url[|prefix|..])
    else None
  }

  /** A URL below one file: the ID up to the next '/', then what is asked of the file. */
  function ParseFileRoute(verb: string, rest: string): Option<Operation> {
    var split := SplitAt(rest, '/');
    if verb == MethodDelete && split.1 == "" then Some(Delete(split.0))
    else if verb == MethodGet && split.1 == "" then Some(Retrieve(split.0))
    else if verb == MethodGet && split.1 == "/content" then Some(Content(split.0))
    else None
  }

  predicate PlainID(op: Operation) {
    match op
    case Delete(id) => '/' !in id
    case Retrieve(id) => '/' !in id
    case Content(id) => '/' !in id
    case _ => true
  }

  /** A file URL is read below the file prefix. */
  lemma FileUrl(verb: string, id: string, tail: string)
    ensures ParseRoute(Target(verb, Endpoint + "/" + id + tail)) == ParseFileRoute(verb, id + tail)
  {
    var prefix := Endpoint + "/";
    var url := Endpoint + "/" + id + tail;
    assert url == prefix + (id + tail);
    assert url[..|prefix|] == prefix;
    assert url[|prefix|..] == id + tail;
    assert |url| > |Endpoint|;
  }

  /** Distinct operations on single-segment IDs never share a target. */
  lemma {:induction false} RouteParses(op: Operation)
    requires PlainID(op)
    ensures ParseRoute(Route(op)) == Some(op)
  {
    match op
    case List =>
    case Upload =>
    case Delete(id) =>
      FileUrl(MethodDelete, id, "");
      assert Endpoint + "/" + id + "" == Endpoint + "/" + id;
      SplitAtConcat(id, '/', "");
      assert id + "" == id;
    case Retrieve(id) =>
      FileUrl(MethodGet, id, "");
      assert Endpoint + "/" + id + "" == Endpoint + "/" + id;
      SplitAtConcat(id, '/', "");
      assert id + "" == id;
    case Content(id) =>
      FileUrl(MethodGet, id, "/content");
      SplitAtConcat(id, '/', "/content");
  }

  /** Every target that reads back as an operation is that operation's own target. */
  lemma ParsedRoutes(t: Target)
    ensures ParseRoute(t).Some? ==> Route(ParseRoute(t).value) == t
  {
    var prefix := Endpoint + "/";
    if ParseRoute(t).Some? && t.url != Endpoint {
      var rest := t.url[|prefix|..];
      FileRouteOfParsed(t.verb, rest);
      assert t.url == prefix + rest;
    }
  }

  lemma FileRouteOfParsed(verb: string, rest: string)
    ensures ParseFileRoute(verb, rest).Some? ==>
              Route(ParseFileRoute(verb, rest).value) == Target(verb, Endpoint + "/" + rest)
  {
    var split := SplitAt(rest, '/');
    if ParseFileRoute(verb, rest).Some? {
      assert Endpoint + "/" + rest == Endpoint + "/" + split.0 + split.1;
      assert split.1 == "" ==> split.0 == rest;
    }
  }

  /** An ID holding a '/' makes a retrieval and a content download share a target. */
  lemma SlashInIDCollides()
    ensures Route(Retrieve("file-1/content")) == Route(Content("file-1"))
  {
  }

  // ----- JSON requests -----------------------------------------------------------------------

  function Get<T>(creds: Credentials, env: Env, op: Operation, org: Option<string>,
                  decode: seq<byte> -> Result<T, Error>): Reply<T>
  {
    Call(creds, env, Route(op), org, decode)
  }

  function MakeListRequest(creds: Credentials, env: Env, org: Option<string>,
                           decode: seq<byte> -> Result<ListResponse, Error>): (r: Reply<ListResponse>)
    ensures r == Deliver(creds, env, MethodGet, Endpoint, NoBody, JsonContentType, org, JsonReceiver(decode))
  {
    Get(creds, env, List, org, decode)
  }

  function MakeDeleteRequest(creds: Credentials, env: Env, fileID: string, org: Option<string>,
                             decode: seq<byte> -> Result<DeleteResponse, Error>): (r: Reply<DeleteResponse>)
    ensures r == Deliver(creds, env, MethodDelete, Endpoint + "/" + fileID, NoBody, JsonContentType, org,
                         JsonReceiver(decode))
  {
    Get(creds, env, Delete(fileID), org, decode)
  }

  function MakeRetrieveRequest(creds: Credentials, env: Env, fileID: string, org: Option<string>,
                               decode: seq<byte> -> Result<UploadedFile, Error>): (r: Reply<UploadedFile>)
    ensures r == Deliver(creds, env, MethodGet, Endpoint + "/" + fileID, NoBody, JsonContentType, org,
                         JsonReceiver(decode))
  {
    Get(creds, env, Retrieve(fileID), org, decode)
  }

  /** Listing, deleting and retrieving hand back MakeRequest's result as it is, at their own
      targets: an error embedded in the response is not reported and an empty list is not an error. */
  lemma UncheckedRequests(creds: Credentials, env: Env, fileID: string, org: Option<string>,
                          listDecode: seq<byte> -> Result<ListResponse, Error>,
                          deleteDecode: seq<byte> -> Result<DeleteResponse, Error>,
                          fileDecode: seq<byte> -> Result<UploadedFile, Error>)
    ensures MakeListRequest(creds, env, org, listDecode)
         == Send(creds, env, Success(NoBody), Endpoint, MethodGet, org, JsonReceiver(listDecode))
    ensures MakeDeleteRequest(creds, env, fileID, org, deleteDecode)
         == Send(creds, env, Success(NoBody), Endpoint + "/" + fileID, MethodDelete, org, JsonReceiver(deleteDecode))
    ensures MakeRetrieveRequest(creds, env, fileID, org, fileDecode)
         == Send(creds, env, Success(NoBody), Endpoint + "/" + fileID, MethodGet, org, JsonReceiver(fileDecode))
  {
  }

  // ----- Upload ------------------------------------------------------------------------------

  /** The upload form: the purpose field, then the file read from its path under the request's
      filename. The path is always opened as a local file, never fetched as a URL. */
  function UploadForm(env: Env, q: UploadRequest): (r: Result<seq<Part>, Error>)
    ensures r.Failure? <==> env.open(q.filepath).Failure?
    ensures r.Failure? ==> r.error == env.open(q.filepath).error
    ensures r.Success? ==>
              && Names(r.value) == ["purpose", "file"]
              && r.value[0] == Field("purpose", q.purpose)
              && r.value[1] == File("file", q.filename, env.open(q.filepath).value)
  {
    match env.open(q.filepath)
    case Failure(e) => Failure(e)
    case Success(content) => Success([Field("purpose", q.purpose), File("file", q.filename, content)])
  }

  /** MakeUploadRequest: writes the form and posts it; the transport's result is returned unchanged. */
  method MakeUploadRequest(store: CredentialStore, env: Env, boundary: string, request: UploadRequest,
                           org: Option<string>, decode: seq<byte> -> Result<UploadedFile, Error>)
    returns (r: Reply<UploadedFile>)
    ensures r == SubmitForm(store.Snapshot(), env, UploadForm(env, request), boundary, Endpoint, org, decode)
  {
    var writer := new FormWriter(boundary);
    writer.AddField("purpose", request.purpose);
    writer.AddFile("file", request.filename);
    var data := env.open(request.filepath);
    if data.Failure? {
      return Reply(None, Some(data.error));
    }
    writer.Write(data.value);
    assert [] + data.value == data.value;
    assert writer.parts == UploadForm(env, request).value;
    r := MakeRequestWithForm(store, env, writer.parts, Endpoint, MethodPost, writer.ContentType(), org,
                             JsonReceiver(decode));
  }

  // ----- Content download --------------------------------------------------------------------

  /** The local file system: the contents of each existing path. */
  class Disk {
    var files: map<string, seq<byte>>

    constructor (files: map<string, seq<byte>>)
      ensures this.files == files
    {
      this.files := files;
    }

    /** os.Stat succeeds. */
    predicate Exists(path: string)
      reads this
    {
      path in files
    }

    /** Creates or truncates the file at `path` and writes `data` into it. */
    method Store(path: string, data: seq<byte>)
      modifies this
      ensures files == old(files)[path := data]
    {
      files := files[path := data];
    }
  }

  /** What the download does once past the existence guard: the error it returns and, when it got
      as far as creating the file, the bytes it leaves there. */
  datatype Download = Download(written: Option<seq<byte>>, err: Option<Error>)

  /** The download after the guard: the GET to the content URL with the JSON content type, then
      the file is created and the body copied into it. The status code is never looked at. */
  function FetchContent(creds: Credentials, env: Env, fileID: string, path: string, org: Option<string>)
    : Download
  {
    var url := Route(Content(fileID)).url;
    match env.newRequest(MethodGet, url)
    case Some(e) => Download(None, Some(e))
    case None =>
      match env.transport(Outgoing(creds, MethodGet, url, NoBody, JsonContentType, org))
      case DoFailed(e) => Download(None, Some(e))
      case NilResponse => Download(None, Some(Plain(NilResponseText)))
      case ReadFailed(e) => if env.create(path).Some? then Download(None, env.create(path)) else Download(Some([]), Some(e))
      case NilBody => if env.create(path).Some? then Download(None, env.create(path)) else Download(Some([]), None)
      case Received(bytes) =>
        if env.create(path).Some? then Download(None, env.create(path)) else Download(Some(bytes), None)
  }

  /** The outcomes of the download: a request that cannot be built, a failed or empty exchange and
      a file that cannot be created write nothing; otherwise the body received is what is written,
      and the download succeeds exactly when the body was read in full. */
  lemma FetchContentCases(creds: Credentials, env: Env, fileID: string, path: string, org: Option<string>)
    ensures var url := Endpoint + "/" + fileID + "/content";
            var o := env.transport(Outgoing(creds, MethodGet, url, NoBody, JsonContentType, org));
            var d := FetchContent(creds, env, fileID, path, org);
            && (env.newRequest(MethodGet, url).Some? ==> d == Download(None, env.newRequest(MethodGet, url)))
            && (env.newRequest(MethodGet, url).None? ==>
                  && (o.DoFailed? ==> d == Download(None, Some(o.err)))
                  && (o.NilResponse? ==> d == Download(None, Some(Plain(NilResponseText))))
                  && (!o.DoFailed? && !o.NilResponse? && env.create(path).Some? ==>
                        d == Download(None, env.create(path)))
                  && (d.written.Some? <==> !o.DoFailed? && !o.NilResponse? && env.create(path).None?)
                  && (d.err.None? <==> (o.Received? || o.NilBody?) && env.create(path).None?)
                  && (o.Received? && env.create(path).None? ==> d.written == Some(o.bytes)))
  {
  }

  /** MakeRetrieveContentRequest: an existing path is left alone unless `overwrite` is set, and no
      request is made; otherwise the download runs and the disk changes only at `path`. */
  method MakeRetrieveContentRequest(store: CredentialStore, env: Env, disk: Disk, fileID: string, path: string,
                                    overwrite: bool, org: Option<string>)
    returns (err: Option<Error>)
    modifies disk
    ensures old(disk.Exists(path)) && !overwrite ==> err == Some(FileExists) && disk.files == old(disk.files)
    ensures !(old(disk.Exists(path)) && !overwrite) ==>
              var d := FetchContent(store.Snapshot(), env, fileID, path, org);
              && err == d.err
              && disk.files == if d.written.Some? then old(disk.files)[path := d.written.value] else old(disk.files)
  {
    if disk.Exists(path) && !overwrite {
      return Some(FileExists);
    }
    var o;
    o, err := OpenContent(store, env, fileID, path, org);
    if err.Some? {
      return;
    }
    disk.Store(path, []);
    if o.ReadFailed? {
      return Some(o.err);
    }
    if o.Received? {
      disk.Store(path, o.bytes);
    }
  }

  /** The part of MakeRetrieveContentRequest before anything is written: the request is built and
      sent, and the destination file is created. A failure here leaves nothing on disk. */
  method OpenContent(store: CredentialStore, env: Env, fileID: string, path: string, org: Option<string>)
    returns (o: HttpOutcome, err: Option<Error>)
    ensures var url := Route(Content(fileID)).url;
            err.None? ==>
              && env.newRequest(MethodGet, url).None?
              && o == env.transport(Outgoing(store.Snapshot(), MethodGet, url, NoBody, JsonContentType, org))
              && !o.DoFailed? && !o.NilResponse? && env.create(path).None?
    ensures err.Some? ==> FetchContent(store.Snapshot(), env, fileID, path, org) == Download(None, err)
  {
    ghost var creds := store.Snapshot();
    var url := Endpoint + "/" + fileID + "/content";
    assert url == Route(Content(fileID)).url;
    o := DoFailed(Plain(""));
    var e := env.newRequest(MethodGet, url);
    if e.Some? {
      return o, e;
    }
    var req := new Request(MethodGet, url, NoBody);
    SetRequestHeaders(req, JsonContentType, org, store);
    assert req.Sent() == Outgoing(creds, MethodGet, url, NoBody, JsonContentType, org);
    o := env.transport(req.Sent());
    if o.DoFailed? {
      return o, Some(o.err);
    }
    if o.NilResponse? {
      return o, Some(Plain(NilResponseText));
    }
    err := env.create(path);
  }
}
