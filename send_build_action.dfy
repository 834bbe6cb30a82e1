/** The two-step upload handshake of SendBuildAction: ask the upload_init endpoint for a
    one-time upload URL with the API key, then post the build to that URL. Every HTTP
    call is replaced by its outcome, which the caller supplies. */
module SendBuild {
  import opened Wrappers
  import opened JavaStrings

  /** SendBuildMessage: the success flag and the text shown to the user. */
  datatype SendBuildMessage = SendBuildMessage(success: bool, message: string)

  /** How an HTTP call ended: a response, whose entity may be missing (null), or one of
      the two exceptions the code tells apart. UnknownHostException is an IOException
      that upload_init singles out; IoFailure is any other IOException, including one
      raised while reading the entity. `detail` is the exception's getMessage(). */
  datatype HttpOutcome =
    | Response(status: int, entity: Option<string>)
    | UnknownHost(detail: string)
    | IoFailure(detail: string)

  /** A JSON value as far as the handshake looks at it: null, or a value together
      with its toString() rendering. */
  datatype Json = Null | Value(rendered: string)

  /** What parsing the init body and casting it to a JSON object gave: a parse error,
      a value that is not an object (the cast fails), or an object. */
  datatype ParseResult = NotJson | NotObject | Object(fields: map<string, Json>)

  /** An outgoing POST: its URL, its headers (a header value may be null) and its entity. */
  datatype Header = Header(name: string, value: Option<string>)
  datatype Entity = NoEntity | MultipartFile(part: string, path: string)
  datatype Request = Post(url: string, headers: seq<Header>, entity: Entity)

  const VERSION: string := "1.0.0"
  const USER_AGENT: string := "Jenkins Upload API Plugin " + VERSION
  const UPLOAD_INIT_URL: string := "https://api.securetheorem.com/uploadapi/v1/upload_init"
  const UPLOAD_URL_FIELD: string := "upload_url"

  /** The init messages share their leading words; the word after them tells the cases apart. */
  const INIT_NAME: string := "Data Theorem upload_init "
  const INIT_CALL: string := INIT_NAME + "call "
  const FORBIDDEN_PREFIX: string := INIT_CALL + "Forbidden Access: "
  const WRONG_PAYLOAD_PREFIX: string := INIT_NAME + "wrong payload: "
  const SUCCESSFULLY: string := "Successfully "
  const INIT_OK_PREFIX: string := SUCCESSFULLY + "retrieved the download URL from Data Theorem: "
  const INIT_ERROR_PREFIX: string := INIT_CALL + "error: "
  const INIT_EMPTY_BODY: string := INIT_ERROR_PREFIX + "Empty body response "
  const UNKNOWN_HOST_PREFIX: string :=
    INIT_ERROR_PREFIX + "UnknownHostException \n" + "Please contact Data Theorem support: "
  const INIT_IO_PREFIX: string := INIT_ERROR_PREFIX + "IOException "

  const UPLOAD_OK_PREFIX: string := SUCCESSFULLY + "uploaded build to Data Theorem : "
  const UPLOAD_ERROR_PREFIX: string := "Data Theorem upload build returned an error: "
  const UPLOAD_EMPTY_BODY: string := "Data Theorem upload build returned an empty body error"
  const UPLOAD_IO_PREFIX: string := UPLOAD_ERROR_PREFIX + "IOException: "

  /** The names of a request's headers. */
  function HeaderNames(headers: seq<Header>): set<string>
  {
    set h | h in headers :: h.name
  }

  /** jsonResponse.get("upload_url").toString(): a URL only when the body is an object
      whose upload_url is present and not null; every other case throws, which the
      caller catches. */
  function UploadUrlOf(p: ParseResult): Option<string>
  {
    match p
    case Object(fields) =>
      if UPLOAD_URL_FIELD in fields && fields[UPLOAD_URL_FIELD].Value?
      then Some(fields[UPLOAD_URL_FIELD].rendered)
      else None
    case _ => None
  }

  /** What upload_init answers, and the upload URL it stores (None: the field is left alone). */
  datatype InitVerdict = InitVerdict(reply: SendBuildMessage, uploadUrl: Option<string>)

  /** The case analysis of uploadInit: the entity is looked at first, then 401, then 200
      and its payload; the two exceptions last, unknown host before any IOException. */
  function ClassifyInit(o: HttpOutcome, parse: string -> ParseResult): (v: InitVerdict)
    ensures v.reply.success <==> v.uploadUrl.Some?
    ensures v.uploadUrl.Some? <==>
      && o.Response? && o.status == 200 && o.entity.Some?
      && parse(o.entity.value).Object?
      && UPLOAD_URL_FIELD in parse(o.entity.value).fields
      && parse(o.entity.value).fields[UPLOAD_URL_FIELD].Value?
    ensures v.uploadUrl.Some? ==>
      v.uploadUrl == Some(parse(o.entity.value).fields[UPLOAD_URL_FIELD].rendered)
    ensures v.reply.success ==> v.reply.message != ""
    ensures o.Response? && o.entity.Some? ==> EndsWith(v.reply.message, o.entity.value)
  {
    match o
    case Response(status, entity) =>
      if entity.None? then
        InitVerdict(SendBuildMessage(false, INIT_EMPTY_BODY), None)
      else
        var body := entity.value;
        ConcatEndsWith(FORBIDDEN_PREFIX, body);
        ConcatEndsWith(WRONG_PAYLOAD_PREFIX, body);
        ConcatEndsWith(INIT_OK_PREFIX, body);
        ConcatEndsWith(INIT_ERROR_PREFIX, body);
        if status == 401 then
          InitVerdict(SendBuildMessage(false, FORBIDDEN_PREFIX + body), None)
        else if status == 200 then
          var url := UploadUrlOf(parse(body));
          if url.None? then InitVerdict(SendBuildMessage(false, WRONG_PAYLOAD_PREFIX + body), None)
          else InitVerdict(SendBuildMessage(true, INIT_OK_PREFIX + body), url)
        else
          InitVerdict(SendBuildMessage(false, INIT_ERROR_PREFIX + body), None)
    case UnknownHost(detail) =>
      InitVerdict(SendBuildMessage(false, UNKNOWN_HOST_PREFIX + detail), None)
    case IoFailure(detail) =>
      InitVerdict(SendBuildMessage(false, INIT_IO_PREFIX + detail), None)
  }

  /** The case analysis of uploadBuild. Only IOException is caught there, so an unknown
      host gets the same text as any other I/O failure. */
  function ClassifyUpload(o: HttpOutcome): (reply: SendBuildMessage)
    ensures reply.success <==> o.Response? && o.status == 200 && o.entity.Some?
    ensures o.Response? && o.entity.Some? ==> EndsWith(reply.message, o.entity.value)
  {
    match o
    case Response(status, entity) =>
      if entity.None? then
        SendBuildMessage(false, UPLOAD_EMPTY_BODY)
      else
        var body := entity.value;
        ConcatEndsWith(UPLOAD_OK_PREFIX, body);
        ConcatEndsWith(UPLOAD_ERROR_PREFIX, body);
        if status == 200 then SendBuildMessage(true, UPLOAD_OK_PREFIX + body)
        else SendBuildMessage(false, UPLOAD_ERROR_PREFIX + body)
    case UnknownHost(detail) => SendBuildMessage(false, UPLOAD_IO_PREFIX + detail)
    case IoFailure(detail) => SendBuildMessage(false, UPLOAD_IO_PREFIX + detail)
  }

  class SendBuildAction {
    /** The secret upload API key; null when none was configured. */
    const apiKey: Option<string>
    /** The upload link obtained by the last successful upload_init; null before that. */
    var uploadUrl: Option<string>

    constructor (apiKey: Option<string>)
      ensures this.apiKey == apiKey && uploadUrl == None
    {
      this.apiKey := apiKey;
      uploadUrl := None;
    }

    /** uploadInitRequest: a POST to the fixed init endpoint with the key and the agent. */
    function UploadInitRequest(): (r: Request)
      ensures r.url == UPLOAD_INIT_URL && r.entity == NoEntity
      ensures Header("Authorization", apiKey) in r.headers
      ensures Header("User-Agent", Some(USER_AGENT)) in r.headers
      ensures |r.headers| == 2 && HeaderNames(r.headers) == {"Authorization", "User-Agent"}
      ensures forall h :: h in r.headers ==>
        h == Header("Authorization", apiKey) || h == Header("User-Agent", Some(USER_AGENT))
    {
      var headers := [Header("Authorization", apiKey), Header("User-Agent", Some(USER_AGENT))];
      assert HeaderNames(headers) == {headers[0].name, headers[1].name};
      Post(UPLOAD_INIT_URL, headers, NoEntity)
    }

    /** uploadBuildRequest: a multipart POST of the build file to the stored upload URL,
        without the API key: the URL itself grants access. A null uploadUrl makes
        `new HttpPost` throw a NullPointerException that nothing catches. */
    function UploadBuildRequest(buildPath: string): (r: Request)
      reads this
      requires uploadUrl.Some?
      ensures r.url == uploadUrl.value
      ensures r.entity == MultipartFile("file", buildPath)
      ensures Header("User-Agent", Some(USER_AGENT)) in r.headers
      ensures "Authorization" !in HeaderNames(r.headers)
      ensures |r.headers| == 1
      ensures forall h :: h in r.headers ==> h == Header("User-Agent", Some(USER_AGENT))
    {
      var headers := [Header("User-Agent", Some(USER_AGENT))];
      assert HeaderNames(headers) == {headers[0].name};
      Post(uploadUrl.value, headers, MultipartFile("file", buildPath))
    }

    /** uploadInit: classify the outcome of the init request and keep the upload URL
        only when it was obtained. */
    method UploadInit(outcome: HttpOutcome, parse: string -> ParseResult) returns (reply: SendBuildMessage)
      modifies this`uploadUrl
      ensures reply == ClassifyInit(outcome, parse).reply
      ensures reply.success ==> uploadUrl == ClassifyInit(outcome, parse).uploadUrl
      ensures !reply.success ==> uploadUrl == old(uploadUrl)
    {
      var verdict := ClassifyInit(outcome, parse);
      if verdict.uploadUrl.Some? {
        uploadUrl := verdict.uploadUrl;
      }
      reply := verdict.reply;
    }

    /** uploadBuild: the request that is sent and the classification of its outcome. */
    method UploadBuild(buildPath: string, outcome: HttpOutcome) returns (reply: SendBuildMessage, request: Request)
      requires uploadUrl.Some?
      ensures request.url == uploadUrl.value && request == UploadBuildRequest(buildPath)
      ensures reply == ClassifyUpload(outcome)
    {
      request := UploadBuildRequest(buildPath);
      reply := ClassifyUpload(outcome);
    }

    /** perform: run upload_init, and upload the build only when it succeeded with a
        message; otherwise hand back the init message unchanged. `sent` lists the
        requests in the order they go out. */
    method Perform(buildPath: string, initOutcome: HttpOutcome, parse: string -> ParseResult,
                   uploadOutcome: HttpOutcome)
      returns (reply: SendBuildMessage, sent: seq<Request>)
      modifies this`uploadUrl
      ensures var init := ClassifyInit(initOutcome, parse);
        if init.reply.success then
          && uploadUrl == init.uploadUrl
          && reply == ClassifyUpload(uploadOutcome)
          && sent == [UploadInitRequest(), UploadBuildRequest(buildPath)]
          && sent[1].url == init.uploadUrl.value
        else
          && uploadUrl == old(uploadUrl)
          && reply == init.reply
          && sent == [UploadInitRequest()]
    {
      var initReply := UploadInit(initOutcome, parse);
      if initReply.success && initReply.message != "" {
        var request;
        reply, request := UploadBuild(buildPath, uploadOutcome);
        sent := [UploadInitRequest(), request];
      } else {
        reply := initReply;
        sent := [UploadInitRequest()];
      }
    }
  }

  /** No entity: the empty-body failure, whatever the status; 401 and 200 are only
      looked at once a body exists. */
  lemma InitEmptyBody(status: int, parse: string -> ParseResult)
    ensures ClassifyInit(Response(status, None), parse)
         == InitVerdict(SendBuildMessage(false, INIT_EMPTY_BODY), None)
  {
  }

  /** 401 with a body: failure whose message is the forbidden text followed by the body. */
  lemma InitForbidden(body: string, parse: string -> ParseResult)
    ensures ClassifyInit(Response(401, Some(body)), parse)
         == InitVerdict(SendBuildMessage(false, FORBIDDEN_PREFIX + body), None)
  {
  }

  /** 200 whose payload carries a non-null upload_url: success, that URL is kept, and the
      message is the success text followed by the body. */
  lemma InitSession(body: string, parse: string -> ParseResult, url: string)
    requires parse(body).Object? && UPLOAD_URL_FIELD in parse(body).fields
    requires parse(body).fields[UPLOAD_URL_FIELD] == Value(url)
    ensures ClassifyInit(Response(200, Some(body)), parse)
         == InitVerdict(SendBuildMessage(true, INIT_OK_PREFIX + body), Some(url))
  {
  }

  /** 200 whose body is not JSON, not an object, or lacks a non-null upload_url:
      the wrong-payload failure, and no URL is kept. */
  lemma InitWrongPayload(body: string, parse: string -> ParseResult)
    requires parse(body).NotJson? || parse(body).NotObject?
          || UPLOAD_URL_FIELD !in parse(body).fields
          || parse(body).fields[UPLOAD_URL_FIELD].Null?
    ensures ClassifyInit(Response(200, Some(body)), parse)
         == InitVerdict(SendBuildMessage(false, WRONG_PAYLOAD_PREFIX + body), None)
  {
  }

  /** Any other status with a body, an unknown host, any other I/O failure: each its
      own failure text, and no URL is kept. */
  lemma InitOtherFailures(status: int, body: string, detail: string, parse: string -> ParseResult)
    requires status != 200 && status != 401
    ensures ClassifyInit(Response(status, Some(body)), parse)
         == InitVerdict(SendBuildMessage(false, INIT_ERROR_PREFIX + body), None)
    ensures ClassifyInit(UnknownHost(detail), parse)
         == InitVerdict(SendBuildMessage(false, UNKNOWN_HOST_PREFIX + detail), None)
    ensures ClassifyInit(IoFailure(detail), parse)
         == InitVerdict(SendBuildMessage(false, INIT_IO_PREFIX + detail), None)
  {
  }

  /** The first character of each init message, and the character after the shared words. */
  lemma InitPrefixCharacters()
    ensures |INIT_CALL| == 30 && |INIT_NAME| == 25
    ensures |FORBIDDEN_PREFIX| > 30 && FORBIDDEN_PREFIX[30] == 'F' && FORBIDDEN_PREFIX[25] == 'c'
    ensures |INIT_ERROR_PREFIX| > 30 && INIT_ERROR_PREFIX[30] == 'e'
    ensures |WRONG_PAYLOAD_PREFIX| > 25 && WRONG_PAYLOAD_PREFIX[25] == 'w'
    ensures FORBIDDEN_PREFIX[0] == 'D' && |INIT_OK_PREFIX| > 0 && INIT_OK_PREFIX[0] == 'S'
  {
    assert FORBIDDEN_PREFIX == INIT_NAME + ("call " + "Forbidden Access: ");
    assert INIT_ERROR_PREFIX == INIT_NAME + ("call " + "error: ");
    assert INIT_OK_PREFIX[0] == SUCCESSFULLY[0];
  }

  /** A message built as `p + rest`, where `p` differs from the forbidden text at `k`,
      does not start with the forbidden text. */
  lemma NotForbidden(m: string, p: string, rest: string, k: nat)
    requires m == p + rest
    requires k < |p| && k < |FORBIDDEN_PREFIX| && p[k] != FORBIDDEN_PREFIX[k]
    ensures !StartsWith(m, FORBIDDEN_PREFIX)
  {
    assert m[..|p|] == p;
    DifferingPrefix(m, p, FORBIDDEN_PREFIX, k);
  }

  /** A credential problem can be told from every other outcome by its message alone:
      only a 401 with a body yields a message that starts with the forbidden text. */
  lemma {:induction false} ForbiddenIsDistinguishable(o: HttpOutcome, parse: string -> ParseResult)
    ensures StartsWith(ClassifyInit(o, parse).reply.message, FORBIDDEN_PREFIX)
        <==> o.Response? && o.status == 401 && o.entity.Some?
  {
    var m := ClassifyInit(o, parse).reply.message;
    InitPrefixCharacters();
    match o
    case Response(status, entity) =>
      if entity.None? {
        NotForbidden(m, INIT_ERROR_PREFIX, "Empty body response ", 30);
      } else if status == 401 {
        assert m[..|FORBIDDEN_PREFIX|] == FORBIDDEN_PREFIX;
      } else if status == 200 && UploadUrlOf(parse(entity.value)).Some? {
        NotForbidden(m, INIT_OK_PREFIX, entity.value, 0);
      } else if status == 200 {
        NotForbidden(m, WRONG_PAYLOAD_PREFIX, entity.value, 25);
      } else {
        NotForbidden(m, INIT_ERROR_PREFIX, entity.value, 30);
      }
    case UnknownHost(detail) =>
      assert m == INIT_ERROR_PREFIX + ("UnknownHostException \n" + "Please contact Data Theorem support: " + detail);
      NotForbidden(m, INIT_ERROR_PREFIX, "UnknownHostException \n" + "Please contact Data Theorem support: " + detail, 30);
    case IoFailure(detail) =>
      assert m == INIT_ERROR_PREFIX + ("IOException " + detail);
      NotForbidden(m, INIT_ERROR_PREFIX, "IOException " + detail, 30);
  }

  /** uploadBuild: 200 with a body succeeds, another status with a body fails, both
      quoting the body; a missing entity and an I/O failure (unknown host included)
      fail with their fixed texts. */
  lemma UploadOutcomes(status: int, body: string, detail: string)
    ensures ClassifyUpload(Response(200, Some(body))) == SendBuildMessage(true, UPLOAD_OK_PREFIX + body)
    ensures status != 200 ==>
      ClassifyUpload(Response(status, Some(body))) == SendBuildMessage(false, UPLOAD_ERROR_PREFIX + body)
    ensures ClassifyUpload(Response(status, None)) == SendBuildMessage(false, UPLOAD_EMPTY_BODY)
    ensures ClassifyUpload(IoFailure(detail)) == SendBuildMessage(false, UPLOAD_IO_PREFIX + detail)
    ensures ClassifyUpload(UnknownHost(detail)) == ClassifyUpload(IoFailure(detail))
  {
  }
}
