/** `YtbDwClient`: builds one GET request per call and classifies the response.
    Every effect the PHP code performs is a field of `Io`: the HTTP fetch
    (`file_get_contents` with its stream context), `json_decode`, the file write
    (`file_put_contents`) and the `uniqid()` token. */
module YtbDwClient {
  import opened Wrappers
  import opened PhpValues
  import opened YtbDwException
  import opened YtbDwDownloadResult
  import opened YtbDwVideoInfo

  const DefaultBaseUrl := "https://ytb-dw-api.onrender.com"
  const DefaultTimeout := 30
  const DefaultHeaders: seq<string> := ["User-Agent: YtbDw-PHP-SDK/1.0.0", "Accept: application/json, */*"]

  /** `downloadVideo`'s default quality; `downloadAudio`'s is none. */
  const DefaultVideoQuality: Option<string> := Some("720")

  const DownloadFailurePrefix := "Erreur lors du téléchargement: "
  const InfoFailurePrefix := "Erreur lors de la récupération des informations: "
  const SaveFailurePrefix := "Impossible de sauvegarder le fichier à: "
  const InvalidJsonText := "Réponse JSON invalide"
  const DefaultPathPrefix := "ytb_download_"

  /** The configuration a client holds; nothing else survives between calls. */
  datatype Client = Client(apiKey: string, baseUrl: string, timeout: int, headers: seq<string>)

  /** A query parameter, in the order `http_build_query` receives it. */
  datatype Param = Param(name: string, value: string)

  /** A GET request: `endpoint + '?' + http_build_query(query)`, sent with the client's
      timeout and headers. */
  datatype Request = Request(endpoint: string, query: seq<Param>, timeout: int, headers: seq<string>)

  /** What `file_get_contents` returned: `false` (with `error_get_last()['message']` when
      there is one) or the body. */
  datatype Response = TransportFailed(lastError: Option<string>) | Received(body: seq<Byte>)

  /** What `file_put_contents` returned: the byte count or `false`. */
  datatype WriteOutcome = Written(bytes: nat) | WriteFailed

  datatype Io = Io(
    fetch: Request -> Response,
    jsonDecode: seq<Byte> -> Value,
    store: (string, seq<Byte>) -> WriteOutcome,
    uniqid: string)

  /** `__construct`: the base URL loses its trailing slashes, the rest is kept. Base URL
      and timeout default as in PHP. */
  function NewClient(apiKey: string, baseUrl: string := DefaultBaseUrl, timeout: int := DefaultTimeout): (c: Client)
    ensures c.apiKey == apiKey && c.timeout == timeout && c.headers == DefaultHeaders
    ensures c.baseUrl <= baseUrl
    ensures |c.baseUrl| == 0 || c.baseUrl[|c.baseUrl| - 1] != '/'
    ensures forall i :: |c.baseUrl| <= i < |baseUrl| ==> baseUrl[i] == '/'
  {
    Client(apiKey, TrimTrailing(baseUrl, '/'), timeout, DefaultHeaders)
  }

  /** Building a client from a client's own base URL gives the same client. */
  lemma NewClientStable(apiKey: string, baseUrl: string, timeout: int)
    ensures var c := NewClient(apiKey, baseUrl, timeout);
            NewClient(apiKey, c.baseUrl, timeout) == c
  {
  }

  /** `new YtbDwClient($key)` talks to the public service, unaltered, with a 30-second
      timeout. */
  lemma NewClientDefaults(apiKey: string)
    ensures NewClient(apiKey) == Client(apiKey, DefaultBaseUrl, 30, DefaultHeaders)
  {
    TrimTrailingUnique(DefaultBaseUrl, "", '/');
    assert DefaultBaseUrl + "" == DefaultBaseUrl;
  }

  /** The value of the first parameter called `name`. */
  function QueryValue(query: seq<Param>, name: string): Option<string> {
    if |query| == 0 then None
    else if query[0].name == name then Some(query[0].value)
    else QueryValue(query[1..], name)
  }

  /** A name no parameter carries reads back as absent. */
  lemma {:induction false} QueryValueAbsent(query: seq<Param>, name: string)
    requires forall i :: 0 <= i < |query| ==> query[i].name != name
    ensures QueryValue(query, name) == None
  {
    if |query| > 0 {
      QueryValueAbsent(query[1..], name);
    }
  }

  /** The request `download` sends: `api_key`, `url`, `format`, then `quality` only when
      it is truthy. */
  function DownloadRequest(c: Client, url: string, format: string, quality: Option<string>): (r: Request)
    ensures r.endpoint == c.baseUrl + "/download.php"
    ensures r.timeout == c.timeout && r.headers == c.headers
    ensures |r.query| == if TruthyString(quality) then 4 else 3
    ensures r.query[..3] == [Param("api_key", c.apiKey), Param("url", url), Param("format", format)]
    ensures TruthyString(quality) ==> r.query[3] == Param("quality", quality.value)
  {
    var base := [Param("api_key", c.apiKey), Param("url", url), Param("format", format)];
    var query := if TruthyString(quality) then base + [Param("quality", quality.value)] else base;
    Request(c.baseUrl + "/download.php", query, c.timeout, c.headers)
  }

  /** Read back by name, the download query carries the key, the URL and the format, and
      a quality exactly when a truthy one was given (`""`, `"0"` and null are dropped). */
  lemma DownloadQueryFields(c: Client, url: string, format: string, quality: Option<string>)
    ensures var q := DownloadRequest(c, url, format, quality).query;
            && QueryValue(q, "api_key") == Some(c.apiKey)
            && QueryValue(q, "url") == Some(url)
            && QueryValue(q, "format") == Some(format)
            && QueryValue(q, "quality") == (if TruthyString(quality) then quality else None)
            && forall n :: n !in {"api_key", "url", "format", "quality"} ==> QueryValue(q, n) == None
  {
    var q := DownloadRequest(c, url, format, quality).query;
    assert "quality"[0] != "api_key"[0] && "format"[0] != "url"[0];
    assert QueryValue(q, "url") == QueryValue(q[1..], "url");
    assert QueryValue(q, "format") == QueryValue(q[1..], "format") == QueryValue(q[2..], "format");
    assert QueryValue(q, "quality") == QueryValue(q[1..], "quality") == QueryValue(q[2..], "quality")
           == QueryValue(q[3..], "quality");
    if TruthyString(quality) {
      assert q[3..] == [Param("quality", quality.value)];
    } else {
      assert q[3..] == [];
    }
    forall n | n !in {"api_key", "url", "format", "quality"}
      ensures QueryValue(q, n) == None
    {
      QueryValueAbsent(q, n);
    }
  }

  /** The request `getVideoInfo` sends: `api_key` and `url`. */
  function VideoInfoRequest(c: Client, url: string): (r: Request)
    ensures r.endpoint == c.baseUrl + "/video_info.php"
    ensures r.query == [Param("api_key", c.apiKey), Param("url", url)]
    ensures r.timeout == c.timeout && r.headers == c.headers
  {
    Request(c.baseUrl + "/video_info.php", [Param("api_key", c.apiKey), Param("url", url)], c.timeout, c.headers)
  }

  /** Read back by name, the metadata query carries the key and the URL and nothing else. */
  lemma VideoInfoQueryFields(c: Client, url: string)
    ensures var q := VideoInfoRequest(c, url).query;
            && QueryValue(q, "api_key") == Some(c.apiKey)
            && QueryValue(q, "url") == Some(url)
            && forall n :: n !in {"api_key", "url"} ==> QueryValue(q, n) == None
  {
    var q := VideoInfoRequest(c, url).query;
    assert q[1..] == [Param("url", url)] && q[1..][1..] == [];
    assert QueryValue(q, "url") == QueryValue(q[1..], "url");
    forall n | n !in {"api_key", "url"}
      ensures QueryValue(q, n) == None
    {
      QueryValueAbsent(q, n);
    }
  }

  /** A decoded download body is an error report when it is truthy and `isset($v['error'])`;
      the `isset` alone decides, since an array holding `error` is never empty. */
  predicate IsErrorPayload(v: Value)
    ensures IsErrorPayload(v) <==> Isset(v, "error")
  {
    Truthy(v) && Isset(v, "error")
  }

  /** The exception an error report becomes: its `error` as message, `code ?? 0` as code. */
  function PayloadError(v: Value): (e: ApiError)
    requires IsErrorPayload(v)
    ensures forall s :: Field(v, "error") == Some(Str(s)) ==> e.message == s
    ensures forall n :: Field(v, "code") == Some(Int(n)) ==> e.code == n
    ensures Field(v, "code").None? ==> e.code == 0
  {
    ApiError(MessageOf(Field(v, "error").value), CodeOf(Coalesce(v, "code", Int(0))))
  }

  /** For a decoded array with unique keys, an error report is exactly an array holding a
      non-null `error`; the truthiness test adds nothing. Anything else, including a body
      that did not decode (`null`), a scalar or a JSON list, is not one. */
  lemma ErrorPayloadExactly(v: Value)
    requires v.Arr? ==> UniqueKeys(v.entries)
    ensures IsErrorPayload(v) <==> v.Arr? && exists i :: 0 <= i < |v.entries| && v.entries[i].key == StrKey("error")
                                                        && v.entries[i].val != Null
    ensures v.Arr? && (forall i :: 0 <= i < |v.entries| ==> v.entries[i].key.IntKey?) ==> !IsErrorPayload(v)
  {
  }

  /** The file name used when no truthy output path is given: `ytb_download_<token>.mp3`
      for format `'audio'`, `.mp4` for any other format. */
  function DefaultOutputPath(format: string, token: string): (path: string)
    ensures |path| == |DefaultPathPrefix| + |token| + 4
    ensures path[..|DefaultPathPrefix|] == DefaultPathPrefix
    ensures path[|DefaultPathPrefix|..|path| - 4] == token
    ensures path[|path| - 4..] == ".mp3" <==> format == "audio"
    ensures path[|path| - 4..] == ".mp4" <==> format != "audio"
  {
    var extension := if format == "audio" then "mp3" else "mp4";
    var path := DefaultPathPrefix + token + "." + extension;
    assert path[|path| - 4..] == "." + extension;
    assert ".mp3"[3] != ".mp4"[3];
    path
  }

  /** The path `download` writes to: the caller's path when truthy (so `""` and `"0"` fall
      back too), the default name otherwise. */
  function OutputPath(format: string, outputPath: Option<string>, token: string): (path: string)
    ensures TruthyString(outputPath) ==> path == outputPath.value
    ensures !TruthyString(outputPath) ==> path == DefaultOutputPath(format, token)
  {
    if TruthyString(outputPath) then outputPath.value else DefaultOutputPath(format, token)
  }

  /** `download`: fetch, reject a JSON error report, otherwise save the body as the file. */
  function Download(c: Client, io: Io, url: string, format: string := "video", quality: Option<string> := None,
                    outputPath: Option<string> := None): (r: Result<DownloadResult, ApiError>)
    ensures var resp := io.fetch(DownloadRequest(c, url, format, quality));
            var path := OutputPath(format, outputPath, io.uniqid);
            && (r.Success? <==> resp.Received? && !IsErrorPayload(io.jsonDecode(resp.body))
                                && io.store(path, resp.body).Written?)
            && (r.Success? ==> r.value == DownloadResult(path, io.store(path, resp.body).bytes, format))
            && (resp.Received? && IsErrorPayload(io.jsonDecode(resp.body)) ==>
                  r == Failure(PayloadError(io.jsonDecode(resp.body))))
            && (resp.TransportFailed? ==>
                  r == Failure(ApiError(DownloadFailurePrefix + resp.lastError.GetOr(UnknownError), 0)))
            && (resp.Received? && !IsErrorPayload(io.jsonDecode(resp.body)) && r.Failure? ==>
                  r.error == ApiError(SaveFailurePrefix + path, 0))
  {
    match io.fetch(DownloadRequest(c, url, format, quality))
    case TransportFailed(lastError) =>
      Failure(ApiError(DownloadFailurePrefix + lastError.GetOr(UnknownError), 0))
    case Received(body) =>
      var decoded := io.jsonDecode(body);
      if IsErrorPayload(decoded) then
        Failure(PayloadError(decoded))
      else
        var path := OutputPath(format, outputPath, io.uniqid);
        match io.store(path, body)
        case WriteFailed => Failure(ApiError(SaveFailurePrefix + path, 0))
        case Written(bytes) => Success(DownloadResult(path, bytes, format))
  }

  /** `downloadAudio`: `download` with format `'audio'`; a success is audio, and without an
      output path the file is an `.mp3`. */
  function DownloadAudio(c: Client, io: Io, url: string, quality: Option<string> := None,
                         outputPath: Option<string> := None): (r: Result<DownloadResult, ApiError>)
    ensures r == Download(c, io, url, "audio", quality, outputPath)
    ensures r.Success? ==> IsAudio(r.value) && !IsVideo(r.value)
    ensures r.Success? && !TruthyString(outputPath) ==>
              var p := r.value.filePath; |p| >= 4 && p[|p| - 4..] == ".mp3"
  {
    Download(c, io, url, "audio", quality, outputPath)
  }

  /** `downloadVideo`: `download` with format `'video'` and quality `'720'` unless given;
      a success is video, and without an output path the file is an `.mp4`. */
  function DownloadVideo(c: Client, io: Io, url: string, quality: Option<string> := DefaultVideoQuality,
                         outputPath: Option<string> := None): (r: Result<DownloadResult, ApiError>)
    ensures r == Download(c, io, url, "video", quality, outputPath)
    ensures r.Success? ==> IsVideo(r.value) && !IsAudio(r.value)
    ensures r.Success? && !TruthyString(outputPath) ==>
              var p := r.value.filePath; |p| >= 4 && p[|p| - 4..] == ".mp4"
  {
    Download(c, io, url, "video", quality, outputPath)
  }

  /** With only a URL: `download` asks for format `'video'` without a quality,
      `downloadAudio` for `'audio'` without a quality, and `downloadVideo` for `'video'`
      with `quality=720`. */
  lemma DefaultArguments(c: Client, io: Io, url: string)
    ensures Download(c, io, url) == Download(c, io, url, "video", None, None)
    ensures QueryValue(DownloadRequest(c, url, "video", None).query, "format") == Some("video")
    ensures QueryValue(DownloadRequest(c, url, "video", None).query, "quality") == None
    ensures DownloadAudio(c, io, url) == Download(c, io, url, "audio", None, None)
    ensures QueryValue(DownloadRequest(c, url, "audio", None).query, "quality") == None
    ensures DownloadVideo(c, io, url) == Download(c, io, url, "video", Some("720"), None)
    ensures QueryValue(DownloadRequest(c, url, "video", Some("720")).query, "quality") == Some("720")
  {
    DownloadQueryFields(c, url, "video", None);
    DownloadQueryFields(c, url, "audio", None);
    DownloadQueryFields(c, url, "video", Some("720"));
  }

  /** A body that is not an error report and is written in full gives a result whose size
      is the body's length, at the resolved path. */
  lemma DownloadSavesWholeBody(c: Client, io: Io, url: string, format: string, quality: Option<string>,
                               outputPath: Option<string>)
    requires io.fetch(DownloadRequest(c, url, format, quality)).Received?
    requires var body := io.fetch(DownloadRequest(c, url, format, quality)).body;
             !IsErrorPayload(io.jsonDecode(body))
             && io.store(OutputPath(format, outputPath, io.uniqid), body) == Written(|body|)
    ensures var body := io.fetch(DownloadRequest(c, url, format, quality)).body;
            Download(c, io, url, format, quality, outputPath)
              == Success(DownloadResult(OutputPath(format, outputPath, io.uniqid), |body|, format))
  {
  }

  /** `getVideoInfo`: fetch, reject a falsy decode, reject a falsy or missing `success`,
      otherwise wrap the decoded array unchanged. */
  function GetVideoInfo(c: Client, io: Io, url: string): (r: Result<VideoInfo, ApiError>)
    ensures var resp := io.fetch(VideoInfoRequest(c, url));
            && (resp.TransportFailed? ==>
                  r == Failure(ApiError(InfoFailurePrefix + resp.lastError.GetOr(UnknownError), 0)))
            && (resp.Received? && !Truthy(io.jsonDecode(resp.body)) ==>
                  r == Failure(ApiError(InvalidJsonText, 0)))
            && (r.Success? <==> resp.Received? && Truthy(io.jsonDecode(resp.body))
                                && Truthy(Coalesce(io.jsonDecode(resp.body), "success", Null)))
            && (r.Success? ==> RawData(r.value) == io.jsonDecode(resp.body))
            && (resp.Received? && Truthy(io.jsonDecode(resp.body))
                && !Truthy(Coalesce(io.jsonDecode(resp.body), "success", Null)) ==>
                  var data := io.jsonDecode(resp.body);
                  r == Failure(ApiError(MessageOf(Coalesce(data, "error", Str(UnknownError))),
                                        CodeOf(Coalesce(data, "code", Int(0))))))
  {
    match io.fetch(VideoInfoRequest(c, url))
    case TransportFailed(lastError) =>
      Failure(ApiError(InfoFailurePrefix + lastError.GetOr(UnknownError), 0))
    case Received(body) =>
      var data := io.jsonDecode(body);
      if !Truthy(data) then
        Failure(ApiError(InvalidJsonText, 0))
      else if !Truthy(Coalesce(data, "success", Null)) then
        Failure(ApiError(MessageOf(Coalesce(data, "error", Str(UnknownError))),
                         CodeOf(Coalesce(data, "code", Int(0)))))
      else
        Success(VideoInfo(data.entries))
  }

  /** `{"success": false, "error": "not found", "code": 404}` fails with exactly that
      message and code. */
  lemma VideoInfoNotFound(c: Client, io: Io, url: string)
    requires io.fetch(VideoInfoRequest(c, url)).Received?
    requires io.jsonDecode(io.fetch(VideoInfoRequest(c, url)).body)
             == Arr([Entry(StrKey("success"), Bool(false)), Entry(StrKey("error"), Str("not found")),
                     Entry(StrKey("code"), Int(404))])
    ensures GetVideoInfo(c, io, url) == Failure(ApiError("not found", 404))
  {
  }

  /** `{"error": "bad key", "code": 401}` makes both calls fail with code 401, whose
      friendly text is the invalid-key description. */
  lemma BadKeyRejectedByBothCalls(c: Client, io: Io, url: string, format: string, quality: Option<string>,
                                  outputPath: Option<string>)
    requires io.fetch(DownloadRequest(c, url, format, quality)).Received?
    requires io.fetch(VideoInfoRequest(c, url)).Received?
    requires var badKey := Arr([Entry(StrKey("error"), Str("bad key")), Entry(StrKey("code"), Int(401))]);
             && io.jsonDecode(io.fetch(DownloadRequest(c, url, format, quality)).body) == badKey
             && io.jsonDecode(io.fetch(VideoInfoRequest(c, url)).body) == badKey
    ensures Download(c, io, url, format, quality, outputPath) == Failure(ApiError("bad key", 401))
    ensures GetVideoInfo(c, io, url) == Failure(ApiError("bad key", 401))
    ensures FriendlyMessage(ApiError("bad key", 401)) == InvalidKeyText
  {
  }
}
