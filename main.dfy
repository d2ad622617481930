/**
 * The application logic of src/main.c around the vendor library: the readiness
 * gate and the one-pass request sequence of `httpclient_task`, the request
 * helper `http_test`, and the `upload` command handler `do_upload`.
 *
 * `network_isdataready()` is an oracle `ready`, where `ready(k)` answers the
 * k-th query; the network's behaviour on the k-th transport call is `net(k)`.
 * Values that exist only to be observed (sleeps performed, the descriptor and
 * buffer the transport is handed, what is reported) are ghost.
 */
module HttpClientApp {
  import opened Wrappers
  import opened CStrings
  import opened Httpc

  /** RESP_BUFLEN, the capacity of the shared `response_bufer`. */
  const RespBufLen: nat := 1024

  /** The budget, in one-second sleeps, of the readiness loop. */
  const Timeout: nat := 60

  const CustomHeaders: CString := Literal("custom-header: some_value\r\n")
  const JsonData: CString := Literal("{\"string_key\":\"string value\",\"boolean_key\":true, \"int_key\":1234}")
  const UploadUrl: CString := HttpbinUrl("http", "post")
  const FileInfo: CString := Literal("Some information about the file")

  function Zeros(n: nat): (z: seq<byte>)
    ensures |z| == n && forall i :: 0 <= i < n ==> z[i] == 0
  {
    seq(n, _ => 0)
  }

  // ---------------------------------------------------------------- readiness gate

  /**
   * The sleeps the readiness loop performs when it starts with `limit` seconds
   * left and its next query is the from-th: the answers before the first true
   * one, but no more than `limit`.
   */
  function LeadingFalse(ready: nat -> bool, from: nat, limit: nat): (n: nat)
    ensures n <= limit
    ensures forall k :: from <= k < from + n ==> !ready(k)
    ensures n < limit ==> ready(from + n)
    decreases limit
  {
    if limit == 0 || ready(from) then 0 else 1 + LeadingFalse(ready, from + 1, limit - 1)
  }

  /**
   * The queries the loop makes when it sleeps `sleeps` times: one per guard
   * test while time is left (`timeout && ...` skips the query at zero).
   */
  function GateQueries(sleeps: nat): nat
  {
    if sleeps < Timeout then sleeps + 1 else Timeout
  }

  /** The three facts LeadingFalse promises determine it. */
  lemma LeadingFalseUnique(ready: nat -> bool, from: nat, limit: nat, n: nat)
    requires n <= limit
    requires forall k :: from <= k < from + n ==> !ready(k)
    requires n < limit ==> ready(from + n)
    ensures n == LeadingFalse(ready, from, limit)
  {
  }

  /**
   * The countdown before the task starts: while budget remains and the network
   * is not ready, sleep a second and spend one unit of the budget. The query
   * is skipped once the budget is spent.
   */
  method ReadinessLoop(ready: nat -> bool) returns (queries: nat, ghost sleeps: nat)
    ensures sleeps == LeadingFalse(ready, 0, Timeout)
    ensures queries == GateQueries(sleeps)
    ensures forall k :: 0 <= k < sleeps ==> !ready(k)
  {
    var timeout := Timeout;
    queries, sleeps := 0, 0;
    while timeout != 0 && !ready(queries)
      decreases timeout
      invariant 0 <= timeout && timeout + sleeps == Timeout
      invariant queries == sleeps
      invariant forall k :: 0 <= k < sleeps ==> !ready(k)
    {
      // the guard's query was answered false
      queries := queries + 1;
      sleeps := sleeps + 1;
      timeout := timeout - 1;
    }
    if timeout != 0 {
      // the guard's last query was answered true
      queries := queries + 1;
    }
    LeadingFalseUnique(ready, 0, Timeout, sleeps);
  }

  /** The loop never sleeps more than the budget. */
  lemma GateSleepsBounded(ready: nat -> bool)
    ensures LeadingFalse(ready, 0, Timeout) <= Timeout
    ensures GateQueries(LeadingFalse(ready, 0, Timeout)) <= Timeout
  {
  }

  /** A network that is ready at the first query costs no sleep. */
  lemma ReadyAtEntryNoSleep(ready: nat -> bool)
    requires ready(0)
    ensures LeadingFalse(ready, 0, Timeout) == 0 && GateQueries(0) == 1
  {
  }

  /** A network that is never ready costs the whole budget, and the go/no-go query then says no. */
  lemma NeverReadyFullBudget(ready: nat -> bool)
    requires forall k :: 0 <= k <= Timeout ==> !ready(k)
    ensures LeadingFalse(ready, 0, Timeout) == Timeout
    ensures !ready(GateQueries(Timeout))
  {
  }

  // ---------------------------------------------------------------- http_test

  /** The descriptor `http_test` hands to the transport. */
  function RequestDescriptor(url: CString, data: Option<CString>, mimeType: int, buffer: array<byte>): HttpArgValue
    requires data.Some? ==> IsCString(data.value)
  {
    var fixed := ZeroFilledArg.(url := Some(url), headers := Some(CustomHeaders), certs := None,
                                recvHeaders := 0, buflen := RespBufLen, respBuffer := buffer);
    if data.Some? then fixed.(mime := mimeType, submitData := data, submitLen := StrLen(data.value))
    else fixed
  }

  /** What `http_test` prints about the outcome. */
  datatype Report = RequestFailed(status: int) | ResponseShown(length: int, content: seq<byte>)

  /** The fixed fields of every request descriptor. */
  lemma RequestDescriptorFixedFields(url: CString, data: Option<CString>, mimeType: int, buffer: array<byte>)
    requires data.Some? ==> IsCString(data.value)
    ensures var d := RequestDescriptor(url, data, mimeType, buffer);
      && d.url == Some(url)
      && d.headers == Some(CustomHeaders) && Content(CustomHeaders) == "custom-header: some_value\r\n"
      && d.certs.None? && d.recvHeaders == 0
      && d.buflen == RespBufLen && d.respBuffer == buffer
  {
    ContentOfLiteral("custom-header: some_value\r\n");
  }

  /** A body, its length and its MIME type are attached exactly when there is data. */
  lemma RequestDescriptorBody(url: CString, data: Option<CString>, mimeType: int, buffer: array<byte>)
    requires data.Some? ==> IsCString(data.value)
    ensures var d := RequestDescriptor(url, data, mimeType, buffer);
      && (d.submitData.Some? <==> data.Some?)
      && (data.None? ==> d.mime == 0 && d.submitLen == 0)
      && (data.Some? ==> d.mime == mimeType && d.submitData == data && d.submitLen == |Content(data.value)|)
  {
  }

  // ---------------------------------------------------------------- do_upload

  /**
   * `strrchr(path, '/') + 1`: the text after the last '/' of the path, as a
   * pointer into the path itself.
   */
  function Filename(path: CString): (f: CString)
    requires IsCString(path) && '/' in Content(path)
    ensures IsCString(f) && |f| < |path| && f == path[|path| - |f|..]
  {
    path[StrRChr(path, '/').value + 1..]
  }

  /**
   * The filename is the last segment of the path: it holds no '/', and the
   * path is some prefix ending in '/' followed by it.
   */
  lemma FilenameIsLastSegment(path: CString)
    requires IsCString(path) && '/' in Content(path)
    ensures var c, fc := Content(path), Content(Filename(path));
      && '/' !in fc
      && |fc| < |c|
      && c == c[..|c| - |fc|] + fc
      && c[|c| - |fc| - 1] == '/'
  {
    var i := StrRChr(path, '/').value;
    ContentOfSuffix(path, i + 1);
  }

  /** The filename is empty exactly when the path ends in '/'. */
  lemma FilenameEmptyIffTrailingSlash(path: CString)
    requires IsCString(path) && '/' in Content(path)
    ensures var c := Content(path);
      Content(Filename(path)) == "" <==> c[|c| - 1] == '/'
  {
    FilenameIsLastSegment(path);
    var c, fc := Content(path), Content(Filename(path));
    if fc != "" {
      assert fc[|fc| - 1] == c[|c| - 1];
    }
  }

  /** In `dir + "/" + name`, with no '/' in the name, the last '/' is the one after the directory. */
  lemma LastSlashOfJoinedPath(dir: string, name: string)
    requires NUL !in dir && NUL !in name && '/' !in name
    ensures StrRChr(Literal(dir + "/" + name), '/') == Some(|dir|)
  {
    var c := dir + "/" + name;
    var p := Literal(c);
    StrLenOfLiteral(c);
    assert p[|dir|] == '/';
    forall j | |dir| < j < |c|
      ensures p[j] != '/'
    {
      assert p[j] == name[j - |dir| - 1];
    }
    StrRChrAt(p, '/', |dir|);
  }

  /** Joining a directory and a name with '/' and deriving the filename gives the name back. */
  lemma FilenameOfJoinedPath(dir: string, name: string)
    requires NUL !in dir && NUL !in name && '/' !in name
    ensures NUL !in dir + "/" + name
    ensures Content(Filename(Literal(dir + "/" + name))) == name
  {
    LastSlashOfJoinedPath(dir, name);
    var p := Literal(dir + "/" + name);
    assert Filename(p) == p[|dir| + 1..];
    assert p[|dir| + 1..] == Literal(name);
    ContentOfLiteral(name);
  }

  /** The path "/a/b/c/report.bin" names the file "report.bin". */
  lemma FilenameOfReportPath()
    ensures Content(Filename(Literal("/a/b/c/report.bin"))) == "report.bin"
  {
    assert "/a/b/c/report.bin" == "/a/b/c" + "/" + "report.bin";
    FilenameOfJoinedPath("/a/b/c", "report.bin");
  }

  /** The descriptor `do_upload` hands to the transport, with the file metadata it points at. */
  function UploadDescriptor(path: CString, now: int, buffer: array<byte>): HttpUploadValue
    requires IsCString(path) && '/' in Content(path)
  {
    HttpUploadValue(UploadUrl, None, RespBufLen, None, Some(UploadMeta(path, now)), 0, buffer, 0)
  }

  /** The file metadata of an upload of `path` at time `now`. */
  function UploadMeta(path: CString, now: int): FileMetaValue
    requires IsCString(path) && '/' in Content(path)
  {
    FileMetaValue(Filename(path), path, HttpMimeTypeBinary, None, FileInfo, now)
  }

  /** The upload names the whole argument as its path and the text after its last '/' as its file. */
  lemma UploadDescriptorMeta(path: CString, now: int, buffer: array<byte>)
    requires IsCString(path) && '/' in Content(path)
    ensures var u := UploadDescriptor(path, now, buffer);
      && u.meta.Some? && u.meta.value.filepath == path
      && u.meta.value.filename == Filename(path)
      && u.meta.value.timestamp == now && u.meta.value.mimeType == HttpMimeTypeBinary && u.meta.value.mime.None?
      && u.respBuffer == buffer && u.buflen == RespBufLen && u.timeout == 0
  {
  }

  /**
   * The file metadata `do_upload` fills on its stack: the text after the last
   * '/' of the path as the name, the path itself, the binary MIME type, no
   * MIME override, the fixed description and the timestamp.
   */
  method FillFileMeta(path: CString, now: int) returns (fmeta: FileMeta)
    requires IsCString(path) && '/' in Content(path)
    ensures fresh(fmeta)
    ensures fmeta.Value() == UploadMeta(path, now)
  {
    fmeta := new FileMeta.Uninitialized();
    fmeta.filename := Filename(path);  // strrchr(path, '/') + 1
    fmeta.filepath := path;
    fmeta.mimeType := HttpMimeTypeBinary;
    fmeta.mime := None;
    fmeta.info := FileInfo;
    fmeta.timestamp := now;
  }

  // ---------------------------------------------------------------- the demo pass

  datatype DemoRequest = DemoRequest(verb: CString, url: CString, data: Option<CString>, mimeType: int)

  const Get: CString := Literal("GET")
  const Post: CString := Literal("POST")
  const Patch: CString := Literal("PATCH")
  const Put: CString := Literal("PUT")
  const Delete: CString := Literal("DELETE")

  function HttpbinUrl(scheme: string, path: string): CString
  {
    Literal(scheme + "://httpbin.org/" + path)
  }

  /** The five requests of one block of the pass, over the given scheme. */
  function Block(scheme: string): seq<DemoRequest>
  {
    [ DemoRequest(Get, HttpbinUrl(scheme, "get"), None, 0),
      DemoRequest(Post, HttpbinUrl(scheme, "post"), Some(JsonData), HttpMimeTypeJson),
      DemoRequest(Patch, HttpbinUrl(scheme, "patch"), Some(JsonData), HttpMimeTypeJson),
      DemoRequest(Put, HttpbinUrl(scheme, "put"), Some(JsonData), HttpMimeTypeJson),
      DemoRequest(Delete, HttpbinUrl(scheme, "delete"), Some(JsonData), HttpMimeTypeJson) ]
  }

  /** The ten `http_test` calls of one pass, in order: "Testing HTTP", then "Testing HTTPS". */
  const DemoRequests: seq<DemoRequest> := Block("http") + Block("https")

  function ExpectedSubmission(r: DemoRequest, buffer: array<byte>): Submission
    requires r.data.Some? ==> IsCString(r.data.value)
  {
    Submission(r.verb, RequestDescriptor(r.url, r.data, r.mimeType, buffer), Zeros(RespBufLen))
  }

  /** The submissions of one block, in order. */
  function BlockSubmissions(scheme: string, buffer: array<byte>): seq<Submission>
  {
    seq(5, i requires 0 <= i < 5 => ExpectedSubmission(Block(scheme)[i], buffer))
  }

  /** The submissions of the whole pass, in order. */
  function DemoSubmissions(buffer: array<byte>): seq<Submission>
  {
    BlockSubmissions("http", buffer) + BlockSubmissions("https", buffer)
  }

  /** The method names are distinct strings; in particular only GET is "GET". */
  lemma VerbsDistinct()
    ensures Post != Get && Patch != Get && Put != Get && Delete != Get
  {
    assert Post[0] != Get[0] && Patch[0] != Get[0] && Put[0] != Get[0] && Delete[0] != Get[0];
  }

  /** The pass sends the same five methods over http:// and then over https://. */
  lemma DemoSequenceShape()
    ensures |DemoRequests| == 10
    ensures forall i :: 0 <= i < 5 ==>
      && DemoRequests[i] == Block("http")[i]
      && DemoRequests[i + 5] == Block("https")[i]
  {
  }

  /** A request carries no body exactly when it is a GET, and otherwise carries the JSON document as JSON. */
  predicate BodyMatchesVerb(r: DemoRequest)
  {
    && (r.data.None? <==> r.verb == Get)
    && (r.data.Some? ==> r.data == Some(JsonData) && r.mimeType == HttpMimeTypeJson)
  }

  lemma BlockBodiesMatchVerbs(scheme: string)
    ensures |Block(scheme)| == 5
    ensures forall i :: 0 <= i < 5 ==> BodyMatchesVerb(Block(scheme)[i])
  {
    VerbsDistinct();
  }

  /** Only the GETs carry no body; every other request carries the JSON document as JSON. */
  lemma OnlyGetsCarryNoBody()
    ensures forall i :: 0 <= i < |DemoRequests| ==>
      && (DemoRequests[i].data.None? <==> DemoRequests[i].verb == Get)
      && (DemoRequests[i].data.Some? ==> DemoRequests[i].data == Some(JsonData) && DemoRequests[i].mimeType == HttpMimeTypeJson)
  {
    DemoSequenceShape();
    BlockBodiesMatchVerbs("http");
    BlockBodiesMatchVerbs("https");
    forall i | 0 <= i < |DemoRequests|
      ensures BodyMatchesVerb(DemoRequests[i])
    {
      if i >= 5 {
        assert DemoRequests[i] == Block("https")[i - 5];
      }
    }
  }

  /**
   * Every request of the pass hands the transport the shared buffer, all
   * zero, with the full capacity; and a body goes with it exactly when it is
   * not a GET.
   */
  lemma PassSubmissions(buffer: array<byte>)
    ensures |DemoSubmissions(buffer)| == 10
    ensures forall i :: 0 <= i < 10 ==>
      var s := DemoSubmissions(buffer)[i];
      && s.buffer == Zeros(RespBufLen)
      && s.arg.respBuffer == buffer && s.arg.buflen == RespBufLen
      && (s.arg.submitData.None? <==> s.verb == Get)
  {
    OnlyGetsCarryNoBody();
    DemoSequenceShape();
    forall i | 0 <= i < 10
      ensures DemoSubmissions(buffer)[i] == ExpectedSubmission(DemoRequests[i], buffer)
    {
      if i >= 5 {
        assert DemoSubmissions(buffer)[i] == BlockSubmissions("https", buffer)[i - 5];
      }
    }
  }

  /**
   * The global state of src/main.c: the shared response buffer. (The URC
   * handler and the task are registered with the runtime in `main`; that
   * plumbing is not modelled.)
   */
  class Application {
    const responseBuffer: array<byte>

    /** `char response_bufer[RESP_BUFLEN]`: static storage, so it starts zeroed. */
    constructor ()
      ensures Valid() && fresh(responseBuffer)
      ensures responseBuffer[..] == Zeros(RespBufLen)
    {
      responseBuffer := new byte[RespBufLen](_ => 0);
    }

    predicate Valid()
    {
      responseBuffer.Length == RespBufLen
    }

    /**
     * `http_test(method, url, data, type)`: builds the descriptor, clears the
     * shared buffer, submits, and returns the transport's status.
     */
    method HttpTest(verb: CString, url: CString, data: Option<CString>, mimeType: int, net: Exchange)
      returns (ret: int, ghost sent: Submission, ghost report: Report)
      requires Valid()
      requires data.Some? ==> IsCString(data.value)
      modifies responseBuffer
      ensures ret == net.status
      ensures sent == Submission(verb, RequestDescriptor(url, data, mimeType, responseBuffer), Zeros(RespBufLen))
      ensures ret != 0 ==> report == RequestFailed(ret)
      ensures ret == 0 ==> report.ResponseShown? && report.content == responseBuffer[..]
    {
      var arg := new HttpArg.ZeroFilled();
      arg.url := Some(url);
      arg.headers := Some(CustomHeaders);
      arg.certs := None;
      arg.recvHeaders := 0;
      arg.buflen := RespBufLen;
      arg.respBuffer := responseBuffer;
      if data.Some? {
        arg.mime := mimeType;
        arg.submitData := data;
        arg.submitLen := StrLen(data.value);
      }
      // memset(response_bufer, 0, RESP_BUFLEN)
      forall i | 0 <= i < RespBufLen {
        responseBuffer[i] := 0;
      }
      ret, sent := HttpcSubmit(verb, arg, net);
      if ret != 0 {
        report := RequestFailed(ret);
        return;
      }
      report := ResponseShown(arg.buflen, responseBuffer[..]);
    }

    /**
     * `do_upload(argc, argv, info)`: uploads the file `argv[1]` names, without
     * clearing the shared buffer first, and returns 0 whatever the status.
     * The command framework guarantees `argv[1]`; `now` is `time(NULL)`.
     */
    method DoUpload(argv: seq<CString>, now: int, net: Exchange)
      returns (ret: int, ghost sent: UploadSubmission, ghost status: int)
      requires Valid()
      requires |argv| >= 2 && IsCString(argv[1]) && '/' in Content(argv[1])
      modifies responseBuffer
      ensures ret == 0
      ensures status == net.status
      ensures sent == UploadSubmission(UploadDescriptor(argv[1], now, responseBuffer), old(responseBuffer[..]))
    {
      ghost var d := UploadDescriptor(argv[1], now, responseBuffer);
      var fmeta := FillFileMeta(argv[1], now);
      var up := new HttpUpload.Uninitialized();
      up.url := UploadUrl;
      up.certs := None;
      up.buflen := RespBufLen;
      up.headers := None;
      up.meta := fmeta;
      up.recvHeaders := 0;
      up.respBuffer := responseBuffer;
      up.timeout := 0;
      assert up.Value() == d;
      status, sent := HttpcUpload(up, net);
      ret := 0;
    }

    /**
     * One block of the pass ("Testing HTTP" or "Testing HTTPS"): GET, POST,
     * PATCH, PUT and DELETE against httpbin.org over the given scheme; the
     * k-th call meets the network as `net(first + k)`.
     */
    method TestScheme(scheme: string, net: nat -> Exchange, first: nat) returns (ghost block: seq<Submission>)
      requires Valid()
      modifies responseBuffer
      ensures block == BlockSubmissions(scheme, responseBuffer)
    {
      var ret: int;
      ghost var s: Submission;
      ghost var report: Report;
      ret, s, report := HttpTest(Get, HttpbinUrl(scheme, "get"), None, 0, net(first));
      block := [s];
      ret, s, report := HttpTest(Post, HttpbinUrl(scheme, "post"), Some(JsonData), HttpMimeTypeJson, net(first + 1));
      block := block + [s];
      ret, s, report := HttpTest(Patch, HttpbinUrl(scheme, "patch"), Some(JsonData), HttpMimeTypeJson, net(first + 2));
      block := block + [s];
      ret, s, report := HttpTest(Put, HttpbinUrl(scheme, "put"), Some(JsonData), HttpMimeTypeJson, net(first + 3));
      block := block + [s];
      ret, s, report := HttpTest(Delete, HttpbinUrl(scheme, "delete"), Some(JsonData), HttpMimeTypeJson, net(first + 4));
      block := block + [s];
    }

    /**
     * `httpclient_task`: waits for network data, gives up unless a fresh query
     * then says ready, and otherwise makes one pass of ten requests (the
     * `while (1)` body ends in `break`).
     */
    method HttpClientTask(ready: nat -> bool, net: nat -> Exchange)
      returns (ghost sleeps: nat, ghost log: seq<Submission>)
      requires Valid()
      modifies responseBuffer
      ensures sleeps == LeadingFalse(ready, 0, Timeout)
      ensures log == if ready(GateQueries(sleeps)) then DemoSubmissions(responseBuffer) else []
    {
      var queries;
      queries, sleeps := ReadinessLoop(ready);
      log := [];
      if !ready(queries) {
        // "Network ready timeout!"
        return;
      }
      ghost var block := TestScheme("http", net, 0);
      log := block;
      block := TestScheme("https", net, 5);
      log := log + block;
    }
  }
}
