# HTTP client example for a cellular modem: a Dafny model

This project models the decision logic of the example application
`src/main.c`, which runs on a cellular modem (Logicrom SDK). The vendor's
RIL and HTTP client libraries do the real work. Around those library calls
the application does four things:

- **URC handler** (`urc_callback`). It receives an unsolicited result code
  (URC) as a raw pair `(code, param)` and writes at most one `debug` line
  with a level. There is a nested switch for the SIM-state and call-state
  sub-codes.
- **Readiness gate** (start of `httpclient_task`). A countdown loop polls
  `network_isdataready()` for at most 60 one-second sleeps. A fresh query
  after the loop decides whether the task goes on.
- **Request helper** (`http_test`). It fills a zeroed `httparg_t` descriptor
  and zero-fills the shared 1024-byte `response_bufer`. It then calls
  `httpc_submit` and returns that call's status unchanged.
- **Upload command** (`do_upload`). It derives the file name as
  `strrchr(path, '/') + 1`, fills the upload descriptor and the file
  metadata, and calls `httpc_upload` without clearing the buffer first. It
  returns 0 whatever the upload status.

The task runs the body of its `while (1)` once (it ends in `break`). That
body issues ten requests: GET, POST, PATCH, PUT and DELETE over `http://`,
then the same five over `https://`.

Files:

- `wrappers.dfy`: `Option`, used wherever the source has a pointer that may
  be NULL.
- `cstrings.dfy`: NUL-terminated strings. It defines `strlen` (`StrLen`),
  `strrchr` (`StrRChr`), pointer advance as a suffix, and string literals.
- `urc.dfy`: the URC handler as `Classify(Decode(...))`.
  - `Decode` reads the raw pair the way the two levels of `switch` do.
  - `Classify` picks the log line, a `(Level, Message)` pair or none.
  - The numeric values of `URC_*`, `SIM_STAT_*` and `CALL_STATE_*` come
    from `ril.h`, so they are a parameter (`RilCodes`). The only thing
    required of them is that each switch's labels are distinct.
- `httpc.dfy`: the vendor HTTP library's interface.
  - The descriptors `httparg_t`, `httpupload_t` and `http_filemeta_t` are
    classes whose fields the application assigns one by one. Each class
    also gives a value snapshot of its fields.
  - `httpc_submit` and `httpc_upload` keep only their frame: they may write
    the response buffer and the response length. Their status is the one
    the network exchange produced, given as an `Exchange` value.
- `main.dfy`: the application.
  - An `Application` object holds the global `response_bufer` as an
    `array<byte>` of length 1024.
  - The other members are the readiness loop, `http_test`, `do_upload`,
    the task, and the specification functions they are proved against.

Oracles replace the parts that cannot be seen:

- `ready(k)` is the answer to the k-th call of `network_isdataready()`.
- `net(k)` (or one `Exchange`) is what the network does on a transport call.
- `callInfoAt(p)` is the call-info record an incoming-call parameter points
  at.
- `now` is `time(NULL)`.

What exists only to be observed is ghost:

- the number of sleeps;
- the descriptor and buffer contents the transport is handed (a
  `Submission`), which the transport's own contract reports as it was on
  entry;
- what `http_test` reports.

Three behaviours of the code that a reader might expect otherwise:

- A URC code that no case label names is dropped (`default: break;`).
- A SIM state that no nested label names is logged as "SIM ERROR" with its
  raw value. A call state that no nested label names is dropped.
- `http_test` checks nothing about the URL, so the model requires nothing of
  it.

## Model

| member | source | states |
|---|---|---|
| Urc.Decode | src/main.c:39-116 | For distinct switch labels: the decoded event is well formed and carries the raw code it came from. An incoming call carries the record its parameter points at. Every other event carries the raw parameter. The event is "unknown" exactly when no case label names the code. |
| Urc.DecodeCodeOf | src/main.c:39-116 | Decoding an event's own code and parameter gives the event back, for every well-formed event other than an incoming call. The switch therefore loses nothing. |
| Urc.DecodeComingCall | src/main.c:73-76 | The incoming-call code decodes to the call-info record its parameter points at. |
| Urc.Classify | src/main.c:37-117 | No log line exactly for the silent events: SYS_INIT (whatever its parameter), GPRS, CFUN, ALARM, FILE_DOWNLOAD, the three FOTA codes, STKPCI, unknown codes and unnamed call states. When a line is written, its level is DBG_INFO exactly for SIM-ready and for the voltage reading, and DBG_OFF otherwise. |
| Urc.SimStatesLoggedDistinctly | src/main.c:45-65 | Every SIM state is logged, and two SIM states with the same log line are the same state. Each named state has its own message, and every other value carries its raw value. |
| Urc.NamedSimStateLogged | src/main.c:46-61 | Each of NOT_INSERTED, READY, PIN_REQ, PUK_REQ and NOT_READY, given as its raw value, is logged with its own message, never the SIM-error one. |
| Urc.UnknownSimStateLogsRawValue | src/main.c:62-63 | A SIM value no label names yields exactly the DBG_OFF "SIM ERROR" line carrying that raw value. |
| Urc.CallStatesLoggedDistinctly | src/main.c:77-94 | A call state produces no line exactly when it is not one of BUSY, NO_ANSWER, NO_CARRIER and NO_DIALTONE. Those four have pairwise distinct lines. |
| Urc.UnknownCallStateDropped | src/main.c:91-92 | A call-state value no label names produces no log line at all, unlike the SIM case. |
| Urc.UnknownCodeDropped | src/main.c:114-115 | A URC code no case label names produces no log line. |
| Urc.InfoLevelOnlyForSimReadyAndVoltage | src/main.c:40-116 | On raw input, a DBG_INFO line is written exactly when the code is the SIM-state code with the READY value, or the voltage code. |
| Urc.UrcCallback | src/main.c:37-117 | `urc_callback` on a raw pair writes no line exactly when the code is one no label names, or one whose case does nothing (SYS_INIT, GPRS, CFUN, ALARM, FILE_DOWNLOAD, the three FOTA codes, STKPCI), or the call-state code with a value no nested label names. |
| Urc.DecodeSilentExactly | src/main.c:39-116 | The decoded event is one of the silent events exactly when the raw pair is one of those passed over. |
| Urc.GsmStateLogged | src/main.c:66-68 | A GSM network-state URC writes exactly the DBG_OFF "GSM NW State" line carrying the raw state. |
| Urc.IncomingCallLogged | src/main.c:73-76 | An incoming-call URC writes exactly the DBG_OFF "Incoming voice call" line carrying the number from the call-info record the parameter points at. |
| Urc.NewSmsLogged | src/main.c:95-98 | A new-SMS URC writes exactly the DBG_OFF "New SMS" line carrying the raw index. |
| Urc.VoltageLogged | src/main.c:99-101 | A voltage URC writes exactly the DBG_INFO "VBatt Voltage" line carrying the raw reading. |
| CStrings.StrLen | src/main.c:136 | `strlen`: the index of the first NUL. There is a NUL there and none before it. |
| CStrings.StrRChr | src/main.c:204 | `strrchr` returns NULL exactly when the character does not occur in the text (the terminator counts as part of it). Otherwise it returns the index of an occurrence with none after it in the text. |
| CStrings.ContentOfSuffix | src/main.c:204 | Advancing a pointer by k characters within the text leaves a C string whose text is the rest of the original text. |
| CStrings.ContentOfLiteral | src/main.c:128 | A string literal with no embedded NUL denotes exactly its text. |
| CStrings.StrLenOfLiteral | src/main.c:136 | `strlen` of such a literal (the JSON document passed as data) is the length of its text. |
| CStrings.StrLenOfSuffix | src/main.c:204 | Advancing a pointer by k characters within the text leaves a C string that is k characters shorter. |
| CStrings.LastIndexOf | src/main.c:204 | The backwards scan of `strrchr` returns the position of an occurrence below the bound with none after it, and finds nothing exactly when there is no occurrence below the bound. |
| CStrings.StrRChrAt | src/main.c:204 | When a non-NUL character occurs at position k of the text and nowhere after it, `strrchr` returns k. |
| HttpClientApp.LeadingFalse | src/main.c:161-164 | The loop's sleep count is at most the budget, and every query before it answered false. If it is below the budget, the query at that index answered true. |
| HttpClientApp.LeadingFalseUnique | src/main.c:161-164 | These three facts determine the sleep count: no other count satisfies them. |
| HttpClientApp.ReadinessLoop | src/main.c:158-164 | The loop performs exactly `LeadingFalse(ready, 0, 60)` sleeps, and no query before the last one answered true. It makes one more query than it sleeps, except when the budget runs out: then the zero counter skips the query. |
| HttpClientApp.GateSleepsBounded | src/main.c:158-164 | At most 60 sleeps and at most 60 queries in the loop. |
| HttpClientApp.ReadyAtEntryNoSleep | src/main.c:161-164 | If the first query says ready, the loop sleeps zero times and makes one query. The go/no-go query is then the second one. |
| HttpClientApp.NeverReadyFullBudget | src/main.c:158-169 | If no query through the 61st says ready, the loop sleeps exactly 60 times and the go/no-go query says no. |
| HttpClientApp.Application.HttpClientTask | src/main.c:156-197 | The task sleeps as the gate specifies. It issues requests only when the fresh query after the loop says ready, and then it issues exactly the ten submissions of one pass, in order. Otherwise it issues none. |
| HttpClientApp.Application.TestScheme | src/main.c:172-193 | One block issues GET, POST, PATCH, PUT and DELETE against httpbin.org over one scheme, in that order, each as `http_test` builds it. |
| HttpClientApp.DemoSequenceShape | src/main.c:171-196 | The pass has 10 requests: the five-request block over `http`, then the same block over `https`. |
| HttpClientApp.OnlyGetsCarryNoBody | src/main.c:173-193 | In the pass, a request carries no body exactly when it is a GET. Every other request carries the JSON document with the JSON MIME type. |
| HttpClientApp.PassSubmissions | src/main.c:138-140 | Each of the ten submissions of a pass hands the transport the shared buffer with all 1024 bytes zero and the full capacity. A body goes with it exactly when it is not a GET. |
| HttpClientApp.RequestDescriptorFixedFields | src/main.c:126-132 | The descriptor has the given URL and the fixed headers "custom-header: some_value\r\n". It has no certificates and header capture off. Its capacity is 1024 and its buffer is the shared one. |
| HttpClientApp.RequestDescriptorBody | src/main.c:126-137 | A body is attached exactly when data is non-NULL. Without data, mime, body and length stay 0/NULL from the memset. With data, mime is the given type, the body is the data, and the length is `strlen(data)`. |
| HttpClientApp.Application.HttpTest | src/main.c:119-150 | `http_test` returns exactly the transport's status. The transport receives the descriptor the two lemmas above describe, with all 1024 buffer bytes zero. A non-zero status is reported as a failure with no response content; on 0 the buffer's contents are reported. |
| HttpClientApp.Filename | src/main.c:204 | For a path whose text contains '/', the filename is a C string that is a suffix of the path: a pointer into it. |
| HttpClientApp.FilenameIsLastSegment | src/main.c:204 | The filename's text has no '/'. The path's text is a prefix ending in '/' followed by the filename's text. |
| HttpClientApp.FilenameEmptyIffTrailingSlash | src/main.c:204 | The filename is empty exactly when the path ends in '/'. |
| HttpClientApp.LastSlashOfJoinedPath | src/main.c:204 | In `dir + "/" + name`, with no '/' in the name, `strrchr` finds the '/' right after the directory. |
| HttpClientApp.FilenameOfJoinedPath | src/main.c:204 | For a name without '/', the filename of `dir + "/" + name` is `name`. |
| HttpClientApp.FilenameOfReportPath | src/main.c:204 | The filename of "/a/b/c/report.bin" is "report.bin". |
| HttpClientApp.UploadDescriptorMeta | src/main.c:204-218 | The upload's metadata names the whole argument as `filepath` and its last segment as `filename`. It has the binary MIME type, no MIME override and the given timestamp. The upload uses the shared buffer with capacity 1024 and the default timeout 0. |
| HttpClientApp.FillFileMeta | src/main.c:204-209 | The metadata record filled on the stack holds the text after the last '/' as name, the path, the binary MIME type, no override, the fixed description and the timestamp. |
| HttpClientApp.Application.DoUpload | src/main.c:199-225 | `do_upload` returns 0 whatever the upload status. The transport receives the upload descriptor above together with the buffer exactly as it was before the command: it is not cleared. |
| HttpClientApp.Application.constructor | src/main.c:29-30 | The shared response buffer has 1024 bytes and starts zeroed (static storage). |
| Httpc.HttpArg.ZeroFilled | src/main.c:126 | After the memset, every field of the request descriptor is 0 or NULL. |
| Httpc.HttpcSubmit | src/main.c:140 | The transport is handed the method, the descriptor and the buffer contents as they are on entry (the ghost `seen`). It may rewrite only the response buffer and the response length, keeps the buffer pointer, and returns the exchange's status. |
| Httpc.HttpcUpload | src/main.c:220 | The upload entry point is handed the upload descriptor, with the metadata it points at, and the buffer contents on entry. Its frame and status are the same as `HttpcSubmit`'s. |

## Left out

- Httpc.HttpcSubmit: its contract is weaker than a real transport on purpose. It does not say how many bytes are written, whether they are NUL-terminated, or what length is reported. The HTTP exchange, framing and TLS belong to the vendor library, which is not part of this model. So `http_test`'s reported length is unconstrained.
- Httpc.HttpcUpload: weaker on purpose, for the same reason as `HttpcSubmit`.
- HttpClientApp.Application.HttpTest: the `%s` print of the buffer is modelled as the whole buffer. If the transport fills all 1024 bytes, the print would run past the end of the buffer. That depends on the library's truncation policy, which is not visible here.
- Urc.Classify: messages carry the raw 32-bit value. The `%d` rendering, which shows values of 2^31 and above as negative numbers, is formatting and is not modelled.
- HttpClientApp.Application.DoUpload: takes `argv` and reads only `argv[1]`. It requires `argv[1]` to contain a '/', because `strrchr` would otherwise return NULL and `NULL + 1` is undefined. The handler itself does not check this. `argc`, the optional second and third arguments and the `CMD_ADD` registration (src/main.c:227) belong to the command framework.
- HttpClientApp.FillFileMeta: the source fills `fmeta` inline in `do_upload`. The model fills it in a method of its own that `DoUpload` calls first, before the upload descriptor. The two structures are independent, so the order does not matter.
- HttpClientApp.Application.TestScheme: the source writes the five calls out twice, once per scheme. The model states the block once and calls it twice, in the same order and with the same arguments.
- `debug`/`printf` output ("Sending HTTP ...", "Testing HTTP", "Network ready timeout!", "Upload ret ...") is not modelled. What would be reported is a value; the formatted text and the I/O are not.
- `sleep` timing, including the pacing between demo requests and the final `sleep(10)`, is not modelled. Only the readiness loop's sleeps are counted, as a ghost value.
- `main` is not modelled: `logicrom_init`, `network_dataenable`, `wget_init`, `os_task_create` and the idle loop (src/main.c:232-254) are runtime plumbing.
- The incoming-call parameter is a pointer cast to `struct ril_callinfo_t *`. It is modelled by a function from the parameter to a record that carries the caller's number.
- The values of the `ril.h` constants and of `HTTP_MIME_TYPE_JSON` / `HTTP_MIME_TYPE_BINARY` are not visible. The former are a parameter; the latter are unspecified constants.
- The SMS-ready test in the SYS_INIT case has an empty body, so it is modelled only as "no log line".
- Only one request or upload may use the shared buffer at a time. That is a discipline across tasks, and a sequential model cannot check it.
