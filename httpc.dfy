/**
 * The part of the vendor HTTP client library (proto/httpc.h) that src/main.c
 * uses: the request descriptor `struct httparg_t`, the upload descriptor
 * `struct httpupload_t` with its `struct http_filemeta_t`, and the two entry
 * points `httpc_submit` and `httpc_upload`. The library itself is not part of
 * this model: each entry point keeps only its frame (it may write the
 * response buffer and the response length) and returns the status the
 * network exchange produced, given here as an `Exchange` value.
 */
module Httpc {
  import opened Wrappers
  import opened CStrings

  type byte = b: int | 0 <= b < 256

  /** HTTP_MIME_TYPE_JSON and HTTP_MIME_TYPE_BINARY; their values come from proto/httpc.h. */
  const HttpMimeTypeJson: int
  const HttpMimeTypeBinary: int

  /** What the network does for one transport call: the status it ends with and the bytes it returns. */
  datatype Exchange = Exchange(status: int, response: seq<byte>)

  /** The fields of a `struct httparg_t` at one moment; None stands for NULL. */
  datatype HttpArgValue = HttpArgValue(
    url: Option<CString>,
    headers: Option<CString>,
    certs: Option<CString>,
    recvHeaders: int,
    buflen: int,
    respBuffer: array?<byte>,
    mime: int,
    submitData: Option<CString>,
    submitLen: int)

  /** A `struct httparg_t` after `memset(&arg, 0, sizeof(arg))`. */
  const ZeroFilledArg := HttpArgValue(None, None, None, 0, 0, null, 0, None, 0)

  class HttpArg {
    var url: Option<CString>
    var headers: Option<CString>
    var certs: Option<CString>
    var recvHeaders: int
    var buflen: int
    var respBuffer: array?<byte>
    var mime: int
    var submitData: Option<CString>
    var submitLen: int

    /** A descriptor on the stack, cleared with `memset`. */
    constructor ZeroFilled()
      ensures Value() == ZeroFilledArg
    {
      url, headers, certs := None, None, None;
      recvHeaders, buflen, respBuffer := 0, 0, null;
      mime, submitData, submitLen := 0, None, 0;
    }

    function Value(): HttpArgValue
      reads this
    {
      HttpArgValue(url, headers, certs, recvHeaders, buflen, respBuffer, mime, submitData, submitLen)
    }
  }

  /** The fields of a `struct http_filemeta_t` at one moment. */
  datatype FileMetaValue = FileMetaValue(
    filename: CString,
    filepath: CString,
    mimeType: int,
    mime: Option<CString>,
    info: CString,
    timestamp: int)

  class FileMeta {
    var filename: CString
    var filepath: CString
    var mimeType: int
    var mime: Option<CString>
    var info: CString
    var timestamp: int

    /** A descriptor on the stack, not cleared: every field holds an unspecified value. */
    constructor Uninitialized()
    {
    }

    function Value(): FileMetaValue
      reads this
    {
      FileMetaValue(filename, filepath, mimeType, mime, info, timestamp)
    }
  }

  /** The fields of a `struct httpupload_t` at one moment, with the file metadata it points at. */
  datatype HttpUploadValue = HttpUploadValue(
    url: CString,
    certs: Option<CString>,
    buflen: int,
    headers: Option<CString>,
    meta: Option<FileMetaValue>,
    recvHeaders: int,
    respBuffer: array?<byte>,
    timeout: int)

  class HttpUpload {
    var url: CString
    var certs: Option<CString>
    var buflen: int
    var headers: Option<CString>
    var meta: FileMeta?
    var recvHeaders: int
    var respBuffer: array?<byte>
    var timeout: int

    /** A descriptor on the stack, not cleared: every field holds an unspecified value. */
    constructor Uninitialized()
    {
    }

    function Value(): HttpUploadValue
      reads this, meta
    {
      HttpUploadValue(url, certs, buflen, headers,
        if meta == null then None else Some(meta.Value()),
        recvHeaders, respBuffer, timeout)
    }
  }

  /** What `httpc_submit` is handed: the method, the descriptor, and the buffer's contents on entry. */
  datatype Submission = Submission(verb: CString, arg: HttpArgValue, buffer: seq<byte>)

  /** What `httpc_upload` is handed: the descriptor, and the buffer's contents on entry. */
  datatype UploadSubmission = UploadSubmission(up: HttpUploadValue, buffer: seq<byte>)

  /**
   * `httpc_submit(HTTP_CLIENT_DEFAULT, method, &arg)`: performs the request the
   * descriptor describes. It may rewrite the response buffer and the response
   * length and nothing else; its status is the exchange's. The body stands in
   * for the library: it copies as much of the response as the buffer takes.
   */
  method HttpcSubmit(verb: CString, arg: HttpArg, net: Exchange) returns (status: int, ghost seen: Submission)
    requires arg.respBuffer != null
    modifies arg`buflen, arg.respBuffer
    ensures seen == Submission(verb, old(arg.Value()), old(arg.respBuffer[..]))
    ensures arg.respBuffer == old(arg.respBuffer)
    ensures status == net.status
  {
    seen := Submission(verb, arg.Value(), arg.respBuffer[..]);
    var buffer := arg.respBuffer;
    var n := if |net.response| < buffer.Length then |net.response| else buffer.Length;
    forall i | 0 <= i < n {
      buffer[i] := net.response[i];
    }
    arg.buflen := n;
    status := net.status;
  }

  /**
   * `httpc_upload(HTTP_CLIENT_DEFAULT, &up)`: uploads the file the metadata
   * names. Same frame as `HttpcSubmit`.
   */
  method HttpcUpload(up: HttpUpload, net: Exchange) returns (status: int, ghost seen: UploadSubmission)
    requires up.respBuffer != null
    modifies up`buflen, up.respBuffer
    ensures seen == UploadSubmission(old(up.Value()), old(up.respBuffer[..]))
    ensures up.respBuffer == old(up.respBuffer)
    ensures status == net.status
  {
    seen := UploadSubmission(up.Value(), up.respBuffer[..]);
    var buffer := up.respBuffer;
    var n := if |net.response| < buffer.Length then |net.response| else buffer.Length;
    forall i | 0 <= i < n {
      buffer[i] := net.response[i];
    }
    up.buflen := n;
    status := net.status;
  }
}
