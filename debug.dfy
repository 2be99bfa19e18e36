/**
 * The HTTP debug transport: a request body is copied into a buffer while the
 * dump reads it and then replaced by that buffer; a response body is wrapped
 * so that every chunk the caller reads is echoed to the diagnostic stream.
 * Bodies are byte sequences read through a cursor; the HTTP wire dumps
 * themselves are not modelled.
 */
module Debug {
  import opened Wrappers
  import opened Errors

  /** A byte; a character below 256 stands for it so that bytes and text share one stream. */
  type byte = c: char | c as int < 256

  /** The error a read reports besides nil: end of stream. */
  datatype ReadError = EOF

  const RequestOpen: string := "\n[request]\n"
  const RequestClose: string := "\n[/request]\n"
  const ResponseOpen: string := "[response]\n"
  const ResponseClose: string := "\n[/response]\n"

  /** Chunk size of the dump's reads (`io.Copy`'s buffer). */
  const DumpChunk: nat := 32 * 1024

  /**
   * An in-memory body (`bytes.Buffer`, and the request and response bodies,
   * read the same way): its bytes and a read cursor. Writing appends.
   */
  class Buffer {
    var data: seq<byte>
    var off: nat

    ghost predicate Valid()
      reads this
    {
      off <= |data|
    }

    /** The bytes not yet read. */
    function Unread(): (r: seq<byte>)
      reads this
      requires Valid()
    {
      data[off..]
    }

    constructor (data: seq<byte>)
      ensures Valid() && this.data == data && off == 0
    {
      this.data := data;
      off := 0;
    }

    /**
     * `Read(p)` with `len(p) == capacity`: the next bytes up to the capacity;
     * with nothing left, EOF unless the capacity is zero.
     */
    method Read(capacity: nat) returns (chunk: seq<byte>, err: Option<ReadError>)
      requires Valid()
      modifies this`off
      ensures Valid() && data == old(data)
      ensures |chunk| == if capacity < |old(Unread())| then capacity else |old(Unread())|
      ensures chunk == old(Unread())[..|chunk|] && Unread() == old(Unread())[|chunk|..]
      ensures err == Some(EOF) <==> old(Unread()) == [] && capacity > 0
    {
      var n := if capacity < |data| - off then capacity else |data| - off;
      chunk := data[off..off + n];
      off := off + n;
      err := if n == 0 && capacity > 0 then Some(EOF) else None;
    }

    method Write(bytes: seq<byte>)
      requires Valid()
      modifies this`data
      ensures Valid() && data == old(data) + bytes && off == old(off)
    {
      data := data + bytes;
    }
  }

  /** The diagnostic stream (standard error), as the text written to it so far. */
  class Stream {
    var text: string

    constructor ()
      ensures text == ""
    {
      text := "";
    }

    method Write(s: string)
      modifies this
      ensures text == old(text) + s
    {
      text := text + s;
    }
  }

  /**
   * `readButCopy`: reads from `src` and copies every byte it hands out into
   * `dst`. Its invariant: what `dst` gained is exactly what was read.
   */
  class CopyReader {
    const src: Buffer
    const dst: Buffer
    ghost const origin: nat
    ghost const base: seq<byte>

    ghost predicate Valid()
      reads this, src, dst
    {
      && src != dst && src.Valid() && dst.Valid()
      && origin <= src.off
      && dst.data == base + src.data[origin..src.off]
    }

    constructor (src: Buffer, dst: Buffer)
      requires src != dst && src.Valid() && dst.Valid()
      ensures Valid() && this.src == src && this.dst == dst
      ensures origin == src.off && base == dst.data
    {
      this.src, this.dst := src, dst;
      origin, base := src.off, dst.data;
    }

    /** Returns exactly what `src` returned and appends those bytes, and no others, to `dst`. */
    method Read(capacity: nat) returns (chunk: seq<byte>, err: Option<ReadError>)
      requires Valid()
      modifies src`off, dst`data
      ensures Valid() && src.data == old(src.data)
      ensures |chunk| == if capacity < |old(src.Unread())| then capacity else |old(src.Unread())|
      ensures chunk == old(src.Unread())[..|chunk|] && src.Unread() == old(src.Unread())[|chunk|..]
      ensures err == Some(EOF) <==> old(src.Unread()) == [] && capacity > 0
      ensures dst.data == old(dst.data) + chunk
    {
      chunk, err := src.Read(capacity);
      if |chunk| > 0 {
        dst.Write(chunk);
      }
      assert src.data[origin..src.off] == old(src.data[origin..src.off]) + chunk;
    }
  }

  /**
   * `echoAsRead`: reads from `src`, echoes every non-empty chunk to the
   * diagnostic stream, and writes the closing marker when the read reports EOF.
   */
  class EchoReader {
    const src: Buffer
    const diag: Stream

    constructor (src: Buffer, diag: Stream)
      ensures this.src == src && this.diag == diag
    {
      this.src, this.diag := src, diag;
    }

    method Read(capacity: nat) returns (chunk: seq<byte>, err: Option<ReadError>)
      requires src.Valid()
      modifies src`off, diag
      ensures src.Valid() && src.data == old(src.data)
      ensures |chunk| == if capacity < |old(src.Unread())| then capacity else |old(src.Unread())|
      ensures chunk == old(src.Unread())[..|chunk|] && src.Unread() == old(src.Unread())[|chunk|..]
      ensures err == Some(EOF) <==> old(src.Unread()) == [] && capacity > 0
      ensures diag.text == old(diag.text) + chunk + (if err == Some(EOF) then ResponseClose else "")
    {
      chunk, err := src.Read(capacity);
      if |chunk| > 0 {
        diag.Write(chunk);
      }
      if err == Some(EOF) {
        diag.Write(ResponseClose);
      }
    }
  }

  /**
   * The dump's consumption of a request body read through the copying
   * reader: it reads to EOF, so the buffer receives every unread byte.
   */
  method DumpBody(tee: CopyReader)
    requires tee.Valid()
    modifies tee.src`off, tee.dst`data
    ensures tee.Valid() && tee.src.data == old(tee.src.data)
    ensures tee.src.Unread() == []
    ensures tee.dst.data == old(tee.dst.data) + old(tee.src.Unread())
  {
    var err: Option<ReadError> := None;
    while err == None
      invariant tee.Valid() && tee.src.data == old(tee.src.data)
      invariant tee.dst.data + tee.src.Unread() == old(tee.dst.data) + old(tee.src.Unread())
      invariant err == Some(EOF) ==> tee.src.Unread() == []
      decreases |tee.src.Unread()|, if err == None then 1 else 0
    {
      var chunk;
      chunk, err := tee.Read(DumpChunk);
    }
    assert err.value == EOF;
  }

  /**
   * A caller reading a wrapped response body to the end: it receives the
   * body byte for byte, and the diagnostic stream gets the same bytes and
   * one closing marker.
   */
  method ReadAll(body: EchoReader, capacity: nat) returns (got: seq<byte>)
    requires body.src.Valid() && capacity > 0
    modifies body.src`off, body.diag
    ensures got == old(body.src.Unread())
    ensures body.diag.text == old(body.diag.text) + got + ResponseClose
  {
    got := [];
    var err: Option<ReadError> := None;
    while err == None
      invariant body.src.Valid() && body.src.data == old(body.src.data)
      invariant got + body.src.Unread() == old(body.src.Unread())
      invariant body.diag.text == old(body.diag.text) + got + (if err == Some(EOF) then ResponseClose else "")
      invariant err == Some(EOF) ==> body.src.Unread() == []
      decreases |body.src.Unread()|, if err == None then 1 else 0
    {
      var chunk;
      chunk, err := body.Read(capacity);
      got := got + chunk;
    }
    assert err.value == EOF;
  }

  /** An outgoing request; a nil body is `null`. */
  class Request {
    var body: Buffer?

    constructor (body: Buffer?)
      ensures this.body == body
    {
      this.body := body;
    }
  }

  /** A response body: none, the stream the network delivered, or that stream behind the echoing reader. */
  datatype ResponseBody = NoBody | Network(stream: Buffer) | Echoed(echo: EchoReader)

  class Response {
    var body: ResponseBody

    constructor (body: ResponseBody)
      ensures this.body == body
    {
      this.body := body;
    }
  }

  /**
   * `logTransport.RoundTrip`. The inner transport is `http.DefaultTransport`;
   * `inner` is its answer to the request. The request body, if any, is read
   * by the dump through a copying reader and then replaced by the copy, so
   * the inner transport can read every byte the dump consumed. The inner
   * answer is returned unchanged, a response body now behind an echoing
   * reader; a missing body stays missing.
   */
  method RoundTrip(req: Request, stderr: Stream, inner: Result<Response, Error>) returns (res: Result<Response, Error>)
    requires req.body != null ==> req.body.Valid()
    requires inner.Success? ==> !inner.value.body.Echoed?
    modifies req, req.body, stderr
    modifies if inner.Success? then {inner.value} else {}
    ensures res == inner
    ensures old(req.body) == null ==> req.body == null
    ensures old(req.body) != null ==>
      req.body != null && fresh(req.body) && req.body.Valid() && req.body.Unread() == old(req.body.Unread())
    ensures old(req.body) != null ==> old(req.body).Valid() && old(req.body).Unread() == []
    ensures inner.Success? && old(inner.value.body).NoBody? ==> inner.value.body.NoBody?
    ensures inner.Success? && old(inner.value.body).Network? ==>
      inner.value.body.Echoed? && fresh(inner.value.body.echo) &&
      inner.value.body.echo.src == old(inner.value.body).stream && inner.value.body.echo.diag == stderr
    ensures stderr.text == old(stderr.text) + RequestOpen + RequestClose + ResponseOpen +
      (if inner.Failure? then "ERROR: " + Text(inner.error) + "\n" else "")
  {
    var buf := new Buffer([]);
    stderr.Write(RequestOpen);
    if req.body != null {
      var tee := new CopyReader(req.body, buf);
      DumpBody(tee);
      req.body := buf;
    }
    stderr.Write(RequestClose);

    res := inner;

    stderr.Write(ResponseOpen);
    if res.Failure? {
      stderr.Write("ERROR: " + Text(res.error) + "\n");
    } else {
      var response := res.value;
      var body := response.body;
      response.body := NoBody;
      if body.Network? {
        var echo := new EchoReader(body.stream, stderr);
        response.body := Echoed(echo);
      }
    }
  }
}
