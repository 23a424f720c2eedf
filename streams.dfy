/** The request body as a readable stream, `io.ReadAll`, and the part of an
    `http.Request` the hook looks at (hook.go lines 103-116 and 167-173). */
module Streams {
  import opened GoText

  datatype ReadStatus = Ok | Eof | Failed

  /** A body reader: the bytes behind it and the read position.  Reads
      fail once the position reaches `failAt`; a reader that never fails
      has `failAt == |data|` and ends with end-of-file there. */
  class Body {
    var data: seq<byte>
    var pos: nat
    var failAt: nat

    ghost predicate Valid()
      reads this
    {
      pos <= failAt <= |data|
    }

    /** What is still to be read before end-of-file or the failure. */
    ghost function Pending(): seq<byte>
      reads this
      requires Valid()
    {
      data[pos..failAt]
    }

    ghost predicate Healthy()
      reads this
    {
      failAt == |data|
    }

    /** `io.NopCloser(bytes.NewBuffer(b))`: a fresh reader over `b` that is
        positioned at its start and never fails. */
    constructor FromBytes(b: seq<byte>)
      ensures Valid() && Healthy()
      ensures data == b && pos == 0
      ensures Pending() == b
    {
      data := b;
      pos := 0;
      failAt := |b|;
    }

    /** One `Read` into a buffer of `n` bytes. */
    method Read(n: nat) returns (chunk: seq<byte>, status: ReadStatus)
      requires Valid() && 0 < n
      modifies this
      ensures Valid() && data == old(data) && failAt == old(failAt)
      ensures old(pos) < failAt ==>
        status == Ok && old(pos) < pos && chunk == data[old(pos)..pos] &&
        pos == if old(pos) + n <= failAt then old(pos) + n else failAt
      ensures old(pos) == failAt ==>
        chunk == [] && pos == old(pos) && status == (if failAt == |data| then Eof else Failed)
    {
      if pos < failAt {
        var end := if pos + n <= failAt then pos + n else failAt;
        chunk := data[pos..end];
        pos := end;
        status := Ok;
      } else {
        chunk := [];
        status := if failAt == |data| then Eof else Failed;
      }
    }
  }

  /** The buffer size `io.ReadAll` starts with. */
  const ChunkSize: nat := 512

  /** `io.ReadAll`: reads until end-of-file or an error and returns what
      it read; the reader is left drained. */
  method ReadAll(b: Body) returns (bytes: seq<byte>, failed: bool)
    requires b.Valid()
    modifies b
    ensures b.Valid() && b.data == old(b.data) && b.failAt == old(b.failAt)
    ensures bytes == old(b.Pending())
    ensures b.pos == b.failAt && b.Pending() == []
    ensures failed <==> !b.Healthy()
  {
    bytes := [];
    failed := false;
    var done := false;
    while !done
      invariant b.Valid() && b.data == old(b.data) && b.failAt == old(b.failAt)
      invariant old(b.pos) <= b.pos
      invariant bytes == b.data[old(b.pos)..b.pos]
      invariant done ==> b.pos == b.failAt && (failed <==> !b.Healthy())
      decreases b.failAt - b.pos, !done
    {
      var chunk, status := b.Read(ChunkSize);
      bytes := bytes + chunk;
      if status != Ok {
        done := true;
        failed := status == Failed;
      }
    }
  }

  /** The part of an `http.Request` the hook reads: the method (`verb`), URL text, the
      `Content-Type` header value, and the body reader, which may be nil. */
  class Request {
    var verb: seq<byte>
    var url: seq<byte>
    var contentType: seq<byte>
    var body: Body?

    /** `Request.Clone`: a new request with the same metadata.  Like Go's
        `Clone`, it shares the body reader with `r`. */
    constructor Clone(r: Request)
      ensures verb == r.verb && url == r.url
      ensures contentType == r.contentType && body == r.body
    {
      verb := r.verb;
      url := r.url;
      contentType := r.contentType;
      body := r.body;
    }
  }
}
