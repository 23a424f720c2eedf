/** The hook's `Fire` (hook.go lines 90-419): the fail-fast URL check, the
    snapshot of the request payload, and the delivery routine, which here
    returns the document it would post instead of posting it. */
module Discord {
  import opened GoText
  import opened Levels
  import opened Streams
  import opened Fields
  import opened Document

  /** `LoggerHttpRequestPayload`: a live request, or (when `request` is
      nil) the four strings filled in by hand. */
  datatype Payload = Payload(
    request: Request?,
    verb: seq<byte>,
    url: seq<byte>,
    bodyString: seq<byte>,
    headers: seq<byte>)

  /** The dynamic type of a value in the entry's data map, as far as the
      hook tests it. */
  datatype Value =
    | ErrorValue(text: seq<byte>)   // an `error`; `text` is its `Error()`
    | StringValue(s: seq<byte>)
    | PayloadValue(p: Payload)      // a `LoggerHttpRequestPayload` value
    | OtherValue                    // anything else, a pointer to a payload included

  /** The part of a logrus entry the hook reads; `time` is the entry time
      already formatted as RFC 3339 in UTC. */
  datatype Entry = Entry(level: Level, time: seq<byte>, message: seq<byte>, data: map<seq<byte>, Value>)

  datatype FireResult = Err(message: seq<byte>) | Deliver(plan: Plan)

  const RequestFieldKey := Lit("request")
  const ErrorFieldKey := Lit("error")
  const EmptyUrlMessage := Lit("Discord webhook url is empty")

  /** The payload under the "request" key, when it has the payload type. */
  function RequestPayload(data: map<seq<byte>, Value>): Option<Payload>
  {
    if RequestFieldKey in data && data[RequestFieldKey].PayloadValue?
    then Some(data[RequestFieldKey].p) else None
  }

  /** The text of the "error" key: `Error()` of an error, a string as it
      is, and empty for anything else or a missing key. */
  function ErrorMessage(data: map<seq<byte>, Value>): seq<byte>
  {
    if ErrorFieldKey !in data then []
    else match data[ErrorFieldKey]
      case ErrorValue(text) => text
      case StringValue(s) => s
      case _ => []
  }

  /** The caller's live request, or null. */
  function LiveRequest(e: Entry): Request?
  {
    match RequestPayload(e.data)
    case Some(p) => p.request
    case None => null
  }

  /** The request object and its body reader: what a snapshot touches. */
  ghost function RequestFrame(r: Request?): set<object>
    reads r
  {
    if r == null then {} else if r.body == null then {r} else {r, r.body}
  }

  ghost predicate BodyReady(r: Request?)
    reads RequestFrame(r)
  {
    r != null && r.body != null ==> r.body.Valid()
  }

  /** The bytes the hook will capture from a request body: what is left to
      read before end-of-file or the read error. */
  ghost function Captured(r: Request): seq<byte>
    reads RequestFrame(r)
    requires BodyReady(r)
  {
    if r.body == null then [] else r.body.Pending()
  }

  /** A fresh reader positioned at the start of `bytes`. */
  ghost predicate FreshReaderOver(b: Body?, bytes: seq<byte>)
    reads b
  {
    b != null && b.Valid() && b.Healthy() && b.pos == 0 && b.data == bytes
  }

  /** The fields of the "REQUEST PAYLOAD" embed for an entry, in the state
      the request is in when `Fire` is called. */
  ghost function RequestFields(e: Entry, env: Env): seq<Field>
    reads RequestFrame(LiveRequest(e))
    requires BodyReady(LiveRequest(e))
  {
    match RequestPayload(e.data)
    case None => []
    case Some(p) =>
      if p.request == null then ManualFields(p.verb, p.url, p.bodyString, p.headers)
      else LiveFields(p.request.verb, p.request.url, p.request.contentType, Captured(p.request), env)
  }

  /** The snapshot `Fire` takes before it returns.  A live request is
      cloned; its body, if any, is read to the end and both the caller's
      request and the clone get a new reader over the bytes read.  A
      manual payload is copied field by field. */
  method Snapshot(p: Payload) returns (snap: Payload)
    requires BodyReady(p.request)
    modifies RequestFrame(p.request)
    ensures p.request == null ==> snap == Payload(null, p.verb, p.url, p.bodyString, p.headers)
    ensures p.request != null ==>
      && snap.request != null && fresh(snap.request)
      && snap == Payload(snap.request, [], [], [], [])
      && snap.request.verb == p.request.verb == old(p.request.verb)
      && snap.request.url == p.request.url == old(p.request.url)
      && snap.request.contentType == p.request.contentType == old(p.request.contentType)
    ensures p.request != null && old(p.request.body) == null ==>
      p.request.body == null && snap.request.body == null
    ensures p.request != null && old(p.request.body) != null ==>
      && fresh(p.request.body) && fresh(snap.request.body) && p.request.body != snap.request.body
      && FreshReaderOver(p.request.body, old(p.request.body.Pending()))
      && FreshReaderOver(snap.request.body, old(p.request.body.Pending()))
    ensures p.request != null ==>
      BodyReady(p.request) && BodyReady(snap.request) &&
      Captured(p.request) == Captured(snap.request) == old(Captured(p.request))
  {
    if p.request != null {
      var clone := new Request.Clone(p.request);
      if p.request.body != null {
        var bodyBytes, _ := ReadAll(p.request.body);
        p.request.body := new Body.FromBytes(bodyBytes);
        clone.body := new Body.FromBytes(bodyBytes);
      }
      snap := Payload(clone, [], [], [], []);
    } else {
      snap := Payload(null, p.verb, p.url, p.bodyString, p.headers);
    }
  }

  /** The live branch of the delivery routine: reads the snapshot's body,
      gives it back a fresh reader, and builds the fields. */
  method RenderLive(r: Request, env: Env) returns (fields: seq<Field>)
    requires BodyReady(r)
    modifies RequestFrame(r)
    ensures fields == old(LiveFields(r.verb, r.url, r.contentType, Captured(r), env))
    ensures r.verb == old(r.verb) && r.url == old(r.url) && r.contentType == old(r.contentType)
    ensures old(r.body) == null ==> r.body == null
    ensures old(r.body) != null ==> fresh(r.body) && FreshReaderOver(r.body, old(Captured(r)))
  {
    var bodyBytes: seq<byte> := [];
    if r.body != null {
      var failed;
      bodyBytes, failed := ReadAll(r.body);
      r.body := new Body.FromBytes(bodyBytes);
    }
    fields := BuildLiveFields(r.verb, r.url, r.contentType, bodyBytes, env);
  }

  /** `Fire`: fails fast on an empty webhook URL; otherwise snapshots the
      payload and returns the plan of the delivery routine.  The caller's
      live request keeps its metadata and gets a fresh reader over exactly
      the bytes that were left in its body. */
  method Fire(h: Hook, e: Entry, env: Env) returns (r: FireResult)
    requires BodyReady(LiveRequest(e))
    modifies RequestFrame(LiveRequest(e))
    ensures h.hookUrl == [] ==> r == Err(EmptyUrlMessage) && unchanged(old(RequestFrame(LiveRequest(e))))
    ensures h.hookUrl != [] ==>
      r == Deliver(Expected(e.level, ErrorMessage(e.data), e.time, old(RequestFields(e, env)), e.message))
    ensures h.hookUrl != [] && LiveRequest(e) != null ==>
      && LiveRequest(e).verb == old(LiveRequest(e).verb)
      && LiveRequest(e).url == old(LiveRequest(e).url)
      && LiveRequest(e).contentType == old(LiveRequest(e).contentType)
      && (old(LiveRequest(e).body) == null ==> LiveRequest(e).body == null)
      && (old(LiveRequest(e).body) != null ==>
            fresh(LiveRequest(e).body) &&
            FreshReaderOver(LiveRequest(e).body, old(LiveRequest(e).body.Pending())))
    ensures BodyReady(LiveRequest(e)) && RequestFields(e, env) == old(RequestFields(e, env))
  {
    if h.hookUrl == [] {
      return Err(EmptyUrlMessage);
    }
    ghost var expected := RequestFields(e, env);
    var drp: Option<Payload> := None;
    var payload := RequestPayload(e.data);
    if payload.Some? {
      var s := Snapshot(payload.value);
      drp := Some(s);
    }
    assert BodyReady(LiveRequest(e)) && RequestFields(e, env) == expected;

    // The delivery routine, run here to completion instead of in a goroutine.
    var errorMessage := ErrorMessage(e.data);
    var fields: seq<Field> := [];
    if drp.Some? {
      if drp.value.request != null {
        assert LiveFields(drp.value.request.verb, drp.value.request.url, drp.value.request.contentType,
                          Captured(drp.value.request), env) == expected;
        fields := RenderLive(drp.value.request, env);
      } else {
        fields := BuildManualFields(drp.value.verb, drp.value.url, drp.value.bodyString, drp.value.headers);
      }
    }
    assert fields == expected;
    var plan := Compose(e.level, errorMessage, e.time, fields, e.message);
    r := Deliver(plan);
  }

  /** A caller that logs a request and then reads its body reads exactly
      the bytes that were left in it. */
  method CallerReadsBodyAfterFire(h: Hook, e: Entry, env: Env) returns (r: FireResult, bytes: seq<byte>)
    requires h.hookUrl != []
    requires LiveRequest(e) != null && LiveRequest(e).body != null && LiveRequest(e).body.Valid()
    modifies RequestFrame(LiveRequest(e))
    ensures r.Deliver?
    ensures bytes == old(LiveRequest(e).body.Pending())
    ensures old(LiveRequest(e).body.Healthy() && LiveRequest(e).body.pos == 0) ==>
      bytes == old(LiveRequest(e).body.data)
  {
    var req := LiveRequest(e);
    r := Fire(h, e, env);
    var failed;
    bytes, failed := ReadAll(req.body);
  }

  /** Firing twice for the same entry yields the same plan: the first call
      leaves the caller's body as it found it. */
  method FireTwice(h: Hook, e: Entry, env: Env) returns (r1: FireResult, r2: FireResult)
    requires BodyReady(LiveRequest(e))
    modifies RequestFrame(LiveRequest(e))
    ensures r1 == r2
  {
    r1 := Fire(h, e, env);
    r2 := Fire(h, e, env);
  }

  /** The info embed's description is the text of the "error" value:
      `Error()` of an error, the string itself, or empty. */
  lemma InfoDescription(e: Entry, fields: seq<Field>)
    ensures var p := Expected(e.level, ErrorMessage(e.data), e.time, fields, e.message);
      && (ErrorFieldKey !in e.data ==> p.embeds[0].description == Some([]))
      && (ErrorFieldKey in e.data && e.data[ErrorFieldKey].ErrorValue? ==>
            p.embeds[0].description == Some(e.data[ErrorFieldKey].text))
      && (ErrorFieldKey in e.data && e.data[ErrorFieldKey].StringValue? ==>
            p.embeds[0].description == Some(e.data[ErrorFieldKey].s))
      && (ErrorFieldKey in e.data && (e.data[ErrorFieldKey].PayloadValue? || e.data[ErrorFieldKey].OtherValue?) ==>
            p.embeds[0].description == Some([]))
  {
  }
}
