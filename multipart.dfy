/** Payload extraction: the multipart scan for the first `application/json`
    part and the fallback to decoding the whole request body. */
module Multipart {
  import opened JsonValue

  /** What decoding a body as JSON gives: a value, or an exception. */
  datatype Decoded = Decodes(json: Json) | Fails

  /** One part of a multipart body: its headers, indexed by canonical header
      name, and the outcome of `part.json()` on it. */
  datatype Part = Part(headers: map<string, string>, body: Decoded)

  /** What `request.multipart()` and the successive `reader.next()` calls
      produce: either `request.multipart()` raises, or the reader yields
      `parts` in order and then either returns None (`nextRaises` false) or
      raises (`nextRaises` true). */
  datatype Body =
    | NotMultipart
    | Parts(parts: seq<Part>, nextRaises: bool)

  /** A webhook request: its multipart view and the outcome of
      `request.json()` on the whole body. */
  datatype Request = Request(multipart: Body, whole: Decoded)

  /** How the multipart path ends: a JSON part's decoded body, no JSON part
      at all, or an exception that sends the handler to the fallback. */
  datatype ScanOutcome = Found(json: Json) | Exhausted | Raised

  const ContentTypeHeader: string := "Content-Type"
  const JsonContentType: string := "application/json"

  /** The part declares exactly `Content-Type: application/json`. */
  predicate IsJsonPart(p: Part) {
    ContentTypeHeader in p.headers && p.headers[ContentTypeHeader] == JsonContentType
  }

  /** The multipart loop over the parts still to be read. */
  function ScanParts(parts: seq<Part>, nextRaises: bool): ScanOutcome {
    if parts == [] then
      if nextRaises then Raised else Exhausted
    else if ContentTypeHeader !in parts[0].headers then
      ScanParts(parts[1..], nextRaises)
    else if parts[0].headers[ContentTypeHeader] != JsonContentType then
      ScanParts(parts[1..], nextRaises)
    else
      match parts[0].body
      case Decodes(j) => Found(j)
      case Fails => Raised
  }

  /** The whole multipart path, from `request.multipart()` on. */
  function Scan(b: Body): ScanOutcome {
    match b
    case NotMultipart => Raised
    case Parts(parts, nextRaises) => ScanParts(parts, nextRaises)
  }

  /** The value of `data` after the extraction: the first JSON part, None when
      there is none, or the whole-body decode when the multipart path raised;
      a failing whole-body decode escapes the handler. */
  function Extract(req: Request): Result<Json> {
    match Scan(req.multipart)
    case Found(j) => Ok(j)
    case Exhausted => Ok(JNull)
    case Raised =>
      match req.whole
      case Decodes(j) => Ok(j)
      case Fails => Err(BodyDecodeError)
  }

  /** Index `i` is the first part that declares `application/json`. */
  predicate FirstJsonPart(parts: seq<Part>, i: int) {
    0 <= i < |parts| && IsJsonPart(parts[i]) &&
    forall k :: 0 <= k < i ==> !IsJsonPart(parts[k])
  }

  /** The scan is decided by the first JSON part alone: its decoded body is
      the payload, and a failing decode raises. */
  lemma {:induction false} ScanFirstJsonPart(parts: seq<Part>, nextRaises: bool, i: int)
    requires FirstJsonPart(parts, i)
    ensures ScanParts(parts, nextRaises) ==
            match parts[i].body
            case Decodes(j) => Found(j)
            case Fails => Raised
    decreases i
  {
    if i > 0 {
      assert !IsJsonPart(parts[0]);
      assert FirstJsonPart(parts[1..], i - 1) by {
        forall k | 0 <= k < i - 1 ensures !IsJsonPart(parts[1..][k]) {
          assert parts[1..][k] == parts[k + 1];
        }
      }
      ScanFirstJsonPart(parts[1..], nextRaises, i - 1);
    }
  }

  /** Without a JSON part every part is skipped, and the scan ends the way the
      reader does. */
  lemma {:induction false} ScanNoJsonPart(parts: seq<Part>, nextRaises: bool)
    requires forall k :: 0 <= k < |parts| ==> !IsJsonPart(parts[k])
    ensures ScanParts(parts, nextRaises) == if nextRaises then Raised else Exhausted
    decreases |parts|
  {
    if parts != [] {
      assert !IsJsonPart(parts[0]);
      forall k | 0 <= k < |parts| - 1 ensures !IsJsonPart(parts[1..][k]) {
        assert parts[1..][k] == parts[k + 1];
      }
      ScanNoJsonPart(parts[1..], nextRaises);
    }
  }

  /** Parts after the first JSON part, and how the reader would have ended,
      are never examined. */
  lemma ScanIgnoresLaterParts(parts: seq<Part>, i: int, rest: seq<Part>, other: bool, nextRaises: bool)
    requires FirstJsonPart(parts, i)
    ensures ScanParts(parts[..i + 1] + rest, other) == ScanParts(parts, nextRaises)
  {
    var cut := parts[..i + 1] + rest;
    assert FirstJsonPart(cut, i) by {
      assert cut[i] == parts[i];
      forall k | 0 <= k < i ensures !IsJsonPart(cut[k]) {
        assert cut[k] == parts[k];
      }
    }
    ScanFirstJsonPart(cut, other, i);
    ScanFirstJsonPart(parts, nextRaises, i);
  }

  /** A part's payload is only ever taken from the first part that declares
      `application/json`. */
  lemma {:induction false} ScanFoundOnlyFromJsonPart(parts: seq<Part>, nextRaises: bool, j: Json)
    requires ScanParts(parts, nextRaises) == Found(j)
    ensures exists i :: FirstJsonPart(parts, i) && parts[i].body == Decodes(j)
  {
    if forall k :: 0 <= k < |parts| ==> !IsJsonPart(parts[k]) {
      ScanNoJsonPart(parts, nextRaises);
      assert false;
    } else {
      var i := FirstIndex(parts);
      ScanFirstJsonPart(parts, nextRaises, i);
      assert FirstJsonPart(parts, i) && parts[i].body == Decodes(j);
    }
  }

  /** The least index of a JSON part, when there is one. */
  lemma FirstIndex(parts: seq<Part>) returns (i: int)
    requires exists k :: 0 <= k < |parts| && IsJsonPart(parts[k])
    ensures FirstJsonPart(parts, i)
  {
    var k :| 0 <= k < |parts| && IsJsonPart(parts[k]);
    i := 0;
    while !IsJsonPart(parts[i])
      invariant 0 <= i <= k
      invariant forall m :: 0 <= m < i ==> !IsJsonPart(parts[m])
      decreases k - i
    {
      i := i + 1;
    }
  }

  /** The whole-body decode is used exactly when the multipart path raised:
      the request is not multipart, the first JSON part fails to decode, or
      the reader raises before any JSON part. */
  lemma FallbackToWholeBody(req: Request)
    requires
      || req.multipart.NotMultipart?
      || (exists i :: FirstJsonPart(req.multipart.parts, i) && req.multipart.parts[i].body.Fails?)
      || (req.multipart.nextRaises &&
          forall k :: 0 <= k < |req.multipart.parts| ==> !IsJsonPart(req.multipart.parts[k]))
    ensures Extract(req) == match req.whole
                            case Decodes(j) => Ok(j)
                            case Fails => Err(BodyDecodeError)
  {
    if req.multipart.Parts? {
      var parts := req.multipart.parts;
      if i :| FirstJsonPart(parts, i) && parts[i].body.Fails? {
        ScanFirstJsonPart(parts, req.multipart.nextRaises, i);
      } else {
        ScanNoJsonPart(parts, req.multipart.nextRaises);
      }
    }
  }

  /** On a multipart request, the payload is the decoded body of the first
      JSON part, whatever follows it. */
  lemma FirstJsonPartIsPayload(req: Request, i: int, j: Json)
    requires req.multipart.Parts?
    requires FirstJsonPart(req.multipart.parts, i)
    requires req.multipart.parts[i].body == Decodes(j)
    ensures Extract(req) == Ok(j)
  {
    ScanFirstJsonPart(req.multipart.parts, req.multipart.nextRaises, i);
  }

  /** A multipart request whose reader ends cleanly without a JSON part leaves
      `data` at None. */
  lemma NoJsonPartLeavesNone(req: Request)
    requires req.multipart.Parts? && !req.multipart.nextRaises
    requires forall k :: 0 <= k < |req.multipart.parts| ==> !IsJsonPart(req.multipart.parts[k])
    ensures Extract(req) == Ok(JNull)
  {
    ScanNoJsonPart(req.multipart.parts, req.multipart.nextRaises);
  }

  /** Lines 20-51 of the handler: the multipart loop with its early exits, then
      the whole-body fallback. */
  method ReadPayload(req: Request) returns (data: Result<Json>)
    ensures data == Extract(req)
  {
    var payload := JNull;
    var raised := false;
    match req.multipart {
      case NotMultipart =>
        raised := true;
      case Parts(parts, nextRaises) =>
        var i := 0;
        while true
          invariant 0 <= i <= |parts|
          invariant ScanParts(parts[i..], nextRaises) == Scan(req.multipart)
          decreases |parts| - i
        {
          if i == |parts| {
            raised := nextRaises;
            break;
          }
          var part := parts[i];
          assert parts[i..][1..] == parts[i + 1..];
          i := i + 1;
          if ContentTypeHeader !in part.headers {
            continue;
          }
          var contentType := part.headers[ContentTypeHeader];
          if contentType == JsonContentType {
            match part.body {
              case Decodes(j) => payload := j;
              case Fails => raised := true;
            }
            break;
          }
        }
    }
    if raised {
      match req.whole {
        case Decodes(j) => payload := j;
        case Fails => return Err(BodyDecodeError);
      }
    }
    return Ok(payload);
  }
}
