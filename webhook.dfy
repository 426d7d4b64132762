/** The webhook handler end to end: extract the payload, give up silently on
    a falsy one, normalise it and fire it once on the host's event bus. */
module Webhook {
  import opened JsonValue
  import opened Multipart
  import opened Normalize

  /** One event fired on the bus: its event type and its data. */
  datatype BusEvent = BusEvent(eventType: string, data: map<string, Json>)

  /** The host's event bus, seen as the log of the events fired on it. */
  class EventBus {
    var fired: seq<BusEvent>

    constructor ()
      ensures fired == []
    {
      fired := [];
    }

    /** `hass.bus.async_fire(eventType, data)`: appends one event. */
    method AsyncFire(eventType: string, data: map<string, Json>)
      modifies this
      ensures fired == old(fired) + [BusEvent(eventType, data)]
    {
      fired := fired + [BusEvent(eventType, data)];
    }
  }

  /** How one call of the handler ends: it returns None without firing, it
      fires the normalised payload, or an exception escapes it. */
  datatype Outcome =
    | NoData
    | Published(event: map<string, Json>)
    | Unhandled(fault: Fault)

  /** The handler as a function of the request. A truthy payload that is not
      a dictionary raises TypeError at `data['event']`. */
  function Handle(req: Request): Outcome {
    match Extract(req)
    case Err(f) => Unhandled(f)
    case Ok(data) =>
      if !Truthy(data) then NoData
      else
        match data
        case JObj(fields) =>
          (match Normalized(fields)
           case Ok(event) => Published(event)
           case Err(f) => Unhandled(f))
        case _ => Unhandled(TypeError)
  }

  /** `handle_webhook`: fires on `bus` exactly one event, of type `eventType`,
      when the handler publishes, and nothing otherwise. */
  method HandleWebhook(bus: EventBus, eventType: string, req: Request) returns (outcome: Outcome)
    modifies bus
    ensures outcome == Handle(req)
    ensures bus.fired == old(bus.fired) + (if outcome.Published? then [BusEvent(eventType, outcome.event)] else [])
  {
    var extracted := ReadPayload(req);
    if extracted.Err? {
      return Unhandled(extracted.fault);
    }
    var data := extracted.value;
    if !Truthy(data) {
      return NoData;
    }
    if !data.JObj? {
      return Unhandled(TypeError);
    }
    var normalized := NormalizeInPlace(data.fields);
    if normalized.Err? {
      return Unhandled(normalized.fault);
    }
    bus.AsyncFire(eventType, normalized.value);
    return Published(normalized.value);
  }

  /** The handler gives up silently exactly when the extracted payload is
      falsy; a failing whole-body decode is not such a case but escapes. */
  lemma NoDataIffFalsyPayload(req: Request)
    ensures Handle(req) == NoData <==> Extract(req).Ok? && !Truthy(Extract(req).value)
  {
  }

  /** The handler publishes exactly when the payload is a non-empty dictionary
      that normalisation accepts, and then it publishes the normalised
      dictionary. */
  lemma PublishedIff(req: Request)
    ensures Handle(req).Published? <==>
            && Extract(req).Ok? && Extract(req).value.JObj?
            && Extract(req).value.fields != map[]
            && Accepted(Extract(req).value.fields)
    ensures Handle(req).Published? ==>
            Ok(Handle(req).event) == Normalized(Extract(req).value.fields)
  {
  }

  /** A multipart request without any JSON part, whose reader ends cleanly,
      fires nothing. */
  lemma NoJsonPartFiresNothing(req: Request)
    requires req.multipart.Parts? && !req.multipart.nextRaises
    requires forall k :: 0 <= k < |req.multipart.parts| ==> !IsJsonPart(req.multipart.parts[k])
    ensures Handle(req) == NoData
  {
    NoJsonPartLeavesNone(req);
  }

  /** A first JSON part holding an empty object fires nothing, whatever the
      parts after it and the whole body are. */
  lemma EmptyJsonPartFiresNothing(req: Request, i: int)
    requires req.multipart.Parts?
    requires FirstJsonPart(req.multipart.parts, i)
    requires req.multipart.parts[i].body == Decodes(JObj(map[]))
    ensures Handle(req) == NoData
  {
    FirstJsonPartIsPayload(req, i, JObj(map[]));
  }

  /** A playback event in the first JSON part is published as PLAYING or
      STOPPED with the player's uuid. */
  lemma MultipartPlaybackPublished(req: Request, i: int, data: map<string, Json>)
    requires req.multipart.Parts?
    requires FirstJsonPart(req.multipart.parts, i)
    requires req.multipart.parts[i].body == Decodes(JObj(data))
    requires Accepted(data) && IsPlayback(data["event"])
    ensures Handle(req).Published?
    ensures Handle(req).event["status"] ==
            if data["event"] in PlayingEvents then JStr("PLAYING") else JStr("STOPPED")
    ensures "playerUuid" in Handle(req).event
    ensures Handle(req).event["playerUuid"] == data["Player"].fields["uuid"]
  {
    FirstJsonPartIsPayload(req, i, JObj(data));
    NormalizedOkIff(data);
    NormalizedFrame(data);
  }

  /** A request that is not multipart is normalised from its whole body by the
      same rules. */
  lemma PlainJsonBodyNormalized(req: Request, data: map<string, Json>)
    requires req.multipart.NotMultipart?
    requires req.whole == Decodes(JObj(data)) && data != map[]
    ensures Handle(req) == match Normalized(data)
                           case Ok(event) => Published(event)
                           case Err(f) => Unhandled(f)
  {
  }
}
