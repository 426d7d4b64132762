/** Classification and normalisation of an extracted payload: `status`, `type`
    and `playerUuid` are written into the dictionary, every other key is kept. */
module Normalize {
  import opened JsonValue

  const PlayingEvents: seq<Json> := [JStr("media.play"), JStr("media.resume")]
  const StoppedEvents: seq<Json> := [JStr("media.pause"), JStr("media.stop")]
  const GrabbedEvents: seq<Json> := [JStr("library.new")]

  /** The events that also copy `Player.uuid` into `playerUuid`. */
  predicate IsPlayback(event: Json) {
    event in PlayingEvents || event in StoppedEvents
  }

  /** What a payload must hold for normalisation not to raise: an `event`, a
      dictionary `Metadata` with a `type`, and for the four playback events a
      dictionary `Player` with a `uuid`. */
  predicate Accepted(data: map<string, Json>) {
    && "event" in data
    && "Metadata" in data && HasField(data["Metadata"], "type")
    && (IsPlayback(data["event"]) ==> "Player" in data && HasField(data["Player"], "uuid"))
  }

  /** Lines 58-83 of the handler, with the dictionary lookups in the order the
      handler makes them (which decides the fault raised) and the written keys
      gathered into one update. */
  function Normalized(data: map<string, Json>): Result<map<string, Json>> {
    var event :- Get(data, "event");
    var metadata :- Get(data, "Metadata");
    var kind :- Subscript(metadata, "type");
    if event in PlayingEvents || event in StoppedEvents then
      var player :- Get(data, "Player");
      var uuid :- Subscript(player, "uuid");
      var status := if event in PlayingEvents then JStr("PLAYING") else JStr("STOPPED");
      Ok(data["status" := status]["type" := kind]["playerUuid" := uuid])
    else
      var status := if event in GrabbedEvents then JStr("NEW") else event;
      Ok(data["status" := status]["type" := kind])
  }

  /** The handler's step-by-step updates of `data`: `status` is first set to
      the raw event and then overwritten for recognised events. */
  method NormalizeInPlace(payload: map<string, Json>) returns (result: Result<map<string, Json>>)
    ensures result == Normalized(payload)
  {
    var data := payload;
    var event :- Get(data, "event");
    data := data["status" := event];
    var metadata :- Get(data, "Metadata");
    var kind :- Subscript(metadata, "type");
    data := data["type" := kind];
    if event in PlayingEvents {
      data := data["status" := JStr("PLAYING")];
      var player :- Get(data, "Player");
      var uuid :- Subscript(player, "uuid");
      data := data["playerUuid" := uuid];
      assert player == payload["Player"];
      assert data == payload["status" := JStr("PLAYING")]["type" := kind]["playerUuid" := uuid];
    } else if event in StoppedEvents {
      data := data["status" := JStr("STOPPED")];
      var player :- Get(data, "Player");
      var uuid :- Subscript(player, "uuid");
      data := data["playerUuid" := uuid];
      assert data == payload["status" := JStr("STOPPED")]["type" := kind]["playerUuid" := uuid];
    } else if event in GrabbedEvents {
      data := data["status" := JStr("NEW")];
      assert data == payload["status" := JStr("NEW")]["type" := kind];
    }
    return Ok(data);
  }

  /** Normalisation raises exactly when a required key is missing or is
      subscripted on something that is not a dictionary. */
  lemma NormalizedOkIff(data: map<string, Json>)
    ensures Normalized(data).Ok? <==> Accepted(data)
  {
  }

  /** A payload without an `event` raises KeyError on `event` before anything
      else is looked up. */
  lemma MissingEventFaults(data: map<string, Json>)
    requires "event" !in data
    ensures Normalized(data) == Err(KeyError("event"))
  {
  }

  /** A missing `Metadata` key, a `Metadata` that is not a dictionary, or one
      without `type`, raises whatever the event is. */
  lemma MissingMetadataTypeFaults(data: map<string, Json>)
    requires "event" in data
    ensures "Metadata" !in data ==> Normalized(data) == Err(KeyError("Metadata"))
    ensures "Metadata" in data && !data["Metadata"].JObj? ==> Normalized(data) == Err(TypeError)
    ensures "Metadata" in data && data["Metadata"].JObj? && "type" !in data["Metadata"].fields ==>
              Normalized(data) == Err(KeyError("type"))
  {
  }

  /** `Player.uuid` is needed by the four playback events and by nothing else. */
  lemma MissingPlayerFaultsOnlyForPlayback(data: map<string, Json>)
    requires "event" in data && "Metadata" in data && HasField(data["Metadata"], "type")
    requires !("Player" in data && HasField(data["Player"], "uuid"))
    ensures Normalized(data).Err? <==> IsPlayback(data["event"])
  {
  }

  /** `media.play` and `media.resume` set `status` to PLAYING and copy
      `Player.uuid` into `playerUuid`. */
  lemma PlayingEventsArePlaying(data: map<string, Json>)
    requires Accepted(data)
    requires data["event"] == JStr("media.play") || data["event"] == JStr("media.resume")
    ensures Normalized(data).Ok?
    ensures Normalized(data).value["status"] == JStr("PLAYING")
    ensures Normalized(data).value["playerUuid"] == data["Player"].fields["uuid"]
  {
  }

  /** `media.pause` and `media.stop` set `status` to STOPPED and copy
      `Player.uuid` into `playerUuid`. */
  lemma StoppedEventsAreStopped(data: map<string, Json>)
    requires Accepted(data)
    requires data["event"] == JStr("media.pause") || data["event"] == JStr("media.stop")
    ensures Normalized(data).Ok?
    ensures Normalized(data).value["status"] == JStr("STOPPED")
    ensures Normalized(data).value["playerUuid"] == data["Player"].fields["uuid"]
  {
  }

  /** `library.new` sets `status` to NEW and leaves `playerUuid` as it was
      (absent unless the payload itself carried one). */
  lemma LibraryNewIsNew(data: map<string, Json>)
    requires Accepted(data)
    requires data["event"] == JStr("library.new")
    ensures Normalized(data).Ok?
    ensures Normalized(data).value["status"] == JStr("NEW")
    ensures "playerUuid" in Normalized(data).value <==> "playerUuid" in data
    ensures "playerUuid" in data ==> Normalized(data).value["playerUuid"] == data["playerUuid"]
  {
  }

  /** Any other event is echoed as `status`, and `playerUuid` is not written. */
  lemma UnrecognisedEventEchoed(data: map<string, Json>)
    requires Accepted(data)
    requires data["event"] !in PlayingEvents + StoppedEvents + GrabbedEvents
    ensures Normalized(data).Ok?
    ensures Normalized(data).value["status"] == data["event"]
    ensures "playerUuid" in Normalized(data).value <==> "playerUuid" in data
    ensures "playerUuid" in data ==> Normalized(data).value["playerUuid"] == data["playerUuid"]
  {
  }

  /** On success `type` is `Metadata.type`, exactly `status`, `type` and (for
      playback) `playerUuid` are added, and every other key keeps its value. */
  lemma NormalizedFrame(data: map<string, Json>)
    requires Normalized(data).Ok?
    ensures Normalized(data).value["type"] == data["Metadata"].fields["type"]
    ensures Normalized(data).value.Keys ==
            data.Keys + {"status", "type"} + (if IsPlayback(data["event"]) then {"playerUuid"} else {})
    ensures forall k :: k in data && k != "status" && k != "type" && k != "playerUuid" ==>
              Normalized(data).value[k] == data[k]
  {
  }

  /** The worked example: a `media.play` of a movie. */
  lemma PlayExample()
    ensures
      var metadata := JObj(map["type" := JStr("movie")]);
      var player := JObj(map["uuid" := JStr("abc-123")]);
      var input := map["event" := JStr("media.play"), "Metadata" := metadata, "Player" := player];
      Normalized(input) == Ok(map["event" := JStr("media.play"), "status" := JStr("PLAYING"),
                                  "type" := JStr("movie"), "playerUuid" := JStr("abc-123"),
                                  "Metadata" := metadata, "Player" := player])
  {
    var metadata := JObj(map["type" := JStr("movie")]);
    var player := JObj(map["uuid" := JStr("abc-123")]);
    var input := map["event" := JStr("media.play"), "Metadata" := metadata, "Player" := player];
    assert JStr("media.play") == PlayingEvents[0];
    var output := input["status" := JStr("PLAYING")]["type" := JStr("movie")]["playerUuid" := JStr("abc-123")];
    assert Normalized(input) == Ok(output);
    var expected := map["event" := JStr("media.play"), "status" := JStr("PLAYING"),
                        "type" := JStr("movie"), "playerUuid" := JStr("abc-123"),
                        "Metadata" := metadata, "Player" := player];
    assert output.Keys == expected.Keys;
    assert output == expected;
  }
}
