/** Decoding and encoding of the sync records (Smith.MatrixSdk/ApiTypes/Sync.cs)
    under the serializer settings of Smith.MatrixSdk/MatrixClient.cs:22-29.
    Each record has a fixed table of wire keys, written out per record: the
    lower snake-case form of its attribute names (`NextBatch` is
    `next_batch`), except RoomSummary's three `m.`-prefixed overrides. An
    event record promotes the keys of its table to named slots and keeps
    every other key, verbatim, in its `AdditionalData` catch-all; the other
    records ignore keys outside their table. */
module SyncCodec {
  import opened Wrappers
  import opened Json
  import opened ApiTypes

  // ---------------------------------------------------------------------------
  // The catch-all

  /** The keys an event does not promote, or None when there are none (the
      catch-all then stays null). */
  function CatchAll(obj: Object, named: set<string>): (r: Option<Object>)
    ensures r.None? <==> obj.Keys <= named
    ensures r.Some? ==> r.value.Keys == obj.Keys - named
    ensures r.Some? ==> forall k :: k in r.value ==> r.value[k] == obj[k]
  {
    if obj.Keys <= named then None else Some(obj - named)
  }

  /** The keys a catch-all holds, none when it is null. */
  function ExtraKeys(extra: Option<Object>): set<string> {
    if extra.Some? then extra.value.Keys else {}
  }

  /** Named fields, then the catch-all entries; a named field wins a clash. */
  function WithCatchAll(extra: Option<Object>, named: Object): (r: Object)
    ensures r.Keys == named.Keys + ExtraKeys(extra)
    ensures forall k :: k in named ==> r[k] == named[k]
    ensures extra.Some? ==> forall k :: k in extra.value && k !in named ==> r[k] == extra.value[k]
  {
    match extra
    case None => named
    case Some(x) => x + named
  }

  /** A catch-all that decoding can produce: non-empty, and free of the keys
      the record promotes. */
  predicate WfCatchAll(extra: Option<Object>, named: set<string>) {
    extra.Some? ==> extra.value.Keys != {} && extra.value.Keys !! named
  }

  // ---------------------------------------------------------------------------
  // Scalars

  function EncodeString(s: string): (r: Json) ensures DecodeString(r) == Success(s) { JString(s) }
  function EncodeBool(b: bool): (r: Json) ensures DecodeBool(r) == Success(b) { JBool(b) }
  function EncodeInt32(i: Int32): (r: Json) ensures DecodeInt32(r) == Success(i) { JInt(i) }
  function EncodeInt64(i: Int64): (r: Json) ensures DecodeInt64(r) == Success(i) { JInt(i) }
  function EncodeObject(o: Object): (r: Json) ensures DecodeObject(r) == Success(o) { JObject(o) }

  // ---------------------------------------------------------------------------
  // Event (Sync.cs:136-140)

  const EventKeys: set<string> := {"content", "type"}

  predicate WfEvent(e: Event) { WfCatchAll(e.additionalData, EventKeys) }

  function DecodeEvent(j: Json): (r: Result<Event, DecodeError>)
    ensures r.Success? ==> WfEvent(r.value)
  {
    var obj :- DecodeObject(j);
    var content :- Required(obj, "content", DecodeObject);
    var eventType :- Required(obj, "type", DecodeString);
    Success(Event(content, eventType, CatchAll(obj, EventKeys)))
  }

  /** Every promoted key is written, then the catch-all's keys. */
  function EncodeEvent(e: Event): (r: Json)
    ensures r.JObject? && r.fields.Keys == EventKeys + ExtraKeys(e.additionalData)
  {
    JObject(WithCatchAll(e.additionalData, map["content" := JObject(e.content), "type" := JString(e.eventType)]))
  }

  lemma EventRoundTrip(e: Event)
    requires WfEvent(e)
    ensures DecodeEvent(EncodeEvent(e)) == Success(e)
  {
    var obj := EncodeEvent(e).fields;
    assert obj["content"] == JObject(e.content);
    assert obj["type"] == JString(e.eventType);
    if e.additionalData.Some? {
      assert obj - EventKeys == e.additionalData.value;
    }
  }

  /** Decoding an event and encoding it again gives back the same object:
      the catch-all keeps every key the event does not promote. */
  lemma EventDecodeEncode(j: Json)
    requires DecodeEvent(j).Success?
    ensures EncodeEvent(DecodeEvent(j).value) == j
  {
    var obj := j.fields;
    var e := DecodeEvent(j).value;
    assert WithCatchAll(e.additionalData, map["content" := JObject(e.content), "type" := JString(e.eventType)]) == obj;
  }

  // ---------------------------------------------------------------------------
  // UnsignedData (Sync.cs:279-284)

  predicate WfUnsigned(u: UnsignedData) {
    u.redactedBecause.Some? ==> WfEvent(u.redactedBecause.value)
  }

  function DecodeUnsignedData(j: Json): (r: Result<UnsignedData, DecodeError>)
    ensures r.Success? ==> WfUnsigned(r.value)
  {
    var obj :- DecodeObject(j);
    var age :- Optional(obj, "age", DecodeInt64);
    var redactedBecause :- Optional(obj, "redacted_because", DecodeEvent);
    var transactionId :- Optional(obj, "transaction_id", DecodeString);
    Success(UnsignedData(age, redactedBecause, transactionId))
  }

  const UnsignedKeys: set<string> := {"age", "redacted_because", "transaction_id"}

  /** Every member is written, a null one as `null`. */
  function EncodeUnsignedData(u: UnsignedData): (r: Json)
    ensures r.JObject? && r.fields.Keys == UnsignedKeys
    ensures u.age.None? <==> r.fields["age"] == JNull
    ensures u.redactedBecause.None? <==> r.fields["redacted_because"] == JNull
    ensures u.transactionId.None? <==> r.fields["transaction_id"] == JNull
  {
    JObject(map[
      "age" := EncodeOption(u.age, EncodeInt64),
      "redacted_because" := EncodeOption(u.redactedBecause, EncodeEvent),
      "transaction_id" := EncodeOption(u.transactionId, EncodeString)])
  }

  lemma UnsignedRoundTrip(u: UnsignedData)
    requires WfUnsigned(u)
    ensures DecodeUnsignedData(EncodeUnsignedData(u)) == Success(u)
  {
    var obj := EncodeUnsignedData(u).fields;
    OptionRoundTrip(obj, "age", u.age, EncodeInt64, DecodeInt64);
    if u.redactedBecause.Some? {
      EventRoundTrip(u.redactedBecause.value);
    }
    OptionRoundTrip(obj, "redacted_because", u.redactedBecause, EncodeEvent, DecodeEvent);
    OptionRoundTrip(obj, "transaction_id", u.transactionId, EncodeString, DecodeString);
  }

  // ---------------------------------------------------------------------------
  // RoomEvent (Sync.cs:247-256)

  const RoomEventKeys: set<string> := {"content", "type", "event_id", "sender", "origin_server_ts", "unsigned"}

  predicate WfRoomEvent(e: RoomEvent) {
    && WfCatchAll(e.additionalData, RoomEventKeys)
    && (e.unsigned.Some? ==> WfUnsigned(e.unsigned.value))
  }

  function DecodeRoomEvent(j: Json): (r: Result<RoomEvent, DecodeError>)
    ensures r.Success? ==> WfRoomEvent(r.value)
  {
    var obj :- DecodeObject(j);
    var content :- Required(obj, "content", DecodeObject);
    var eventType :- Required(obj, "type", DecodeString);
    var eventId :- Required(obj, "event_id", DecodeString);
    var sender :- Required(obj, "sender", DecodeString);
    var originServerTs :- Required(obj, "origin_server_ts", DecodeInt64);
    var unsigned :- Optional(obj, "unsigned", DecodeUnsignedData);
    Success(RoomEvent(content, eventType, eventId, sender, originServerTs, unsigned, CatchAll(obj, RoomEventKeys)))
  }

  function RoomEventFields(e: RoomEvent): Object {
    map[
      "content" := JObject(e.content),
      "type" := JString(e.eventType),
      "event_id" := JString(e.eventId),
      "sender" := JString(e.sender),
      "origin_server_ts" := JInt(e.originServerTs),
      "unsigned" := EncodeOption(e.unsigned, EncodeUnsignedData)]
  }

  function EncodeRoomEvent(e: RoomEvent): (r: Json)
    ensures r.JObject? && r.fields.Keys == RoomEventKeys + ExtraKeys(e.additionalData)
    ensures e.unsigned.None? <==> r.fields["unsigned"] == JNull
  {
    JObject(WithCatchAll(e.additionalData, RoomEventFields(e)))
  }

  /** A room event is decoded from any object whose fields decode to its
      parts and whose unpromoted keys are its catch-all. */
  lemma DecodeRoomEventFrom(obj: Object, e: RoomEvent)
    requires Required(obj, "content", DecodeObject) == Success(e.content)
    requires Required(obj, "type", DecodeString) == Success(e.eventType)
    requires Required(obj, "event_id", DecodeString) == Success(e.eventId)
    requires Required(obj, "sender", DecodeString) == Success(e.sender)
    requires Required(obj, "origin_server_ts", DecodeInt64) == Success(e.originServerTs)
    requires Optional(obj, "unsigned", DecodeUnsignedData) == Success(e.unsigned)
    requires CatchAll(obj, RoomEventKeys) == e.additionalData
    ensures DecodeRoomEvent(JObject(obj)) == Success(e)
  {
  }

  /** The catch-all of an encoded record is the catch-all it was encoded with. */
  lemma CatchAllOfEncoded(extra: Option<Object>, named: Object, keys: set<string>)
    requires named.Keys == keys && WfCatchAll(extra, keys)
    ensures CatchAll(WithCatchAll(extra, named), keys) == extra
    ensures forall k :: k in keys ==> k in WithCatchAll(extra, named) && WithCatchAll(extra, named)[k] == named[k]
  {
    if extra.Some? {
      assert WithCatchAll(extra, named) - keys == extra.value;
    }
  }

  /** Encoding a decoded catch-all next to the named fields gives every key
      of the input back: unpromoted keys with their input values, promoted
      keys with the named fields' values. */
  lemma EncodedCatchAll(obj: Object, named: Object, keys: set<string>)
    requires named.Keys == keys
    ensures var out := WithCatchAll(CatchAll(obj, keys), named);
      && out.Keys == obj.Keys + keys
      && (forall k :: k in obj && k !in keys ==> out[k] == obj[k])
      && (forall k :: k in keys ==> out[k] == named[k])
  {
  }

  lemma RoomEventRoundTrip(e: RoomEvent)
    requires WfRoomEvent(e)
    ensures DecodeRoomEvent(EncodeRoomEvent(e)) == Success(e)
  {
    EncodedRoomEventRequired(e);
    EncodedRoomEventUnsigned(e);
    DecodeRoomEventFrom(EncodeRoomEvent(e).fields, e);
  }

  /** The required fields and the catch-all of an encoded room event read
      back as they were. */
  lemma EncodedRoomEventRequired(e: RoomEvent)
    requires WfCatchAll(e.additionalData, RoomEventKeys)
    ensures var obj := EncodeRoomEvent(e).fields;
      && Required(obj, "content", DecodeObject) == Success(e.content)
      && Required(obj, "type", DecodeString) == Success(e.eventType)
      && Required(obj, "event_id", DecodeString) == Success(e.eventId)
      && Required(obj, "sender", DecodeString) == Success(e.sender)
      && Required(obj, "origin_server_ts", DecodeInt64) == Success(e.originServerTs)
      && CatchAll(obj, RoomEventKeys) == e.additionalData
  {
    var named := RoomEventFields(e);
    assert named.Keys == RoomEventKeys;
    CatchAllOfEncoded(e.additionalData, named, RoomEventKeys);
  }

  /** The `unsigned` member of an encoded room event reads back as the same
      option. */
  lemma EncodedRoomEventUnsigned(e: RoomEvent)
    requires WfRoomEvent(e)
    ensures Optional(EncodeRoomEvent(e).fields, "unsigned", DecodeUnsignedData) == Success(e.unsigned)
  {
    var named := RoomEventFields(e);
    var obj := EncodeRoomEvent(e).fields;
    assert named.Keys == RoomEventKeys;
    CatchAllOfEncoded(e.additionalData, named, RoomEventKeys);
    if e.unsigned.Some? {
      UnsignedRoundTrip(e.unsigned.value);
    }
    OptionRoundTrip(obj, "unsigned", e.unsigned, EncodeUnsignedData, DecodeUnsignedData);
  }

  /** Decoding a room event and encoding it again keeps every key the event
      does not promote, with its value, and every required field as it was. */
  lemma RoomEventDecodeKeepsExtras(j: Json)
    requires DecodeRoomEvent(j).Success?
    ensures var out := EncodeRoomEvent(DecodeRoomEvent(j).value);
      && out.JObject?
      && out.fields.Keys == j.fields.Keys + RoomEventKeys
      && (forall k :: k in j.fields && k !in RoomEventKeys ==> out.fields[k] == j.fields[k])
      && RoomEventKeys - {"unsigned"} <= j.fields.Keys
      && (forall k :: k in RoomEventKeys - {"unsigned"} ==> out.fields[k] == j.fields[k])
  {
    RoomEventDecodedFields(j);
    RoomEventFieldsKept(j.fields, DecodeRoomEvent(j).value);
  }

  /** What a decoded room event says about its input: each required field is
      the input's value, and the catch-all is the input's unpromoted keys. */
  lemma RoomEventDecodedFields(j: Json)
    requires DecodeRoomEvent(j).Success?
    ensures var e := DecodeRoomEvent(j).value;
      && j.JObject?
      && e.additionalData == CatchAll(j.fields, RoomEventKeys)
      && "content" in j.fields && j.fields["content"] == JObject(e.content)
      && "type" in j.fields && j.fields["type"] == JString(e.eventType)
      && "event_id" in j.fields && j.fields["event_id"] == JString(e.eventId)
      && "sender" in j.fields && j.fields["sender"] == JString(e.sender)
      && "origin_server_ts" in j.fields && j.fields["origin_server_ts"] == JInt(e.originServerTs)
  {
  }

  /** Encoding a room event next to the object it was decoded from: the
      unpromoted keys keep their input values and the required fields are
      written back as they were read. */
  lemma RoomEventFieldsKept(obj: Object, e: RoomEvent)
    requires e.additionalData == CatchAll(obj, RoomEventKeys)
    requires "content" in obj && obj["content"] == JObject(e.content)
    requires "type" in obj && obj["type"] == JString(e.eventType)
    requires "event_id" in obj && obj["event_id"] == JString(e.eventId)
    requires "sender" in obj && obj["sender"] == JString(e.sender)
    requires "origin_server_ts" in obj && obj["origin_server_ts"] == JInt(e.originServerTs)
    ensures var out := EncodeRoomEvent(e);
      && out.JObject?
      && out.fields.Keys == obj.Keys + RoomEventKeys
      && (forall k :: k in obj && k !in RoomEventKeys ==> out.fields[k] == obj[k])
      && (forall k :: k in RoomEventKeys - {"unsigned"} ==> out.fields[k] == obj[k])
  {
    var named := RoomEventFields(e);
    assert named.Keys == RoomEventKeys;
    EncodedCatchAll(obj, named, RoomEventKeys);
    forall k | k in RoomEventKeys - {"unsigned"}
      ensures named[k] == obj[k]
    {
      assert k in {"content", "type", "event_id", "sender", "origin_server_ts"};
    }
  }

  // ---------------------------------------------------------------------------
  // StateEvent (Sync.cs:219-230)

  const StateEventKeys: set<string> := RoomEventKeys + {"prev_content", "state_key"}

  predicate WfStateEvent(e: StateEvent) {
    && WfCatchAll(e.additionalData, StateEventKeys)
    && (e.unsigned.Some? ==> WfUnsigned(e.unsigned.value))
  }

  function DecodeStateEvent(j: Json): (r: Result<StateEvent, DecodeError>)
    ensures r.Success? ==> WfStateEvent(r.value)
  {
    var obj :- DecodeObject(j);
    var content :- Required(obj, "content", DecodeObject);
    var eventType :- Required(obj, "type", DecodeString);
    var eventId :- Required(obj, "event_id", DecodeString);
    var sender :- Required(obj, "sender", DecodeString);
    var originServerTs :- Required(obj, "origin_server_ts", DecodeInt64);
    var unsigned :- Optional(obj, "unsigned", DecodeUnsignedData);
    var prevContent :- Optional(obj, "prev_content", DecodeObject);
    var stateKey :- Required(obj, "state_key", DecodeString);
    Success(StateEvent(content, eventType, eventId, sender, originServerTs, unsigned, prevContent, stateKey,
                       CatchAll(obj, StateEventKeys)))
  }

  function StateEventFields(e: StateEvent): Object {
    map[
      "content" := JObject(e.content),
      "type" := JString(e.eventType),
      "event_id" := JString(e.eventId),
      "sender" := JString(e.sender),
      "origin_server_ts" := JInt(e.originServerTs),
      "unsigned" := EncodeOption(e.unsigned, EncodeUnsignedData),
      "prev_content" := EncodeOption(e.prevContent, EncodeObject),
      "state_key" := JString(e.stateKey)]
  }

  function EncodeStateEvent(e: StateEvent): (r: Json)
    ensures r.JObject? && r.fields.Keys == StateEventKeys + ExtraKeys(e.additionalData)
    ensures e.unsigned.None? <==> r.fields["unsigned"] == JNull
    ensures e.prevContent.None? <==> r.fields["prev_content"] == JNull
  {
    JObject(WithCatchAll(e.additionalData, StateEventFields(e)))
  }

  /** A state event is decoded from any object whose fields decode to its
      parts and whose unpromoted keys are its catch-all. */
  lemma DecodeStateEventFrom(obj: Object, e: StateEvent)
    requires Required(obj, "content", DecodeObject) == Success(e.content)
    requires Required(obj, "type", DecodeString) == Success(e.eventType)
    requires Required(obj, "event_id", DecodeString) == Success(e.eventId)
    requires Required(obj, "sender", DecodeString) == Success(e.sender)
    requires Required(obj, "origin_server_ts", DecodeInt64) == Success(e.originServerTs)
    requires Optional(obj, "unsigned", DecodeUnsignedData) == Success(e.unsigned)
    requires Optional(obj, "prev_content", DecodeObject) == Success(e.prevContent)
    requires Required(obj, "state_key", DecodeString) == Success(e.stateKey)
    requires CatchAll(obj, StateEventKeys) == e.additionalData
    ensures DecodeStateEvent(JObject(obj)) == Success(e)
  {
  }

  lemma StateEventRoundTrip(e: StateEvent)
    requires WfStateEvent(e)
    ensures DecodeStateEvent(EncodeStateEvent(e)) == Success(e)
  {
    EncodedStateEventRequired(e);
    EncodedStateEventOptional(e);
    DecodeStateEventFrom(EncodeStateEvent(e).fields, e);
  }

  /** The required fields and the catch-all of an encoded state event read
      back as they were. */
  lemma EncodedStateEventRequired(e: StateEvent)
    requires WfCatchAll(e.additionalData, StateEventKeys)
    ensures var obj := EncodeStateEvent(e).fields;
      && Required(obj, "content", DecodeObject) == Success(e.content)
      && Required(obj, "type", DecodeString) == Success(e.eventType)
      && Required(obj, "event_id", DecodeString) == Success(e.eventId)
      && Required(obj, "sender", DecodeString) == Success(e.sender)
      && Required(obj, "origin_server_ts", DecodeInt64) == Success(e.originServerTs)
      && Required(obj, "state_key", DecodeString) == Success(e.stateKey)
      && CatchAll(obj, StateEventKeys) == e.additionalData
  {
    var named := StateEventFields(e);
    assert named.Keys == StateEventKeys;
    CatchAllOfEncoded(e.additionalData, named, StateEventKeys);
  }

  /** The optional fields of an encoded state event read back as they were. */
  lemma EncodedStateEventOptional(e: StateEvent)
    requires WfStateEvent(e)
    ensures var obj := EncodeStateEvent(e).fields;
      && Optional(obj, "unsigned", DecodeUnsignedData) == Success(e.unsigned)
      && Optional(obj, "prev_content", DecodeObject) == Success(e.prevContent)
  {
    var named := StateEventFields(e);
    var obj := EncodeStateEvent(e).fields;
    assert named.Keys == StateEventKeys;
    CatchAllOfEncoded(e.additionalData, named, StateEventKeys);
    if e.unsigned.Some? {
      UnsignedRoundTrip(e.unsigned.value);
    }
    OptionRoundTrip(obj, "unsigned", e.unsigned, EncodeUnsignedData, DecodeUnsignedData);
    OptionRoundTrip(obj, "prev_content", e.prevContent, EncodeObject, DecodeObject);
  }

  /** Decoding a state event and encoding it again keeps every key the event
      does not promote, with its value, and every required field as it was. */
  lemma StateEventDecodeKeepsExtras(j: Json)
    requires DecodeStateEvent(j).Success?
    ensures var out := EncodeStateEvent(DecodeStateEvent(j).value);
      && out.JObject?
      && out.fields.Keys == j.fields.Keys + StateEventKeys
      && (forall k :: k in j.fields && k !in StateEventKeys ==> out.fields[k] == j.fields[k])
      && StateEventKeys - {"unsigned", "prev_content"} <= j.fields.Keys
      && (forall k :: k in StateEventKeys - {"unsigned", "prev_content"} ==> out.fields[k] == j.fields[k])
  {
    StateEventDecodedFields(j);
    StateEventFieldsKept(j.fields, DecodeStateEvent(j).value);
  }

  /** Encoding a state event next to the object it was decoded from: the
      unpromoted keys keep their input values and the required fields are
      written back as they were read. */
  lemma StateEventFieldsKept(obj: Object, e: StateEvent)
    requires e.additionalData == CatchAll(obj, StateEventKeys)
    requires "content" in obj && obj["content"] == JObject(e.content)
    requires "type" in obj && obj["type"] == JString(e.eventType)
    requires "event_id" in obj && obj["event_id"] == JString(e.eventId)
    requires "sender" in obj && obj["sender"] == JString(e.sender)
    requires "origin_server_ts" in obj && obj["origin_server_ts"] == JInt(e.originServerTs)
    requires "state_key" in obj && obj["state_key"] == JString(e.stateKey)
    ensures var out := EncodeStateEvent(e);
      && out.JObject?
      && out.fields.Keys == obj.Keys + StateEventKeys
      && (forall k :: k in obj && k !in StateEventKeys ==> out.fields[k] == obj[k])
      && (forall k :: k in StateEventKeys - {"unsigned", "prev_content"} ==> out.fields[k] == obj[k])
  {
    var named := StateEventFields(e);
    assert named.Keys == StateEventKeys;
    EncodedCatchAll(obj, named, StateEventKeys);
    forall k | k in StateEventKeys - {"unsigned", "prev_content"}
      ensures named[k] == obj[k]
    {
      assert k in {"content", "type", "event_id", "sender", "origin_server_ts", "state_key"};
    }
  }

  /** What a decoded state event says about its input: each required field is
      the input's value, and the catch-all is the input's unpromoted keys. */
  lemma StateEventDecodedFields(j: Json)
    requires DecodeStateEvent(j).Success?
    ensures var e := DecodeStateEvent(j).value;
      && j.JObject?
      && e.additionalData == CatchAll(j.fields, StateEventKeys)
      && "content" in j.fields && j.fields["content"] == JObject(e.content)
      && "type" in j.fields && j.fields["type"] == JString(e.eventType)
      && "event_id" in j.fields && j.fields["event_id"] == JString(e.eventId)
      && "sender" in j.fields && j.fields["sender"] == JString(e.sender)
      && "origin_server_ts" in j.fields && j.fields["origin_server_ts"] == JInt(e.originServerTs)
      && "state_key" in j.fields && j.fields["state_key"] == JString(e.stateKey)
  {
  }

  /** `prev_content` is optional: a state event without the key decodes, with
      no previous content, and a present `prev_content` is kept as it is. */
  lemma StateEventPrevContent(j: Json)
    requires j.JObject? && DecodeStateEvent(j).Success?
    ensures !Present(j.fields, "prev_content") ==> DecodeStateEvent(j).value.prevContent == None
    ensures Present(j.fields, "prev_content") ==> JObject(DecodeStateEvent(j).value.prevContent.value) == j.fields["prev_content"]
  {
  }

  // ---------------------------------------------------------------------------
  // StrippedState (Sync.cs:262-268)

  const StrippedStateKeys: set<string> := {"content", "state_key", "type", "sender"}

  /** All four members are required; each is the input's value. */
  function DecodeStrippedState(j: Json): (r: Result<StrippedState, DecodeError>)
    ensures r.Success? ==> j.JObject? && StrippedStateKeys <= j.fields.Keys
    ensures r.Success? ==> j.fields["content"] == JObject(r.value.content) && j.fields["state_key"] == JString(r.value.stateKey)
    ensures r.Success? ==> j.fields["type"] == JString(r.value.eventType) && j.fields["sender"] == JString(r.value.sender)
  {
    var obj :- DecodeObject(j);
    var content :- Required(obj, "content", DecodeObject);
    var stateKey :- Required(obj, "state_key", DecodeString);
    var eventType :- Required(obj, "type", DecodeString);
    var sender :- Required(obj, "sender", DecodeString);
    Success(StrippedState(content, stateKey, eventType, sender))
  }

  function EncodeStrippedState(e: StrippedState): (r: Json)
    ensures r.JObject? && r.fields.Keys == StrippedStateKeys
  {
    JObject(map[
      "content" := JObject(e.content),
      "state_key" := JString(e.stateKey),
      "type" := JString(e.eventType),
      "sender" := JString(e.sender)])
  }

  lemma StrippedStateRoundTrip(e: StrippedState)
    ensures DecodeStrippedState(EncodeStrippedState(e)) == Success(e)
  {
  }

  /** A stripped state event has no catch-all: keys outside its four are
      ignored, whatever they hold. */
  lemma StrippedStateIgnoresUnknownKeys(obj: Object, unknown: Object)
    requires unknown.Keys !! StrippedStateKeys
    ensures DecodeStrippedState(JObject(obj + unknown)) == DecodeStrippedState(JObject(obj))
  {
    var both := obj + unknown;
    forall k | k in StrippedStateKeys ensures (k in both <==> k in obj) && (k in obj ==> both[k] == obj[k]) { }
  }

  // ---------------------------------------------------------------------------
  // Collections of events

  predicate WfEvents(xs: seq<Event>) { forall i :: 0 <= i < |xs| ==> WfEvent(xs[i]) }
  predicate WfRoomEvents(xs: seq<RoomEvent>) { forall i :: 0 <= i < |xs| ==> WfRoomEvent(xs[i]) }
  predicate WfStateEvents(xs: seq<StateEvent>) { forall i :: 0 <= i < |xs| ==> WfStateEvent(xs[i]) }

  function DecodeEvents(j: Json): (r: Result<seq<Event>, DecodeError>)
    ensures r.Success? ==> WfEvents(r.value)
  {
    DecodeArray(j, DecodeEvent)
  }

  function EncodeEvents(xs: seq<Event>): (r: Json)
    ensures r.JArray? && |r.items| == |xs|
  {
    JArray(EncodeItems(xs, EncodeEvent))
  }

  lemma EventsRoundTrip(xs: seq<Event>)
    requires WfEvents(xs)
    ensures DecodeEvents(EncodeEvents(xs)) == Success(xs)
  {
    forall i | 0 <= i < |xs| ensures DecodeEvent(EncodeEvent(xs[i])) == Success(xs[i]) {
      EventRoundTrip(xs[i]);
    }
    ItemsRoundTrip(xs, EncodeEvent, DecodeEvent);
  }

  function DecodeRoomEvents(j: Json): (r: Result<seq<RoomEvent>, DecodeError>)
    ensures r.Success? ==> WfRoomEvents(r.value)
  {
    DecodeArray(j, DecodeRoomEvent)
  }

  function EncodeRoomEvents(xs: seq<RoomEvent>): (r: Json)
    ensures r.JArray? && |r.items| == |xs|
  {
    JArray(EncodeItems(xs, EncodeRoomEvent))
  }

  lemma RoomEventsRoundTrip(xs: seq<RoomEvent>)
    requires WfRoomEvents(xs)
    ensures DecodeRoomEvents(EncodeRoomEvents(xs)) == Success(xs)
  {
    forall i | 0 <= i < |xs| ensures DecodeRoomEvent(EncodeRoomEvent(xs[i])) == Success(xs[i]) {
      RoomEventRoundTrip(xs[i]);
    }
    ItemsRoundTrip(xs, EncodeRoomEvent, DecodeRoomEvent);
  }

  function DecodeStateEvents(j: Json): (r: Result<seq<StateEvent>, DecodeError>)
    ensures r.Success? ==> WfStateEvents(r.value)
  {
    DecodeArray(j, DecodeStateEvent)
  }

  function EncodeStateEvents(xs: seq<StateEvent>): (r: Json)
    ensures r.JArray? && |r.items| == |xs|
  {
    JArray(EncodeItems(xs, EncodeStateEvent))
  }

  lemma StateEventsRoundTrip(xs: seq<StateEvent>)
    requires WfStateEvents(xs)
    ensures DecodeStateEvents(EncodeStateEvents(xs)) == Success(xs)
  {
    forall i | 0 <= i < |xs| ensures DecodeStateEvent(EncodeStateEvent(xs[i])) == Success(xs[i]) {
      StateEventRoundTrip(xs[i]);
    }
    ItemsRoundTrip(xs, EncodeStateEvent, DecodeStateEvent);
  }

  function DecodeStrippedStates(j: Json): (r: Result<seq<StrippedState>, DecodeError>)
    ensures r.Success? ==> j.JArray? && |r.value| == |j.items|
  {
    DecodeArray(j, DecodeStrippedState)
  }

  function EncodeStrippedStates(xs: seq<StrippedState>): (r: Json)
    ensures r.JArray? && |r.items| == |xs|
  {
    JArray(EncodeItems(xs, EncodeStrippedState))
  }

  lemma StrippedStatesRoundTrip(xs: seq<StrippedState>)
    ensures DecodeStrippedStates(EncodeStrippedStates(xs)) == Success(xs)
  {
    forall i | 0 <= i < |xs| ensures DecodeStrippedState(EncodeStrippedState(xs[i])) == Success(xs[i]) {
      StrippedStateRoundTrip(xs[i]);
    }
    ItemsRoundTrip(xs, EncodeStrippedState, DecodeStrippedState);
  }

  function DecodeStrings(j: Json): (r: Result<seq<string>, DecodeError>)
    ensures r.Success? <==> j.JArray? && forall i :: 0 <= i < |j.items| ==> j.items[i].JString?
    ensures r.Success? ==> |r.value| == |j.items| && forall i :: 0 <= i < |j.items| ==> JString(r.value[i]) == j.items[i]
  {
    DecodeArray(j, DecodeString)
  }

  function EncodeStrings(xs: seq<string>): (r: Json)
    ensures r.JArray? && |r.items| == |xs|
  {
    JArray(EncodeItems(xs, EncodeString))
  }

  lemma StringsRoundTrip(xs: seq<string>)
    ensures DecodeStrings(EncodeStrings(xs)) == Success(xs)
  {
    ItemsRoundTrip(xs, EncodeString, DecodeString);
  }

  // ---------------------------------------------------------------------------
  // Presence, AccountData, Ephemeral (Sync.cs:84, 87, 187): a list of events

  const EventListKeys: set<string> := {"events"}

  predicate WfPresence(p: Presence) { p.events.Some? ==> WfEvents(p.events.value) }

  function DecodePresence(j: Json): (r: Result<Presence, DecodeError>)
    ensures r.Success? ==> WfPresence(r.value)
  {
    var obj :- DecodeObject(j);
    var events :- Optional(obj, "events", DecodeEvents);
    Success(Presence(events))
  }

  function EncodePresence(p: Presence): (r: Json)
    ensures r.JObject? && r.fields.Keys == EventListKeys
    ensures p.events.None? <==> r.fields["events"] == JNull
  {
    JObject(map["events" := EncodeOption(p.events, EncodeEvents)])
  }

  lemma PresenceRoundTrip(p: Presence)
    requires WfPresence(p)
    ensures DecodePresence(EncodePresence(p)) == Success(p)
  {
    if p.events.Some? { EventsRoundTrip(p.events.value); }
    OptionRoundTrip(EncodePresence(p).fields, "events", p.events, EncodeEvents, DecodeEvents);
  }

  predicate WfAccountData(a: AccountData) { a.events.Some? ==> WfEvents(a.events.value) }

  function DecodeAccountData(j: Json): (r: Result<AccountData, DecodeError>)
    ensures r.Success? ==> WfAccountData(r.value)
  {
    var obj :- DecodeObject(j);
    var events :- Optional(obj, "events", DecodeEvents);
    Success(AccountData(events))
  }

  function EncodeAccountData(a: AccountData): (r: Json)
    ensures r.JObject? && r.fields.Keys == EventListKeys
    ensures a.events.None? <==> r.fields["events"] == JNull
  {
    JObject(map["events" := EncodeOption(a.events, EncodeEvents)])
  }

  lemma AccountDataRoundTrip(a: AccountData)
    requires WfAccountData(a)
    ensures DecodeAccountData(EncodeAccountData(a)) == Success(a)
  {
    if a.events.Some? { EventsRoundTrip(a.events.value); }
    OptionRoundTrip(EncodeAccountData(a).fields, "events", a.events, EncodeEvents, DecodeEvents);
  }

  predicate WfEphemeral(e: Ephemeral) { e.events.Some? ==> WfEvents(e.events.value) }

  function DecodeEphemeral(j: Json): (r: Result<Ephemeral, DecodeError>)
    ensures r.Success? ==> WfEphemeral(r.value)
  {
    var obj :- DecodeObject(j);
    var events :- Optional(obj, "events", DecodeEvents);
    Success(Ephemeral(events))
  }

  function EncodeEphemeral(e: Ephemeral): (r: Json)
    ensures r.JObject? && r.fields.Keys == EventListKeys
    ensures e.events.None? <==> r.fields["events"] == JNull
  {
    JObject(map["events" := EncodeOption(e.events, EncodeEvents)])
  }

  lemma EphemeralRoundTrip(e: Ephemeral)
    requires WfEphemeral(e)
    ensures DecodeEphemeral(EncodeEphemeral(e)) == Success(e)
  {
    if e.events.Some? { EventsRoundTrip(e.events.value); }
    OptionRoundTrip(EncodeEphemeral(e).fields, "events", e.events, EncodeEvents, DecodeEvents);
  }

  // ---------------------------------------------------------------------------
  // State, Timeline, InviteState (Sync.cs:175, 184, 196)

  predicate WfState(s: State) { s.events.Some? ==> WfStateEvents(s.events.value) }

  function DecodeState(j: Json): (r: Result<State, DecodeError>)
    ensures r.Success? ==> WfState(r.value)
  {
    var obj :- DecodeObject(j);
    var events :- Optional(obj, "events", DecodeStateEvents);
    Success(State(events))
  }

  function EncodeState(s: State): (r: Json)
    ensures r.JObject? && r.fields.Keys == EventListKeys
    ensures s.events.None? <==> r.fields["events"] == JNull
  {
    JObject(map["events" := EncodeOption(s.events, EncodeStateEvents)])
  }

  lemma StateRoundTrip(s: State)
    requires WfState(s)
    ensures DecodeState(EncodeState(s)) == Success(s)
  {
    if s.events.Some? { StateEventsRoundTrip(s.events.value); }
    OptionRoundTrip(EncodeState(s).fields, "events", s.events, EncodeStateEvents, DecodeStateEvents);
  }

  predicate WfTimeline(t: Timeline) { t.events.Some? ==> WfRoomEvents(t.events.value) }

  function DecodeTimeline(j: Json): (r: Result<Timeline, DecodeError>)
    ensures r.Success? ==> WfTimeline(r.value)
  {
    var obj :- DecodeObject(j);
    var events :- Optional(obj, "events", DecodeRoomEvents);
    var limited :- Optional(obj, "limited", DecodeBool);
    var prevBatch :- Optional(obj, "prev_batch", DecodeString);
    Success(Timeline(events, limited, prevBatch))
  }

  const TimelineKeys: set<string> := {"events", "limited", "prev_batch"}

  function EncodeTimeline(t: Timeline): (r: Json)
    ensures r.JObject? && r.fields.Keys == TimelineKeys
    ensures t.events.None? <==> r.fields["events"] == JNull
    ensures t.limited.None? <==> r.fields["limited"] == JNull
    ensures t.prevBatch.None? <==> r.fields["prev_batch"] == JNull
  {
    JObject(map[
      "events" := EncodeOption(t.events, EncodeRoomEvents),
      "limited" := EncodeOption(t.limited, EncodeBool),
      "prev_batch" := EncodeOption(t.prevBatch, EncodeString)])
  }

  lemma TimelineRoundTrip(t: Timeline)
    requires WfTimeline(t)
    ensures DecodeTimeline(EncodeTimeline(t)) == Success(t)
  {
    var obj := EncodeTimeline(t).fields;
    if t.events.Some? { RoomEventsRoundTrip(t.events.value); }
    OptionRoundTrip(obj, "events", t.events, EncodeRoomEvents, DecodeRoomEvents);
    OptionRoundTrip(obj, "limited", t.limited, EncodeBool, DecodeBool);
    OptionRoundTrip(obj, "prev_batch", t.prevBatch, EncodeString, DecodeString);
  }

  function DecodeInviteState(j: Json): (r: Result<InviteState, DecodeError>)
    ensures r.Success? ==> j.JObject? && (r.value.events.Some? <==> Present(j.fields, "events"))
  {
    var obj :- DecodeObject(j);
    var events :- Optional(obj, "events", DecodeStrippedStates);
    Success(InviteState(events))
  }

  function EncodeInviteState(s: InviteState): (r: Json)
    ensures r.JObject? && r.fields.Keys == EventListKeys
    ensures s.events.None? <==> r.fields["events"] == JNull
  {
    JObject(map["events" := EncodeOption(s.events, EncodeStrippedStates)])
  }

  lemma InviteStateRoundTrip(s: InviteState)
    ensures DecodeInviteState(EncodeInviteState(s)) == Success(s)
  {
    if s.events.Some? { StrippedStatesRoundTrip(s.events.value); }
    OptionRoundTrip(EncodeInviteState(s).fields, "events", s.events, EncodeStrippedStates, DecodeStrippedStates);
  }

  // ---------------------------------------------------------------------------
  // RoomSummary (Sync.cs:167-172): the three override wire names

  const RoomSummaryKeys: set<string> := {"m.heroes", "m.joined_member_count", "m.invited_member_count"}

  /** Every member is optional, read under its override name only. */
  function DecodeRoomSummary(j: Json): (r: Result<RoomSummary, DecodeError>)
    ensures r.Success? ==> j.JObject?
    ensures r.Success? ==> (r.value.heroes.Some? <==> Present(j.fields, "m.heroes"))
    ensures r.Success? ==> (r.value.joinedMemberCount.Some? <==> Present(j.fields, "m.joined_member_count"))
    ensures r.Success? ==> (r.value.invitedMemberCount.Some? <==> Present(j.fields, "m.invited_member_count"))
  {
    var obj :- DecodeObject(j);
    var heroes :- Optional(obj, "m.heroes", DecodeStrings);
    var joined :- Optional(obj, "m.joined_member_count", DecodeInt32);
    var invited :- Optional(obj, "m.invited_member_count", DecodeInt32);
    Success(RoomSummary(heroes, joined, invited))
  }

  function EncodeRoomSummary(s: RoomSummary): (r: Json)
    ensures r.JObject? && r.fields.Keys == RoomSummaryKeys
    ensures s.heroes.None? <==> r.fields["m.heroes"] == JNull
    ensures s.joinedMemberCount.None? <==> r.fields["m.joined_member_count"] == JNull
    ensures s.invitedMemberCount.None? <==> r.fields["m.invited_member_count"] == JNull
  {
    JObject(map[
      "m.heroes" := EncodeOption(s.heroes, EncodeStrings),
      "m.joined_member_count" := EncodeOption(s.joinedMemberCount, EncodeInt32),
      "m.invited_member_count" := EncodeOption(s.invitedMemberCount, EncodeInt32)])
  }

  lemma RoomSummaryRoundTrip(s: RoomSummary)
    ensures DecodeRoomSummary(EncodeRoomSummary(s)) == Success(s)
  {
    var obj := EncodeRoomSummary(s).fields;
    if s.heroes.Some? { StringsRoundTrip(s.heroes.value); }
    OptionRoundTrip(obj, "m.heroes", s.heroes, EncodeStrings, DecodeStrings);
    OptionRoundTrip(obj, "m.joined_member_count", s.joinedMemberCount, EncodeInt32, DecodeInt32);
    OptionRoundTrip(obj, "m.invited_member_count", s.invitedMemberCount, EncodeInt32, DecodeInt32);
  }

  /** Only the override names are read: the snake-case spellings of the
      attribute names are unknown keys to a summary, and every field is
      optional. */
  lemma RoomSummaryUsesOverrideNames(heroes: seq<string>, joined: Int32)
    ensures DecodeRoomSummary(JObject(map["m.heroes" := EncodeStrings(heroes), "m.joined_member_count" := JInt(joined)]))
         == Success(RoomSummary(Some(heroes), Some(joined), None))
    ensures DecodeRoomSummary(JObject(map["heroes" := EncodeStrings(heroes), "joined_member_count" := JInt(joined)]))
         == Success(RoomSummary(None, None, None))
  {
    StringsRoundTrip(heroes);
  }

  // ---------------------------------------------------------------------------
  // UnreadNotificationCounts (Sync.cs:193)

  const UnreadNotificationCountsKeys: set<string> := {"highlight_count", "notification_count"}

  function DecodeUnreadNotificationCounts(j: Json): (r: Result<UnreadNotificationCounts, DecodeError>)
    ensures r.Success? ==> j.JObject?
    ensures r.Success? ==> (r.value.highlightCount.Some? <==> Present(j.fields, "highlight_count"))
    ensures r.Success? ==> (r.value.notificationCount.Some? <==> Present(j.fields, "notification_count"))
  {
    var obj :- DecodeObject(j);
    var highlight :- Optional(obj, "highlight_count", DecodeInt32);
    var notification :- Optional(obj, "notification_count", DecodeInt32);
    Success(UnreadNotificationCounts(highlight, notification))
  }

  function EncodeUnreadNotificationCounts(c: UnreadNotificationCounts): (r: Json)
    ensures r.JObject? && r.fields.Keys == UnreadNotificationCountsKeys
    ensures c.highlightCount.None? <==> r.fields["highlight_count"] == JNull
    ensures c.notificationCount.None? <==> r.fields["notification_count"] == JNull
  {
    JObject(map[
      "highlight_count" := EncodeOption(c.highlightCount, EncodeInt32),
      "notification_count" := EncodeOption(c.notificationCount, EncodeInt32)])
  }

  lemma UnreadNotificationCountsRoundTrip(c: UnreadNotificationCounts)
    ensures DecodeUnreadNotificationCounts(EncodeUnreadNotificationCounts(c)) == Success(c)
  {
    var obj := EncodeUnreadNotificationCounts(c).fields;
    OptionRoundTrip(obj, "highlight_count", c.highlightCount, EncodeInt32, DecodeInt32);
    OptionRoundTrip(obj, "notification_count", c.notificationCount, EncodeInt32, DecodeInt32);
  }

  // ---------------------------------------------------------------------------
  // JoinedRoom, InvitedRoom, LeftRoom (Sync.cs:103-128)

  predicate WfJoinedRoom(r: JoinedRoom) {
    && (r.state.Some? ==> WfState(r.state.value))
    && (r.timeline.Some? ==> WfTimeline(r.timeline.value))
    && (r.ephemeral.Some? ==> WfEphemeral(r.ephemeral.value))
    && (r.accountData.Some? ==> WfAccountData(r.accountData.value))
  }

  function DecodeJoinedRoom(j: Json): (r: Result<JoinedRoom, DecodeError>)
    ensures r.Success? ==> WfJoinedRoom(r.value)
  {
    var obj :- DecodeObject(j);
    var summary :- Optional(obj, "summary", DecodeRoomSummary);
    var state :- Optional(obj, "state", DecodeState);
    var timeline :- Optional(obj, "timeline", DecodeTimeline);
    var ephemeral :- Optional(obj, "ephemeral", DecodeEphemeral);
    var accountData :- Optional(obj, "account_data", DecodeAccountData);
    var unread :- Optional(obj, "unread_notifications", DecodeUnreadNotificationCounts);
    Success(JoinedRoom(summary, state, timeline, ephemeral, accountData, unread))
  }

  const JoinedRoomKeys: set<string> :=
    {"summary", "state", "timeline", "ephemeral", "account_data", "unread_notifications"}

  /** The joined-room object laid out from its six already-encoded members. */
  function JoinedRoomObject(summary: Json, state: Json, timeline: Json,
                            ephemeral: Json, accountData: Json, unread: Json): (j: Json)
    ensures j.JObject? && j.fields.Keys == JoinedRoomKeys
    ensures j.fields["summary"] == summary && j.fields["state"] == state
    ensures j.fields["timeline"] == timeline && j.fields["ephemeral"] == ephemeral
    ensures j.fields["account_data"] == accountData && j.fields["unread_notifications"] == unread
  {
    JObject(map[
      "summary" := summary,
      "state" := state,
      "timeline" := timeline,
      "ephemeral" := ephemeral,
      "account_data" := accountData,
      "unread_notifications" := unread])
  }

  function EncodeJoinedRoom(r: JoinedRoom): (j: Json)
    ensures j.JObject? && j.fields.Keys == JoinedRoomKeys
    ensures r.summary.None? <==> j.fields["summary"] == JNull
    ensures r.state.None? <==> j.fields["state"] == JNull
    ensures r.timeline.None? <==> j.fields["timeline"] == JNull
    ensures r.ephemeral.None? <==> j.fields["ephemeral"] == JNull
    ensures r.accountData.None? <==> j.fields["account_data"] == JNull
    ensures r.unreadNotifications.None? <==> j.fields["unread_notifications"] == JNull
  {
    JoinedRoomObject(
      EncodeOption(r.summary, EncodeRoomSummary),
      EncodeOption(r.state, EncodeState),
      EncodeOption(r.timeline, EncodeTimeline),
      EncodeOption(r.ephemeral, EncodeEphemeral),
      EncodeOption(r.accountData, EncodeAccountData),
      EncodeOption(r.unreadNotifications, EncodeUnreadNotificationCounts))
  }

  lemma DecodeJoinedRoomFields(obj: Object, r: JoinedRoom)
    requires Optional(obj, "summary", DecodeRoomSummary) == Success(r.summary)
    requires Optional(obj, "state", DecodeState) == Success(r.state)
    requires Optional(obj, "timeline", DecodeTimeline) == Success(r.timeline)
    requires Optional(obj, "ephemeral", DecodeEphemeral) == Success(r.ephemeral)
    requires Optional(obj, "account_data", DecodeAccountData) == Success(r.accountData)
    requires Optional(obj, "unread_notifications", DecodeUnreadNotificationCounts) == Success(r.unreadNotifications)
    ensures DecodeJoinedRoom(JObject(obj)) == Success(r)
  {
  }

  lemma JoinedRoomRoundTrip(r: JoinedRoom)
    requires WfJoinedRoom(r)
    ensures DecodeJoinedRoom(EncodeJoinedRoom(r)) == Success(r)
  {
    JoinedRoomFieldsRoundTrip1(r);
    JoinedRoomFieldsRoundTrip2(r);
    JoinedRoomFieldsRoundTrip3(r);
    DecodeJoinedRoomFields(EncodeJoinedRoom(r).fields, r);
  }

  lemma JoinedRoomFieldsRoundTrip1(r: JoinedRoom)
    requires WfJoinedRoom(r)
    ensures var obj := EncodeJoinedRoom(r).fields;
      && Optional(obj, "summary", DecodeRoomSummary) == Success(r.summary)
      && Optional(obj, "state", DecodeState) == Success(r.state)
  {
    var obj := EncodeJoinedRoom(r).fields;
    if r.summary.Some? { RoomSummaryRoundTrip(r.summary.value); }
    OptionRoundTrip(obj, "summary", r.summary, EncodeRoomSummary, DecodeRoomSummary);
    if r.state.Some? { StateRoundTrip(r.state.value); }
    OptionRoundTrip(obj, "state", r.state, EncodeState, DecodeState);
  }

  lemma JoinedRoomFieldsRoundTrip2(r: JoinedRoom)
    requires WfJoinedRoom(r)
    ensures var obj := EncodeJoinedRoom(r).fields;
      && Optional(obj, "timeline", DecodeTimeline) == Success(r.timeline)
      && Optional(obj, "ephemeral", DecodeEphemeral) == Success(r.ephemeral)
  {
    var obj := EncodeJoinedRoom(r).fields;
    if r.timeline.Some? { TimelineRoundTrip(r.timeline.value); }
    OptionRoundTrip(obj, "timeline", r.timeline, EncodeTimeline, DecodeTimeline);
    if r.ephemeral.Some? { EphemeralRoundTrip(r.ephemeral.value); }
    OptionRoundTrip(obj, "ephemeral", r.ephemeral, EncodeEphemeral, DecodeEphemeral);
  }

  lemma JoinedRoomFieldsRoundTrip3(r: JoinedRoom)
    requires WfJoinedRoom(r)
    ensures var obj := EncodeJoinedRoom(r).fields;
      && Optional(obj, "account_data", DecodeAccountData) == Success(r.accountData)
      && Optional(obj, "unread_notifications", DecodeUnreadNotificationCounts) == Success(r.unreadNotifications)
  {
    var obj := EncodeJoinedRoom(r).fields;
    if r.accountData.Some? { AccountDataRoundTrip(r.accountData.value); }
    OptionRoundTrip(obj, "account_data", r.accountData, EncodeAccountData, DecodeAccountData);
    if r.unreadNotifications.Some? { UnreadNotificationCountsRoundTrip(r.unreadNotifications.value); }
    OptionRoundTrip(obj, "unread_notifications", r.unreadNotifications,
                    EncodeUnreadNotificationCounts, DecodeUnreadNotificationCounts);
  }

  function DecodeInvitedRoom(j: Json): (r: Result<InvitedRoom, DecodeError>)
    ensures r.Success? ==> j.JObject? && (r.value.inviteState.Some? <==> Present(j.fields, "invite_state"))
  {
    var obj :- DecodeObject(j);
    var inviteState :- Optional(obj, "invite_state", DecodeInviteState);
    Success(InvitedRoom(inviteState))
  }

  function EncodeInvitedRoom(r: InvitedRoom): (j: Json)
    ensures j.JObject? && j.fields.Keys == {"invite_state"}
    ensures r.inviteState.None? <==> j.fields["invite_state"] == JNull
  {
    JObject(map["invite_state" := EncodeOption(r.inviteState, EncodeInviteState)])
  }

  lemma InvitedRoomRoundTrip(r: InvitedRoom)
    ensures DecodeInvitedRoom(EncodeInvitedRoom(r)) == Success(r)
  {
    if r.inviteState.Some? { InviteStateRoundTrip(r.inviteState.value); }
    OptionRoundTrip(EncodeInvitedRoom(r).fields, "invite_state", r.inviteState, EncodeInviteState, DecodeInviteState);
  }

  predicate WfLeftRoom(r: LeftRoom) {
    && (r.state.Some? ==> WfState(r.state.value))
    && (r.timeline.Some? ==> WfTimeline(r.timeline.value))
    && (r.accountData.Some? ==> WfAccountData(r.accountData.value))
  }

  function DecodeLeftRoom(j: Json): (r: Result<LeftRoom, DecodeError>)
    ensures r.Success? ==> WfLeftRoom(r.value)
  {
    var obj :- DecodeObject(j);
    var state :- Optional(obj, "state", DecodeState);
    var timeline :- Optional(obj, "timeline", DecodeTimeline);
    var accountData :- Optional(obj, "account_data", DecodeAccountData);
    Success(LeftRoom(state, timeline, accountData))
  }

  const LeftRoomKeys: set<string> := {"state", "timeline", "account_data"}

  function EncodeLeftRoom(r: LeftRoom): (j: Json)
    ensures j.JObject? && j.fields.Keys == LeftRoomKeys
    ensures r.state.None? <==> j.fields["state"] == JNull
    ensures r.timeline.None? <==> j.fields["timeline"] == JNull
    ensures r.accountData.None? <==> j.fields["account_data"] == JNull
  {
    JObject(map[
      "state" := EncodeOption(r.state, EncodeState),
      "timeline" := EncodeOption(r.timeline, EncodeTimeline),
      "account_data" := EncodeOption(r.accountData, EncodeAccountData)])
  }

  lemma LeftRoomRoundTrip(r: LeftRoom)
    requires WfLeftRoom(r)
    ensures DecodeLeftRoom(EncodeLeftRoom(r)) == Success(r)
  {
    var obj := EncodeLeftRoom(r).fields;
    if r.state.Some? { StateRoundTrip(r.state.value); }
    if r.timeline.Some? { TimelineRoundTrip(r.timeline.value); }
    if r.accountData.Some? { AccountDataRoundTrip(r.accountData.value); }
    OptionRoundTrip(obj, "state", r.state, EncodeState, DecodeState);
    OptionRoundTrip(obj, "timeline", r.timeline, EncodeTimeline, DecodeTimeline);
    OptionRoundTrip(obj, "account_data", r.accountData, EncodeAccountData, DecodeAccountData);
  }

  // ---------------------------------------------------------------------------
  // Rooms (Sync.cs:76-81): three dictionaries keyed by room id

  predicate WfRooms(r: Rooms) {
    && (r.join.Some? ==> forall id :: id in r.join.value ==> WfJoinedRoom(r.join.value[id]))
    && (r.leave.Some? ==> forall id :: id in r.leave.value ==> WfLeftRoom(r.leave.value[id]))
  }

  function DecodeJoinedRooms(j: Json): (r: Result<map<string, JoinedRoom>, DecodeError>)
    ensures r.Success? ==> forall id :: id in r.value ==> WfJoinedRoom(r.value[id])
  {
    DecodeDict(j, DecodeJoinedRoom)
  }

  function DecodeInvitedRooms(j: Json): (r: Result<map<string, InvitedRoom>, DecodeError>)
    ensures r.Success? ==> j.JObject? && r.value.Keys == j.fields.Keys
  {
    DecodeDict(j, DecodeInvitedRoom)
  }

  function DecodeLeftRooms(j: Json): (r: Result<map<string, LeftRoom>, DecodeError>)
    ensures r.Success? ==> forall id :: id in r.value ==> WfLeftRoom(r.value[id])
  {
    DecodeDict(j, DecodeLeftRoom)
  }

  function EncodeJoinedRooms(m: map<string, JoinedRoom>): (r: Json)
    ensures r.JObject? && r.fields.Keys == m.Keys
  {
    EncodeDict(m, EncodeJoinedRoom)
  }

  function EncodeInvitedRooms(m: map<string, InvitedRoom>): (r: Json)
    ensures r.JObject? && r.fields.Keys == m.Keys
  {
    EncodeDict(m, EncodeInvitedRoom)
  }

  function EncodeLeftRooms(m: map<string, LeftRoom>): (r: Json)
    ensures r.JObject? && r.fields.Keys == m.Keys
  {
    EncodeDict(m, EncodeLeftRoom)
  }

  function DecodeRooms(j: Json): (r: Result<Rooms, DecodeError>)
    ensures r.Success? ==> WfRooms(r.value)
  {
    var obj :- DecodeObject(j);
    var join :- Optional(obj, "join", DecodeJoinedRooms);
    var invite :- Optional(obj, "invite", DecodeInvitedRooms);
    var leave :- Optional(obj, "leave", DecodeLeftRooms);
    Success(Rooms(join, invite, leave))
  }

  const RoomsKeys: set<string> := {"join", "invite", "leave"}

  function EncodeRooms(r: Rooms): (j: Json)
    ensures j.JObject? && j.fields.Keys == RoomsKeys
    ensures r.join.None? <==> j.fields["join"] == JNull
    ensures r.invite.None? <==> j.fields["invite"] == JNull
    ensures r.leave.None? <==> j.fields["leave"] == JNull
  {
    JObject(map[
      "join" := EncodeOption(r.join, EncodeJoinedRooms),
      "invite" := EncodeOption(r.invite, EncodeInvitedRooms),
      "leave" := EncodeOption(r.leave, EncodeLeftRooms)])
  }

  lemma RoomsRoundTrip(r: Rooms)
    requires WfRooms(r)
    ensures DecodeRooms(EncodeRooms(r)) == Success(r)
  {
    var obj := EncodeRooms(r).fields;
    if r.join.Some? {
      var m := r.join.value;
      forall id | id in m ensures DecodeJoinedRoom(EncodeJoinedRoom(m[id])) == Success(m[id]) {
        JoinedRoomRoundTrip(m[id]);
      }
      DictRoundTrip(m, EncodeJoinedRoom, DecodeJoinedRoom);
    }
    if r.invite.Some? {
      var m := r.invite.value;
      forall id | id in m ensures DecodeInvitedRoom(EncodeInvitedRoom(m[id])) == Success(m[id]) {
        InvitedRoomRoundTrip(m[id]);
      }
      DictRoundTrip(m, EncodeInvitedRoom, DecodeInvitedRoom);
    }
    if r.leave.Some? {
      var m := r.leave.value;
      forall id | id in m ensures DecodeLeftRoom(EncodeLeftRoom(m[id])) == Success(m[id]) {
        LeftRoomRoundTrip(m[id]);
      }
      DictRoundTrip(m, EncodeLeftRoom, DecodeLeftRoom);
    }
    OptionRoundTrip(obj, "join", r.join, EncodeJoinedRooms, DecodeJoinedRooms);
    OptionRoundTrip(obj, "invite", r.invite, EncodeInvitedRooms, DecodeInvitedRooms);
    OptionRoundTrip(obj, "leave", r.leave, EncodeLeftRooms, DecodeLeftRooms);
  }

  // ---------------------------------------------------------------------------
  // SyncResponse (Sync.cs:63-69)

  const SyncResponseKeys: set<string> := {"next_batch", "rooms", "presence", "account_data"}

  predicate WfSyncResponse(r: SyncResponse) {
    && (r.rooms.Some? ==> WfRooms(r.rooms.value))
    && (r.presence.Some? ==> WfPresence(r.presence.value))
    && (r.accountData.Some? ==> WfAccountData(r.accountData.value))
  }

  /** `next_batch` is required; `rooms`, `presence` and `account_data` are each
      optional on their own. */
  function DecodeSyncResponse(j: Json): (r: Result<SyncResponse, DecodeError>)
    ensures r.Success? ==> WfSyncResponse(r.value)
  {
    var obj :- DecodeObject(j);
    var nextBatch :- Required(obj, "next_batch", DecodeString);
    var rooms :- Optional(obj, "rooms", DecodeRooms);
    var presence :- Optional(obj, "presence", DecodePresence);
    var accountData :- Optional(obj, "account_data", DecodeAccountData);
    Success(SyncResponse(nextBatch, rooms, presence, accountData))
  }

  function EncodeSyncResponse(r: SyncResponse): (j: Json)
    ensures j.JObject? && j.fields.Keys == SyncResponseKeys
    ensures j.fields["next_batch"] == JString(r.nextBatch)
    ensures r.rooms.None? <==> j.fields["rooms"] == JNull
    ensures r.presence.None? <==> j.fields["presence"] == JNull
    ensures r.accountData.None? <==> j.fields["account_data"] == JNull
  {
    JObject(map[
      "next_batch" := JString(r.nextBatch),
      "rooms" := EncodeOption(r.rooms, EncodeRooms),
      "presence" := EncodeOption(r.presence, EncodePresence),
      "account_data" := EncodeOption(r.accountData, EncodeAccountData)])
  }

  /** Every snapshot whose catch-alls are ones decoding can produce survives
      encoding and decoding unchanged, down to the last catch-all entry. */
  lemma SyncResponseRoundTrip(r: SyncResponse)
    requires WfSyncResponse(r)
    ensures DecodeSyncResponse(EncodeSyncResponse(r)) == Success(r)
  {
    SyncResponseFieldsRoundTrip(r);
    DecodeSyncResponseFields(EncodeSyncResponse(r).fields, r);
  }

  lemma DecodeSyncResponseFields(obj: Object, r: SyncResponse)
    requires Required(obj, "next_batch", DecodeString) == Success(r.nextBatch)
    requires Optional(obj, "rooms", DecodeRooms) == Success(r.rooms)
    requires Optional(obj, "presence", DecodePresence) == Success(r.presence)
    requires Optional(obj, "account_data", DecodeAccountData) == Success(r.accountData)
    ensures DecodeSyncResponse(JObject(obj)) == Success(r)
  {
  }

  lemma SyncResponseFieldsRoundTrip(r: SyncResponse)
    requires WfSyncResponse(r)
    ensures var obj := EncodeSyncResponse(r).fields;
      && Required(obj, "next_batch", DecodeString) == Success(r.nextBatch)
      && Optional(obj, "rooms", DecodeRooms) == Success(r.rooms)
      && Optional(obj, "presence", DecodePresence) == Success(r.presence)
      && Optional(obj, "account_data", DecodeAccountData) == Success(r.accountData)
  {
    var obj := EncodeSyncResponse(r).fields;
    SyncResponseRoomsRoundTrip(r);
    if r.presence.Some? { PresenceRoundTrip(r.presence.value); }
    if r.accountData.Some? { AccountDataRoundTrip(r.accountData.value); }
    OptionRoundTrip(obj, "presence", r.presence, EncodePresence, DecodePresence);
    OptionRoundTrip(obj, "account_data", r.accountData, EncodeAccountData, DecodeAccountData);
  }

  lemma SyncResponseRoomsRoundTrip(r: SyncResponse)
    requires WfSyncResponse(r)
    ensures Optional(EncodeSyncResponse(r).fields, "rooms", DecodeRooms) == Success(r.rooms)
  {
    if r.rooms.Some? { RoomsRoundTrip(r.rooms.value); }
    OptionRoundTrip(EncodeSyncResponse(r).fields, "rooms", r.rooms, EncodeRooms, DecodeRooms);
  }

  /** Encoding what was decoded is stable: decoding it again gives the same
      snapshot, so two snapshots that decode alike also encode alike. */
  lemma SyncResponseReencodeStable(j: Json)
    requires DecodeSyncResponse(j).Success?
    ensures DecodeSyncResponse(EncodeSyncResponse(DecodeSyncResponse(j).value)) == DecodeSyncResponse(j)
  {
    SyncResponseRoundTrip(DecodeSyncResponse(j).value);
  }

  // ---------------------------------------------------------------------------
  // Absent, null and empty

  /** Each optional part of a snapshot is there exactly when its key is there
      with a non-null value; `next_batch` is the string on the wire. */
  lemma SyncResponseParts(j: Json)
    requires DecodeSyncResponse(j).Success?
    ensures var r := DecodeSyncResponse(j).value;
      && j.JObject?
      && j.fields["next_batch"] == JString(r.nextBatch)
      && (r.rooms.Some? <==> Present(j.fields, "rooms"))
      && (r.presence.Some? <==> Present(j.fields, "presence"))
      && (r.accountData.Some? <==> Present(j.fields, "account_data"))
  {
  }

  /** A snapshot with no `next_batch` is a decode error, whatever else it has. */
  lemma SyncResponseRequiresNextBatch(obj: Object)
    requires !Present(obj, "next_batch")
    ensures DecodeSyncResponse(JObject(obj)) == Failure(MissingField("next_batch"))
  {
  }

  /** The smallest snapshot: only a cursor. Every optional part is absent, not
      empty and not an error. */
  lemma CursorOnlySnapshot(nextBatch: string)
    ensures DecodeSyncResponse(JObject(map["next_batch" := JString(nextBatch)]))
         == Success(SyncResponse(nextBatch, None, None, None))
  {
  }

  /** `"leave": {}` is a present, empty dictionary; a missing `leave` is none. */
  lemma EmptyLeaveIsPresent()
    ensures DecodeRooms(JObject(map["leave" := JObject(map[])])) == Success(Rooms(None, None, Some(map[])))
    ensures DecodeRooms(JObject(map[])) == Success(Rooms(None, None, None))
  {
    assert DecodeLeftRooms(JObject(map[])) == Success(map[]);
  }

  // ---------------------------------------------------------------------------
  // Events of the documentation's sample response

  /** A presence event: `sender` is not promoted by Event, so it lands in the
      catch-all. */
  lemma PresenceEventSample(content: Object, sender: string)
    ensures DecodeEvent(JObject(map["content" := JObject(content), "type" := JString("m.presence"), "sender" := JString(sender)]))
         == Success(Event(content, "m.presence", Some(map["sender" := JString(sender)])))
  {
    var obj := map["content" := JObject(content), "type" := JString("m.presence"), "sender" := JString(sender)];
    assert obj - EventKeys == map["sender" := JString(sender)];
  }

  /** An account-data event with nothing but `content` and `type` has no
      catch-all at all. */
  lemma AccountDataEventSample(content: Object, eventType: string)
    ensures DecodeEvent(JObject(map["type" := JString(eventType), "content" := JObject(content)]))
         == Success(Event(content, eventType, None))
  {
  }

  /** A timeline event that carries a `state_key`: a RoomEvent does not
      promote it, nor `room_id`, so both land in the catch-all. */
  lemma TimelineEventSample(content: Object, eventId: string, roomId: string, sender: string, ts: Int64, stateKey: string)
    ensures var obj := map[
        "content" := JObject(content), "type" := JString("m.room.member"), "event_id" := JString(eventId),
        "room_id" := JString(roomId), "sender" := JString(sender), "origin_server_ts" := JInt(ts),
        "state_key" := JString(stateKey)];
      DecodeRoomEvent(JObject(obj))
        == Success(RoomEvent(content, "m.room.member", eventId, sender, ts, None,
                             Some(map["room_id" := JString(roomId), "state_key" := JString(stateKey)])))
  {
    var obj := map[
      "content" := JObject(content), "type" := JString("m.room.member"), "event_id" := JString(eventId),
      "room_id" := JString(roomId), "sender" := JString(sender), "origin_server_ts" := JInt(ts),
      "state_key" := JString(stateKey)];
    assert Required(obj, "content", DecodeObject) == Success(content);
    assert Required(obj, "type", DecodeString) == Success("m.room.member");
    assert Required(obj, "event_id", DecodeString) == Success(eventId);
    assert Required(obj, "sender", DecodeString) == Success(sender);
    assert Required(obj, "origin_server_ts", DecodeInt64) == Success(ts);
    assert Optional(obj, "unsigned", DecodeUnsignedData) == Success(None);
    assert "room_id" !in RoomEventKeys;
    assert obj - RoomEventKeys == map["room_id" := JString(roomId), "state_key" := JString(stateKey)];
    assert CatchAll(obj, RoomEventKeys) == Some(map["room_id" := JString(roomId), "state_key" := JString(stateKey)]);
    DecodeRoomEventFrom(obj, RoomEvent(content, "m.room.member", eventId, sender, ts, None,
                                       Some(map["room_id" := JString(roomId), "state_key" := JString(stateKey)])));
  }

  /** The same keys decoded as a StateEvent: `state_key` is promoted, only
      `room_id` is left for the catch-all, and the missing `prev_content` is
      none. */
  lemma StateEventSample(content: Object, eventId: string, roomId: string, sender: string, ts: Int64, stateKey: string)
    ensures var obj := map[
        "content" := JObject(content), "type" := JString("m.room.member"), "event_id" := JString(eventId),
        "room_id" := JString(roomId), "sender" := JString(sender), "origin_server_ts" := JInt(ts),
        "state_key" := JString(stateKey)];
      DecodeStateEvent(JObject(obj))
        == Success(StateEvent(content, "m.room.member", eventId, sender, ts, None, None, stateKey,
                              Some(map["room_id" := JString(roomId)])))
  {
    var obj := map[
      "content" := JObject(content), "type" := JString("m.room.member"), "event_id" := JString(eventId),
      "room_id" := JString(roomId), "sender" := JString(sender), "origin_server_ts" := JInt(ts),
      "state_key" := JString(stateKey)];
    assert Required(obj, "content", DecodeObject) == Success(content);
    assert Required(obj, "type", DecodeString) == Success("m.room.member");
    assert Required(obj, "event_id", DecodeString) == Success(eventId);
    assert Required(obj, "sender", DecodeString) == Success(sender);
    assert Required(obj, "origin_server_ts", DecodeInt64) == Success(ts);
    assert Optional(obj, "unsigned", DecodeUnsignedData) == Success(None);
    assert Optional(obj, "prev_content", DecodeObject) == Success(None);
    assert Required(obj, "state_key", DecodeString) == Success(stateKey);
    assert obj - StateEventKeys == map["room_id" := JString(roomId)];
    DecodeStateEventFrom(obj, StateEvent(content, "m.room.member", eventId, sender, ts, None, None, stateKey,
                                         Some(map["room_id" := JString(roomId)])));
  }
}
