# Smith.MatrixSdk sync client, modelled in Dafny

This project models the sync half of Smith.MatrixSdk, a .NET client for the
Matrix Client-Server API. It proves properties of three parts:

- **The event polling loop** (`MatrixClient.StartEventPolling`), in `EventPolling.dfy`.
  The loop holds one `SyncRequest` cursor and issues one `GET /sync` call at a time.
  After each successful call it moves `since` to the response's `next_batch` and emits the response.
  Cancellation completes the stream. Any other failure ends the stream with that error.
  - `Poller` is a class with fields for the cursor, the emitted responses and the stream status.
    It also keeps ghost logs of the requests issued and the HTTP requests sent.
  - `Poller.Poll` is the loop. It is driven by an oracle: one tick per iteration, either "cancellation seen at the loop head" or the outcome of that iteration's call.
  - `Poll` is proved to end in the state given by the pure specification `Run`. The session properties are lemmas about `Run`.
- **The two pure helpers of the client**, in `MatrixClient.dfy`:
  - `SyncEvents` builds the query map. Only parameters with a value are sent. Flags and enums are lower-cased. The timeout is decimal text.
  - `Get` builds the request with `Authorization: Bearer <token>` and classifies the response. The classes are: non-2xx status, null body, undecodable body, transport fault, cancellation.

  `FilterNotNull` (`DictionaryExtensions.dfy`) is the map filter that drops absent parameters. `Decimal.dfy` holds the invariant-culture integer text used for `timeout`.
- **The snapshot and event records** (`ApiTypes/Sync.cs`). They are datatypes in `ApiTypes.dfy`, over a small JSON value type in `Json.dfy`. `SyncCodec.dfy` decodes and encodes them under the client's serializer settings:
  - every record has its own explicit table of wire keys;
  - a key that is absent or null decodes to none, while a present empty value stays present;
  - `Event`, `RoomEvent` and `StateEvent` keep every key they do not promote, verbatim, in their `AdditionalData` catch-all;
  - `RoomSummary` uses its three `m.`-prefixed override names.

  The lemmas prove round trips for every record. They also prove that decoding and re-encoding an event loses no catch-all field. Samples shaped like the documentation's sync response are decoded as the client's tests expect.

Notes on the code's behaviour:
- `StrippedState` has no catch-all. It ignores unknown keys (`SyncCodec.StrippedStateIgnoresUnknownKeys`). Its only identity field is `sender`.
- A decode failure of a sync body ends the stream as `Failed`, like every non-cancellation error. Nothing in the loop lets a call fail without stopping it.
- When a named field and a catch-all key collide, the code does not report it; the serializer decides. The model does not model that case, and the round-trip lemmas require the catch-all to be disjoint from the promoted keys.

## Model

| member | source | states |
|---|---|---|
| DictionaryEx.FilterNotNull | Smith.MatrixSdk/Extensions/DictionaryExtensions.cs:8-13 | a key is in the result exactly when its value is non-null, and keeps that value (so the result holds no null, and an empty string is kept) |
| DictionaryEx.FilterNotNullSize | Smith.MatrixSdk/Extensions/DictionaryExtensions.cs:12 | the result's keys are a subset of the input's, so it is no larger |
| DictionaryEx.FilterNotNullKeepsPresent | Smith.MatrixSdk/Extensions/DictionaryExtensions.cs:12 | a dictionary without null values comes back unchanged |
| DictionaryEx.FilterNotNullUpdate | Smith.MatrixSdk/Extensions/DictionaryExtensions.cs:12 | setting one entry to a value before filtering sets exactly that entry in the result |
| Decimal.NatToDigits | Smith.MatrixSdk/MatrixClient.cs:88 | the digits of a natural number: non-empty, all decimal digits, no leading zero |
| Decimal.IntToDecimal | Smith.MatrixSdk/MatrixClient.cs:88 | the text is non-empty and starts with '-' exactly for negative values |
| Decimal.DigitsRoundTrip | Smith.MatrixSdk/MatrixClient.cs:88 | reading the digits of n gives n |
| Decimal.DecimalRoundTrip | Smith.MatrixSdk/MatrixClient.cs:88 | the invariant-culture text of every integer parses back to it |
| Decimal.DecimalShape | Smith.MatrixSdk/MatrixClient.cs:88 | that text has a '-' exactly for negatives, then digits with no leading zero |
| MatrixClient.LowerChar | Smith.MatrixSdk/MatrixClient.cs:86-87 | maps upper-case ASCII letters to lower case and leaves every other character alone |
| MatrixClient.ToLower | Smith.MatrixSdk/MatrixClient.cs:86-87 | lower-cases a text character by character, keeping its length |
| MatrixClient.BoolText | Smith.MatrixSdk/MatrixClient.cs:86 | `full_state` is sent as `true` or `false` |
| MatrixClient.PresenceText | Smith.MatrixSdk/MatrixClient.cs:87 | `set_presence` is one of `offline`, `online`, `unavailable` and reads back as the member it came from |
| MatrixClient.QueryEntries | Smith.MatrixSdk/MatrixClient.cs:82-88 | the dictionary literal has one entry per parameter: filter and since as given, and full_state, set_presence and timeout null exactly when the request has no value |
| MatrixClient.SyncQuery | Smith.MatrixSdk/MatrixClient.cs:82-89 | the query has an entry for exactly those of filter, since, full_state, set_presence and timeout that have a value; strings are sent as they are (an empty `since` too), and the timeout text reads back as the number |
| MatrixClient.SyncQueryRoundTrip | Smith.MatrixSdk/MatrixClient.cs:82-89 | the query carries the whole request: parsing it gives the request back |
| MatrixClient.SyncQueryInjective | Smith.MatrixSdk/MatrixClient.cs:82-89 | two different requests are never sent as the same query |
| MatrixClient.SyncQueryWithSince | Smith.MatrixSdk/MatrixClient.cs:85 | moving the cursor changes the `since` entry and no other |
| MatrixClient.FirstQuery | Smith.MatrixSdk/MatrixClient.cs:53 | a request with only the timeout set is sent as the timeout alone |
| MatrixClient.IndexOf | Smith.MatrixSdk.Tests/SyncTests.cs:480-482 | helper of `ParseAuthHeader`, which reads the header back into scheme and parameter: the first position of a character, with no earlier occurrence |
| MatrixClient.HeaderText | Smith.MatrixSdk/MatrixClient.cs:105 | the header text starts with the scheme; it is the scheme alone exactly when there is no parameter, otherwise one space and then the parameter |
| MatrixClient.AuthHeaderRoundTrip | Smith.MatrixSdk/MatrixClient.cs:105 | a header's wire text reads back as the same scheme and parameter |
| MatrixClient.GetRequest | Smith.MatrixSdk/MatrixClient.cs:100-107 | `Get` sends a GET with the given query and scheme `Bearer` with the token as parameter; on the wire that is `Bearer <token>` |
| MatrixClient.SyncCall | Smith.MatrixSdk/MatrixClient.cs:77-90 | every sync call carries `Bearer <token>` and a query that reads back as its request |
| MatrixClient.GetResult | Smith.MatrixSdk/MatrixClient.cs:109-114 | success exactly for a 2xx status with a non-null body that decodes, and then the decoded value; a non-2xx status fails with its code; the result is a cancellation exactly when the call was aborted |
| MatrixClient.ErrorStatusIgnoresBody | Smith.MatrixSdk/MatrixClient.cs:112 | the body of a non-2xx response is never looked at |
| MatrixClient.SyncResult | Smith.MatrixSdk/MatrixClient.cs:82 | a sync call succeeds only with a delivered body that decodes to the snapshot returned, which is well formed; it is a cancellation exactly when the call was aborted |
| MatrixClient.SyncResultIsBody | Smith.MatrixSdk/MatrixClient.cs:114 | a snapshot returned by a sync call re-encodes to a body that decodes to the same snapshot |
| EventPolling.StepConsistent | Smith.MatrixSdk/MatrixClient.cs:54-74 | one iteration keeps the loop invariant: one emission per answered call, and request i is the first request with the cursor left by response i-1 |
| EventPolling.RunConsistent | Smith.MatrixSdk/MatrixClient.cs:54-74 | any number of iterations keep that invariant |
| EventPolling.CursorChain | Smith.MatrixSdk/MatrixClient.cs:60 | the first request has only the timeout; each later request is the previous one with `since` set to the previous response's `next_batch` and nothing else changed; the held cursor is the first request moved on by the last response |
| EventPolling.OneCallAtATime | Smith.MatrixSdk/MatrixClient.cs:54-58 | at most one call is unanswered; while polling, emissions equal calls; a failure on call n leaves exactly n-1 emissions |
| EventPolling.RunExplained | Smith.MatrixSdk/MatrixClient.cs:54-74 | from any state reached by answered calls, the run is explained by its ticks (general form of EmissionsFollowCalls) |
| EventPolling.EmissionsFollowCalls | Smith.MatrixSdk/MatrixClient.cs:58-61 | call i happens in iteration i; emission i is the snapshot call i returned, in order; a session still polling has used every tick; a failed one ended on its last call with that call's error; a completed one saw cancellation at the next loop head or had its last call cancelled |
| EventPolling.RunAppend | Smith.MatrixSdk/MatrixClient.cs:54-74 | running on two batches of ticks is running on both together |
| EventPolling.StopsForGood | Smith.MatrixSdk/MatrixClient.cs:63-73 | after completion or failure no further call is made, nothing more is emitted and the status stays |
| EventPolling.WireRequests | Smith.MatrixSdk/MatrixClient.cs:58 | every call of a session carries `Bearer <token>`; the first query is the timeout alone; each later query is the previous one with `since` set to the previous `next_batch` |
| EventPolling.SentForAppend | Smith.MatrixSdk/MatrixClient.cs:58 | the log of sent requests stays in step with the issued requests when a call is made |
| EventPolling.Step | Smith.MatrixSdk/MatrixClient.cs:56-73 | one iteration logs a call exactly when the tick is a call, with the held request; it keeps polling exactly when it emitted one response, and then `since` is that response's `next_batch`; otherwise the cursor and the emissions stay as they were |
| EventPolling.Run | Smith.MatrixSdk/MatrixClient.cs:54-74 | the calls and emissions only grow, by at most one call per iteration, and a stream that has ended does not change |
| EventPolling.Poller.constructor | Smith.MatrixSdk/MatrixClient.cs:53 | the loop starts polling with the timeout-only request, nothing issued, nothing emitted |
| EventPolling.Poller.Poll | Smith.MatrixSdk/MatrixClient.cs:54-74 | the loop ends in the state `Run` gives for its ticks, keeps the invariant, and every request it sent carries the token |
| EventPolling.Poller.Iterate | Smith.MatrixSdk/MatrixClient.cs:56-73 | one iteration: completes on cancellation at the head; otherwise makes the call, then moves the cursor and emits, completes on a cancelled call, or fails with the error |
| Json.DecodeString | Smith.MatrixSdk/ApiTypes/Sync.cs:138 | a string value decodes to itself, anything else is a type error |
| Json.DecodeBool | Smith.MatrixSdk/ApiTypes/Sync.cs:184 | a boolean value decodes to itself, anything else is a type error |
| Json.DecodeInt32 | Smith.MatrixSdk/ApiTypes/Sync.cs:193 | an integer in the 32-bit range decodes to itself, anything else is an error |
| Json.DecodeInt64 | Smith.MatrixSdk/ApiTypes/Sync.cs:225 | an integer in the 64-bit range decodes to itself, anything else is an error |
| Json.DecodeObject | Smith.MatrixSdk/ApiTypes/Sync.cs:137 | an object decodes to its fields, anything else is a type error |
| Json.Required | Smith.MatrixSdk/ApiTypes/Sync.cs:65 | a non-nullable member: a key holding a non-null value gives exactly what the member's decoder makes of it; a missing or null key is a missing-field error |
| Json.Optional | Smith.MatrixSdk/ApiTypes/Sync.cs:66-68 | a nullable member: none exactly when the key is missing or null; otherwise the decoded value, and an error only when a present value fails to decode |
| Json.DecodeItems | Smith.MatrixSdk/ApiTypes/Sync.cs:84 | a list decodes exactly when every element does, element by element |
| Json.EncodeItems | Smith.MatrixSdk/ApiTypes/Sync.cs:84 | a list is encoded element by element |
| Json.DecodeDict | Smith.MatrixSdk/ApiTypes/Sync.cs:78-80 | a dictionary decodes exactly when every value does, with the same keys |
| Json.EncodeDict | Smith.MatrixSdk/ApiTypes/Sync.cs:78-80 | a dictionary is written with the same keys, each value encoded |
| Json.ItemsRoundTrip | Smith.MatrixSdk/ApiTypes/Sync.cs:84 | a list of values that round-trip one by one round-trips |
| Json.DictRoundTrip | Smith.MatrixSdk/ApiTypes/Sync.cs:78-80 | a dictionary of values that round-trip one by one round-trips |
| Json.OptionRoundTrip | Smith.MatrixSdk/ApiTypes/Sync.cs:66-68 | a nullable member written as its value or null reads back as the same option |
| SyncCodec.CatchAll | Smith.MatrixSdk/ApiTypes/Sync.cs:139 | the catch-all is null when every key is promoted, otherwise exactly the unpromoted keys with their values |
| SyncCodec.WithCatchAll | Smith.MatrixSdk/ApiTypes/Sync.cs:139 | the written object holds the named keys plus the catch-all's keys; named fields are written as they are, and catch-all entries under every other key |
| SyncCodec.EncodeString | Smith.MatrixSdk/ApiTypes/Sync.cs:138 | a written string reads back as itself |
| SyncCodec.EncodeBool | Smith.MatrixSdk/ApiTypes/Sync.cs:184 | a written boolean reads back as itself |
| SyncCodec.EncodeInt32 | Smith.MatrixSdk/ApiTypes/Sync.cs:193 | a written `int` reads back as itself |
| SyncCodec.EncodeInt64 | Smith.MatrixSdk/ApiTypes/Sync.cs:225 | a written `long` reads back as itself |
| SyncCodec.EncodeObject | Smith.MatrixSdk/ApiTypes/Sync.cs:137 | a written object reads back as itself |
| SyncCodec.CatchAllOfEncoded | Smith.MatrixSdk/ApiTypes/Sync.cs:139 | writing a catch-all next to the named fields and reading it back gives the same catch-all |
| SyncCodec.EncodedCatchAll | Smith.MatrixSdk/ApiTypes/Sync.cs:139 | re-encoding a decoded catch-all gives back every input key: unpromoted keys with their input values |
| SyncCodec.DecodeEvent | Smith.MatrixSdk/ApiTypes/Sync.cs:136-140 | a decoded event's catch-all is non-empty and holds no promoted key |
| SyncCodec.EncodeEvent | Smith.MatrixSdk/ApiTypes/Sync.cs:136-140 | both promoted keys are written, then every catch-all key |
| SyncCodec.EventRoundTrip | Smith.MatrixSdk/ApiTypes/Sync.cs:136-140 | every event with a well-formed catch-all survives encoding and decoding |
| SyncCodec.EventDecodeEncode | Smith.MatrixSdk/ApiTypes/Sync.cs:136-140 | encoding a decoded event gives back the very object it was decoded from |
| SyncCodec.DecodeUnsignedData | Smith.MatrixSdk/ApiTypes/Sync.cs:279-284 | a decoded redaction event is well formed |
| SyncCodec.EncodeUnsignedData | Smith.MatrixSdk/ApiTypes/Sync.cs:279-284 | exactly the three member keys are written, each null exactly when the member is missing |
| SyncCodec.UnsignedRoundTrip | Smith.MatrixSdk/ApiTypes/Sync.cs:279-284 | unsigned data survives encoding and decoding |
| SyncCodec.DecodeRoomEvent | Smith.MatrixSdk/ApiTypes/Sync.cs:247-256 | a decoded room event is well formed |
| SyncCodec.DecodeRoomEventFrom | Smith.MatrixSdk/ApiTypes/Sync.cs:247-256 | a room event is decoded from any object whose promoted keys decode to its fields and whose other keys are its catch-all |
| SyncCodec.EncodeRoomEvent | Smith.MatrixSdk/ApiTypes/Sync.cs:247-256 | all six promoted keys are written, `unsigned` null exactly when it is missing, then every catch-all key |
| SyncCodec.EncodedRoomEventRequired | Smith.MatrixSdk/ApiTypes/Sync.cs:247-256 | the required fields and the catch-all of an encoded room event read back as they were |
| SyncCodec.EncodedRoomEventUnsigned | Smith.MatrixSdk/ApiTypes/Sync.cs:253 | `unsigned` of an encoded room event reads back as the same option |
| SyncCodec.RoomEventDecodedFields | Smith.MatrixSdk/ApiTypes/Sync.cs:247-256 | a decoded room event's required fields are the input's values and its catch-all is the input's unpromoted keys |
| SyncCodec.RoomEventFieldsKept | Smith.MatrixSdk/ApiTypes/Sync.cs:247-256 | a room event encoded next to the object it was read from writes the unpromoted keys and the required fields back unchanged |
| SyncCodec.RoomEventRoundTrip | Smith.MatrixSdk/ApiTypes/Sync.cs:247-256 | every well-formed room event survives encoding and decoding |
| SyncCodec.RoomEventDecodeKeepsExtras | Smith.MatrixSdk/ApiTypes/Sync.cs:247-256 | decoding and re-encoding a room event keeps every unpromoted key with its value and every required field as it was |
| SyncCodec.DecodeStateEvent | Smith.MatrixSdk/ApiTypes/Sync.cs:219-230 | a decoded state event is well formed |
| SyncCodec.DecodeStateEventFrom | Smith.MatrixSdk/ApiTypes/Sync.cs:219-230 | a state event is decoded from any object whose promoted keys decode to its fields and whose other keys are its catch-all |
| SyncCodec.EncodeStateEvent | Smith.MatrixSdk/ApiTypes/Sync.cs:219-230 | all eight promoted keys are written, `unsigned` and `prev_content` each null exactly when missing, then every catch-all key |
| SyncCodec.StateEventRoundTrip | Smith.MatrixSdk/ApiTypes/Sync.cs:219-230 | every well-formed state event survives encoding and decoding |
| SyncCodec.EncodedStateEventRequired | Smith.MatrixSdk/ApiTypes/Sync.cs:219-230 | the required fields and the catch-all of an encoded state event read back as they were |
| SyncCodec.EncodedStateEventOptional | Smith.MatrixSdk/ApiTypes/Sync.cs:226-227 | `unsigned` and `prev_content` of an encoded state event read back as the same options |
| SyncCodec.StateEventFieldsKept | Smith.MatrixSdk/ApiTypes/Sync.cs:219-230 | a state event encoded next to the object it was read from writes the unpromoted keys and the required fields back unchanged |
| SyncCodec.StateEventDecodedFields | Smith.MatrixSdk/ApiTypes/Sync.cs:219-230 | a decoded state event's required fields are the input's values and its catch-all is the input's unpromoted keys |
| SyncCodec.StateEventDecodeKeepsExtras | Smith.MatrixSdk/ApiTypes/Sync.cs:219-230 | decoding and re-encoding a state event keeps every unpromoted key with its value and every required field as it was |
| SyncCodec.StateEventPrevContent | Smith.MatrixSdk/ApiTypes/Sync.cs:227 | a missing `prev_content` is none; a present one is kept as it is |
| SyncCodec.DecodeStrippedState | Smith.MatrixSdk/ApiTypes/Sync.cs:262-268 | all four members are required, and each decoded member is the input's value |
| SyncCodec.EncodeStrippedState | Smith.MatrixSdk/ApiTypes/Sync.cs:262-268 | exactly the four member keys are written |
| SyncCodec.StrippedStateRoundTrip | Smith.MatrixSdk/ApiTypes/Sync.cs:262-268 | a stripped state event survives encoding and decoding |
| SyncCodec.StrippedStateIgnoresUnknownKeys | Smith.MatrixSdk/ApiTypes/Sync.cs:262-268 | keys outside content, state_key, type and sender do not change what a stripped state event decodes to |
| SyncCodec.DecodeEvents | Smith.MatrixSdk/ApiTypes/Sync.cs:84 | every decoded event of a list is well formed |
| SyncCodec.EncodeEvents | Smith.MatrixSdk/ApiTypes/Sync.cs:84 | one item per event |
| SyncCodec.EventsRoundTrip | Smith.MatrixSdk/ApiTypes/Sync.cs:84 | a list of well-formed events survives encoding and decoding |
| SyncCodec.DecodeRoomEvents | Smith.MatrixSdk/ApiTypes/Sync.cs:184 | every decoded room event of a list is well formed |
| SyncCodec.EncodeRoomEvents | Smith.MatrixSdk/ApiTypes/Sync.cs:184 | one item per room event |
| SyncCodec.RoomEventsRoundTrip | Smith.MatrixSdk/ApiTypes/Sync.cs:184 | a list of well-formed room events survives encoding and decoding |
| SyncCodec.DecodeStateEvents | Smith.MatrixSdk/ApiTypes/Sync.cs:175 | every decoded state event of a list is well formed |
| SyncCodec.EncodeStateEvents | Smith.MatrixSdk/ApiTypes/Sync.cs:175 | one item per state event |
| SyncCodec.StateEventsRoundTrip | Smith.MatrixSdk/ApiTypes/Sync.cs:175 | a list of well-formed state events survives encoding and decoding |
| SyncCodec.DecodeStrippedStates | Smith.MatrixSdk/ApiTypes/Sync.cs:196 | a decoded list has one stripped state event per item |
| SyncCodec.EncodeStrippedStates | Smith.MatrixSdk/ApiTypes/Sync.cs:196 | one item per stripped state event |
| SyncCodec.DecodeStrings | Smith.MatrixSdk/ApiTypes/Sync.cs:169 | a list decodes exactly when every item is a string, and then item by item |
| SyncCodec.EncodeStrings | Smith.MatrixSdk/ApiTypes/Sync.cs:169 | one item per string |
| SyncCodec.StrippedStatesRoundTrip | Smith.MatrixSdk/ApiTypes/Sync.cs:196 | a list of stripped state events survives encoding and decoding |
| SyncCodec.StringsRoundTrip | Smith.MatrixSdk/ApiTypes/Sync.cs:169 | a list of strings survives encoding and decoding |
| SyncCodec.DecodePresence | Smith.MatrixSdk/ApiTypes/Sync.cs:84 | decoded presence is well formed |
| SyncCodec.EncodePresence | Smith.MatrixSdk/ApiTypes/Sync.cs:84 | exactly the `events` key is written, null exactly when the list is missing |
| SyncCodec.PresenceRoundTrip | Smith.MatrixSdk/ApiTypes/Sync.cs:84 | well-formed presence survives encoding and decoding |
| SyncCodec.DecodeAccountData | Smith.MatrixSdk/ApiTypes/Sync.cs:87 | decoded account data is well formed |
| SyncCodec.EncodeAccountData | Smith.MatrixSdk/ApiTypes/Sync.cs:87 | exactly the `events` key is written, null exactly when the list is missing |
| SyncCodec.AccountDataRoundTrip | Smith.MatrixSdk/ApiTypes/Sync.cs:87 | well-formed account data survives encoding and decoding |
| SyncCodec.DecodeEphemeral | Smith.MatrixSdk/ApiTypes/Sync.cs:187 | decoded ephemeral events are well formed |
| SyncCodec.EncodeEphemeral | Smith.MatrixSdk/ApiTypes/Sync.cs:187 | exactly the `events` key is written, null exactly when the list is missing |
| SyncCodec.EphemeralRoundTrip | Smith.MatrixSdk/ApiTypes/Sync.cs:187 | well-formed ephemeral events survive encoding and decoding |
| SyncCodec.DecodeState | Smith.MatrixSdk/ApiTypes/Sync.cs:175 | decoded room state is well formed |
| SyncCodec.EncodeState | Smith.MatrixSdk/ApiTypes/Sync.cs:175 | exactly the `events` key is written, null exactly when the list is missing |
| SyncCodec.StateRoundTrip | Smith.MatrixSdk/ApiTypes/Sync.cs:175 | well-formed room state survives encoding and decoding |
| SyncCodec.DecodeTimeline | Smith.MatrixSdk/ApiTypes/Sync.cs:184 | a decoded timeline is well formed |
| SyncCodec.EncodeTimeline | Smith.MatrixSdk/ApiTypes/Sync.cs:184 | exactly `events`, `limited` and `prev_batch` are written, each null exactly when the member is missing |
| SyncCodec.TimelineRoundTrip | Smith.MatrixSdk/ApiTypes/Sync.cs:184 | a well-formed timeline, with `limited` and `prev_batch`, survives encoding and decoding |
| SyncCodec.DecodeInviteState | Smith.MatrixSdk/ApiTypes/Sync.cs:196 | `events` is present exactly when its key holds a non-null value |
| SyncCodec.EncodeInviteState | Smith.MatrixSdk/ApiTypes/Sync.cs:196 | exactly the `events` key is written, null exactly when the list is missing |
| SyncCodec.InviteStateRoundTrip | Smith.MatrixSdk/ApiTypes/Sync.cs:196 | invite state survives encoding and decoding |
| SyncCodec.DecodeRoomSummary | Smith.MatrixSdk/ApiTypes/Sync.cs:167-172 | each member is present exactly when its `m.`-prefixed key holds a non-null value |
| SyncCodec.EncodeRoomSummary | Smith.MatrixSdk/ApiTypes/Sync.cs:167-172 | exactly the three override names are written, each null exactly when the member is missing |
| SyncCodec.RoomSummaryRoundTrip | Smith.MatrixSdk/ApiTypes/Sync.cs:167-172 | a room summary survives encoding and decoding under its override names |
| SyncCodec.RoomSummaryUsesOverrideNames | Smith.MatrixSdk/ApiTypes/Sync.cs:169-171 | `m.heroes` and `m.joined_member_count` are read, while the snake-case spellings `heroes` and `joined_member_count` are unknown keys and leave every field none |
| SyncCodec.DecodeUnreadNotificationCounts | Smith.MatrixSdk/ApiTypes/Sync.cs:193 | each count is present exactly when its key holds a non-null value |
| SyncCodec.EncodeUnreadNotificationCounts | Smith.MatrixSdk/ApiTypes/Sync.cs:193 | exactly the two count keys are written, each null exactly when the count is missing |
| SyncCodec.UnreadNotificationCountsRoundTrip | Smith.MatrixSdk/ApiTypes/Sync.cs:193 | notification counts survive encoding and decoding |
| SyncCodec.DecodeJoinedRoom | Smith.MatrixSdk/ApiTypes/Sync.cs:103-111 | a decoded joined room is well formed |
| SyncCodec.EncodeJoinedRoom | Smith.MatrixSdk/ApiTypes/Sync.cs:103-111 | exactly the six member keys are written, each null exactly when the member is missing |
| SyncCodec.DecodeJoinedRoomFields | Smith.MatrixSdk/ApiTypes/Sync.cs:103-111 | a joined room is decoded from any object whose six keys decode to its parts |
| SyncCodec.JoinedRoomFieldsRoundTrip1 | Smith.MatrixSdk/ApiTypes/Sync.cs:105-106 | an encoded joined room's `summary` and `state` read back as they were |
| SyncCodec.JoinedRoomFieldsRoundTrip2 | Smith.MatrixSdk/ApiTypes/Sync.cs:107-108 | an encoded joined room's `timeline` and `ephemeral` read back as they were |
| SyncCodec.JoinedRoomFieldsRoundTrip3 | Smith.MatrixSdk/ApiTypes/Sync.cs:109-110 | an encoded joined room's `account_data` and `unread_notifications` read back as they were |
| SyncCodec.JoinedRoomRoundTrip | Smith.MatrixSdk/ApiTypes/Sync.cs:103-111 | a well-formed joined room survives encoding and decoding |
| SyncCodec.DecodeInvitedRoom | Smith.MatrixSdk/ApiTypes/Sync.cs:121 | `invite_state` is present exactly when its key holds a non-null value |
| SyncCodec.EncodeInvitedRoom | Smith.MatrixSdk/ApiTypes/Sync.cs:121 | exactly the `invite_state` key is written, null exactly when the member is missing |
| SyncCodec.InvitedRoomRoundTrip | Smith.MatrixSdk/ApiTypes/Sync.cs:121 | an invited room survives encoding and decoding |
| SyncCodec.DecodeLeftRoom | Smith.MatrixSdk/ApiTypes/Sync.cs:128 | a decoded left room is well formed |
| SyncCodec.EncodeLeftRoom | Smith.MatrixSdk/ApiTypes/Sync.cs:128 | exactly `state`, `timeline` and `account_data` are written, each null exactly when the member is missing |
| SyncCodec.LeftRoomRoundTrip | Smith.MatrixSdk/ApiTypes/Sync.cs:128 | a well-formed left room survives encoding and decoding |
| SyncCodec.DecodeJoinedRooms | Smith.MatrixSdk/ApiTypes/Sync.cs:78 | every decoded joined room of the dictionary is well formed |
| SyncCodec.EncodeJoinedRooms | Smith.MatrixSdk/ApiTypes/Sync.cs:78 | one entry per room id |
| SyncCodec.DecodeInvitedRooms | Smith.MatrixSdk/ApiTypes/Sync.cs:79 | a decoded dictionary has exactly the input's room ids |
| SyncCodec.EncodeInvitedRooms | Smith.MatrixSdk/ApiTypes/Sync.cs:79 | one entry per room id |
| SyncCodec.DecodeLeftRooms | Smith.MatrixSdk/ApiTypes/Sync.cs:80 | every decoded left room of the dictionary is well formed |
| SyncCodec.EncodeLeftRooms | Smith.MatrixSdk/ApiTypes/Sync.cs:80 | one entry per room id |
| SyncCodec.DecodeRooms | Smith.MatrixSdk/ApiTypes/Sync.cs:76-81 | decoded rooms are well formed |
| SyncCodec.EncodeRooms | Smith.MatrixSdk/ApiTypes/Sync.cs:76-81 | exactly `join`, `invite` and `leave` are written, each null exactly when the member is missing |
| SyncCodec.RoomsRoundTrip | Smith.MatrixSdk/ApiTypes/Sync.cs:76-81 | well-formed join, invite and leave dictionaries survive encoding and decoding, each absent or present on its own |
| SyncCodec.DecodeSyncResponse | Smith.MatrixSdk/ApiTypes/Sync.cs:63-69 | a decoded snapshot is well formed |
| SyncCodec.EncodeSyncResponse | Smith.MatrixSdk/ApiTypes/Sync.cs:63-69 | exactly the four member keys are written: `next_batch` as the token string, and `rooms`, `presence` and `account_data` each null exactly when missing |
| SyncCodec.DecodeSyncResponseFields | Smith.MatrixSdk/ApiTypes/Sync.cs:63-69 | a snapshot is decoded from any object whose four keys decode to its parts |
| SyncCodec.SyncResponseFieldsRoundTrip | Smith.MatrixSdk/ApiTypes/Sync.cs:63-69 | an encoded snapshot's four keys read back as they were |
| SyncCodec.SyncResponseRoomsRoundTrip | Smith.MatrixSdk/ApiTypes/Sync.cs:66 | an encoded snapshot's `rooms` reads back as it was |
| SyncCodec.SyncResponseRoundTrip | Smith.MatrixSdk/ApiTypes/Sync.cs:63-69 | every well-formed snapshot survives encoding and decoding, down to the last catch-all entry |
| SyncCodec.SyncResponseReencodeStable | Smith.MatrixSdk.Tests/SyncTests.cs:471 | encoding a decoded snapshot and decoding it again gives the same snapshot |
| SyncCodec.SyncResponseParts | Smith.MatrixSdk/ApiTypes/Sync.cs:63-69 | `next_batch` is the wire string; rooms, presence and account_data are each present exactly when their key holds a non-null value |
| SyncCodec.SyncResponseRequiresNextBatch | Smith.MatrixSdk/ApiTypes/Sync.cs:65 | a snapshot without `next_batch` is a missing-field error |
| SyncCodec.CursorOnlySnapshot | Smith.MatrixSdk.Tests/SyncTests.cs:27-32 | a snapshot with only `next_batch` decodes with rooms, presence and account data absent |
| SyncCodec.EmptyLeaveIsPresent | Smith.MatrixSdk.Tests/SyncTests.cs:261 | `"leave": {}` decodes to a present empty dictionary, and a missing `leave` to none |
| SyncCodec.PresenceEventSample | Smith.MatrixSdk.Tests/SyncTests.cs:117-118 | a presence event's `sender` lands in the catch-all |
| SyncCodec.AccountDataEventSample | Smith.MatrixSdk/ApiTypes/Sync.cs:139 | an event with only `content` and `type` has a null catch-all |
| SyncCodec.TimelineEventSample | Smith.MatrixSdk.Tests/SyncTests.cs:171-179 | a timeline room event keeps `room_id` and `state_key` in its catch-all |
| SyncCodec.StateEventSample | Smith.MatrixSdk.Tests/SyncTests.cs:152-159 | a state event promotes `state_key`, keeps only `room_id` in its catch-all, and has no previous content |

## Left out

- HTTP transport: sending the request, reading the response text and parsing JSON text are not modelled. A call's outcome comes from the oracle: a delivered status with a JSON body, an aborted call or a transport fault. An empty body, which the serializer reads as null, is not distinguished from a `null` body.
- `QueryHelpers.AddQueryString`, the escaping of the query into the URI: the query stays a map.
- `MatrixApiUris.Sync` is not part of this model: the sync path is the `syncUri` parameter of `Poller`.
- Rx plumbing: `Observable.Create` and the forwarding of the task's end to the observer are not modelled. Neither are exceptions thrown by a subscriber's `OnNext`. The stream's end is the `Status` of the loop.
- Cancellation is a tick at the loop head plus the `Aborted` outcome of a call. How promptly an in-flight call is aborted is not modelled, nor any bound on the time it takes.
- Logging calls: they have no effect on the state.
- `Login`, `Post` and the login records: one stateless request with no logic beyond serialisation.
- The example applications and the test scaffolding.
- `NotNull` helpers: modelled as the `NullBody` error of `MatrixClient.GetResult`, not separately.
- Floating point: `(int)longPollingTimeout.TotalMilliseconds` is not modelled, and the timeout is taken as 32-bit milliseconds. A non-integer JSON number is kept as its text (`JFloat`).
- The snake-case naming strategy is not re-implemented. Each record's wire keys are written out as a table in `SyncCodec.dfy`.
- Serializer coercions, such as a string holding digits read into an integer member, are not modelled. Such a value is a type error.
- SyncCodec.DecodeSyncResponse: `next_batch` is required. In the program a 2xx body without it deserialises with a null `NextBatch`; the loop emits that snapshot and sets `since` back to null, so the next request is the first one again (Smith.MatrixSdk/MatrixClient.cs:60-61). In the model such a body fails with `BadBody(MissingField("next_batch"))` and the stream ends `Failed`. `EventPolling.CursorChain`, which says `since` is set after every success, rests on this.
- SyncCodec.DecodeEvent (and every record decoder): keys are matched exactly. The serializer falls back to a case-insensitive match of member names, so a `"Content"` key would bind to `Content` rather than go into the catch-all; the model puts it in the catch-all.
- SyncCodec.DecodeEvent (and every record decoder): a non-nullable member (`Content`, `Type`, `NextBatch`, `EventId`, ...) is modelled as required, so a missing or null key is a decode error. The serializer itself would leave null or 0 there.
- SyncCodec.DecodeItems users: a null element inside a list or dictionary is a decode error. The serializer would keep a null element.
- Json.DecodeDict: on failure it reports a type error for the dictionary as a whole, not the first failing key.
- SyncCodec.EventRoundTrip (and the other event round trips): a catch-all key that collides with a promoted key is excluded by precondition. What the serializer does with such a collision is not modelled.
- MatrixClient.ToLower: lower-cases ASCII letters only. Every text the client lower-cases is an ASCII member name.
- MatrixClient.AuthHeaderRoundTrip: does not check the token's character set (the b64token syntax of section 2.1 of RFC 6750). A token with a space still reads back, because the parameter runs to the end of the header.
- EventPolling.Step: the cursor move and the emission happen in one step of the specification. `Poller.Iterate` assigns the cursor and then the emitted list, in the source's order; no subscriber code runs between them in the model.
