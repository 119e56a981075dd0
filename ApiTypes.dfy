/** The records of the sync endpoint (Smith.MatrixSdk/ApiTypes/Sync.cs). A
    nullable C# member is an `Option`; a collection is a `seq`, a dictionary
    a `map`; an open JSON object (`JObject`) is a `Json.Object`; the
    `AdditionalData` catch-all is an optional `Json.Object`. */
module ApiTypes {
  import opened Wrappers
  import opened Json

  /** The parameters of one `GET /sync` call. */
  datatype SyncRequest = SyncRequest(
    filter: Option<string>,
    since: Option<string>,
    fullState: Option<bool>,
    setPresence: Option<SetPresence>,
    timeout: Option<Int32>)

  /** `new SyncRequest()`: every parameter defaults to absent. */
  const DefaultSyncRequest := SyncRequest(None, None, None, None, None)

  datatype SetPresence = Offline | Online | Unavailable

  datatype SyncResponse = SyncResponse(
    nextBatch: string,
    rooms: Option<Rooms>,
    presence: Option<Presence>,
    accountData: Option<AccountData>)

  datatype Rooms = Rooms(
    join: Option<map<string, JoinedRoom>>,
    invite: Option<map<string, InvitedRoom>>,
    leave: Option<map<string, LeftRoom>>)

  datatype Presence = Presence(events: Option<seq<Event>>)

  datatype AccountData = AccountData(events: Option<seq<Event>>)

  datatype JoinedRoom = JoinedRoom(
    summary: Option<RoomSummary>,
    state: Option<State>,
    timeline: Option<Timeline>,
    ephemeral: Option<Ephemeral>,
    accountData: Option<AccountData>,
    unreadNotifications: Option<UnreadNotificationCounts>)

  datatype InvitedRoom = InvitedRoom(inviteState: Option<InviteState>)

  datatype LeftRoom = LeftRoom(state: Option<State>, timeline: Option<Timeline>, accountData: Option<AccountData>)

  datatype Event = Event(content: Object, eventType: string, additionalData: Option<Object>)

  datatype RoomSummary = RoomSummary(
    heroes: Option<seq<string>>,
    joinedMemberCount: Option<Int32>,
    invitedMemberCount: Option<Int32>)

  datatype State = State(events: Option<seq<StateEvent>>)

  datatype Timeline = Timeline(events: Option<seq<RoomEvent>>, limited: Option<bool>, prevBatch: Option<string>)

  datatype Ephemeral = Ephemeral(events: Option<seq<Event>>)

  datatype UnreadNotificationCounts = UnreadNotificationCounts(highlightCount: Option<Int32>, notificationCount: Option<Int32>)

  datatype InviteState = InviteState(events: Option<seq<StrippedState>>)

  datatype StateEvent = StateEvent(
    content: Object,
    eventType: string,
    eventId: string,
    sender: string,
    originServerTs: Int64,
    unsigned: Option<UnsignedData>,
    prevContent: Option<Object>,
    stateKey: string,
    additionalData: Option<Object>)

  datatype RoomEvent = RoomEvent(
    content: Object,
    eventType: string,
    eventId: string,
    sender: string,
    originServerTs: Int64,
    unsigned: Option<UnsignedData>,
    additionalData: Option<Object>)

  /** No catch-all: keys other than these four are not kept. */
  datatype StrippedState = StrippedState(content: Object, stateKey: string, eventType: string, sender: string)

  /** No catch-all either. */
  datatype UnsignedData = UnsignedData(age: Option<Int64>, redactedBecause: Option<Event>, transactionId: Option<string>)
}
