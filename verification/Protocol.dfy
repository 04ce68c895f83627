/** The parts of the relay's wire protocol that the model looks at. */
module Protocol {

  type ClientId = string
  type SessionId = string

  datatype PeerInfo = PeerInfo(clientId: ClientId, username: string, isOwner: bool)

  /** What a room event says. Payloads of relay-only messages are kept as opaque text. */
  datatype Body =
    | PeerJoined(peer: PeerInfo)
    | PeerLeft(clientId: ClientId, leaveReason: string, peerCount: nat)
    | OwnerChanged(newOwner: ClientId)
    | SessionEnded(reason: string)
    | Presence(presence: string)
    | SceneUpdate(scene: string)
    | CursorUpdate(cursor: string)
    | TextUpdate(text: string)
    | SceneInitRequest
    | SceneInitResponse(payload: string)
    | CredentialsChanged(credentialsReason: string)
    | TitleChanged(title: string)
    | AppMessage(kind: string, content: string, toClientIds: seq<ClientId>)
    | RoomJoined(self: ClientId, sessionId: SessionId, peers: map<ClientId, PeerInfo>, owner: ClientId)
    | Error(code: string, missing: seq<ClientId>)

  datatype Event = Event(eventId: nat, from: ClientId, body: Body)
}
