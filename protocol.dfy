/**
 * What passes between the component and the video-room plugin of the gateway:
 * opaque tokens for the library's objects, the messages the plugin delivers,
 * the request bodies the component sends, and the calls it makes on the
 * library, recorded as effects.
 */
module Protocol {
  import opened Wrappers

  /** A plugin handle (the publisher handle or one subscriber handle), by identity only. */
  datatype Handle = Handle(token: nat)

  /** A session description (offer or answer) produced by the library. */
  datatype Sdp = Sdp(token: nat)

  /** A remote media stream handed over by the library. */
  datatype MediaStream = MediaStream(token: nat)

  /** One entry of the `publishers` list of a message. */
  datatype Publisher = Publisher(id: nat, display: string)

  /**
   * A message delivered to the publisher handle's `onmessage`. Fields absent
   * from the message are None. Anything that is not a "joined" or "event"
   * message of the video room (no message, no `videoroom` field, another
   * `videoroom` value) is Unhandled.
   */
  datatype RoomMessage =
    | Joined(id: nat, publishers: Option<seq<Publisher>>)
    | Event(publishers: Option<seq<Publisher>>, leaving: Option<nat>, error: Option<string>)
    | Unhandled

  /** The `ptype` of a join request, with the field that goes with it. */
  datatype PeerType = AsPublisher(display: string) | AsSubscriber(feed: nat)

  /** The body of a request sent on a plugin handle. */
  datatype Request =
    | Join(room: int, ptype: PeerType)
    | Configure(audio: bool, video: bool)
    | Start(room: int)
    | Leave

  /** A call the component makes on the library, in the order it makes them. */
  datatype Effect =
    | Send(target: Handle, body: Request, jsep: Option<Sdp>)
    | Detach(target: Handle)
    | AttachSubscriber(feedId: string, display: string)
    | CreateOffer(audioSend: bool, videoSend: bool)
    | CreateAnswer(target: Handle, offer: Sdp)

  /** The status line, as a token for each message the component shows. */
  datatype Status =
    | Initializing
    | PluginReady
    | PluginNotReady
    | JoiningRoom(room: int, username: string)
    | InRoom(room: int, selfId: nat)
    | PublishingFeed
    | WebRtcError(message: string)
    | ServerError(error: string)
    | LeftRoom
}
