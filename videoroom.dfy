/**
 * The room-membership state machine of the video-chat component: the
 * handlers for the publisher handle's messages, the user's join, leave and
 * mute intents, the completions of publishing the local feed, and the
 * callbacks of each subscriber handle. Calls into the gateway library are
 * recorded, in order, in an outbox.
 */
module VideoRoom {
  import opened Wrappers
  import opened Ids
  import opened Protocol
  import opened Membership

  /** The branch of the message handler a message takes. */
  datatype Dispatch =
    | OnJoined(selfId: nat, publishers: seq<Publisher>)
    | OnPublishers(publishers: seq<Publisher>)
    | OnLeaving(leaving: nat)
    | OnError(error: string)
    | NoBranch

  /**
   * An "event" message is tested for publishers first (an empty list counts,
   * as an empty array is truthy), then for a leaving id, then for a non-empty
   * error; a "joined" message carries its publishers list, absent read as empty.
   */
  function Classify(msg: RoomMessage): (d: Dispatch)
    ensures d.OnJoined? <==> msg.Joined?
    ensures d.OnJoined? ==> d.selfId == msg.id && d.publishers == (if msg.publishers.Some? then msg.publishers.value else [])
    ensures d.OnPublishers? <==> msg.Event? && msg.publishers.Some?
    ensures d.OnPublishers? ==> d.publishers == msg.publishers.value
    ensures d.OnLeaving? <==> msg.Event? && msg.publishers.None? && msg.leaving.Some?
    ensures d.OnLeaving? ==> d.leaving == msg.leaving.value
    ensures d.OnError? <==> msg.Event? && msg.publishers.None? && msg.leaving.None? && msg.error.Some? && msg.error.value != ""
    ensures d.OnError? ==> d.error == msg.error.value
  {
    match msg
    case Joined(id, pubs) => OnJoined(id, if pubs.Some? then pubs.value else [])
    case Event(pubs, leaving, error) =>
      if pubs.Some? then OnPublishers(pubs.value)
      else if leaving.Some? then OnLeaving(leaving.value)
      else if error.Some? && error.value != "" then OnError(error.value)
      else NoBranch
    case Unhandled => NoBranch
  }

  /** One subscriber attachment per list entry, in list order, each for that entry's key and display. */
  function SubscribeRequests(pubs: seq<Publisher>): (r: seq<Effect>)
    ensures |r| == |pubs|
    ensures forall j :: 0 <= j < |pubs| ==> r[j] == AttachSubscriber(IdString(pubs[j].id), pubs[j].display)
  {
    if pubs == [] then []
    else
      var p := pubs[|pubs| - 1];
      SubscribeRequests(pubs[..|pubs| - 1]) + [AttachSubscriber(IdString(p.id), p.display)]
  }

  /** One detach per key of `order`, of the handle stored under it, in that order. */
  function DetachRequests(feeds: map<string, Handle>, order: seq<string>): (r: seq<Effect>)
    requires forall i :: 0 <= i < |order| ==> order[i] in feeds
    ensures |r| == |order|
    ensures forall i :: 0 <= i < |order| ==> r[i] == Detach(feeds[order[i]])
  {
    if order == [] then []
    else DetachRequests(feeds, order[..|order| - 1]) + [Detach(feeds[order[|order| - 1]])]
  }

  /** What leaving sends on the publisher handle, if there is one: a leave request, then the detach. */
  function LeaveRequests(handle: Option<Handle>): seq<Effect> {
    if handle.Some? then [Send(handle.value, Leave, None), Detach(handle.value)] else []
  }

  /** Publishing the local feed asks for an offer only when a publisher handle exists. */
  function OfferRequests(handle: Option<Handle>, audio: bool, video: bool): seq<Effect> {
    if handle.Some? then [CreateOffer(audio, video)] else []
  }

  predicate IsConfigure(e: Effect) {
    e.Send? && e.body.Configure?
  }

  /** The body of the most recent configure request among the first `n` effects, if any. */
  function LastConfigureBefore(out: seq<Effect>, n: nat): (r: Option<Request>)
    requires n <= |out|
    ensures r.Some? ==> r.value.Configure?
  {
    if n == 0 then None
    else if IsConfigure(out[n - 1]) then Some(out[n - 1].body)
    else LastConfigureBefore(out, n - 1)
  }

  /** The body of the most recent configure request sent, if any. */
  function LastConfigure(out: seq<Effect>): (r: Option<Request>)
    ensures r.Some? ==> r.value.Configure?
  {
    LastConfigureBefore(out, |out|)
  }

  lemma {:induction false} LastConfigureBeforePrefix(out: seq<Effect>, extra: seq<Effect>, n: nat)
    requires n <= |out|
    ensures LastConfigureBefore(out + extra, n) == LastConfigureBefore(out, n)
  {
    if n > 0 {
      assert (out + extra)[n - 1] == out[n - 1];
      LastConfigureBeforePrefix(out, extra, n - 1);
    }
  }

  lemma {:induction false} LastConfigureBeforeSkips(out: seq<Effect>, extra: seq<Effect>, n: nat)
    requires |out| <= n <= |out| + |extra|
    requires forall i :: 0 <= i < |extra| ==> !IsConfigure(extra[i])
    ensures LastConfigureBefore(out + extra, n) == LastConfigure(out)
  {
    if n == |out| {
      LastConfigureBeforePrefix(out, extra, n);
    } else {
      assert (out + extra)[n - 1] == extra[n - 1 - |out|];
      LastConfigureBeforeSkips(out, extra, n - 1);
    }
  }

  /** Effects that are not configure requests leave the last configure where it was. */
  lemma LastConfigureSkips(out: seq<Effect>, extra: seq<Effect>)
    requires forall i :: 0 <= i < |extra| ==> !IsConfigure(extra[i])
    ensures LastConfigure(out + extra) == LastConfigure(out)
  {
    LastConfigureBeforeSkips(out, extra, |out + extra|);
  }

  /** A configure just sent is the last configure. */
  lemma LastConfigureSent(out: seq<Effect>, h: Handle, audio: bool, video: bool, jsep: Option<Sdp>)
    ensures LastConfigure(out + [Send(h, Configure(audio, video), jsep)]) == Some(Configure(audio, video))
  {
  }

  /**
   * The `forEach` over a publishers list: builds the record of new rows and
   * asks for one subscriber attachment per entry.
   */
  method CollectPublishers(pubs: seq<Publisher>) returns (entries: Table, requests: seq<Effect>)
    ensures entries == PublisherEntries(pubs)
    ensures requests == SubscribeRequests(pubs)
  {
    entries, requests := map[], [];
    var i := 0;
    while i < |pubs|
      invariant 0 <= i <= |pubs|
      invariant entries == PublisherEntries(pubs[..i])
      invariant requests == SubscribeRequests(pubs[..i])
    {
      var p := pubs[i];
      var key := IdString(p.id);
      CollectStep(pubs, i);
      entries := entries[key := Participant(Some(key), Some(p.display), None)];
      requests := requests + [AttachSubscriber(key, p.display)];
      i := i + 1;
    }
    assert pubs[..|pubs|] == pubs;
  }

  /** One more list entry adds its row and its attachment at the end. */
  lemma CollectStep(pubs: seq<Publisher>, i: nat)
    requires i < |pubs|
    ensures PublisherEntries(pubs[..i + 1]) == PublisherEntries(pubs[..i])[IdString(pubs[i].id) := Entry(pubs[i])]
    ensures SubscribeRequests(pubs[..i + 1]) == SubscribeRequests(pubs[..i]) + [AttachSubscriber(IdString(pubs[i].id), pubs[i].display)]
  {
    var next := pubs[..i + 1];
    assert next[..i] == pubs[..i];
    assert next[i] == pubs[i];
  }

  /**
   * The `forEach` over the stored subscriber handles: one detach for each,
   * every key visited exactly once, in the order returned.
   */
  method DetachAll(feeds: map<string, Handle>) returns (sent: seq<Effect>, order: seq<string>)
    ensures forall i :: 0 <= i < |order| ==> order[i] in feeds
    ensures forall k :: k in feeds ==> k in order
    ensures forall i, j :: 0 <= i < j < |order| ==> order[i] != order[j]
    ensures sent == DetachRequests(feeds, order)
  {
    var pending := feeds.Keys;
    sent, order := [], [];
    while pending != {}
      invariant pending <= feeds.Keys
      invariant forall i :: 0 <= i < |order| ==> order[i] in feeds && order[i] !in pending
      invariant forall k :: k in feeds && k !in pending ==> k in order
      invariant forall i, j :: 0 <= i < j < |order| ==> order[i] != order[j]
      invariant sent == DetachRequests(feeds, order)
      decreases pending
    {
      var k :| k in pending;
      DetachRequestsSnoc(feeds, order, k);
      sent := sent + [Detach(feeds[k])];
      order := order + [k];
      pending := pending - {k};
    }
  }

  /** When `order` visits every stored key, every stored handle is detached. */
  lemma DetachRequestsCover(feeds: map<string, Handle>, order: seq<string>)
    requires forall i :: 0 <= i < |order| ==> order[i] in feeds
    requires forall k :: k in feeds ==> k in order
    ensures forall k :: k in feeds ==> Detach(feeds[k]) in DetachRequests(feeds, order)
  {
    forall k | k in feeds ensures Detach(feeds[k]) in DetachRequests(feeds, order) {
      var i :| 0 <= i < |order| && order[i] == k;
      assert DetachRequests(feeds, order)[i] == Detach(feeds[k]);
    }
  }

  lemma DetachRequestsSnoc(feeds: map<string, Handle>, order: seq<string>, k: string)
    requires forall i :: 0 <= i < |order| ==> order[i] in feeds
    requires k in feeds
    ensures DetachRequests(feeds, order + [k]) == DetachRequests(feeds, order) + [Detach(feeds[k])]
  {
    assert (order + [k])[..|order|] == order;
  }

  /** Every field of the component, as one value. */
  datatype AppState = AppState(
    status: Status,
    room: int,
    username: string,
    isJoined: bool,
    participants: Table,
    isPublishing: bool,
    isAudioEnabled: bool,
    isVideoEnabled: bool,
    pluginHandle: Option<Handle>,
    feeds: map<string, Handle>,
    outbox: seq<Effect>)

  class App {
    var status: Status
    var room: int
    var username: string
    var isJoined: bool
    var participants: Table
    var isPublishing: bool
    var isAudioEnabled: bool
    var isVideoEnabled: bool
    var pluginHandle: Option<Handle>
    var feeds: map<string, Handle>
    var outbox: seq<Effect>

    ghost function Snapshot(): AppState
      reads this
    {
      AppState(status, room, username, isJoined, participants, isPublishing,
               isAudioEnabled, isVideoEnabled, pluginHandle, feeds, outbox)
    }

    /**
     * Every stored subscriber handle belongs to a row of the table, rows are
     * well keyed, and while publishing there is a publisher handle and the last
     * configure sent carries both current media flags.
     */
    ghost predicate Valid()
      reads this
    {
      && feeds.Keys <= participants.Keys
      && WellKeyed(participants)
      && (isPublishing ==> pluginHandle.Some? && LastConfigure(outbox) == Some(Configure(isAudioEnabled, isVideoEnabled)))
    }

    /** The component's initial state; the random user name is a parameter. */
    constructor (username: string)
      ensures Valid()
      ensures Snapshot() == AppState(Initializing, 1234, username, false, map[], false, true, true, None, map[], [])
    {
      this.status := Initializing;
      this.room := 1234;
      this.username := username;
      this.isJoined := false;
      this.participants := map[];
      this.isPublishing := false;
      this.isAudioEnabled := true;
      this.isVideoEnabled := true;
      this.pluginHandle := None;
      this.feeds := map[];
      this.outbox := [];
    }

    /** The room field edited in the join form. */
    method SetRoom(r: int)
      requires Valid()
      modifies this
      ensures Valid()
      ensures Snapshot() == old(Snapshot()).(room := r)
    {
      room := r;
    }

    /** The name field edited in the join form. */
    method SetUsername(u: string)
      requires Valid()
      modifies this
      ensures Valid()
      ensures Snapshot() == old(Snapshot()).(username := u)
    {
      username := u;
    }

    /** The publisher handle arrives from a successful plugin attach. */
    method OnPluginAttached(h: Handle)
      requires Valid()
      modifies this
      ensures Valid()
      ensures Snapshot() == old(Snapshot()).(pluginHandle := Some(h), status := PluginReady)
    {
      pluginHandle := Some(h);
      status := PluginReady;
    }

    /** Without a publisher handle only the status changes; with one, exactly one publisher join is sent. */
    method JoinRoom()
      requires Valid()
      modifies this
      ensures Valid()
      ensures var s := old(Snapshot());
        if s.pluginHandle.None? then Snapshot() == s.(status := PluginNotReady)
        else Snapshot() == s.(status := JoiningRoom(s.room, s.username),
                              outbox := s.outbox + [Send(s.pluginHandle.value, Join(s.room, AsPublisher(s.username)), None)])
    {
      if pluginHandle.None? {
        status := PluginNotReady;
        return;
      }
      status := JoiningRoom(room, username);
      var sent := [Send(pluginHandle.value, Join(room, AsPublisher(username)), None)];
      LastConfigureSkips(outbox, sent);
      outbox := outbox + sent;
    }

    /** Asks for an offer with the current media flags, when a publisher handle exists. */
    method PublishOwnFeed()
      requires Valid()
      modifies this
      ensures Valid()
      ensures var s := old(Snapshot());
        if s.pluginHandle.None? then Snapshot() == s
        else Snapshot() == s.(status := PublishingFeed,
                              outbox := s.outbox + OfferRequests(s.pluginHandle, s.isAudioEnabled, s.isVideoEnabled))
    {
      if pluginHandle.None? {
        return;
      }
      status := PublishingFeed;
      var sent := OfferRequests(pluginHandle, isAudioEnabled, isVideoEnabled);
      LastConfigureSkips(outbox, sent);
      outbox := outbox + sent;
    }

    /**
     * The offer succeeded: one configure with the current flags goes out with
     * the offer and publishing starts. With no publisher handle left the
     * callback fails at the send and changes nothing.
     */
    method OnOfferCreated(offer: Sdp)
      requires Valid()
      modifies this
      ensures Valid()
      ensures isPublishing ==> LastConfigure(outbox) == Some(Configure(isAudioEnabled, isVideoEnabled))
      ensures var s := old(Snapshot());
        if s.pluginHandle.None? then Snapshot() == s
        else Snapshot() == s.(isPublishing := true,
                              outbox := s.outbox + [Send(s.pluginHandle.value, Configure(s.isAudioEnabled, s.isVideoEnabled), Some(offer))])
    {
      if pluginHandle.None? {
        return;
      }
      var sent := Send(pluginHandle.value, Configure(isAudioEnabled, isVideoEnabled), Some(offer));
      LastConfigureSent(outbox, pluginHandle.value, isAudioEnabled, isVideoEnabled, Some(offer));
      outbox := outbox + [sent];
      isPublishing := true;
    }

    /** The offer failed: only the status changes; the publishing flag is left as it was. */
    method OnOfferFailed(message: string)
      requires Valid()
      modifies this
      ensures Valid()
      ensures Snapshot() == old(Snapshot()).(status := WebRtcError(message))
    {
      status := WebRtcError(message);
    }

    /** A message on the publisher handle: one branch per kind of message. */
    method HandleOnMessage(msg: RoomMessage)
      requires Valid()
      modifies this
      ensures Valid()
      ensures var s := old(Snapshot());
        match Classify(msg)
        case OnJoined(selfId, pubs) =>
          Snapshot() == s.(status := if s.pluginHandle.Some? then PublishingFeed else InRoom(s.room, selfId),
                           isJoined := true,
                           participants := Announce(s.participants, pubs),
                           outbox := s.outbox + SubscribeRequests(pubs) + OfferRequests(s.pluginHandle, s.isAudioEnabled, s.isVideoEnabled))
        case OnPublishers(pubs) =>
          Snapshot() == s.(participants := Announce(s.participants, pubs),
                           outbox := s.outbox + SubscribeRequests(pubs))
        case OnLeaving(leaving) =>
          var key := IdString(leaving);
          Snapshot() == s.(participants := Without(s.participants, key),
                           feeds := s.feeds - {key},
                           outbox := s.outbox + (if key in s.feeds then [Detach(s.feeds[key])] else []))
        case OnError(e) =>
          Snapshot() == s.(status := ServerError(e))
        case NoBranch =>
          Snapshot() == s
    {
      match Classify(msg)
      case OnJoined(selfId, pubs) =>
        OnJoinedMessage(selfId, pubs);
      case OnPublishers(pubs) =>
        AnnouncePublishers(pubs);
      case OnLeaving(leaving) =>
        OnLeavingEvent(leaving);
      case OnError(e) =>
        status := ServerError(e);
      case NoBranch =>
    }

    /**
     * The room was joined: the joined flag is set, every listed publisher is
     * subscribed to and merged into the table, then publishing the local feed starts.
     */
    method OnJoinedMessage(selfId: nat, pubs: seq<Publisher>)
      requires Valid()
      modifies this
      ensures Valid()
      ensures var s := old(Snapshot());
        Snapshot() == s.(status := if s.pluginHandle.Some? then PublishingFeed else InRoom(s.room, selfId),
                         isJoined := true,
                         participants := Announce(s.participants, pubs),
                         outbox := s.outbox + SubscribeRequests(pubs) + OfferRequests(s.pluginHandle, s.isAudioEnabled, s.isVideoEnabled))
    {
      status := InRoom(room, selfId);
      isJoined := true;
      if |pubs| > 0 {
        AnnouncePublishers(pubs);
      } else {
        assert participants + PublisherEntries(pubs) == participants;
        assert outbox + SubscribeRequests(pubs) == outbox;
      }
      PublishOwnFeed();
    }

    /**
     * A publisher left: its row goes; if a subscriber handle is stored for
     * it, that handle is detached and forgotten. An unknown id changes nothing.
     */
    method OnLeavingEvent(leaving: nat)
      requires Valid()
      modifies this
      ensures Valid()
      ensures var s := old(Snapshot()); var key := IdString(leaving);
        Snapshot() == s.(participants := Without(s.participants, key),
                         feeds := s.feeds - {key},
                         outbox := s.outbox + (if key in s.feeds then [Detach(s.feeds[key])] else []))
    {
      var key := IdString(leaving);
      participants := Without(participants, key);
      if key in feeds {
        var sent := [Detach(feeds[key])];
        LastConfigureSkips(outbox, sent);
        outbox := outbox + sent;
        feeds := feeds - {key};
      } else {
        assert feeds - {key} == feeds;
        assert outbox + [] == outbox;
      }
    }

    /** Subscribes to every listed publisher, then merges the new rows into the table. */
    method AnnouncePublishers(pubs: seq<Publisher>)
      requires Valid()
      modifies this
      ensures Valid()
      ensures Snapshot() == old(Snapshot()).(participants := Announce(old(participants), pubs),
                                             outbox := old(outbox) + SubscribeRequests(pubs))
    {
      var entries, requests := CollectPublishers(pubs);
      LastConfigureSkips(outbox, requests);
      outbox := outbox + requests;
      assert participants + entries == Announce(participants, pubs);
      participants := participants + entries;
    }

    /**
     * Leaves the room: on the publisher handle, if any, a leave request and a
     * detach; then a detach of every stored subscriber handle, in `order`; the
     * tables empty and the joined and publishing flags cleared. The media
     * flags are kept.
     */
    method LeaveRoom() returns (ghost order: seq<string>)
      requires Valid()
      modifies this
      ensures Valid()
      ensures forall i :: 0 <= i < |order| ==> order[i] in old(feeds)
      ensures forall k :: k in old(feeds) ==> k in order
      ensures forall i, j :: 0 <= i < j < |order| ==> order[i] != order[j]
      ensures Snapshot() == old(Snapshot()).(status := LeftRoom, isJoined := false, participants := map[],
                                             isPublishing := false, pluginHandle := None, feeds := map[],
                                             outbox := old(outbox) + LeaveRequests(old(pluginHandle)) + DetachRequests(old(feeds), order))
      ensures isAudioEnabled == old(isAudioEnabled) && isVideoEnabled == old(isVideoEnabled)
    {
      var sent;
      sent, order := DetachAll(feeds);
      var head := outbox + LeaveRequests(pluginHandle);
      outbox := head + sent;
      pluginHandle := None;
      feeds := map[];
      participants := map[];
      isJoined := false;
      isPublishing := false;
      status := LeftRoom;
    }

    /**
     * While publishing with a handle, flips the audio flag and sends one
     * configure carrying the new audio value and the unchanged video value;
     * otherwise changes nothing.
     */
    method ToggleAudio()
      requires Valid()
      modifies this
      ensures Valid()
      ensures var s := old(Snapshot());
        if s.pluginHandle.Some? && s.isPublishing then
          Snapshot() == s.(isAudioEnabled := !s.isAudioEnabled,
                           outbox := s.outbox + [Send(s.pluginHandle.value, Configure(!s.isAudioEnabled, s.isVideoEnabled), None)])
        else Snapshot() == s
    {
      if pluginHandle.Some? && isPublishing {
        var newAudioState := !isAudioEnabled;
        isAudioEnabled := newAudioState;
        var sent := Send(pluginHandle.value, Configure(newAudioState, isVideoEnabled), None);
        LastConfigureSent(outbox, pluginHandle.value, newAudioState, isVideoEnabled, None);
        outbox := outbox + [sent];
      }
    }

    /** The video counterpart of ToggleAudio. */
    method ToggleVideo()
      requires Valid()
      modifies this
      ensures Valid()
      ensures var s := old(Snapshot());
        if s.pluginHandle.Some? && s.isPublishing then
          Snapshot() == s.(isVideoEnabled := !s.isVideoEnabled,
                           outbox := s.outbox + [Send(s.pluginHandle.value, Configure(s.isAudioEnabled, !s.isVideoEnabled), None)])
        else Snapshot() == s
    {
      if pluginHandle.Some? && isPublishing {
        var newVideoState := !isVideoEnabled;
        isVideoEnabled := newVideoState;
        var sent := Send(pluginHandle.value, Configure(isAudioEnabled, newVideoState), None);
        LastConfigureSent(outbox, pluginHandle.value, isAudioEnabled, newVideoState, None);
        outbox := outbox + [sent];
      }
    }

    // The callbacks of the subscriber handle attached for publisher `feed`;
    // `h` is the handle that attach delivered. The closure's key is IdString(feed).

    /** Attach succeeded: a subscriber join for this room and that publisher's feed goes out on `h`. */
    method OnSubscriberAttached(feed: nat, h: Handle)
      requires Valid()
      modifies this
      ensures Valid()
      ensures Snapshot() == old(Snapshot()).(outbox := old(outbox) + [Send(h, Join(old(room), AsSubscriber(feed)), None)])
    {
      var parsed := ParseInt(IdString(feed));
      ParseIntOfIdString(feed);
      var sent := [Send(h, Join(room, AsSubscriber(parsed.value)), None)];
      LastConfigureSkips(outbox, sent);
      outbox := outbox + sent;
    }

    /** A message carrying an offer makes the subscriber ask for an answer; other messages change nothing. */
    method OnSubscriberMessage(h: Handle, jsep: Option<Sdp>)
      requires Valid()
      modifies this
      ensures Valid()
      ensures Snapshot() == old(Snapshot()).(outbox := old(outbox) + (if jsep.Some? then [CreateAnswer(h, jsep.value)] else []))
    {
      if jsep.Some? {
        var sent := [CreateAnswer(h, jsep.value)];
        LastConfigureSkips(outbox, sent);
        outbox := outbox + sent;
      } else {
        assert outbox + [] == outbox;
      }
    }

    /** The answer succeeded: a start request for this room goes out on `h` with the answer. */
    method OnAnswerCreated(h: Handle, answer: Sdp)
      requires Valid()
      modifies this
      ensures Valid()
      ensures Snapshot() == old(Snapshot()).(outbox := old(outbox) + [Send(h, Start(old(room)), Some(answer))])
    {
      var sent := [Send(h, Start(room), Some(answer))];
      LastConfigureSkips(outbox, sent);
      outbox := outbox + sent;
    }

    /** The remote stream arrived: that row gets the stream and `h` is stored as its feed. */
    method OnRemoteStream(feed: nat, h: Handle, stream: MediaStream)
      requires Valid()
      modifies this
      ensures Valid()
      ensures var key := IdString(feed);
        Snapshot() == old(Snapshot()).(participants := WithStream(old(participants), key, stream),
                                       feeds := old(feeds)[key := h])
    {
      var key := IdString(feed);
      participants := WithStream(participants, key, stream);
      feeds := feeds[key := h];
    }

    /** The subscriber handle was cleaned up: its row and its stored feed go. */
    method OnCleanup(feed: nat)
      requires Valid()
      modifies this
      ensures Valid()
      ensures var key := IdString(feed);
        Snapshot() == old(Snapshot()).(participants := Without(old(participants), key),
                                       feeds := old(feeds) - {key})
    {
      var key := IdString(feed);
      participants := Without(participants, key);
      feeds := feeds - {key};
    }
  }
}
