/**
 * Clients of the component, written only against the contracts of App: a
 * join with nobody in the room, a publisher who arrives and leaves, a mute,
 * and callbacks that arrive after leaving the room.
 */
module Scenarios {
  import opened Wrappers
  import opened Ids
  import opened Protocol
  import opened Membership
  import opened VideoRoom

  method JoinEmptyRoom() {
    var app := new App("alice");
    app.OnPluginAttached(Handle(1));
    app.JoinRoom();
    assert app.outbox == [Send(Handle(1), Join(1234, AsPublisher("alice")), None)];

    // Joined with nobody else in the room: joined, table empty, an offer is asked for.
    app.HandleOnMessage(Joined(9, Some([])));
    assert app.isJoined && app.participants == map[];
    assert app.outbox[|app.outbox| - 1] == CreateOffer(true, true);
    app.OnOfferCreated(Sdp(1));
    assert app.isPublishing;
    assert app.outbox[|app.outbox| - 1] == Send(Handle(1), Configure(true, true), Some(Sdp(1)));
  }

  method PublisherArrivesAndLeaves() {
    var app := new App("alice");
    app.OnPluginAttached(Handle(1));

    // A publisher arrives: one row with no stream, one subscriber attachment.
    var bob := Publisher(5, "bob");
    app.HandleOnMessage(Event(Some([bob]), None, None));
    var key := IdString(5);
    assert Listed([bob], key);
    assert key in app.participants && app.participants[key].stream == None;
    assert app.outbox[|app.outbox| - 1] == AttachSubscriber(key, "bob");
    app.OnSubscriberAttached(5, Handle(2));
    assert app.outbox[|app.outbox| - 1] == Send(Handle(2), Join(1234, AsSubscriber(5)), None);
    app.OnRemoteStream(5, Handle(2), MediaStream(7));
    assert app.participants[key].stream == Some(MediaStream(7));

    // The publisher leaves: row gone, its subscriber handle detached; a repeat changes nothing.
    app.HandleOnMessage(Event(None, Some(5), None));
    assert key !in app.participants && key !in app.feeds;
    assert app.outbox[|app.outbox| - 1] == Detach(Handle(2));
    var before := app.outbox;
    app.HandleOnMessage(Event(None, Some(5), None));
    assert app.outbox == before;
  }

  method MuteThenLeave() {
    var app := new App("alice");
    app.OnPluginAttached(Handle(1));
    app.OnOfferCreated(Sdp(1));

    // Muting twice sends two complete configures.
    app.ToggleAudio();
    assert app.outbox[|app.outbox| - 1] == Send(Handle(1), Configure(false, true), None);
    app.ToggleAudio();
    assert app.outbox[|app.outbox| - 1] == Send(Handle(1), Configure(true, true), None);
    app.ToggleVideo();
    assert app.outbox[|app.outbox| - 1] == Send(Handle(1), Configure(true, false), None);

    // Leaving the room keeps the media preferences.
    var _ := app.LeaveRoom();
    assert !app.isJoined && !app.isPublishing && app.participants == map[] && app.feeds == map[];
    assert app.isAudioEnabled && !app.isVideoEnabled;
  }

  method CallbacksAfterLeaving() {
    var app := new App("alice");
    app.OnPluginAttached(Handle(1));
    app.HandleOnMessage(Joined(9, Some([Publisher(7, "carol")])));
    var _ := app.LeaveRoom();
    var before := app.outbox;

    // The offer completes after leaving: no handle is left, so nothing happens.
    app.OnOfferCreated(Sdp(1));
    assert !app.isPublishing && app.outbox == before;

    // The subscriber's stream completes after leaving: the row comes back with
    // no display, and its handle is stored again.
    app.OnRemoteStream(7, Handle(3), MediaStream(8));
    var key := IdString(7);
    assert key in app.participants && app.participants[key].display == None;
    assert app.feeds[key] == Handle(3);
  }
}
