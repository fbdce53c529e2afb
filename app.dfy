/**
 The remote-stream bookkeeping of the `App` component (src/App.tsx).

 The component keeps its participant stream map in React state. The event
 handlers are registered once, from the first render, so every handler call
 goes through the `updateStreamMap` / `deleteFromStreamMap` closures of that
 render, which hold the map object of that render: the `captured` map below.
 Both helpers change `captured` in place and then publish a fresh copy as the
 new state: the `published` map below, which is what the grid renders.
 */
module App {
  import opened OrderedMap
  import opened JsMaps
  import opened Room

  class App {
    /** `room.getLocalParticipant().id` */
    const localId: ParticipantId
    /** The map object the registered handlers work on. */
    const captured: JsMap<MediaStream>
    /** The current React state `participantStreamMaps`. */
    var published: JsMap<MediaStream>
    /** The `addSubscription` calls made so far, oldest first. */
    var log: seq<Command>

    /**
     Both maps are well formed and hold the same entries in the same order:
     the published state never lags behind, or runs ahead of, the captured map.
     */
    ghost predicate Valid()
      reads this, captured, published
    {
      && captured.Valid()
      && published.Valid()
      && published.Model() == captured.Model()
    }

    /** The client state as the reducer of module Room sees it. */
    ghost function Abstract(): ClientState
      reads this, published
    {
      ClientState(published.Model(), log)
    }

    /**
     `Array.from(participantStreamMaps.values())`: what the grid shows. It is
     the captured map's values, in its insertion order.
     */
    function Rendered(): (r: seq<MediaStream>)
      reads this, captured, published
      requires Valid()
      ensures r == OrderedMap.Values(captured.Model())
      ensures |r| == |captured.keys|
    {
      published.Values()
    }

    /**
     The first render: the state is a new empty map, and that same object is
     the one the handlers capture.
     */
    constructor (localId: ParticipantId)
      ensures Valid() && this.localId == localId
      ensures published == captured && fresh(captured)
      ensures captured.Model() == OrderedMap.Empty() && log == []
    {
      this.localId := localId;
      var initial := new JsMap.Empty();
      captured := initial;
      published := initial;
      log := [];
    }

    /**
     `updateStreamMap(k, v)`: set on the captured map, then publish a copy.
     The published state becomes the previous published state with `k`
     upserted.
     */
    method UpdateStreamMap(k: ParticipantId, v: MediaStream)
      requires Valid()
      modifies this, captured
      ensures Valid() && fresh(published) && log == old(log)
      ensures published.Model() == OrderedMap.Set(old(published.Model()), k, v)
    {
      captured.Set(k, v);
      published := new JsMap.Copy(captured);
    }

    /**
     `deleteFromStreamMap(k)`: delete from the captured map, copy it, delete
     from the copy again, and publish a copy of that. The published state
     becomes the previous published state without `k`.
     */
    method DeleteFromStreamMap(k: ParticipantId)
      requires Valid()
      modifies this, captured
      ensures Valid() && fresh(published) && log == old(log)
      ensures published.Model() == OrderedMap.Delete(old(published.Model()), k)
    {
      var wasPresent := captured.Delete(k);
      var copy := new JsMap.Copy(captured);
      var stillPresent := copy.Delete(k);
      DeleteIdempotent(old(captured.Model()), k);
      published := new JsMap.Copy(copy);
    }

    /**
     The connected handler: subscribe, with audio and video, to every stream
     of the snapshot that the local participant does not own, in stream order.
     */
    method OnConnected(state: State)
      requires Valid()
      modifies this
      ensures Valid() && published == old(published)
      ensures log == old(log) + CatchUp(state.streams, localId)
    {
      var streams := state.streams;
      var i := 0;
      while i < |streams|
        invariant 0 <= i <= |streams|
        invariant published == old(published)
        invariant log == old(log) + CatchUp(streams[..i], localId)
      {
        var stream := streams[i];
        CatchUpAppend(streams[..i], [stream], localId);
        assert streams[..i + 1] == streams[..i] + [stream];
        if stream.participantId != localId {
          log := log + [Subscribe(stream.participantId, stream.key)];
        }
        i := i + 1;
      }
      assert streams[..i] == streams;
    }

    /** The participant_joined handler only logs the newcomer's context. */
    method OnParticipantJoined(participantId: ParticipantId, state: State)
      requires Valid()
      requires participantId in state.participants
      ensures log == old(log) && published == old(published)
    {
    }

    /**
     The stream_published handler: nothing for a stream published by a
     participant of origin "local"; otherwise one subscription, with audio and
     video, to that stream.
     */
    method OnStreamPublished(participantId: ParticipantId, streamKey: StreamKey, state: State)
      requires Valid()
      requires participantId in state.participants
      modifies this
      ensures Valid() && published == old(published)
      ensures IsLocalOrigin(state.participants[participantId]) ==> log == old(log)
      ensures !IsLocalOrigin(state.participants[participantId]) ==>
                log == old(log) + [Subscribe(participantId, streamKey)]
    {
      var participant := state.participants[participantId];
      if participant.origin == "local" {
        return;
      }
      log := log + [Subscribe(participantId, streamKey)];
    }

    /**
     The subscription_started handler: bundle the stream's audio and video
     tracks into one `MediaStream` and upsert it under the participant id.
     */
    method OnSubscriptionStarted(participantId: ParticipantId, streamKey: StreamKey, state: State,
                                 remote: ParticipantStream)
      requires Valid()
      modifies this, captured
      ensures Valid() && log == old(log)
      ensures published.Model() == OrderedMap.Set(old(published.Model()), participantId, Combine(remote))
    {
      var remoteMediaStream := MediaStream([remote.audioTrack, remote.videoTrack]);
      UpdateStreamMap(participantId, remoteMediaStream);
    }

    /** The subscription_ended handler: delete by participant id; the stream key plays no part. */
    method OnSubscriptionEnded(participantId: ParticipantId, streamKey: StreamKey, state: State)
      requires Valid()
      modifies this, captured
      ensures Valid() && log == old(log)
      ensures published.Model() == OrderedMap.Delete(old(published.Model()), participantId)
    {
      DeleteFromStreamMap(participantId);
    }

    /** The session delivering one event to the handler registered for it. */
    method Dispatch(ev: Event)
      requires Valid() && WellFormed(ev)
      modifies this, captured
      ensures Valid()
      ensures Abstract() == Step(old(Abstract()), ev, localId)
    {
      match ev
      case Connected(st) => OnConnected(st);
      case ParticipantJoined(p, st) => OnParticipantJoined(p, st);
      case StreamPublished(p, k, st) => OnStreamPublished(p, k, st);
      case SubscriptionStarted(p, k, st, remote) => OnSubscriptionStarted(p, k, st, remote);
      case SubscriptionEnded(p, k, st) => OnSubscriptionEnded(p, k, st);
    }
  }

  /**
   A stream published by A, then started, then ended: one subscription is
   requested; while it runs the grid shows A's stream, and after it ends the
   grid is empty again.
   */
  method PublishStartEndScenario(remote: ParticipantStream)
    returns (commands: seq<Command>, whileActive: seq<MediaStream>, afterEnd: seq<MediaStream>)
    ensures commands == [AddSubscription("A", "cam", true, true)]
    ensures whileActive == [Combine(remote)]
    ensures afterEnd == []
  {
    var app := new App("B");
    var state := State(map["A" := Participant("A", "remote", ""), "B" := Participant("B", "local", "")],
                       [Stream("A", "cam")]);
    app.OnStreamPublished("A", "cam", state);
    app.OnSubscriptionStarted("A", "cam", state, remote);
    SetNewAppends(OrderedMap.Empty(), "A", Combine(remote));
    whileActive := app.Rendered();
    ghost var active := app.published.Model();
    app.OnSubscriptionEnded("A", "cam", state);
    DeleteClosesGap(active, "A", 0);
    afterEnd := app.Rendered();
    commands := app.log;
  }

  /**
   Two subscriptions of one participant (camera, then screen) leave a single
   grid entry holding the later stream.
   */
  method TwoStreamsOneParticipantScenario(cam: ParticipantStream, screen: ParticipantStream)
    returns (shown: seq<MediaStream>)
    ensures shown == [Combine(screen)]
  {
    var app := new App("B");
    var state := State(map["A" := Participant("A", "remote", "")], [Stream("A", "cam"), Stream("A", "screen")]);
    app.OnSubscriptionStarted("A", "cam", state, cam);
    SetNewAppends(OrderedMap.Empty(), "A", Combine(cam));
    ghost var first := app.published.Model();
    app.OnSubscriptionStarted("A", "screen", state, screen);
    SetExistingKeepsPosition(first, "A", Combine(screen), 0);
    shown := app.Rendered();
  }

  /** The map values after upserting A, deleting A and upserting D, from empty. */
  lemma ValuesAfterStartEndStart(a: MediaStream, d: MediaStream)
    ensures Values(OrderedMap.Set(OrderedMap.Delete(OrderedMap.Set(OrderedMap.Empty(), "A", a), "A"), "D", d)) == [d]
  {
    var m1 := OrderedMap.Set(OrderedMap.Empty(), "A", a);
    assert m1.keys == ["A"];
    var m2 := OrderedMap.Delete(m1, "A");
    assert m2 == OrderedMap.Empty() by {
      WithoutAt(m1.keys, "A", 0);
    }
    SetNewAppends(OrderedMap.Empty(), "D", d);
  }

  /**
   A starts, A ends, then D starts. The upsert of D works on the map the
   handlers captured; because the delete of A also happened on that map, A
   does not come back: the grid shows D alone.
   */
  method RemovedStaysRemovedScenario(a: ParticipantStream, d: ParticipantStream)
    returns (shown: seq<MediaStream>)
    ensures shown == [Combine(d)]
  {
    var app := new App("B");
    var state := State(map[], []);
    ValuesAfterStartEndStart(Combine(a), Combine(d));
    app.OnSubscriptionStarted("A", "cam", state, a);
    app.OnSubscriptionEnded("A", "cam", state);
    app.OnSubscriptionStarted("D", "cam", state, d);
    shown := app.Rendered();
  }
}
