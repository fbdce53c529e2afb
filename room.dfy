/**
 The room as the client sees it: the snapshot each session event carries, the
 commands the client sends back to the session, the subscription policy of the
 event handlers in `App` (src/App.tsx), and a reducer that says what each
 event does to the client's participant stream map and command log.
 */
module Room {
  import opened OrderedMap

  type ParticipantId = string
  type StreamKey = string

  /** A participant of the room; the SDK reports `origin` as "local" for the local user. */
  datatype Participant = Participant(participantId: ParticipantId, origin: string, context: string)

  /** A stream published in the room, named by its owner and its key. */
  datatype Stream = Stream(participantId: ParticipantId, key: StreamKey)

  /** The snapshot of the room that the session hands to every event handler. */
  datatype State = State(participants: map<ParticipantId, Participant>, streams: seq<Stream>)

  /** A media track (audio or video), opaque to the client. */
  datatype Track = Track(id: string)

  /** What `room.getParticipantStream(participantId, streamKey)` answers. */
  datatype ParticipantStream = ParticipantStream(audioTrack: Track, videoTrack: Track)

  /** The renderable handle the client keeps per participant: a `MediaStream` of tracks. */
  datatype MediaStream = MediaStream(tracks: seq<Track>)

  /** `room.addSubscription(participantId, streamKey, {audio, video})` */
  datatype Command = AddSubscription(participantId: ParticipantId, streamKey: StreamKey, audio: bool, video: bool)

  /**
   The session events the client registers handlers for. SubscriptionStarted
   also carries the session's answer to `getParticipantStream` for that stream.
   */
  datatype Event =
    | Connected(state: State)
    | ParticipantJoined(participantId: ParticipantId, state: State)
    | StreamPublished(participantId: ParticipantId, streamKey: StreamKey, state: State)
    | SubscriptionStarted(participantId: ParticipantId, streamKey: StreamKey, state: State, remote: ParticipantStream)
    | SubscriptionEnded(participantId: ParticipantId, streamKey: StreamKey, state: State)

  /**
   The participant_joined and stream_published handlers look the participant up
   in the snapshot and dereference the answer, so the session must list them.
   */
  predicate WellFormed(ev: Event)
  {
    match ev
    case ParticipantJoined(p, st) => p in st.participants
    case StreamPublished(p, _, st) => p in st.participants
    case _ => true
  }

  predicate IsLocalOrigin(p: Participant)
  {
    p.origin == "local"
  }

  /** Every subscription the client asks for requests both audio and video. */
  function Subscribe(p: ParticipantId, k: StreamKey): Command
  {
    AddSubscription(p, k, true, true)
  }

  /** The tracks of a remote stream bundled into one `MediaStream`. */
  function Combine(remote: ParticipantStream): MediaStream
  {
    MediaStream([remote.audioTrack, remote.videoTrack])
  }

  /**
   The subscriptions the connected handler issues, one per stream of the
   snapshot in stream order, skipping the streams the local participant owns.
   */
  function CatchUp(streams: seq<Stream>, localId: ParticipantId): (cmds: seq<Command>)
    ensures |cmds| <= |streams|
    ensures forall c :: c in cmds ==>
              && c.participantId != localId && c.audio && c.video
              && Stream(c.participantId, c.streamKey) in streams
  {
    if streams == [] then []
    else
      var s := streams[0];
      var rest := CatchUp(streams[1..], localId);
      if s.participantId == localId then rest else [Subscribe(s.participantId, s.key)] + rest
  }

  /** Catching up on two runs of streams is catching up on each, in order. */
  lemma {:induction false} CatchUpAppend(a: seq<Stream>, b: seq<Stream>, localId: ParticipantId)
    ensures CatchUp(a + b, localId) == CatchUp(a, localId) + CatchUp(b, localId)
  {
    if a != [] {
      assert (a + b)[1..] == a[1..] + b;
      CatchUpAppend(a[1..], b, localId);
    } else {
      assert a + b == b;
    }
  }

  /** Every stream owned by someone other than the local participant is subscribed to. */
  lemma {:induction false} CatchUpComplete(streams: seq<Stream>, localId: ParticipantId, i: nat)
    requires i < |streams| && streams[i].participantId != localId
    ensures Subscribe(streams[i].participantId, streams[i].key) in CatchUp(streams, localId)
  {
    if i > 0 {
      CatchUpComplete(streams[1..], localId, i - 1);
    }
  }

  /** With no local stream in the snapshot there is exactly one subscription per stream. */
  lemma {:induction false} CatchUpAllRemote(streams: seq<Stream>, localId: ParticipantId)
    requires forall i :: 0 <= i < |streams| ==> streams[i].participantId != localId
    ensures |CatchUp(streams, localId)| == |streams|
  {
    if streams != [] {
      CatchUpAllRemote(streams[1..], localId);
    }
  }

  /**
   A snapshot that mixes local and remote streams gives exactly one
   subscription per stream the local participant does not own.
   */
  lemma {:induction false} CatchUpCount(streams: seq<Stream>, localId: ParticipantId)
    ensures |CatchUp(streams, localId)| == |set i: nat | i < |streams| && streams[i].participantId != localId|
    decreases |streams|
  {
    if streams != [] {
      var n := |streams|;
      var init, last := streams[..n - 1], streams[n - 1];
      assert init + [last] == streams;
      CatchUpCount(init, localId);
      CatchUpAppend(init, [last], localId);
      var before := set i: nat | i < n - 1 && init[i].participantId != localId;
      var after := set i: nat | i < n && streams[i].participantId != localId;
      if last.participantId != localId {
        assert after == before + {n - 1};
      } else {
        assert after == before;
      }
    }
  }

  /** With only local streams in the snapshot nothing is subscribed to. */
  lemma {:induction false} CatchUpAllLocal(streams: seq<Stream>, localId: ParticipantId)
    requires forall i :: 0 <= i < |streams| ==> streams[i].participantId == localId
    ensures CatchUp(streams, localId) == []
  {
    if streams != [] {
      CatchUpAllLocal(streams[1..], localId);
    }
  }

  /**
   Connecting with participants A (remote) and B (local) and the single stream
   (A, "cam") subscribes to A's camera once and to nothing of B's.
   */
  lemma ConnectedScenario()
    ensures CatchUp([Stream("A", "cam")], "B") == [AddSubscription("A", "cam", true, true)]
  {
  }

  /** The commands a single event makes the client send, in order. */
  function Emitted(ev: Event, localId: ParticipantId): (cmds: seq<Command>)
    requires WellFormed(ev)
    ensures ev.StreamPublished? ==>
              (cmds == [] <==> IsLocalOrigin(ev.state.participants[ev.participantId]))
    ensures ev.StreamPublished? && cmds != [] ==> cmds == [Subscribe(ev.participantId, ev.streamKey)]
    ensures ev.Connected? ==> cmds == CatchUp(ev.state.streams, localId)
    ensures !ev.Connected? && !ev.StreamPublished? ==> cmds == []
  {
    match ev
    case Connected(st) => CatchUp(st.streams, localId)
    case StreamPublished(p, k, st) =>
      if IsLocalOrigin(st.participants[p]) then [] else [Subscribe(p, k)]
    case _ => []
  }

  /** What the client holds: the published participant stream map and the commands sent so far. */
  datatype ClientState = ClientState(streams: Entries<MediaStream>, log: seq<Command>)

  /**
   One event applied to the client. Only the subscription handlers touch the
   map: started upserts the participant's combined stream, ended deletes the
   participant whatever the stream key.
   */
  function Step(s: ClientState, ev: Event, localId: ParticipantId): (r: ClientState)
    requires Valid(s.streams) && WellFormed(ev)
    ensures Valid(r.streams)
    ensures r.log == s.log + Emitted(ev, localId)
    ensures ev.ParticipantJoined? ==> r == s
    ensures ev.Connected? || ev.StreamPublished? ==> r.streams == s.streams
    ensures ev.SubscriptionStarted? ==>
              && Get(r.streams, ev.participantId) == Some(Combine(ev.remote))
              && forall q :: q != ev.participantId ==> Get(r.streams, q) == Get(s.streams, q)
    ensures ev.SubscriptionEnded? ==>
              && Get(r.streams, ev.participantId) == None
              && forall q :: q != ev.participantId ==> Get(r.streams, q) == Get(s.streams, q)
  {
    var log := s.log + Emitted(ev, localId);
    match ev
    case SubscriptionStarted(p, _, _, remote) => ClientState(Set(s.streams, p, Combine(remote)), log)
    case SubscriptionEnded(p, _, _) => ClientState(Delete(s.streams, p), log)
    case _ => ClientState(s.streams, log)
  }

  /** A sequence of events applied one after the other. */
  function Run(s: ClientState, evs: seq<Event>, localId: ParticipantId): (r: ClientState)
    requires Valid(s.streams)
    requires forall i :: 0 <= i < |evs| ==> WellFormed(evs[i])
    ensures Valid(r.streams)
    decreases |evs|
  {
    if evs == [] then s else Run(Step(s, evs[0], localId), evs[1..], localId)
  }

  /**
   A stream_published snapshot that lists the local participant gives it origin
   "local". Other events need nothing: the connected handler compares ids.
   */
  predicate MarksLocal(ev: Event, localId: ParticipantId)
  {
    ev.StreamPublished? && localId in ev.state.participants ==> IsLocalOrigin(ev.state.participants[localId])
  }

  /** A single event never makes the client subscribe to the local participant's streams. */
  lemma EmittedNeverSelf(ev: Event, localId: ParticipantId)
    requires WellFormed(ev) && MarksLocal(ev, localId)
    ensures forall c :: c in Emitted(ev, localId) ==> c.participantId != localId
  {
  }

  /**
   The client never subscribes to its own streams: no command of a run names
   the local participant, as long as each stream_published snapshot that lists
   the local participant gives it origin "local".
   */
  lemma {:induction false} NeverSubscribesToSelf(s: ClientState, evs: seq<Event>, localId: ParticipantId)
    requires Valid(s.streams)
    requires forall i :: 0 <= i < |evs| ==> WellFormed(evs[i]) && MarksLocal(evs[i], localId)
    ensures |Run(s, evs, localId).log| >= |s.log|
    ensures Run(s, evs, localId).log[..|s.log|] == s.log
    ensures forall c :: c in Run(s, evs, localId).log[|s.log|..] ==> c.participantId != localId
    decreases |evs|
  {
    if evs != [] {
      var emitted := Emitted(evs[0], localId);
      EmittedNeverSelf(evs[0], localId);
      var next := Step(s, evs[0], localId);
      assert next.log == s.log + emitted;
      NeverSubscribesToSelf(next, evs[1..], localId);
      var r := Run(next, evs[1..], localId);
      assert r == Run(s, evs, localId);
      var later := r.log[|next.log|..];
      assert r.log == s.log + emitted + later by {
        assert r.log == r.log[..|next.log|] + later;
      }
      assert r.log[|s.log|..] == emitted + later;
    }
  }

  /**
   Started then ended for the same participant: the participant is in the map
   while the subscription runs and gone after it ends, whichever stream key the
   end names; every other participant's entry is as before.
   */
  lemma StartThenEnd(s: ClientState, p: ParticipantId, k1: StreamKey, k2: StreamKey,
                     st1: State, st2: State, remote: ParticipantStream, localId: ParticipantId)
    requires Valid(s.streams)
    ensures Get(Run(s, [SubscriptionStarted(p, k1, st1, remote)], localId).streams, p) == Some(Combine(remote))
    ensures Get(Run(s, [SubscriptionStarted(p, k1, st1, remote), SubscriptionEnded(p, k2, st2)], localId).streams, p) == None
    ensures forall q :: q != p ==>
              Get(Run(s, [SubscriptionStarted(p, k1, st1, remote), SubscriptionEnded(p, k2, st2)], localId).streams, q)
              == Get(s.streams, q)
  {
    var started := Step(s, SubscriptionStarted(p, k1, st1, remote), localId);
    assert Run(started, [SubscriptionEnded(p, k2, st2)], localId) == Step(started, SubscriptionEnded(p, k2, st2), localId);
  }
}
