/**
 * The client studio store: the local media stream, the participant tiles, one peer
 * connection per remote socket, and the signalling socket. Tracks, peer connections
 * and the socket are objects the store flips in place (enable, stop, close,
 * disconnect); the participant list is rebuilt by append, filter-by-id and
 * merge-by-id. Media capture, socket creation and WebRTC negotiation are inputs:
 * `getUserMedia` is an outcome passed in, and new peer connections record only the
 * socket they lead to.
 */
module StudioStore {
  import opened Common
  import NotificationStore

  class Track {
    var enabled: bool
    var stopped: bool

    constructor(enabled: bool)
      ensures this.enabled == enabled && !stopped
    {
      this.enabled, stopped := enabled, false;
    }
  }

  class MediaStream {
    const audioTracks: seq<Track>
    const videoTracks: seq<Track>

    constructor(audioTracks: seq<Track>, videoTracks: seq<Track>)
      ensures this.audioTracks == audioTracks && this.videoTracks == videoTracks
    {
      this.audioTracks, this.videoTracks := audioTracks, videoTracks;
    }

    /** `getTracks()`: the audio tracks, then the video tracks. */
    function Tracks(): seq<Track> {
      audioTracks + videoTracks
    }
  }

  class PeerConnection {
    /** The remote socket this connection leads to. */
    const target: string
    var closed: bool

    constructor(target: string)
      ensures this.target == target && !closed
    {
      this.target, closed := target, false;
    }
  }

  /** What the client emits on its socket. */
  datatype Emit = JoinRoom(roomId: string, displayName: string)

  class ClientSocket {
    var connected: bool
    var emitted: seq<Emit>

    constructor()
      ensures connected && emitted == []
    {
      connected, emitted := true, [];
    }
  }

  datatype Participant = Participant(
    id: string, name: string, isLocal: bool, audioEnabled: bool, videoEnabled: bool, stream: MediaStream?)

  /** A `Partial<Participant>`: the fields that are present override. */
  datatype ParticipantUpdate = ParticipantUpdate(
    id: Option<string>, name: Option<string>, isLocal: Option<bool>,
    audioEnabled: Option<bool>, videoEnabled: Option<bool>, stream: Option<MediaStream?>)

  /** A user reported by `existing-users`. */
  datatype User = User(id: string, name: string)

  // ---------------------------------------------------------------------------
  // Participant reducers

  /** `addParticipant`: appended at the end, with no check for an existing id. */
  function AddParticipant(ps: seq<Participant>, p: Participant): (r: seq<Participant>)
    ensures |r| == |ps| + 1 && r[..|ps|] == ps && r[|ps|] == p
  {
    assert (ps + [p])[..|ps|] == ps;
    ps + [p]
  }

  function NotId(id: string): Participant -> bool {
    (p: Participant) => p.id != id
  }

  /** `removeParticipant`: every entry with that id goes, every other entry stays. */
  function RemoveParticipant(ps: seq<Participant>, id: string): (r: seq<Participant>)
    ensures |r| <= |ps|
    ensures forall i :: 0 <= i < |r| ==> r[i] in ps && r[i].id != id
    ensures forall i :: 0 <= i < |ps| && ps[i].id != id ==> ps[i] in r
  {
    forall i | 0 <= i < |ps| ensures ps[i] in Filter(ps, NotId(id)) <==> ps[i].id != id {
      FilterIn(ps, NotId(id), ps[i]);
    }
    Filter(ps, NotId(id))
  }

  /** Every field the update carries has the update's value in `p`. */
  predicate Carries(p: Participant, u: ParticipantUpdate) {
    && (u.id.Some? ==> p.id == u.id.value)
    && (u.name.Some? ==> p.name == u.name.value)
    && (u.isLocal.Some? ==> p.isLocal == u.isLocal.value)
    && (u.audioEnabled.Some? ==> p.audioEnabled == u.audioEnabled.value)
    && (u.videoEnabled.Some? ==> p.videoEnabled == u.videoEnabled.value)
    && (u.stream.Some? ==> p.stream == u.stream.value)
  }

  /** Every field the update leaves out is the same in `p` and `q`. */
  predicate KeepsAbsent(p: Participant, q: Participant, u: ParticipantUpdate) {
    && (u.id.None? ==> p.id == q.id)
    && (u.name.None? ==> p.name == q.name)
    && (u.isLocal.None? ==> p.isLocal == q.isLocal)
    && (u.audioEnabled.None? ==> p.audioEnabled == q.audioEnabled)
    && (u.videoEnabled.None? ==> p.videoEnabled == q.videoEnabled)
    && (u.stream.None? ==> p.stream == q.stream)
  }

  /**
   * `{ ...p, ...updates }`: the fields present in the update win and the others are kept;
   * so an update the participant already carries changes nothing, and merging is idempotent.
   */
  function Merge(p: Participant, u: ParticipantUpdate): (r: Participant)
    ensures Carries(r, u) && KeepsAbsent(r, p, u)
    ensures Carries(p, u) ==> r == p
  {
    Participant(
      if u.id.Some? then u.id.value else p.id,
      if u.name.Some? then u.name.value else p.name,
      if u.isLocal.Some? then u.isLocal.value else p.isLocal,
      if u.audioEnabled.Some? then u.audioEnabled.value else p.audioEnabled,
      if u.videoEnabled.Some? then u.videoEnabled.value else p.videoEnabled,
      if u.stream.Some? then u.stream.value else p.stream)
  }

  function HasId(id: string): Participant -> bool {
    (p: Participant) => p.id == id
  }

  function MergeWith(u: ParticipantUpdate): Participant -> Participant {
    (p: Participant) => Merge(p, u)
  }

  /** `updateParticipant`: every entry with that id takes the present fields; nothing else changes. */
  function UpdateParticipant(ps: seq<Participant>, id: string, u: ParticipantUpdate): (r: seq<Participant>)
    ensures |r| == |ps|
    ensures forall i :: 0 <= i < |ps| ==> r[i] == if ps[i].id == id then Merge(ps[i], u) else ps[i]
  {
    MapWhere(ps, HasId(id), MergeWith(u))
  }

  function IsLocal(): Participant -> bool {
    (p: Participant) => p.isLocal
  }

  function WithAudio(on: bool): Participant -> Participant {
    (p: Participant) => p.(audioEnabled := on)
  }

  function WithVideo(on: bool): Participant -> Participant {
    (p: Participant) => p.(videoEnabled := on)
  }

  /** The local tiles show the new audio state; remote tiles are untouched. */
  function SetLocalAudio(ps: seq<Participant>, on: bool): (r: seq<Participant>)
    ensures |r| == |ps|
    ensures forall i :: 0 <= i < |ps| ==> r[i] == if ps[i].isLocal then ps[i].(audioEnabled := on) else ps[i]
  {
    MapWhere(ps, IsLocal(), WithAudio(on))
  }

  /** The local tiles show the new video state; remote tiles are untouched. */
  function SetLocalVideo(ps: seq<Participant>, on: bool): (r: seq<Participant>)
    ensures |r| == |ps|
    ensures forall i :: 0 <= i < |ps| ==> r[i] == if ps[i].isLocal then ps[i].(videoEnabled := on) else ps[i]
  {
    MapWhere(ps, IsLocal(), WithVideo(on))
  }

  /** The tile of a remote user: audio and video on, no stream yet. */
  function RemoteParticipant(id: string, name: string): Participant {
    Participant(id, name, false, true, true, null)
  }

  function RemoteParticipants(users: seq<User>): (ps: seq<Participant>)
    ensures |ps| == |users|
    ensures forall i :: 0 <= i < |users| ==> ps[i] == RemoteParticipant(users[i].id, users[i].name)
  {
    seq(|users|, i requires 0 <= i < |users| => RemoteParticipant(users[i].id, users[i].name))
  }

  /** The ids of the reported users. */
  function UserIds(users: seq<User>): set<string>
    decreases |users|
  {
    if users == [] then {} else UserIds(users[..|users| - 1]) + {users[|users| - 1].id}
  }

  lemma UsersSnoc(users: seq<User>, i: nat)
    requires i < |users|
    ensures RemoteParticipants(users[..i + 1]) == RemoteParticipants(users[..i]) + [RemoteParticipant(users[i].id, users[i].name)]
    ensures UserIds(users[..i + 1]) == UserIds(users[..i]) + {users[i].id}
  {
    assert users[..i + 1][..i] == users[..i];
  }

  /** Removing by id keeps the relative order of the entries that stay. */
  lemma RemoveSplits(a: seq<Participant>, b: seq<Participant>, id: string)
    ensures RemoveParticipant(a + b, id) == RemoveParticipant(a, id) + RemoveParticipant(b, id)
  {
    FilterConcat(a, b, NotId(id));
  }

  /** Adding a participant and removing its id is removing its id. */
  lemma AddThenRemove(ps: seq<Participant>, p: Participant)
    ensures RemoveParticipant(AddParticipant(ps, p), p.id) == RemoveParticipant(ps, p.id)
  {
    RemoveSplits(ps, [p], p.id);
    assert RemoveParticipant([p], p.id) == [];
    assert RemoveParticipant(ps, p.id) + [] == RemoveParticipant(ps, p.id);
  }

  /** After removal no entry carries the id, so a second removal changes nothing. */
  lemma {:induction false} RemoveIdempotent(ps: seq<Participant>, id: string)
    ensures RemoveParticipant(RemoveParticipant(ps, id), id) == RemoveParticipant(ps, id)
  {
    var r := RemoveParticipant(ps, id);
    assert forall i :: 0 <= i < |r| ==> NotId(id)(r[i]) by {
      forall i | 0 <= i < |r| ensures NotId(id)(r[i]) {
        assert r[i] in r;
      }
    }
    FilterAllKept(r, NotId(id));
  }

  // ---------------------------------------------------------------------------
  // Media errors

  const InUseMessage := "Your camera or microphone is already in use by another browser or application."
  const NotFoundMessage := "No camera or microphone found."
  const DeniedMessage := "Permission to use the camera and microphone was denied. Please update your browser settings."
  const GenericMessage := "Could not access camera/microphone. Please grant permission and ensure they are not in use."

  /** The message `initializeMedia` shows for a `getUserMedia` error of that name. */
  function MediaErrorMessage(name: string): (m: string)
    ensures m == InUseMessage <==> name == "NotReadableError" || name == "TrackStartError"
    ensures m == NotFoundMessage <==> name == "NotFoundError" || name == "DevicesNotFoundError"
    ensures m == DeniedMessage <==> name == "NotAllowedError" || name == "PermissionDeniedError"
    ensures m in {InUseMessage, NotFoundMessage, DeniedMessage, GenericMessage}
  {
    if name == "NotReadableError" || name == "TrackStartError" then InUseMessage
    else if name == "NotFoundError" || name == "DevicesNotFoundError" then NotFoundMessage
    else if name == "NotAllowedError" || name == "PermissionDeniedError" then DeniedMessage
    else GenericMessage
  }

  const StreamErrorNotice := NotificationStore.NotificationInput(
    Some("stream-error"), "Cannot connect without camera/mic access.", NotificationStore.Error, None)

  function JoinedNotice(id: string, name: string): NotificationStore.NotificationInput {
    NotificationStore.NotificationInput(Some("join-" + id), name + " has joined the session.", NotificationStore.Info, None)
  }

  // ---------------------------------------------------------------------------
  // The store

  class Studio {
    var isConnected: bool
    var isRecording: bool
    var localStream: MediaStream?
    var participants: seq<Participant>
    var peerConnections: map<string, PeerConnection>
    var socket: ClientSocket?
    var mediaPermissionGranted: bool
    var mediaError: Option<string>
    /** The notifications requested from the notification store, in order. */
    var notices: seq<NotificationStore.NotificationInput>

    constructor()
      ensures !isConnected && !isRecording && localStream == null && participants == []
      ensures peerConnections == map[] && socket == null && !mediaPermissionGranted
      ensures mediaError == None && notices == []
    {
      isConnected, isRecording, localStream, participants := false, false, null, [];
      peerConnections, socket, mediaPermissionGranted, mediaError, notices := map[], null, false, None, [];
    }

    function Peers(): set<PeerConnection>
      reads this
    {
      set id | id in peerConnections :: peerConnections[id]
    }

    /**
     * `initializeMedia`: the error is cleared; with a stream already present nothing
     * else happens; otherwise the captured stream is kept, or the error mapped to its message.
     */
    method InitializeMedia(capture: Result<MediaStream, string>)
      modifies this
      ensures old(localStream) != null ==>
                localStream == old(localStream) && mediaPermissionGranted == old(mediaPermissionGranted)
                && mediaError == None
      ensures old(localStream) == null && capture.Ok? ==>
                localStream == capture.value && mediaPermissionGranted && mediaError == None
      ensures old(localStream) == null && capture.Err? ==>
                localStream == null && !mediaPermissionGranted && mediaError == Some(MediaErrorMessage(capture.error))
      ensures isConnected == old(isConnected) && isRecording == old(isRecording)
      ensures participants == old(participants) && peerConnections == old(peerConnections)
      ensures socket == old(socket) && notices == old(notices)
    {
      mediaError := None;
      if localStream != null {
        return;
      }
      match capture
      case Ok(stream) =>
        localStream, mediaPermissionGranted := stream, true;
      case Err(name) =>
        mediaError, mediaPermissionGranted := Some(MediaErrorMessage(name)), false;
    }

    /**
     * `connectToSession`: without a local stream only the error notification is requested;
     * otherwise the new socket is stored and the store is connected. The handlers it
     * registers are the `On…` methods below.
     */
    method ConnectToSession(sock: ClientSocket)
      modifies this
      ensures old(localStream) == null ==>
                notices == old(notices) + [StreamErrorNotice] && socket == old(socket) && isConnected == old(isConnected)
      ensures old(localStream) != null ==>
                notices == old(notices) && socket == sock && isConnected
      ensures localStream == old(localStream) && participants == old(participants)
      ensures peerConnections == old(peerConnections) && isRecording == old(isRecording)
      ensures mediaPermissionGranted == old(mediaPermissionGranted) && mediaError == old(mediaError)
    {
      if localStream == null {
        notices := notices + [StreamErrorNotice];
        return;
      }
      socket, isConnected := sock, true;
    }

    /** The `connect` handler: the local tile alone, then `join-room` on the captured socket. */
    method OnConnect(sock: ClientSocket, socketId: string, sessionId: string, displayName: string, stream: MediaStream)
      modifies this`participants, sock`emitted
      ensures participants == [Participant(socketId, displayName + " (You)", true, true, true, stream)]
      ensures sock.emitted == old(sock.emitted) + [JoinRoom(sessionId, displayName)]
    {
      participants := [Participant(socketId, displayName + " (You)", true, true, true, stream)];
      sock.emitted := sock.emitted + [JoinRoom(sessionId, displayName)];
    }

    /**
     * The `existing-users` handler: one remote tile per user, in order, and a new peer
     * connection per user merged over the existing ones (a later user with the same id wins).
     */
    method OnExistingUsers(users: seq<User>)
      modifies this`participants, this`peerConnections
      ensures participants == old(participants) + RemoteParticipants(users)
      ensures peerConnections.Keys == old(peerConnections).Keys + UserIds(users)
      ensures forall id :: id in UserIds(users) ==>
                fresh(peerConnections[id]) && peerConnections[id].target == id && !peerConnections[id].closed
      ensures forall id :: id in old(peerConnections) && id !in UserIds(users) ==>
                peerConnections[id] == old(peerConnections)[id]
    {
      var pcs: map<string, PeerConnection> := map[];
      for i := 0 to |users|
        modifies this`participants
        invariant participants == old(participants) + RemoteParticipants(users[..i])
        invariant pcs.Keys == UserIds(users[..i])
        invariant forall id :: id in pcs ==> fresh(pcs[id]) && pcs[id].target == id && !pcs[id].closed
      {
        var pc := new PeerConnection(users[i].id);
        pcs := pcs[users[i].id := pc];
        participants := AddParticipant(participants, RemoteParticipant(users[i].id, users[i].name));
        UsersSnoc(users, i);
      }
      assert users[..|users|] == users;
      peerConnections := peerConnections + pcs;
    }

    /** The `user-joined` handler: a join notification, then a remote tile at the end. */
    method OnUserJoined(id: string, name: string)
      modifies this`participants, this`notices
      ensures notices == old(notices) + [JoinedNotice(id, name)]
      ensures participants == AddParticipant(old(participants), RemoteParticipant(id, name))
    {
      notices := notices + [JoinedNotice(id, name)];
      participants := AddParticipant(participants, RemoteParticipant(id, name));
    }

    /** The `offer` handler: a new connection to the sender replaces any earlier one, which is not closed. */
    method OnOffer(sender: string)
      modifies this`peerConnections
      ensures sender in peerConnections
      ensures peerConnections == old(peerConnections)[sender := peerConnections[sender]]
      ensures fresh(peerConnections[sender]) && peerConnections[sender].target == sender
      ensures !peerConnections[sender].closed
    {
      var pc := new PeerConnection(sender);
      peerConnections := peerConnections[sender := pc];
    }

    /** The `user-left` handler: the connection to that socket, if any, is closed and dropped; its tiles go. */
    method OnUserLeft(socketId: string)
      modifies this`peerConnections, this`participants, Peers()
      ensures socketId in old(peerConnections) ==> old(peerConnections)[socketId].closed
      ensures peerConnections == old(peerConnections) - {socketId}
      ensures participants == RemoveParticipant(old(participants), socketId)
      ensures forall pc :: pc in old(Peers()) && (socketId !in old(peerConnections) || pc != old(peerConnections)[socketId]) ==>
                pc.closed == old(pc.closed)
    {
      if socketId in peerConnections {
        var pc := peerConnections[socketId];
        pc.closed := true;
        peerConnections := peerConnections - {socketId};
      }
      participants := RemoveParticipant(participants, socketId);
    }

    /**
     * `disconnect`: the socket is disconnected, every local track stopped and every peer
     * connection closed; then everything but `isRecording` is reset.
     */
    method Disconnect()
      modifies this, socket, if localStream != null then localStream.Tracks() else [], Peers()
      ensures old(socket) != null ==> !old(socket).connected && old(socket).emitted == old(socket.emitted)
      ensures old(localStream) != null ==>
                forall t :: t in old(localStream).Tracks() ==> t.stopped && t.enabled == old(t.enabled)
      ensures forall pc :: pc in old(Peers()) ==> pc.closed
      ensures !isConnected && socket == null && participants == [] && localStream == null
      ensures peerConnections == map[] && !mediaPermissionGranted && mediaError == None
      ensures isRecording == old(isRecording) && notices == old(notices)
    {
      if socket != null {
        socket.connected := false;
      }
      if localStream != null {
        StopAll(localStream.Tracks());
      }
      CloseAll(Peers());
      isConnected, socket, participants, localStream := false, null, [], null;
      peerConnections, mediaPermissionGranted, mediaError := map[], false, None;
    }

    /** `toggleAudio`: with a local audio track, its flag flips and the local tiles follow it. */
    method ToggleAudio()
      modifies this`participants, if localStream != null && |localStream.audioTracks| > 0 then {localStream.audioTracks[0]} else {}
      ensures if localStream != null && |localStream.audioTracks| > 0 then
                var t := localStream.audioTracks[0];
                t.enabled == !old(t.enabled) && t.stopped == old(t.stopped)
                && participants == SetLocalAudio(old(participants), t.enabled)
              else participants == old(participants)
    {
      if localStream != null && |localStream.audioTracks| > 0 {
        var t := localStream.audioTracks[0];
        t.enabled := !t.enabled;
        participants := SetLocalAudio(participants, t.enabled);
      }
    }

    /** `toggleVideo`: with a local video track, its flag flips and the local tiles follow it. */
    method ToggleVideo()
      modifies this`participants, if localStream != null && |localStream.videoTracks| > 0 then {localStream.videoTracks[0]} else {}
      ensures if localStream != null && |localStream.videoTracks| > 0 then
                var t := localStream.videoTracks[0];
                t.enabled == !old(t.enabled) && t.stopped == old(t.stopped)
                && participants == SetLocalVideo(old(participants), t.enabled)
              else participants == old(participants)
    {
      if localStream != null && |localStream.videoTracks| > 0 {
        var t := localStream.videoTracks[0];
        t.enabled := !t.enabled;
        participants := SetLocalVideo(participants, t.enabled);
      }
    }
  }

  /** `track.stop()` on each track. */
  method StopAll(tracks: seq<Track>)
    modifies tracks
    ensures forall t :: t in tracks ==> t.stopped && t.enabled == old(t.enabled)
  {
    for i := 0 to |tracks|
      invariant forall j :: 0 <= j < i ==> tracks[j].stopped
      invariant forall t :: t in tracks ==> t.enabled == old(t.enabled)
    {
      tracks[i].stopped := true;
    }
  }

  /** `pc.close()` on each peer connection. */
  method CloseAll(peers: set<PeerConnection>)
    modifies peers
    ensures forall pc :: pc in peers ==> pc.closed
  {
    var open := peers;
    while open != {}
      invariant open <= peers
      invariant forall pc :: pc in peers - open ==> pc.closed
      decreases open
    {
      var pc :| pc in open;
      pc.closed := true;
      open := open - {pc};
    }
  }

  /** Toggling twice gives the local tiles back the flag they started with when it matched the track. */
  lemma ToggleTwiceRestores(ps: seq<Participant>, on: bool)
    requires forall i :: 0 <= i < |ps| && ps[i].isLocal ==> ps[i].audioEnabled == on
    ensures SetLocalAudio(SetLocalAudio(ps, !on), on) == ps
  {
    var r := SetLocalAudio(SetLocalAudio(ps, !on), on);
    assert forall i :: 0 <= i < |ps| ==> r[i] == ps[i];
  }
}
