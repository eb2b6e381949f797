/**
 * The bookkeeping of the `useWebRTC(roomID)` hook of a mesh video call.
 *
 * A `Session` holds what the hook keeps in refs and state: the peer
 * connections by peer id, the media elements by peer id, the local media
 * stream, and the roster of displayed clients (a state variable with a
 * pending callback). Each method is one signaling handler or browser
 * callback, run as one atomic step; what it does outside the model (a socket
 * message sent, a local track stopped) is appended, in order, to `effects`.
 * The browser's connection object is an opaque `Link` record: creating an offer or an answer yields a tagged description whose SDP text
 * the browser supplies as a parameter.
 */
module WebRTC {
  import opened Wrappers
  import opened Roster
  import opened StateWithCallback

  type TrackId = nat
  type StreamId = nat
  type ElementId = nat
  type RoomId = string
  type Candidate = string

  /** The roster entry of the local participant. */
  const LOCAL_VIDEO: PeerId := "LOCAL_VIDEO"

  datatype SdpType = Offer | Answer
  datatype Description = Description(kind: SdpType, sdp: string)

  /**
   * One peer connection: the `tracksNumber` counter of its `ontrack`
   * closure, whether it is closed, the local tracks added to it, and the
   * descriptions and remote candidates applied to it, in order.
   */
  datatype Link = Link(
    trackCount: nat,
    closed: bool,
    senders: seq<TrackId>,
    localDescriptions: seq<Description>,
    remoteDescriptions: seq<Description>,
    candidates: seq<Candidate>)

  const NewLink: Link := Link(0, false, [], [], [], [])

  /** Outbound socket messages. */
  datatype Message =
    | Join(room: RoomId)
    | Leave
    | RelaySdp(peer: PeerId, description: Description)
    | RelayIce(peer: PeerId, candidate: Candidate)

  /** The callbacks the hook hands to `updateClients`. */
  datatype Callback = BindRemote(peer: PeerId, stream: StreamId) | BindLocal

  datatype Source = RemoteStream(stream: StreamId) | LocalStream

  /** An observable side effect of a handler: a socket message sent, or a local track stopped. */
  datatype Effect = Send(message: Message) | Stop(track: TrackId)

  /** Stopping each of the given tracks, in order. */
  function Stops(tracks: seq<TrackId>): (r: seq<Effect>)
    ensures |r| == |tracks|
    ensures forall i :: 0 <= i < |tracks| ==> r[i] == Stop(tracks[i])
  {
    seq(|tracks|, i requires 0 <= i < |tracks| => Stop(tracks[i]))
  }

  /** A media element that was given a stream as its `srcObject`. */
  datatype Binding = Binding(peer: PeerId, element: ElementId, source: Source)

  /** A connection closed and dropped by the REMOVE_PEER handler. */
  datatype Retired = Retired(peer: PeerId, link: Link)

  /**
   * The `forEach` over the local tracks: each one is added to the
   * connection, in order, and nothing else about the connection changes.
   */
  method AttachTracks(link: Link, tracks: seq<TrackId>) returns (r: Link)
    ensures r.senders == link.senders + tracks
    ensures r.(senders := link.senders) == link
  {
    r := link;
    var i := 0;
    while i < |tracks|
      invariant 0 <= i <= |tracks|
      invariant r == link.(senders := link.senders + tracks[..i])
    {
      assert tracks[..i + 1] == tracks[..i] + [tracks[i]];
      r := r.(senders := r.senders + [tracks[i]]);
      i := i + 1;
    }
    assert tracks[..|tracks|] == tracks;
  }

  /** The roster entry whose media element a callback writes to. */
  function Target(cb: Callback): PeerId {
    if cb.BindRemote? then cb.peer else LOCAL_VIDEO
  }

  /**
   * What running an invoked roster callback binds: the element registered
   * for its target gets the stream. A missing or null element binds nothing
   * (for a remote peer the assignment would throw instead).
   */
  function BindingsOf(invoked: Option<Invocation<seq<PeerId>, Callback>>, elements: map<PeerId, Option<ElementId>>): (r: seq<Binding>)
    // at most one element is bound, and only by an invoked callback
    ensures |r| <= 1 && (invoked.None? ==> r == [])
    // it is the element registered for the callback's target, and it gets that callback's stream
    ensures forall b :: b in r ==>
      && Target(invoked.value.callback) == b.peer
      && b.peer in elements && elements[b.peer] == Some(b.element)
      && b.source == (match invoked.value.callback
                      case BindRemote(_, stream) => RemoteStream(stream)
                      case BindLocal => LocalStream)
    // an invoked callback whose target has an element always binds it
    ensures invoked.Some? && Target(invoked.value.callback) in elements && elements[Target(invoked.value.callback)].Some? ==> |r| == 1
  {
    match invoked
    case None => []
    case Some(Invocation(cb, _)) =>
      var p := Target(cb);
      var source := if cb.BindRemote? then RemoteStream(cb.stream) else LocalStream;
      if p in elements && elements[p].Some? then [Binding(p, elements[p].value, source)] else []
  }

  /**
   * Two peers that both reach two tracks before the roster is next rendered
   * are both listed, but the slot keeps only the second one's callback: the
   * first peer's element is never given its stream by this path.
   */
  lemma SecondListingSupersedesFirst(h: Hook<seq<PeerId>, Callback>, a: PeerId, sa: StreamId, b: PeerId, sb: StreamId)
    requires h.state == h.committed && a !in h.state && b !in h.state + [a]
    ensures var ops := [
        SetState(Updater((list: seq<PeerId>) => list + [a]), Some(BindRemote(a, sa))),
        SetState(Updater((list: seq<PeerId>) => list + [b]), Some(BindRemote(b, sb)))];
      && Run(h, ops).0.state == h.state + [a, b]
      && Run(h, ops + [Commit]).1 == [Invocation(BindRemote(b, sb), h.state + [a, b])]
  {
    var ops := [
      SetState(Updater((list: seq<PeerId>) => list + [a]), Some(BindRemote(a, sa))),
      SetState(Updater((list: seq<PeerId>) => list + [b]), Some(BindRemote(b, sb)))];
    var h1 := Step(h, ops[0]).hook;
    assert h1.state == h.state + [a];
    assert Run(h, ops).0 == Run(h1, ops[1..]).0;
    assert ops[1..] == [ops[1]];
    assert Run(h, ops).0.state == h.state + [a] + [b];
    assert h.state + [a] + [b] == h.state + [a, b];
    LatestCallbackWins(h, ops);
  }

  class Session {
    var links: map<PeerId, Link>
    var elements: map<PeerId, Option<ElementId>>
    var localTracks: Option<seq<TrackId>>
    var effects: seq<Effect>
    var retired: seq<Retired>
    var bindings: seq<Binding>
    const roster: StatefulValue<seq<PeerId>, Callback>

    /**
     * The roster never lists a client twice; a remote peer is listed exactly
     * when it has a live connection that has received at least two tracks;
     * live connections are open and dropped ones closed.
     */
    ghost predicate Valid()
      reads this, roster
    {
      && NoDup(roster.state)
      && (forall p :: p in roster.state && p != LOCAL_VIDEO ==> p in links && links[p].trackCount >= 2)
      && (forall p :: p in links && p != LOCAL_VIDEO && links[p].trackCount >= 2 ==> p in roster.state)
      && (forall p :: p in links ==> !links[p].closed)
      && (forall i :: 0 <= i < |retired| ==> retired[i].link.closed)
    }

    constructor ()
      ensures Valid() && fresh(roster)
      ensures roster.Model() == Mounted([])
      ensures links == map[] && elements == map[LOCAL_VIDEO := None] && localTracks == None
      ensures effects == [] && retired == [] && bindings == []
    {
      links := map[];
      elements := map[LOCAL_VIDEO := None];
      localTracks := None;
      effects, retired, bindings := [], [], [];
      roster := new StatefulValue([]);
    }

    /** `addNewClient`: append the client with its callback, unless it is listed already. */
    method AddNewClient(client: PeerId, cb: Callback)
      modifies roster
      ensures roster.state == AddIfAbsent(old(roster.state), client)
      ensures roster.committed == old(roster.committed)
      ensures roster.pending == if client in old(roster.state) then old(roster.pending) else Some(cb)
    {
      if client !in roster.state {
        roster.Update(Updater(list => list + [client]), Some(cb));
      }
    }

    /**
     * ADD_PEER: a peer that already has a connection is ignored. Otherwise a
     * fresh connection is registered, every local track is added to it and,
     * when asked to, an offer is set as its local description and relayed.
     * With no local stream yet, `getTracks` throws right after registration.
     */
    method HandleNewPeer(peer: PeerId, createOffer: bool, offerSdp: string)
      requires Valid()
      modifies this`links, this`effects
      ensures Valid()
      ensures peer in old(links) ==> links == old(links) && effects == old(effects)
      ensures peer !in old(links) ==>
        && links.Keys == old(links).Keys + {peer}
        && (forall q :: q in old(links) ==> links[q] == old(links)[q])
        && links[peer].trackCount == 0 && !links[peer].closed
        && links[peer].senders == (if localTracks.Some? then localTracks.value else [])
        && links[peer].remoteDescriptions == [] && links[peer].candidates == []
        && links[peer].localDescriptions == (if localTracks.Some? && createOffer then [Description(Offer, offerSdp)] else [])
        && effects == old(effects) + (if localTracks.Some? && createOffer then [Send(RelaySdp(peer, Description(Offer, offerSdp)))] else [])
    {
      if peer in links {
        return;
      }
      var link := NewLink;
      links := links[peer := link];
      if localTracks.None? {
        return;
      }
      link := AttachTracks(link, localTracks.value);
      if createOffer {
        var offer := Description(Offer, offerSdp);
        link := link.(localDescriptions := link.localDescriptions + [offer]);
        effects := effects + [Send(RelaySdp(peer, offer))];
      }
      links := links[peer := link];
    }

    /** `onicecandidate`: a discovered candidate is relayed to the peer; the end-of-candidates null is not. */
    method OnIceCandidate(peer: PeerId, candidate: Option<Candidate>)
      requires Valid() && peer in links
      modifies this`effects
      ensures Valid()
      ensures effects == old(effects) + (if candidate.Some? then [Send(RelayIce(peer, candidate.value))] else [])
    {
      if candidate.Some? {
        effects := effects + [Send(RelayIce(peer, candidate.value))];
      }
    }

    /**
     * `ontrack`: count the track; the track that makes the count exactly 2
     * (audio and video) lists the peer, with a callback that binds the
     * remote stream to the peer's element.
     */
    method OnTrack(peer: PeerId, stream: StreamId)
      requires Valid() && peer in links
      modifies this`links, roster
      ensures Valid()
      ensures links == old(links)[peer := old(links)[peer].(trackCount := old(links)[peer].trackCount + 1)]
      ensures links[peer].trackCount == 2 ==>
        && roster.state == AddIfAbsent(old(roster.state), peer)
        && roster.committed == old(roster.committed)
        && roster.pending == if peer in old(roster.state) then old(roster.pending) else Some(BindRemote(peer, stream))
      ensures links[peer].trackCount != 2 ==> roster.Model() == old(roster.Model())
    {
      var link := links[peer];
      link := link.(trackCount := link.trackCount + 1);
      links := links[peer := link];
      if link.trackCount == 2 {
        AddNewClient(peer, BindRemote(peer, stream));
      }
    }

    /**
     * SESSION_DESCRIPTION: the description is applied to the peer's
     * connection, if there is one. An offer is then answered: the answer
     * becomes the local description and is relayed. With no connection
     * nothing is applied, and `createAnswer` on the missing one throws, so
     * nothing is relayed either.
     */
    method SetRemoteMedia(peer: PeerId, description: Description, answerSdp: string)
      requires Valid()
      modifies this`links, this`effects
      ensures Valid()
      ensures links.Keys == old(links).Keys
      ensures forall q :: q in links && q != peer ==> links[q] == old(links)[q]
      ensures peer in links ==>
        && links[peer].remoteDescriptions == old(links)[peer].remoteDescriptions + [description]
        && links[peer].localDescriptions == old(links)[peer].localDescriptions + (if description.kind == Offer then [Description(Answer, answerSdp)] else [])
        && links[peer].(remoteDescriptions := [], localDescriptions := []) == old(links)[peer].(remoteDescriptions := [], localDescriptions := [])
      ensures effects == old(effects) + (if peer in old(links) && description.kind == Offer then [Send(RelaySdp(peer, Description(Answer, answerSdp)))] else [])
    {
      if peer in links {
        links := links[peer := links[peer].(remoteDescriptions := links[peer].remoteDescriptions + [description])];
      }
      if description.kind == Offer {
        if peer !in links {
          return;
        }
        var answer := Description(Answer, answerSdp);
        links := links[peer := links[peer].(localDescriptions := links[peer].localDescriptions + [answer])];
        effects := effects + [Send(RelaySdp(peer, answer))];
      }
    }

    /** ICE_CANDIDATE: applied to the peer's connection if there is one, dropped otherwise. */
    method AddIceCandidate(peer: PeerId, candidate: Candidate)
      requires Valid()
      modifies this`links
      ensures Valid()
      ensures links.Keys == old(links).Keys
      ensures forall q :: q in links && q != peer ==> links[q] == old(links)[q]
      ensures peer in links ==> links[peer] == old(links)[peer].(candidates := old(links)[peer].candidates + [candidate])
    {
      if peer in links {
        links := links[peer := links[peer].(candidates := links[peer].candidates + [candidate])];
      }
    }

    /**
     * REMOVE_PEER: close the peer's connection if there is one, forget it
     * and its element, and filter the peer out of the roster (passing no
     * callback, so a pending one is dropped). Everyone else keeps their
     * entries and their place.
     */
    method HandleRemovePeer(peer: PeerId)
      requires Valid()
      modifies this`links, this`elements, this`retired, roster
      ensures Valid()
      ensures links == old(links) - {peer}
      ensures elements == old(elements) - {peer}
      ensures retired == old(retired) + (if peer in old(links) then [Retired(peer, old(links)[peer].(closed := true))] else [])
      ensures roster.state == Without(old(roster.state), peer)
      ensures roster.committed == old(roster.committed) && roster.pending == None
    {
      if peer in links {
        retired := retired + [Retired(peer, links[peer].(closed := true))];
      }
      links := links - {peer};
      elements := elements - {peer};
      roster.Update(Updater(list => Without(list, peer)), None);
    }

    /**
     * The capture effect: when the camera and microphone are granted, keep
     * the stream, list the local participant with a callback binding it to
     * its own element, and only then send JOIN. A refused capture changes
     * nothing and sends nothing.
     */
    method StartCapture(room: RoomId, capture: Option<seq<TrackId>>)
      requires Valid()
      modifies this`localTracks, this`effects, roster
      ensures Valid()
      ensures capture.None? ==> localTracks == old(localTracks) && effects == old(effects) && roster.Model() == old(roster.Model())
      ensures capture.Some? ==>
        && localTracks == capture
        && effects == old(effects) + [Send(Join(room))]
        && LOCAL_VIDEO in roster.state
        && roster.state == AddIfAbsent(old(roster.state), LOCAL_VIDEO)
        && roster.committed == old(roster.committed)
        && roster.pending == if LOCAL_VIDEO in old(roster.state) then old(roster.pending) else Some(BindLocal)
    {
      if capture.None? {
        return;
      }
      localTracks := capture;
      AddNewClient(LOCAL_VIDEO, BindLocal);
      effects := effects + [Send(Join(room))];
    }

    /**
     * The capture effect's cleanup: stop every local track, then send LEAVE.
     * Without a stream `getTracks` throws and neither happens.
     */
    method Cleanup()
      requires Valid()
      modifies this`effects
      ensures Valid()
      ensures localTracks.None? ==> effects == old(effects)
      ensures localTracks.Some? ==> effects == old(effects) + Stops(localTracks.value) + [Send(Leave)]
    {
      if localTracks.None? {
        return;
      }
      var tracks := localTracks.value;
      var i := 0;
      while i < |tracks|
        invariant 0 <= i <= |tracks|
        invariant effects == old(effects) + Stops(tracks[..i])
      {
        assert Stops(tracks[..i + 1]) == Stops(tracks[..i]) + [Stop(tracks[i])];
        effects := effects + [Stop(tracks[i])];
        i := i + 1;
      }
      assert tracks[..|tracks|] == tracks;
      effects := effects + [Send(Leave)];
    }

    /** `provideMediaRef`: React hands over (or, with null, takes back) the element for an id. */
    method ProvideMediaRef(id: PeerId, node: Option<ElementId>)
      requires Valid()
      modifies this`elements
      ensures Valid()
      ensures elements == old(elements)[id := node]
    {
      elements := elements[id := node];
    }

    /**
     * A render of the roster followed by its `[state]` effect: a pending
     * callback runs once if the roster changed, and binds the stream to the
     * element it names.
     */
    method Render()
      requires Valid()
      modifies roster, this`bindings
      ensures Valid()
      ensures roster.Model() == AfterCommit(old(roster.Model())).hook
      ensures bindings == old(bindings) + BindingsOf(AfterCommit(old(roster.Model())).invoked, elements)
    {
      var invoked := roster.Commit();
      bindings := bindings + BindingsOf(invoked, elements);
    }
  }

  /**
   * The bind path of a remote peer, on any valid session whose roster is
   * rendered: the first track lists nothing and the render after it binds
   * nothing; the second track lists the peer and, once React has handed
   * over the peer's element, the next render gives that element the second
   * track's stream, and nothing else.
   */
  method RemotePeerBecomesVisible(s: Session, p: PeerId, first: StreamId, second: StreamId, e: ElementId)
    requires s.Valid() && p != LOCAL_VIDEO && p in s.links && s.links[p].trackCount == 0
    requires s.roster.state == s.roster.committed
    modifies s, s.roster
    ensures s.Valid()
    ensures s.roster.state == old(s.roster.state) + [p] && s.roster.committed == s.roster.state
    ensures s.roster.pending == None
    ensures s.bindings == old(s.bindings) + [Binding(p, e, RemoteStream(second))]
  {
    s.OnTrack(p, first);
    assert s.roster.Model() == old(s.roster.Model());
    s.Render();
    assert s.bindings == old(s.bindings);
    assert p !in s.roster.state;
    s.OnTrack(p, second);
    assert s.roster.pending == Some(BindRemote(p, second));
    s.ProvideMediaRef(p, Some(e));
    ghost var before := s.roster.Model();
    assert before.state != before.committed;
    ghost var invoked := AfterCommit(before).invoked;
    assert invoked == Some(Invocation(BindRemote(p, second), before.state));
    s.Render();
    ghost var r := BindingsOf(invoked, s.elements);
    assert |r| == 1 && r[0] in r;
    assert r == [Binding(p, e, RemoteStream(second))];
  }

  /*
   * A two-party call seen from one side, in six short scenes, as clients of
   * the contracts above.
   */

  method ExampleJoin() {
    var s := new Session();
    s.ProvideMediaRef(LOCAL_VIDEO, Some(0));
    s.StartCapture("room", Some([10, 11]));
    assert s.effects == [Send(Join("room"))] && s.roster.state == [LOCAL_VIDEO];
    assert s.roster.committed == [] && s.roster.pending == Some(BindLocal);
    assert s.elements[LOCAL_VIDEO] == Some(0);
    s.Render();
    assert s.bindings == [Binding(LOCAL_VIDEO, 0, LocalStream)];
  }

  method ExampleLeave() {
    var s := new Session();
    s.Cleanup();
    assert s.effects == [];
    s.StartCapture("room", Some([10, 11]));
    s.Cleanup();
    assert s.effects == [Send(Join("room")), Stop(10), Stop(11), Send(Leave)];
  }

  method ExampleOffer() {
    var s := new Session();
    s.StartCapture("room", Some([10, 11]));
    s.HandleNewPeer("A", true, "sdp-offer");
    var offered := [Send(Join("room")), Send(RelaySdp("A", Description(Offer, "sdp-offer")))];
    assert s.effects == offered && s.links["A"].senders == [10, 11];
    s.HandleNewPeer("A", false, "ignored");
    assert s.effects == offered;
    s.SetRemoteMedia("A", Description(Answer, "sdp-answer"), "unused");
    assert s.effects == offered;
  }

  method ExampleAnswer() {
    var s := new Session();
    s.HandleNewPeer("A", false, "unused");
    s.SetRemoteMedia("A", Description(Offer, "sdp-offer"), "sdp-answer");
    assert s.effects == [Send(RelaySdp("A", Description(Answer, "sdp-answer")))];
    s.SetRemoteMedia("B", Description(Offer, "sdp-offer"), "sdp-answer");
    assert |s.effects| == 1;
  }

  method ExampleTracks() {
    var s := new Session();
    s.HandleNewPeer("A", false, "unused");
    s.OnTrack("A", 7);
    assert s.links["A"].trackCount == 1 && s.roster.state == [];
    s.OnTrack("A", 7);
    assert s.links["A"].trackCount == 2 && s.roster.state == ["A"];
    assert s.roster.pending == Some(BindRemote("A", 7));
    s.OnTrack("A", 8);
    assert s.roster.state == ["A"] && s.roster.pending == Some(BindRemote("A", 7));
  }

  method ExampleRemoval() {
    var s := new Session();
    s.HandleNewPeer("A", false, "unused");
    s.HandleNewPeer("B", false, "unused");
    s.HandleRemovePeer("A");
    assert s.links.Keys == {"B"} && s.retired == [Retired("A", NewLink.(closed := true))];
    s.HandleRemovePeer("A");
    assert s.links.Keys == {"B"} && |s.retired| == 1;
  }
}
