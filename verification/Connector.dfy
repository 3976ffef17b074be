/**
The connector's objects: the state manager, the handler registries, and the peer connection manager. Every operation is
proved to do in place exactly what the lifecycle machine makes of it in one step, whichever of its announcements fail.
*/
module Connector {
  import opened Options
  import opened ConnectorStates
  import opened Lifecycle
  import opened LifecycleAtomic
  import opened LifecycleOutcomes
  import opened DataChannels

  class ConnectorStateManager {
    var state: State
    ghost var emitted: seq<State>

    constructor ()
      ensures state == Initializing && emitted == []
    {
      state := Initializing;
      emitted := [];
    }

    method Store(s: State)
      modifies this`state, this`emitted
      ensures state == s && emitted == old(emitted) + [s]
    {
      state := s;
      emitted := emitted + [s];
    }

    /** The state is stored before its frame is sent; `sends` is false when that throws (see `StatusSender`). */
    method SetState(s: State, sends: bool) returns (threw: bool)
      modifies this`state, this`emitted
      ensures state == s && emitted == old(emitted) + [s] && threw == !sends
    {
      Store(s);
      threw := !sends;
    }
  }

  /**
  A media track handler as far as the connector deals with it. The handler itself, with its recording, is the
  `AMediaTrackHandler` of the recorder.
  */
  class MediaTrackHandler {
    const name: string
    const id: nat
    var source: bool
    ghost var closes: nat

    constructor (name: string, id: nat)
      ensures this.name == name && this.id == id && Held() == Track(id, false, 0)
    {
      this.name, this.id := name, id;
      source, closes := false, 0;
    }

    ghost function Held(): Track
      reads this
    {
      Track(id, source, closes)
    }

    /** `made` is false when the handler returns no source. */
    method CreateVideoTrackSource(made: bool) returns (ok: bool)
      modifies this`source
      ensures ok == made && Held() == if made then old(Held()).(source := true) else old(Held())
    {
      if made {
        source := true;
      }
      ok := made;
    }

    method Close()
      modifies this`source, this`closes
      ensures Held() == CloseTrack(old(Held()))
    {
      source := false;
      closes := closes + 1;
    }
  }

  class MosaicConnector {
    const states: ConnectorStateManager
    const library: Library
    var manager: PeerConnectionManager?
    var channels: map<string, DataChannelHandler>
    var tracks: map<string, MediaTrackHandler>

    ghost predicate Valid()
      reads this, manager
    {
      && manager != null && manager.client == this
      && (forall l :: l in channels ==> channels[l].name == l && channels[l].library == library)
      && (forall n :: n in tracks ==> tracks[n].name == n)
    }

    ghost function Bindings(): (bs: map<string, Binding>)
      reads this, channels.Values
      ensures bs.Keys == channels.Keys
    {
      map l | l in channels :: channels[l].Bound()
    }

    ghost function Sources(): (ts: map<string, Track>)
      reads this, tracks.Values
      ensures ts.Keys == tracks.Keys
    {
      map n | n in tracks :: tracks[n].Held()
    }

    /** The whole client, as the lifecycle machine has it. */
    ghost function View(): Client
      requires manager != null
      reads this, states, library, manager, channels.Values, tracks.Values
    {
      Client(states.state, states.emitted, manager.peerConnection, manager.observer, manager.factory, manager.network,
             manager.worker, manager.signalingThread, manager.signalingClient, library.observersMade, library.pcs,
             library.chans, Bindings(), Sources(), manager.answers, library.failed, library.abandoned, library.fault)
    }

    constructor (states: ConnectorStateManager, library: Library)
      ensures this.states == states && this.library == library
      ensures manager == null && channels == map[] && tracks == map[]
    {
      this.states, this.library := states, library;
      manager := null;
      channels, tracks := map[], map[];
    }

    method SetPeerConnectionManager(manager: PeerConnectionManager)
      modifies this`manager
      ensures this.manager == manager
    {
      this.manager := manager;
    }

    /** The first handler registered for a label keeps it. */
    method AddDataChannelHandler(handler: DataChannelHandler)
      requires Valid() && handler.library == library
      modifies this`channels
      ensures Valid()
      ensures channels
           == if handler.name in old(channels) then old(channels) else old(channels)[handler.name := handler]
      ensures handler.Bound() == Binding(handler.id, None, None, 0) ==>
        View() == AddChannel(old(View()), handler.name, handler.id)
    {
      if handler.name in channels {
        return;
      }
      channels := channels[handler.name := handler];
    }

    method AddMediaTrackHandler(handler: MediaTrackHandler)
      requires Valid()
      modifies this`tracks
      ensures Valid()
      ensures tracks == if handler.name in old(tracks) then old(tracks) else old(tracks)[handler.name := handler]
      ensures handler.Held() == Track(handler.id, false, 0) ==>
        View() == AddTrack(old(View()), handler.name, handler.id)
    {
      if handler.name in tracks {
        return;
      }
      tracks := tracks[handler.name := handler];
    }

    /** While a teardown runs, the library may call back between any two handlers; one that throws ends the loop. */
    method CloseAllMediaTracks(nested: nat, throwing: set<string>) returns (threw: bool, ghost done: set<string>)
      requires Valid() && states.state == RtcDisconnecting
      requires manager.peerConnection.Some? ==> manager.peerConnection.value < |library.pcs|
      modifies manager`peerConnection, states`state, states`emitted, library`pcs, library`abandoned
      modifies tracks.Values`source, tracks.Values`closes
      modifies channels.Values`dcInterface, channels.Values`closes
      ensures Valid() && View() == WithTracksClosed(old(View()), done)
      ensures Stopped(threw, done, tracks.Keys, throwing)
      decreases nested, 1, 2
    {
      ghost var before := View();
      var pending := tracks.Keys;
      threw, done := false, {};
      NoneClosed(before);
      while pending != {}
        invariant Splits(pending, done, tracks.Keys, throwing) && !threw
        invariant Valid() && View() == WithTracksClosed(before, done)
        decreases |pending|
      {
        pending, threw, done := CloseAnotherTrack(pending, nested, throwing, before, done);
        if threw {
          break;
        }
      }
      LoopStops(threw, pending, done, tracks.Keys, throwing);
    }

    /** One round of the loop, which ends here when the handler throws. */
    method CloseAnotherTrack(pending: set<string>, nested: nat, throwing: set<string>, ghost before: Client,
                             ghost done: set<string>)
      returns (pending': set<string>, threw: bool, ghost done': set<string>)
      requires Valid() && states.state == RtcDisconnecting
      requires manager.peerConnection.Some? ==> manager.peerConnection.value < |library.pcs|
      requires pending != {} && Splits(pending, done, tracks.Keys, throwing) && before.tracks.Keys == tracks.Keys
      requires View() == WithTracksClosed(before, done)
      modifies manager`peerConnection, states`state, states`emitted, library`pcs, library`abandoned
      modifies tracks.Values`source, tracks.Values`closes
      modifies channels.Values`dcInterface, channels.Values`closes
      ensures Valid() && View() == WithTracksClosed(before, done')
      ensures Splits(pending', done', tracks.Keys, throwing)
      ensures if threw then pending' == pending && !(pending' !! throwing) else |pending'| < |pending|
      decreases nested, 1, 1
    {
      var n :| n in pending;
      if n in throwing {
        return pending, true, done;
      }
      Moved(pending, done, tracks.Keys, throwing, n);
      pending', threw, done' := pending - {n}, false, done + {n};
      CloseNextTrack(n, nested, before, done);
    }

    method CloseNextTrack(n: string, nested: nat, ghost before: Client, ghost done: set<string>)
      requires Valid() && states.state == RtcDisconnecting
      requires manager.peerConnection.Some? ==> manager.peerConnection.value < |library.pcs|
      requires n in tracks && n !in done && before.tracks.Keys == tracks.Keys
      requires View() == WithTracksClosed(before, done)
      modifies manager`peerConnection, states`state, states`emitted, library`pcs, library`abandoned
      modifies tracks.Values`source, tracks.Values`closes
      modifies channels.Values`dcInterface, channels.Values`closes
      ensures Valid() && View() == WithTracksClosed(before, done + {n})
      decreases nested, 1, 0
    {
      OneMoreTrackClosed(before, done, n);
      CloseOneTrack(n);
      assert View() == WithTracksClosed(before, done + {n});
      manager.Callbacks(nested);
    }

    method CloseOneTrack(n: string)
      requires Valid() && n in tracks
      modifies {tracks[n]}`source, {tracks[n]}`closes
      ensures Valid()
      ensures var c := old(View()); n in c.tracks && View() == c.(tracks := c.tracks[n := CloseTrack(c.tracks[n])])
    {
      tracks[n].Close();
      assert Bindings() == old(Bindings());
      assert Sources() == old(Sources())[n := CloseTrack(old(Sources())[n])];
    }

    /** The same for the data channels. */
    method CloseAllDataChannels(nested: nat, throwing: set<string>) returns (threw: bool, ghost done: set<string>)
      requires Valid() && states.state == RtcDisconnecting
      requires manager.peerConnection.Some? ==> manager.peerConnection.value < |library.pcs|
      modifies manager`peerConnection, states`state, states`emitted, library`pcs, library`abandoned
      modifies tracks.Values`source, tracks.Values`closes
      modifies channels.Values`dcInterface, channels.Values`closes
      ensures Valid() && View() == WithChannelsClosed(old(View()), done)
      ensures Stopped(threw, done, channels.Keys, throwing)
      decreases nested, 1, 2
    {
      ghost var before := View();
      var pending := channels.Keys;
      threw, done := false, {};
      NoneClosed(before);
      while pending != {}
        invariant Splits(pending, done, channels.Keys, throwing) && !threw
        invariant Valid() && View() == WithChannelsClosed(before, done)
        decreases |pending|
      {
        pending, threw, done := CloseAnotherChannel(pending, nested, throwing, before, done);
        if threw {
          break;
        }
      }
      LoopStops(threw, pending, done, channels.Keys, throwing);
    }

    /** One round of the loop, which ends here when the handler throws. */
    method CloseAnotherChannel(pending: set<string>, nested: nat, throwing: set<string>, ghost before: Client,
                             ghost done: set<string>)
      returns (pending': set<string>, threw: bool, ghost done': set<string>)
      requires Valid() && states.state == RtcDisconnecting
      requires manager.peerConnection.Some? ==> manager.peerConnection.value < |library.pcs|
      requires pending != {} && Splits(pending, done, channels.Keys, throwing) && before.channels.Keys == channels.Keys
      requires View() == WithChannelsClosed(before, done)
      modifies manager`peerConnection, states`state, states`emitted, library`pcs, library`abandoned
      modifies tracks.Values`source, tracks.Values`closes
      modifies channels.Values`dcInterface, channels.Values`closes
      ensures Valid() && View() == WithChannelsClosed(before, done')
      ensures Splits(pending', done', channels.Keys, throwing)
      ensures if threw then pending' == pending && !(pending' !! throwing) else |pending'| < |pending|
      decreases nested, 1, 1
    {
      var l :| l in pending;
      if l in throwing {
        return pending, true, done;
      }
      Moved(pending, done, channels.Keys, throwing, l);
      pending', threw, done' := pending - {l}, false, done + {l};
      CloseNextChannel(l, nested, before, done);
    }

    method CloseNextChannel(l: string, nested: nat, ghost before: Client, ghost done: set<string>)
      requires Valid() && states.state == RtcDisconnecting
      requires manager.peerConnection.Some? ==> manager.peerConnection.value < |library.pcs|
      requires l in channels && l !in done && before.channels.Keys == channels.Keys
      requires View() == WithChannelsClosed(before, done)
      modifies manager`peerConnection, states`state, states`emitted, library`pcs, library`abandoned
      modifies tracks.Values`source, tracks.Values`closes
      modifies channels.Values`dcInterface, channels.Values`closes
      ensures Valid() && View() == WithChannelsClosed(before, done + {l})
      decreases nested, 1, 0
    {
      OneMoreChannelClosed(before, done, l);
      CloseOneChannel(l);
      assert View() == WithChannelsClosed(before, done + {l});
      manager.Callbacks(nested);
    }

    method CloseOneChannel(l: string)
      requires Valid() && l in channels
      modifies {channels[l]}`dcInterface, {channels[l]}`closes
      ensures Valid()
      ensures var c := old(View());
        l in c.channels && View() == c.(channels := c.channels[l := CloseBinding(c.channels[l])])
    {
      channels[l].CloseDataChannel();
      assert Sources() == old(Sources());
      assert Bindings() == old(Bindings())[l := CloseBinding(old(Bindings())[l])];
    }

    /** Asks every media track handler for its source. */
    method MakeSources(outcomes: map<string, TrackOutcome>)
      requires Valid()
      modifies tracks.Values`source
      ensures Valid()
      ensures forall n :: n in tracks ==> tracks[n].Held() == Sourced(old(tracks[n].Held()), n, outcomes)
    {
      var pending := tracks.Keys;
      while pending != {}
        invariant pending <= tracks.Keys
        invariant forall n :: n in tracks ==>
          tracks[n].Held() == if n in pending then old(tracks[n].Held())
                              else Sourced(old(tracks[n].Held()), n, outcomes)
        decreases |pending|
      {
        var n :| n in pending;
        // A track that cannot be made or added is only logged; the handler keeps its source.
        var _ := tracks[n].CreateVideoTrackSource(!(n in outcomes && outcomes[n].NoSource?));
        pending := pending - {n};
      }
    }

    /** `MosaicConnector::CreateAllMediaTracks`, with what the library makes of each track. */
    method CreateAllMediaTracks(outcomes: map<string, TrackOutcome>)
      requires Valid()
      modifies tracks.Values`source
      ensures Valid()
      ensures View() == old(View()).(tracks := WithSources(old(Sources()), outcomes))
    {
      ghost var before := View();
      MakeSources(outcomes);
      assert Sources() == WithSources(before.tracks, outcomes);
      assert Bindings() == before.channels;
    }

    /** A channel the library has just made arrives: number `channel`, which nobody holds yet. */
    method OnDataChannel(channel: nat)
      requires Valid() && |library.chans| == channel + 1 && library.chans[channel].observer.None?
      requires forall l :: l in channels ==> channels[l].dcInterface != Some(channel)
      modifies channels.Values`dcInterface, channels.Values`observer, library`chans, library`observersMade
      ensures Valid()
      ensures var c := old(View()); var chan := c.chans[channel];
        View() == Arrive(c.(chans := c.chans[..channel]), chan.name, chan.state)
    {
      var name := library.chans[channel].name;
      if name !in channels {
        ArrivesUnbound(View(), channel);
        return;
      }
      var s := channels[name].GetState();
      if s == Open {
        ArrivesUnbound(View(), channel);
        return;
      }
      BindChannel(name, channel);
    }

    method BindChannel(name: string, channel: nat)
      requires Valid() && name in channels && channel + 1 == |library.chans|
      requires library.chans[channel].name == name && library.chans[channel].observer.None?
      modifies {channels[name]}`dcInterface, {channels[name]}`observer, library`chans, library`observersMade
      ensures Valid()
      ensures var c := old(View());
        name in c.channels && View() == Bind(c.(chans := c.chans[..channel]), name, c.chans[channel].state)
    {
      ghost var chans := library.chans;
      HandOver(name, channel);
      assert library.chans == chans[..channel] + [chans[channel].(observer := Some(old(library.observersMade)))];
    }

    /** The handler takes the channel and registers a new observer on it. */
    method HandOver(name: string, channel: nat)
      requires Valid() && name in channels && channel < |library.chans|
      modifies {channels[name]}`dcInterface, {channels[name]}`observer, library`chans, library`observersMade
      ensures Sources() == old(Sources()) && library.observersMade == old(library.observersMade) + 1
      ensures library.chans
           == old(library.chans)[channel := old(library.chans[channel]).(observer := Some(old(library.observersMade)))]
      ensures name in old(Bindings())
      ensures Bindings() == old(Bindings())[name :=
        old(Bindings())[name].(channel := Some(channel), observer := Some(old(library.observersMade)))]
    {
      var handler := channels[name];
      var thrown := handler.SetDataChannelInterface(Some(channel));
      thrown := handler.RegisterDataChannelObserver();
      assert Bindings() == old(Bindings())[name := handler.Bound()];
    }

    /** Shutdown announces DISCONNECTED before it closes anything; without the announcement it does nothing more. */
    method ShuttingDown(nested: nat, failing: set<State>) returns (threw: bool)
      requires Valid()
      requires manager.peerConnection.Some? ==> manager.peerConnection.value < |library.pcs|
      modifies states`state, states`emitted, library`pcs, library`abandoned, manager`peerConnection, manager`observer
      modifies manager`factory, manager`network, manager`worker, manager`signalingThread, manager`signalingClient
      modifies tracks.Values`source, tracks.Values`closes
      modifies channels.Values`dcInterface, channels.Values`closes
      ensures Valid() && Outcome(View(), threw) == ShutdownOutcome(old(View()), failing)
    {
      ghost var announced := SetState(View(), Disconnected);
      threw := states.SetState(Disconnected, Disconnected !in failing);
      assert View() == announced;
      if threw {
        return;
      }
      TakeDown(nested);
    }

    method TakeDown(nested: nat)
      requires Valid() && states.state == Disconnected
      requires manager.peerConnection.Some? ==> manager.peerConnection.value < |library.pcs|
      modifies states`state, states`emitted, library`pcs, library`abandoned, manager`peerConnection, manager`observer
      modifies manager`factory, manager`network, manager`worker, manager`signalingThread, manager`signalingClient
      modifies tracks.Values`source, tracks.Values`closes
      modifies channels.Values`dcInterface, channels.Values`closes
      ensures Valid() && View() == DroppedAll(old(View()).(signalingClient := false))
    {
      manager.StopSignalingServer();
      var _, _ := manager.ClosePeerConnection(nested, {}, NOTHING_THROWS);
      manager.DestroyPeerConnectionManager();
    }
  }

  /** A channel that no handler takes. */
  lemma ArrivesUnbound(c: Client, channel: nat)
    requires |c.chans| == channel + 1 && c.chans[channel].observer.None?
    requires var before, name := c.(chans := c.chans[..channel]), c.chans[channel].name;
      name !in c.channels || HoldsOpen(before, name)
    ensures var chan := c.chans[channel]; Arrive(c.(chans := c.chans[..channel]), chan.name, chan.state) == c
  {
    assert c.chans == c.chans[..channel] + [c.chans[channel]];
  }

  /** The handlers whose closing ends in an exception, and whether that of the connection does. */
  datatype Throwing = Throwing(tracks: set<string>, channels: set<string>, pc: bool)

  const NOTHING_THROWS := Throwing({}, {}, false)

  /** Nothing that a teardown closes throws. */
  predicate ClosesCleanly(throwing: Throwing, c: Client) {
    c.tracks.Keys !! throwing.tracks && c.channels.Keys !! throwing.channels && !(c.pc.Some? && throwing.pc)
  }

  /** The handlers once the closing loops have run that far. */
  function HandlersClosed(c: Client, reach: Reach): Client {
    match reach
    case TrackThrows(closed) => WithTracksClosed(c, closed)
    case ChannelThrows(closed) => WithChannelsClosed(WithTracksClosed(c, c.tracks.Keys), closed)
    case _ => WithChannelsClosed(WithTracksClosed(c, c.tracks.Keys), c.channels.Keys)
  }

  /** The handlers a loop has still to close, and those it has closed, none of which throws. */
  predicate Splits(pending: set<string>, done: set<string>, all: set<string>, throwing: set<string>) {
    pending !! done && pending + done == all && done !! throwing
  }

  lemma Moved(pending: set<string>, done: set<string>, all: set<string>, throwing: set<string>, key: string)
    requires Splits(pending, done, all, throwing) && key in pending && key !in throwing
    ensures Splits(pending - {key}, done + {key}, all, throwing) && |pending - {key}| < |pending|
  {
  }

  /** How a loop ends: with an exception exactly when some handler throws, and then with that one not closed. */
  predicate Stopped(threw: bool, done: set<string>, all: set<string>, throwing: set<string>) {
    && (if threw then done < all else done == all)
    && (threw <==> !(all !! throwing))
  }

  lemma LoopStops(threw: bool, pending: set<string>, done: set<string>, all: set<string>, throwing: set<string>)
    requires Splits(pending, done, all, throwing)
    requires if threw then !(pending !! throwing) else pending == {}
    ensures Stopped(threw, done, all, throwing)
  {
    if threw {
      var key :| key in pending && key in throwing;
      assert key in all && key !in done;
    }
  }

  /** A teardown of `c` gets as far as `reach`, and to its end when nothing throws. */
  predicate Gets(c: Client, throwing: Throwing, reach: Reach) {
    CanReach(CloseTracks(c.tracks.Keys), c, reach) && (reach.Whole? <==> ClosesCleanly(throwing, c))
  }

  /** The same of a call that may not come to the teardown at all. */
  predicate MayGet(c: Client, throwing: Throwing, reach: Reach) {
    CanReach(CloseTracks(c.tracks.Keys), c, reach) && (ClosesCleanly(throwing, c) ==> reach.Whole?)
  }

  /** A held connection is one of the library's. */
  predicate Indexed(c: Client) {
    c.pc.Some? ==> c.pc.value < |c.pcs|
  }

  lemma CloseKeepsIndex(c: Client, course: Course)
    requires Indexed(c)
    ensures Indexed(CloseOutcome(c, course).client)
  {
  }

  /** The `try` block, after its first two calls and as a whole. */
  lemma TornInTwo(c: Client, reach: Reach)
    ensures var closed := HandlersClosed(c, reach);
      TornTracks(c, c.tracks.Keys, reach)
        == if reach.TrackThrows? || reach.ChannelThrows? then closed else TornPc(closed, reach)
  {
  }

  function WithTracksClosed(c: Client, done: set<string>): Client {
    c.(tracks := ClosedTracks(c.tracks, done))
  }

  function WithChannelsClosed(c: Client, done: set<string>): Client {
    c.(channels := ClosedChannels(c.channels, done))
  }

  lemma NoneClosed(c: Client)
    ensures WithTracksClosed(c, {}) == c && WithChannelsClosed(c, {}) == c
  {
    NoneLeft(c);
  }

  lemma OneMoreTrackClosed(c: Client, done: set<string>, n: string)
    requires n in c.tracks && n !in done
    ensures var some := WithTracksClosed(c, done);
      && n in some.tracks
      && some.(tracks := some.tracks[n := CloseTrack(some.tracks[n])]) == WithTracksClosed(c, done + {n})
  {
    var some := WithTracksClosed(c, done);
    assert some.tracks[n := CloseTrack(some.tracks[n])] == ClosedTracks(c.tracks, done + {n});
  }

  lemma OneMoreChannelClosed(c: Client, done: set<string>, l: string)
    requires l in c.channels && l !in done
    ensures var some := WithChannelsClosed(c, done);
      && l in some.channels
      && some.(channels := some.channels[l := CloseBinding(some.channels[l])]) == WithChannelsClosed(c, done + {l})
  {
    var some := WithChannelsClosed(c, done);
    assert some.channels[l := CloseBinding(some.channels[l])] == ClosedChannels(c.channels, done + {l});
  }

  class PeerConnectionManager {
    const client: MosaicConnector
    var peerConnection: Option<nat>
    var observer: Option<nat>
    var factory: bool
    var network: bool
    var worker: bool
    var signalingThread: bool
    var signalingClient: bool
    ghost var answers: seq<Answer>

    constructor (client: MosaicConnector)
      ensures this.client == client
      ensures peerConnection.None? && observer.None? && !factory && !network && !worker && !signalingThread
      ensures signalingClient && answers == []
    {
      this.client := client;
      peerConnection, observer := None, None;
      factory, network, worker, signalingThread, signalingClient := false, false, false, false, true;
      answers := [];
    }

    method StopSignalingServer()
      requires client.Valid() && client.manager == this
      modifies this`signalingClient
      ensures client.Valid() && client.View() == old(client.View()).(signalingClient := false)
    {
      signalingClient := false;
      assert client.Bindings() == old(client.Bindings()) && client.Sources() == old(client.Sources());
    }

    /**
    Closes the connection. Between any two statements the library may call back: `nested` times, each call nested
    further in the same way.
    */
    method ClosePeerConnection(nested: nat, failing: set<State>, throwing: Throwing)
      returns (threw: bool, ghost reach: Reach)
      requires client.Valid() && client.manager == this
      requires peerConnection.Some? ==> peerConnection.value < |client.library.pcs|
      modifies this`peerConnection, client.states`state, client.states`emitted, client.library`pcs
      modifies client.library`abandoned, client.tracks.Values`source, client.tracks.Values`closes
      modifies client.channels.Values`dcInterface, client.channels.Values`closes
      ensures client.Valid()
      ensures Outcome(client.View(), threw) == CloseOutcome(old(client.View()), Course(failing, reach))
      ensures MayGet(old(client.View()), throwing, reach)
      decreases nested, 3, 1
    {
      reach := Whole;
      if !(client.states.state == RtcConnected || client.states.state == RtcConnecting) {
        return false, Whole;
      }
      threw := Announce(RtcDisconnecting, failing);
      if threw {
        return;
      }
      threw, reach := TearDown(nested, failing, throwing);
    }

    /** Every state is set through the state manager. */
    method Announce(s: State, failing: set<State>) returns (threw: bool)
      requires client.Valid() && client.manager == this
      modifies client.states`state, client.states`emitted
      ensures client.Valid() && threw == (s in failing) && client.View() == SetState(old(client.View()), s)
    {
      threw := client.states.SetState(s, s !in failing);
      assert client.Bindings() == old(client.Bindings()) && client.Sources() == old(client.Sources());
    }

    /** A teardown from its `try` block on; an exception out of the block is caught. */
    method TearDown(nested: nat, failing: set<State>, throwing: Throwing) returns (threw: bool, ghost reach: Reach)
      requires client.Valid() && client.manager == this && client.states.state == RtcDisconnecting
      requires peerConnection.Some? ==> peerConnection.value < |client.library.pcs|
      modifies this`peerConnection, client.states`state, client.states`emitted, client.library`pcs
      modifies client.library`abandoned, client.tracks.Values`source, client.tracks.Values`closes
      modifies client.channels.Values`dcInterface, client.channels.Values`closes
      ensures client.Valid() && threw == (ReadyToConnect in failing) && Gets(old(client.View()), throwing, reach)
      ensures var c := old(client.View());
        client.View() == SetState(TornTracks(c, c.tracks.Keys, reach), ReadyToConnect)
      decreases nested, 3, 0
    {
      Callbacks(nested);
      reach := Try(nested, throwing);
      threw := OnConnectionDisconnected(failing);
    }

    /** The `try` block. */
    method Try(nested: nat, throwing: Throwing) returns (ghost reach: Reach)
      requires client.Valid() && client.manager == this && client.states.state == RtcDisconnecting
      requires peerConnection.Some? ==> peerConnection.value < |client.library.pcs|
      modifies this`peerConnection, client.states`state, client.states`emitted, client.library`pcs
      modifies client.library`abandoned, client.tracks.Values`source, client.tracks.Values`closes
      modifies client.channels.Values`dcInterface, client.channels.Values`closes
      ensures client.Valid() && Gets(old(client.View()), throwing, reach)
      ensures var c := old(client.View()); client.View() == TornTracks(c, c.tracks.Keys, reach)
      decreases nested, 2, 1
    {
      ghost var c := client.View();
      var caught;
      caught, reach := CloseHandlers(nested, throwing);
      if !caught {
        assert client.View() == HandlersClosed(c, Whole) == HandlersClosed(c, PcThrows);
        caught := CloseConnection(nested, throwing.pc);
        reach := if caught then PcThrows else Whole;
      }
      TornInTwo(c, reach);
    }

    /** Closing callbacks out of the library change nothing while a teardown runs. */
    method Callbacks(nested: nat)
      requires client.Valid() && client.manager == this && client.states.state == RtcDisconnecting
      requires peerConnection.Some? ==> peerConnection.value < |client.library.pcs|
      modifies this`peerConnection, client.states`state, client.states`emitted, client.library`pcs
      modifies client.library`abandoned, client.tracks.Values`source, client.tracks.Values`closes
      modifies client.channels.Values`dcInterface, client.channels.Values`closes
      ensures client.Valid() && client.View() == old(client.View())
      decreases nested, 0
    {
      for i := 0 to nested
        invariant client.Valid() && client.View() == old(client.View())
      {
        var _, _ := ClosePeerConnection(nested - 1, {}, NOTHING_THROWS);
      }
    }

    method CloseHandlers(nested: nat, throwing: Throwing) returns (threw: bool, ghost reach: Reach)
      requires client.Valid() && client.manager == this && client.states.state == RtcDisconnecting
      requires peerConnection.Some? ==> peerConnection.value < |client.library.pcs|
      modifies this`peerConnection, client.states`state, client.states`emitted, client.library`pcs
      modifies client.library`abandoned, client.tracks.Values`source, client.tracks.Values`closes
      modifies client.channels.Values`dcInterface, client.channels.Values`closes
      ensures client.Valid() && client.View() == HandlersClosed(old(client.View()), reach)
      ensures var c := old(client.View());
        && CanReach(CloseTracks(c.tracks.Keys), c, reach) && !reach.PcThrows? && threw == !reach.Whole?
        && (threw <==> !(c.tracks.Keys !! throwing.tracks && c.channels.Keys !! throwing.channels))
      decreases nested, 2, 0
    {
      ghost var done;
      threw, done := client.CloseAllMediaTracks(nested, throwing.tracks);
      reach := if threw then TrackThrows(done) else Whole;
      if !threw {
        threw, done := client.CloseAllDataChannels(nested, throwing.channels);
        reach := if threw then ChannelThrows(done) else Whole;
      }
    }

    /** The connection itself is closed; it is still held while `Close` calls back. */
    method CloseConnection(nested: nat, throws: bool) returns (threw: bool)
      requires client.Valid() && client.manager == this && client.states.state == RtcDisconnecting
      requires peerConnection.Some? ==> peerConnection.value < |client.library.pcs|
      modifies this`peerConnection, client.states`state, client.states`emitted, client.library`pcs
      modifies client.library`abandoned, client.tracks.Values`source, client.tracks.Values`closes
      modifies client.channels.Values`dcInterface, client.channels.Values`closes
      ensures client.Valid() && threw == (old(peerConnection.Some?) && throws)
      ensures var c := old(client.View());
        client.View() == if c.pc.Some? && !threw then Retire(c, c.pc.value, Closed).(pc := None) else c
      decreases nested, 1
    {
      threw := false;
      if peerConnection.Some? {
        if throws {
          return true;
        }
        LetGo(Closed);
        Callbacks(nested);
        Release();
        Callbacks(nested);
      }
    }

    method LetGo(status: PcStatus)
      requires client.Valid() && client.manager == this
      requires peerConnection.Some? && peerConnection.value < |client.library.pcs|
      modifies client.library`pcs, client.library`abandoned
      ensures client.Valid() && client.View() == Retire(old(client.View()), peerConnection.value, status)
    {
      client.library.Leave(peerConnection.value, status);
      assert client.Bindings() == old(client.Bindings()) && client.Sources() == old(client.Sources());
    }

    method Release()
      requires client.Valid() && client.manager == this
      modifies this`peerConnection
      ensures client.Valid() && client.View() == old(client.View()).(pc := None)
    {
      peerConnection := None;
      assert client.Bindings() == old(client.Bindings()) && client.Sources() == old(client.Sources());
    }

    /** The last reference to the connection goes. */
    method DropConnection()
      requires client.Valid() && client.manager == this
      requires peerConnection.Some? ==> peerConnection.value < |client.library.pcs|
      modifies this`peerConnection, client.library`pcs, client.library`abandoned
      ensures client.Valid()
      ensures var c := old(client.View());
        client.View() == if c.pc.Some? then Retire(c, c.pc.value, Dropped).(pc := None) else c
    {
      if peerConnection.Some? {
        LetGo(Dropped);
        Release();
      }
    }

    method OnConnectionDisconnected(failing: set<State>) returns (threw: bool)
      requires client.Valid() && client.manager == this
      modifies client.states`state, client.states`emitted
      ensures client.Valid() && threw == (ReadyToConnect in failing)
      ensures client.View() == SetState(old(client.View()), ReadyToConnect)
    {
      threw := Announce(ReadyToConnect, failing);
    }

    method OnConnectionConnected(failing: set<State>) returns (threw: bool)
      requires client.Valid() && client.manager == this
      modifies client.states`state, client.states`emitted
      ensures client.Valid() && threw == (RtcConnected in failing)
      ensures client.View() == SetState(old(client.View()), RtcConnected)
    {
      threw := Announce(RtcConnected, failing);
    }

    method DestroyPeerConnectionManager()
      requires client.Valid() && client.manager == this
      requires peerConnection.Some? ==> peerConnection.value < |client.library.pcs|
      modifies this`peerConnection, this`observer, this`factory, this`network, this`worker, this`signalingThread
      modifies client.library`pcs, client.library`abandoned
      ensures client.Valid() && client.View() == DroppedAll(old(client.View()))
    {
      DropConnection();
      StopThreads();
    }

    /** The rest of the manager's fields. */
    method StopThreads()
      requires client.Valid() && client.manager == this
      modifies this`observer, this`factory, this`network, this`worker, this`signalingThread
      ensures client.Valid() && client.View() == Destroyed(old(client.View()))
    {
      observer := None;
      factory := false;
      network := false;
      worker := false;
      signalingThread := false;
      assert client.Bindings() == old(client.Bindings()) && client.Sources() == old(client.Sources());
    }

    method InitializeWebRTC(factoryOk: bool, sends: bool) returns (threw: bool)
      requires client.Valid() && client.manager == this
      modifies this`factory, this`network, this`worker, this`signalingThread, client.states`state
      modifies client.states`emitted
      ensures client.Valid() && threw == !sends && client.View() == Initialized(old(client.View()), factoryOk)
    {
      StartThreads(factoryOk);
      threw := client.states.SetState(ReadyToConnect, sends);
      assert client.Bindings() == old(client.Bindings()) && client.Sources() == old(client.Sources());
    }

    /** The threads, and on them the factory, when it can be created. */
    method StartThreads(factoryOk: bool)
      requires client.Valid() && client.manager == this
      modifies this`factory, this`network, this`worker, this`signalingThread
      ensures client.Valid()
      ensures client.View()
           == old(client.View()).(network := true, worker := true, signalingThread := true, factory := factoryOk)
    {
      network := true;
      worker := true;
      signalingThread := true;
      factory := factoryOk;
      assert client.Bindings() == old(client.Bindings()) && client.Sources() == old(client.Sources());
    }

    method NewObserver()
      requires client.Valid() && client.manager == this
      modifies this`observer, client.library`observersMade
      ensures client.Valid() && observer == Some(old(client.library.observersMade))
      ensures var c := old(client.View());
        client.View() == c.(observer := Some(c.observersMade), observersMade := c.observersMade + 1)
    {
      observer := Some(client.library.observersMade);
      client.library.observersMade := client.library.observersMade + 1;
      assert client.Bindings() == old(client.Bindings()) && client.Sources() == old(client.Sources());
    }

    method CreatePeerConnection(offer: nat, creates: bool) returns (crashed: bool)
      requires client.Valid() && client.manager == this
      requires peerConnection.Some? ==> peerConnection.value < |client.library.pcs|
      modifies this`observer, this`peerConnection, client.library`pcs, client.library`abandoned
      modifies client.library`observersMade, client.library`fault
      ensures client.Valid() && crashed == !old(factory)
      ensures client.View() == WithConnection(old(client.View()), offer, creates)
    {
      NewObserver();
      if !factory {
        client.library.fault := true;
        return true;
      }
      crashed := false;
      if creates {
        Adopt(offer, observer.value);
      }
    }

    /** The library makes a connection that reports to `observer`, and the program holds it from now on. */
    method Adopt(offer: nat, observer: nat)
      requires client.Valid() && client.manager == this
      requires peerConnection.Some? ==> peerConnection.value < |client.library.pcs|
      modifies this`peerConnection, client.library`pcs, client.library`abandoned
      ensures client.Valid() && client.View() == Created(old(client.View()), offer, observer)
    {
      DropConnection();
      Hold(offer, observer);
    }

    method Hold(offer: nat, observer: nat)
      requires client.Valid() && client.manager == this && peerConnection.None?
      modifies this`peerConnection, client.library`pcs
      ensures client.Valid() && client.View() == Created(old(client.View()), offer, observer)
    {
      var p := client.library.Make(offer, observer);
      peerConnection := Some(p);
      assert client.Bindings() == old(client.Bindings()) && client.Sources() == old(client.Sources());
    }

    /** The connection in the way of an offer is closed first. */
    method ClearWay(nested: nat, failing: set<State>, throwing: Throwing) returns (threw: bool, ghost reach: Reach)
      requires client.Valid() && client.manager == this
      requires peerConnection.Some? ==> peerConnection.value < |client.library.pcs|
      modifies this`peerConnection, client.states`state, client.states`emitted, client.library`pcs
      modifies client.library`abandoned, client.tracks.Values`source, client.tracks.Values`closes
      modifies client.channels.Values`dcInterface, client.channels.Values`closes
      ensures client.Valid() && (peerConnection.Some? ==> peerConnection.value < |client.library.pcs|)
      ensures Outcome(client.View(), threw) == ClearOutcome(old(client.View()), Course(failing, reach))
      ensures MayGet(old(client.View()), throwing, reach)
    {
      ghost var c := client.View();
      threw, reach := false, Whole;
      if peerConnection.Some? {
        threw, reach := ClosePeerConnection(nested, failing, throwing);
        CloseKeepsIndex(c, Course(failing, reach));
      }
    }

    method HandleSdpOffer(offer: nat, creates: bool, nested: nat, failing: set<State>, throwing: Throwing)
      returns (threw: bool, ghost reach: Reach)
      requires client.Valid() && client.manager == this
      requires peerConnection.Some? ==> peerConnection.value < |client.library.pcs|
      modifies this`peerConnection, this`observer, client.states`state, client.states`emitted, client.library`pcs
      modifies client.library`abandoned, client.library`observersMade, client.library`fault
      modifies client.tracks.Values`source, client.tracks.Values`closes
      modifies client.channels.Values`dcInterface, client.channels.Values`closes
      ensures client.Valid() && MayGet(old(client.View()), throwing, reach)
      ensures Outcome(client.View(), threw) == OfferOutcome(old(client.View()), offer, creates, Course(failing, reach))
    {
      threw, reach := ClearWay(nested, failing, throwing);
      if !threw {
        threw := AcceptOffer(offer, creates, failing);
      }
    }

    /** The rest of the handling of an offer, once the connection in its way has been closed. */
    method AcceptOffer(offer: nat, creates: bool, failing: set<State>) returns (threw: bool)
      requires client.Valid() && client.manager == this
      requires peerConnection.Some? ==> peerConnection.value < |client.library.pcs|
      modifies this`peerConnection, this`observer, client.states`state, client.states`emitted, client.library`pcs
      modifies client.library`abandoned, client.library`observersMade, client.library`fault
      ensures client.Valid()
      ensures Outcome(client.View(), threw) == AcceptOutcome(old(client.View()), offer, creates, failing)
    {
      ghost var c := client.View();
      if client.states.state != ReadyToConnect {
        return false;
      }
      threw := Announce(RtcConnecting, failing);
      if threw {
        return;
      }
      OfferInTwo(SetState(c, RtcConnecting), offer, creates);
      var crashed := CreatePeerConnection(offer, creates);
      if !crashed {
        threw := SetRemoteDescription(failing);
      }
    }

    /** The offer goes to the connection, if there is one. */
    method SetRemoteDescription(failing: set<State>) returns (threw: bool)
      requires client.Valid() && client.manager == this
      requires peerConnection.Some? ==> peerConnection.value < |client.library.pcs|
      modifies client.states`state, client.states`emitted, client.library`pcs
      ensures client.Valid() && client.View() == NotCreated(old(client.View()))
      ensures threw == (old(peerConnection.None?) && RtcFailed in failing)
    {
      if peerConnection.None? {
        threw := Announce(RtcFailed, failing);
        return;
      }
      client.library.Advance(peerConnection.value, SettingRemote);
      threw := false;
    }

    method AfterSetSessionDescription(outcomes: map<string, TrackOutcome>)
      requires client.Valid() && client.manager == this
      requires peerConnection.Some? ==> peerConnection.value < |client.library.pcs|
      modifies client.library`pcs, client.library`fault, client.tracks.Values`source
      ensures client.Valid() && client.View() == OnRemoteSet(old(client.View()), outcomes)
    {
      client.CreateAllMediaTracks(outcomes);
      RequestAnswer();
    }

    /** `CreateVideoTrack`, `AddTrack` and `CreateAnswer` go through the factory and the connection held now. */
    method RequestAnswer()
      requires client.Valid() && client.manager == this
      requires peerConnection.Some? ==> peerConnection.value < |client.library.pcs|
      modifies client.library`pcs, client.library`fault
      ensures client.Valid()
      ensures var c := old(client.View());
        client.View() == if c.pc.None? || !c.factory then c.(fault := true) else SetStage(c, c.pc.value, CreatingAnswer)
    {
      if peerConnection.None? || !factory {
        client.library.fault := true;
        return;
      }
      client.library.Advance(peerConnection.value, CreatingAnswer);
    }

    /** The description `desc` was made by connection `from`; it may be missing. */
    method AfterCreateSdpAnswer(from: nat, hasDesc: bool)
      requires client.Valid() && client.manager == this
      requires peerConnection.Some? ==> peerConnection.value < |client.library.pcs|
      modifies client.library`pcs, client.library`fault
      ensures client.Valid() && client.View() == OnAnswerCreated(old(client.View()), from, hasDesc)
    {
      if peerConnection.None? {
        client.library.fault := true;
        return;
      }
      client.library.Advance(peerConnection.value, SettingLocal(if hasDesc then Some(from) else None));
    }

    /** `SimpleSetLocalDescriptionObserver::OnSuccess` and `AfterSetLocalDescription`. */
    method LocalDescriptionSet(from: nat)
      requires client.Valid() && client.manager == this
      requires from < |client.library.pcs| && client.library.pcs[from].stage.SettingLocal?
      modifies client.library`pcs, client.library`fault, client.library`failed, this`answers
      ensures client.Valid() && client.View() == OnLocalSet(old(client.View()), from)
      ensures var pc := old(client.library.pcs[from]);
        pc.stage.desc.Some? && signalingClient ==>
          answers == old(answers) + [Answer(pc.offer, from, pc.stage.desc.value)]
    {
      var desc := client.library.pcs[from].stage.desc;
      if desc.None? {
        StageFailed(from);
        return;
      }
      if !signalingClient {
        client.library.fault := true;
        return;
      }
      answers := answers + [Answer(client.library.pcs[from].offer, from, desc.value)];
      client.library.Advance(from, Answered);
    }

    /** The failure callbacks of the three observers. */
    method StageFailed(from: nat)
      requires client.Valid() && client.manager == this && from < |client.library.pcs|
      modifies client.library`pcs, client.library`failed
      ensures client.Valid() && client.View() == OnStageFails(old(client.View()), from)
    {
      client.library.Advance(from, Stage.StageFailed);
      client.library.failed := client.library.failed + 1;
      assert client.Bindings() == old(client.Bindings()) && client.Sources() == old(client.Sources());
    }
  }

  /** The observer handed to the library with each connection. */
  class PeerConnectionObserver {
    const connector: MosaicConnector
    const manager: PeerConnectionManager

    constructor (connector: MosaicConnector, manager: PeerConnectionManager)
      ensures this.connector == connector && this.manager == manager
    {
      this.connector, this.manager := connector, manager;
    }

    method OnConnectionChange(change: PcChange, nested: nat, failing: set<State>, throwing: Throwing)
      returns (threw: bool, ghost reach: Reach)
      requires connector.Valid() && connector.manager == manager
      requires manager.peerConnection.Some? ==> manager.peerConnection.value < |connector.library.pcs|
      modifies manager`peerConnection, connector.states`state, connector.states`emitted, connector.library`pcs
      modifies connector.library`abandoned, connector.tracks.Values`source, connector.tracks.Values`closes
      modifies connector.channels.Values`dcInterface, connector.channels.Values`closes
      ensures connector.Valid()
      ensures var c := old(connector.View());
        && Outcome(connector.View(), threw) == ChangeOutcome(c, change, Course(failing, reach))
        && MayGet(c, throwing, reach)
      ensures var was := old(connector.states.state);
        change in {PcFailed, PcDisconnected, PcClosed} && was in {RtcConnecting, RtcConnected} ==>
          connector.states.state == if RtcDisconnecting in failing then RtcDisconnecting else ReadyToConnect
      ensures change in {PcNew, PcConnecting} ==> connector.View() == old(connector.View()) && !threw
      ensures change == PcConnected ==> connector.states.state == RtcConnected
    {
      threw, reach := false, Whole;
      match change {
        case PcNew =>
        case PcConnecting =>
        case PcConnected => threw := manager.OnConnectionConnected(failing);
        case PcFailed => threw, reach := manager.ClosePeerConnection(nested, failing, throwing);
        case PcDisconnected => threw, reach := manager.ClosePeerConnection(nested, failing, throwing);
        case PcClosed => threw, reach := manager.ClosePeerConnection(nested, failing, throwing);
      }
    }
  }

  /**
  `MosaicConnectorFactory::Create`: null without an authenticator; otherwise everything is built, and WebRTC is
  initialised once, before anything else. When the first announcement fails, the exception takes the connector with it.
  */
  method Create(authenticator: bool, factoryOk: bool, sends: bool) returns (connector: MosaicConnector?, threw: bool)
    ensures connector == null <==> !authenticator || !sends
    ensures threw <==> authenticator && !sends
    ensures connector != null ==>
      connector.Valid() && connector.View() == AtomicStep(Initial().client, Initialize(factoryOk))
  {
    if !authenticator {
      return null, false;
    }
    var library := new Library();
    var states := new ConnectorStateManager();
    var made := new MosaicConnector(states, library);
    var manager := new PeerConnectionManager(made);
    made.SetPeerConnectionManager(manager);
    assert made.Bindings() == map[] && made.Sources() == map[];
    assert made.View() == Initial().client;
    threw := manager.InitializeWebRTC(factoryOk, sends);
    InitializeIsAtomic(Initial().client, factoryOk);
    connector := if threw then null else made;
  }

  /** A new connection is one that is about to be given its offer. */
  lemma OfferInTwo(c: Client, offer: nat, creates: bool)
    requires c.pc.Some? ==> c.pc.value < |c.pcs|
    ensures var tried := WithConnection(c, offer, creates);
      FinishObserver(c, offer, creates) == if !c.factory then tried else NotCreated(tried)
  {
    if c.factory && creates {
      var tried := WithConnection(c, offer, creates);
      assert SetStage(tried, tried.pc.value, SettingRemote).pcs == tried.pcs;
    }
  }

  /** `InitializeWebRTC` as a whole. */
  function Initialized(c: Client, factoryOk: bool): Client {
    SetState(c.(network := true, worker := true, signalingThread := true, factory := factoryOk), ReadyToConnect)
  }

  lemma InitializeIsAtomic(c: Client, factoryOk: bool)
    ensures AtomicStep(c, Initialize(factoryOk)) == Initialized(c, factoryOk)
  {
    var f := InitWorker(factoryOk);
    var started := c.(network := true);
    assert Complete(started, Running(f, Idle)) == FinishFrame(f, started);
  }

  /** `CreatePeerConnection` as a whole. */
  function WithConnection(c: Client, offer: nat, creates: bool): Client {
    var watched := c.(observer := Some(c.observersMade), observersMade := c.observersMade + 1);
    if !c.factory then watched.(fault := true)
    else if creates then Created(watched, offer, c.observersMade)
    else watched
  }
}
