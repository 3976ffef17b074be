/** The state manager, the signaling client and the websocket client as objects that call each other back. */
module SignalingObjects {
  import opened ConnectorStates
  import opened Connector
  import opened Signaling

  /**
  `m_client` is the last of `sockets`; `listener` is the object the four stored callbacks belong to. `reconnects` counts
  the detached threads that sleep before they connect again.
  */
  class WebSocketClientImpl {
    const listener: SignalingClient
    var connected: bool
    var sockets: seq<Socket>
    var reconnects: nat
    ghost var wire: seq<Sent>

    constructor (listener: SignalingClient)
      ensures this.listener == listener
      ensures !connected && sockets == [] && reconnects == 0 && wire == []
    {
      this.listener := listener;
      connected, sockets, reconnects, wire := false, [], 0, [];
    }

    method Connect(ok: bool, replayed: bool)
      requires listener.ws == this && !connected
      modifies this, listener
      ensures listener.ws == this && listener.View() == Signaling.Connect(old(listener.View()), ok, replayed)
    {
      connected := false;
      ConnectInternal(ok, replayed);
    }

    method ConnectInternal(ok: bool, replayed: bool)
      requires listener.ws == this
      modifies this, listener
      ensures listener.ws == this && listener.View() == Signaling.Connect(old(listener.View()), ok, replayed)
    {
      if ok {
        sockets := sockets + [Socket(Up, false)];
        connected := true;
        var _ := listener.OnConnected(replayed);
      } else {
        sockets := sockets + [Socket(Failed, false)];
      }
    }

    /** The reconnection thread, once it has slept. */
    method ReconnectThread(ok: bool, replayed: bool)
      requires listener.ws == this && reconnects > 0
      modifies this, listener
      ensures listener.ws == this && listener.View() == Reconnect(old(listener.View()), ok, replayed)
    {
      reconnects := reconnects - 1;
      ConnectInternal(ok, replayed);
    }

    method Disconnect(closing: Closing) returns (threw: bool)
      requires listener.ws == this && (connected ==> sockets != [])
      modifies this, listener
      ensures listener.ws == this
      ensures Outcome(listener.View(), threw) == Signaling.Disconnect(old(listener.View()), closing)
      ensures !connected
      ensures listener.isConnected == (old(listener.isConnected) && !(old(connected) && closing.Completes?))
    {
      if !connected {
        return false;
      }
      connected := false;
      sockets := sockets[|sockets| - 1 := sockets[|sockets| - 1].(state := Shut)];
      if closing.Completes? {
        listener.OnDisconnected();
      }
      threw := closing.Throws?;
    }

    method Send(f: Frame, sends: bool) returns (threw: bool)
      requires listener.ws == this
      modifies this`wire
      ensures Outcome(listener.View(), threw) == Put(old(listener.View()), f, sends)
    {
      if !connected {
        return false;
      }
      if !sends {
        return true;
      }
      wire := wire + [Sent(|sockets|, f)];
      threw := false;
    }

    /** A ping is answered with a pong and a close with a close, outside the log of the program's own frames. */
    method HandleMessage(incoming: Incoming, fine: bool)
      requires listener.ws == this
      modifies this, listener
      ensures listener.ws == this && listener.View() == Receive(old(listener.View()), ReactTo(incoming), fine)
    {
      var threw := false;
      if incoming.TransportPing? || incoming.TransportClose? {
        threw := !fine;
      } else if incoming.TextMessage? {
        threw := listener.OnWsMessage(incoming.message, fine);
      }
      if threw {
        listener.OnError();
      }
    }

    method HandleClose(s: nat)
      requires listener.ws == this && s < |sockets|
      modifies this, listener
      ensures listener.ws == this && listener.View() == Closed(old(listener.View()), s)
    {
      sockets := sockets[s := sockets[s].(reported := true)];
      connected := false;
      listener.OnDisconnected();
      reconnects := reconnects + 1;
    }
  }

  class SignalingClient {
    var isConnected: bool
    var latestState: int
    var connectionId: string
    var ws: WebSocketClientImpl?
    ghost var handed: seq<Command>

    constructor ()
      ensures ws == null && View() == EMPTY
    {
      isConnected, latestState, connectionId := false, NO_STATE, "";
      ws, handed := null, [];
    }

    ghost predicate Valid()
      reads this, ws
    {
      && (ws != null ==> ws.listener == this && (ws.connected ==> ws.sockets != []))
      && (isConnected ==> ws != null)
    }

    ghost function View(): Link
      reads this, ws
    {
      if ws == null then Link(isConnected, latestState, connectionId, false, [], 0, [], handed)
      else Link(isConnected, latestState, connectionId, ws.connected, ws.sockets, ws.reconnects, ws.wire, handed)
    }

    method Start(ok: bool, replayed: bool)
      requires Valid() && ws == null
      modifies this
      ensures Valid() && fresh(ws) && View() == Signaling.Connect(old(View()), ok, replayed)
    {
      var client := new WebSocketClientImpl(this);
      ws := client;
      client.Connect(ok, replayed);
    }

    method Stop(closing: Closing) returns (threw: bool)
      requires Valid()
      modifies this, ws
      ensures Valid() && ws == old(ws) && Outcome(View(), threw) == Signaling.Stop(old(View()), closing)
    {
      threw := false;
      if isConnected {
        threw := ws.Disconnect(closing);
        if !threw {
          isConnected := false;
        }
      }
    }

    method OnConnected(replayed: bool) returns (threw: bool)
      requires ws != null && ws.listener == this
      modifies this, ws
      ensures ws == old(ws)
      ensures var up := old(View()).(isConnected := true);
        Outcome(View(), threw)
          == if up.latestState != NO_STATE then Record(up, up.latestState, replayed) else Outcome(up, false)
    {
      isConnected := true;
      threw := false;
      if latestState != NO_STATE {
        threw := SendState(latestState, replayed);
      }
    }

    method OnDisconnected()
      modifies this`isConnected
      ensures !isConnected
    {
      isConnected := false;
    }

    method OnError()
      modifies this`isConnected
      ensures View() == Errored(old(View()))
    {
      isConnected := false;
    }

    method SendWsMessage(f: Frame, sends: bool) returns (threw: bool)
      requires ws != null && ws.listener == this
      modifies ws`wire
      ensures Outcome(View(), threw) == Put(old(View()), f, sends)
    {
      threw := false;
      if ws.connected {
        threw := ws.Send(f, sends);
      }
    }

    method SendState(code: int, sends: bool) returns (threw: bool)
      requires (ws != null ==> ws.listener == this) && (isConnected ==> ws != null)
      modifies this, ws
      ensures ws == old(ws) && Outcome(View(), threw) == Record(old(View()), code, sends)
    {
      latestState := code;
      if !isConnected {
        return false;
      }
      threw := SendWsMessage(Status(latestState), sends);
    }

    method SendSdpAnswer(sdp: string, sends: bool) returns (threw: bool)
      requires Valid()
      modifies if ws != null then {ws} else {}
      ensures Outcome(View(), threw) == SendWithId(old(View()), Answer(old(connectionId), sdp), sends)
    {
      if !isConnected || connectionId == "" {
        return false;
      }
      threw := SendWsMessage(Answer(connectionId, sdp), sends);
    }

    method SendIceCandidate(candidate: string, sends: bool) returns (threw: bool)
      requires Valid()
      modifies if ws != null then {ws} else {}
      ensures Outcome(View(), threw) == SendWithId(old(View()), Candidate(old(connectionId), candidate), sends)
    {
      if !isConnected || connectionId == "" {
        return false;
      }
      threw := SendWsMessage(Candidate(connectionId, candidate), sends);
    }

    /** The client once the exception out of a handler, if any, has been caught. */
    ghost function Handled(threw: bool): Link
      reads this, ws
    {
      if threw then Errored(View()) else View()
    }

    /** What handling a message does before the websocket client's `catch`. */
    method OnWsMessage(m: Message, fine: bool) returns (threw: bool)
      requires ws != null && ws.listener == this
      modifies this, ws
      ensures ws == old(ws)
      ensures Handled(threw) == Receive(old(View()), React(m), fine)
      ensures !threw ==> isConnected == old(isConnected)
    {
      if m.Garbled? || m.Nothing? {
        return false;
      }
      if m.NotAnObject? {
        return true;
      }
      if m.kind.Missing? {
        return false;
      }
      if m.kind.Unreadable? {
        return true;
      }
      threw := OnMessage(m.kind.text, m.data, fine);
    }

    method HandlePrepareConnection(data: Data) returns (threw: bool)
      modifies this`connectionId
      ensures Handled(threw) == Receive(old(View()), OnPrepare(data), true)
      ensures !threw ==> isConnected == old(isConnected)
    {
      if data.OtherData? {
        return true;
      }
      var id := if data.NoData? then Missing else data.connectionId;
      if id.Unreadable? {
        return true;
      }
      connectionId := if id.Missing? then "" else id.text;
      threw := false;
    }

    method HandleSendSdpOffer(data: Data, fine: bool) returns (threw: bool)
      modifies this`handed
      ensures Handled(threw) == Receive(old(View()), OnOffer(data), fine)
      ensures !threw ==> isConnected == old(isConnected)
    {
      if data.OtherData? {
        return true;
      }
      if data.NoData? || data.offer.NoPart? {
        return false;
      }
      if data.offer.UnreadablePart? {
        return true;
      }
      threw := false;
      if data.offer.Parsed? {
        handed := handed + [OfferArrived(data.offer.text)];
        threw := !fine;
      }
    }

    method HandleExchangeIceCandidate(data: Data, fine: bool) returns (threw: bool)
      modifies this`handed
      ensures Handled(threw) == Receive(old(View()), OnCandidate(data), fine)
      ensures !threw ==> isConnected == old(isConnected)
    {
      if data.OtherData? {
        return true;
      }
      if data.NoData? || data.candidate.NoPart? {
        return false;
      }
      if data.candidate.UnreadablePart? {
        return true;
      }
      threw := false;
      if data.candidate.Parsed? {
        handed := handed + [CandidateArrived(data.candidate.text)];
        threw := !fine;
      }
    }

    method HandleAuthorizationMessage(kind: string, data: Data, fine: bool) returns (threw: bool)
      modifies this`handed
      ensures Handled(threw) == Receive(old(View()), OnAuthorization(kind, data), fine)
      ensures !threw ==> isConnected == old(isConnected)
    {
      if kind == "authorize.req" {
        handed := handed + [AuthRequested];
        threw := !fine;
      } else if kind == "authorize.res" {
        if data.NoData? {
          return false;
        }
        if data.Members? || data.number.None? {
          return true;
        }
        threw := false;
        if data.number.value == 100 {
          handed := handed + [AuthCompleted];
          threw := !fine;
        }
      } else {
        handed := handed + [AuthArrived];
        threw := !fine;
      }
    }

    method HandleCloseConnection(fine: bool) returns (threw: bool)
      modifies this`handed
      ensures Handled(threw) == Receive(old(View()), Hand(CloseArrived), fine)
      ensures !threw ==> isConnected == old(isConnected)
    {
      handed := handed + [CloseArrived];
      threw := !fine;
    }

    method HandlePingPong(fine: bool) returns (threw: bool)
      requires ws != null && ws.listener == this
      modifies ws`wire
      ensures Handled(threw) == Receive(old(View()), Reply, fine)
      ensures !threw ==> isConnected == old(isConnected)
    {
      threw := SendWsMessage(Pong, fine);
    }

    method OnMessage(kind: string, data: Data, fine: bool) returns (threw: bool)
      requires ws != null && ws.listener == this
      modifies this, ws
      ensures ws == old(ws)
      ensures Handled(threw) == Receive(old(View()), Dispatch(kind, data), fine)
      ensures !threw ==> isConnected == old(isConnected)
    {
      if kind == "signaling.send_sdp_offer" {
        threw := HandleSendSdpOffer(data, fine);
      } else if kind == "signaling.prepare_connection" {
        threw := HandlePrepareConnection(data);
      } else if kind == "signaling.exchange_ice_candidate" {
        threw := HandleExchangeIceCandidate(data, fine);
      } else if kind == "signaling.close_peer_connection" {
        threw := HandleCloseConnection(fine);
      } else if "authorize" <= kind {
        threw := HandleAuthorizationMessage(kind, data, fine);
      } else if kind == "ping.ping" {
        threw := HandlePingPong(fine);
      } else {
        threw := false;
      }
    }
  }

  /**
  The state manager with the client it sends through; without one the states are only logged. The lifecycle leaves open
  which announcements fail; here that is decided by the connection.
  */
  class StatusSender {
    const states: ConnectorStateManager
    const client: SignalingClient?

    constructor (states: ConnectorStateManager, client: SignalingClient?)
      ensures this.states == states && this.client == client
    {
      this.states, this.client := states, client;
    }

    ghost function View(): World
      requires client != null
      reads this, states, client, client.ws
    {
      World(client.View(), states.state, false)
    }

    /** `ConnectorStateManager::SendState`. */
    method SendState(sends: bool) returns (threw: bool)
      requires client != null ==> client.Valid()
      modifies client, if client != null then {client.ws} else {}
      ensures client == null ==> !threw
      ensures client != null ==> client.Valid() && client.ws == old(client.ws)
      ensures client != null ==>
        After(Outcome(client.View(), threw), states.state, false) == Step(old(View()), Broadcast(sends))
    {
      threw := false;
      if client != null {
        threw := client.SendState(StateToInt(states.state), sends);
      }
    }

    /** `ConnectorStateManager::SetState`. */
    method SetState(s: State, sends: bool) returns (threw: bool)
      requires client != null ==> client.Valid()
      modifies states, client, if client != null then {client.ws} else {}
      ensures states.state == s && states.emitted == old(states.emitted) + [s]
      ensures client == null ==> !threw
      ensures client != null ==> client.Valid() && client.ws == old(client.ws)
      ensures client != null ==>
        After(Outcome(client.View(), threw), s, false) == Step(old(View()), StateSet(s, false, sends))
    {
      states.Store(s);
      threw := SendState(sends);
    }

    /** The broadcast thread: every time it wakes up without the stop flag it sends the state it finds. */
    method StateBroadcastWorker(wakes: seq<bool>) returns (threw: bool)
      requires client != null ==> client.Valid()
      modifies client, if client != null then {client.ws} else {}
      ensures client == null ==> !threw
      ensures client != null ==> client.Valid() && client.ws == old(client.ws)
      ensures client != null ==>
        Broadcasts(old(View()), wakes) == After(Outcome(client.View(), threw), states.state, false)
    {
      threw := false;
      var i := 0;
      while i < |wakes| && !threw
        invariant i <= |wakes| && (client == null ==> !threw)
        invariant client != null ==> client.Valid() && client.ws == old(client.ws)
        invariant client != null ==>
          Broadcasts(old(View()), wakes)
            == if threw then World(client.View(), states.state, true) else Broadcasts(View(), wakes[i..])
      {
        assert wakes[i..][1..] == wakes[i + 1..];
        threw := SendState(wakes[i]);
        i := i + 1;
      }
    }
  }

  /** The rounds of the broadcast thread up to the first exception, which ends it. */
  function Broadcasts(w: World, wakes: seq<bool>): World
    decreases |wakes|
  {
    if wakes == [] || w.escaped then w else Broadcasts(Step(w, Broadcast(wakes[0])), wakes[1..])
  }

  /** The same status frame, `n` times. */
  function Repeated(connection: nat, code: int, n: nat): seq<Sent> {
    if n == 0 then [] else [Sent(connection, Status(code))] + Repeated(connection, code, n - 1)
  }

  /** How many rounds go well before the first that does not. */
  function Rounds(wakes: seq<bool>): (n: nat)
    ensures n <= |wakes|
    decreases |wakes|
  {
    if wakes == [] || !wakes[0] then 0 else 1 + Rounds(wakes[1..])
  }

  /** As long as the sends succeed, every wake-up of a connected client sends the state it finds; a failure ends it. */
  lemma {:induction false} BroadcastsSendState(w: World, wakes: seq<bool>)
    requires !w.escaped && w.link.isConnected && w.link.connected
    ensures var w' := Broadcasts(w, wakes);
      && w'.link.wire == w.link.wire + Repeated(|w.link.sockets|, StateToInt(w.state), Rounds(wakes))
      && (w'.escaped <==> Rounds(wakes) < |wakes|) && w'.state == w.state
      && (wakes != [] ==> w'.link.latestState == StateToInt(w.state))
    decreases |wakes|
  {
    if wakes != [] {
      var next := Step(w, Broadcast(wakes[0]));
      if wakes[0] {
        BroadcastsSendState(next, wakes[1..]);
      } else {
        assert Broadcasts(next, wakes[1..]) == next;
      }
    }
  }
}
