/**
The signaling client and its websocket. The client keeps a connection flag of its own beside the socket's, a cached
status it replays on every new connection, and the correlation id of the session being negotiated.
*/
module Signaling {
  import opened Options
  import opened ConnectorStates

  datatype SocketState = Failed | Up | Shut

  /** A client object of the websocket library, and whether its close handler has been called. */
  datatype Socket = Socket(state: SocketState, reported: bool)

  datatype Frame =
    | Status(code: int)
    | Answer(id: string, sdp: string)
    | Candidate(id: string, candidate: string)
    | Pong

  /** A frame, with the number of the connection it went out on. */
  datatype Sent = Sent(connection: nat, frame: Frame)

  /** A call into the connector or the authenticator. */
  datatype Command =
    | OfferArrived(sdp: string)
    | CandidateArrived(candidate: string)
    | CloseArrived
    | AuthRequested
    | AuthCompleted
    | AuthArrived

  datatype Link = Link(
    isConnected: bool,
    latestState: int,
    connectionId: string,
    connected: bool,
    sockets: seq<Socket>,
    reconnects: nat,
    wire: seq<Sent>,
    handed: seq<Command>)

  /** What an operation left behind, and whether an exception came out of it. */
  datatype Outcome = Outcome(link: Link, threw: bool)

  /** A member of a message as `isNull` and `asString` see it. */
  datatype Text = Missing | Unreadable | Reads(text: string)

  /** A member that has to be parsed by WebRTC as well. */
  datatype Part = NoPart | UnreadablePart | Rejected | Parsed(text: string)

  /** The data of a message: null, an object, or something else with the number `asInt` makes of it, if any. */
  datatype Data = NoData | OtherData(number: Option<int>) | Members(connectionId: Text, offer: Part, candidate: Part)

  /** A text message: not JSON, the JSON null, neither null nor an object, or an object. */
  datatype Message = Garbled | Nothing | NotAnObject | Message(kind: Text, data: Data)

  /** What the websocket delivers: a ping, a pong or a close of the transport, a text, or anything else. */
  datatype Incoming = TransportPing | TransportPong | TransportClose | TextMessage(message: Message) | OtherMessage

  /** `Control` is an answer of the transport itself: a pong, or the close that replies to a close. */
  datatype Reaction = Ignore | Throw | Prepare(id: string) | Hand(command: Command) | Reply | Control

  datatype Closing = Completes | Canceled | Throws

  const EMPTY := Link(false, NO_STATE, "", false, [], 0, [], [])

  /** `asString`: null reads as the empty text. */
  function AsString(t: Text): Option<string> {
    match t
    case Missing => Some("")
    case Unreadable => None
    case Reads(text) => Some(text)
  }

  function OnPrepare(d: Data): Reaction {
    match d
    case NoData => Prepare("")
    case OtherData(_) => Throw
    case Members(id, _, _) => if id.Unreadable? then Throw else Prepare(AsString(id).value)
  }

  function OnOffer(d: Data): Reaction {
    match d
    case NoData => Ignore
    case OtherData(_) => Throw
    case Members(_, Parsed(sdp), _) => Hand(OfferArrived(sdp))
    case Members(_, UnreadablePart, _) => Throw
    case Members(_, _, _) => Ignore
  }

  function OnCandidate(d: Data): Reaction {
    match d
    case NoData => Ignore
    case OtherData(_) => Throw
    case Members(_, _, Parsed(c)) => Hand(CandidateArrived(c))
    case Members(_, _, UnreadablePart) => Throw
    case Members(_, _, _) => Ignore
  }

  /** `HandleAuthorizationMessage`: a response counts only with code 100, and is not looked at when it is null. */
  function OnAuthorization(kind: string, d: Data): Reaction {
    if kind == "authorize.req" then Hand(AuthRequested)
    else if kind == "authorize.res" then
      match d
      case NoData => Ignore
      case Members(_, _, _) => Throw
      case OtherData(number) =>
        if number.None? then Throw else if number.value == 100 then Hand(AuthCompleted) else Ignore
    else Hand(AuthArrived)
  }

  /** `OnMessage`, by the type of the message. */
  function Dispatch(kind: string, d: Data): Reaction {
    if kind == "signaling.send_sdp_offer" then OnOffer(d)
    else if kind == "signaling.prepare_connection" then OnPrepare(d)
    else if kind == "signaling.exchange_ice_candidate" then OnCandidate(d)
    else if kind == "signaling.close_peer_connection" then Hand(CloseArrived)
    else if "authorize" <= kind then OnAuthorization(kind, d)
    else if kind == "ping.ping" then Reply
    else Ignore
  }

  /** `OnWsMessage`. */
  function React(m: Message): Reaction {
    match m
    case Garbled => Ignore
    case Nothing => Ignore
    case NotAnObject => Throw
    case Message(Missing, _) => Ignore
    case Message(Unreadable, _) => Throw
    case Message(Reads(kind), data) => Dispatch(kind, data)
  }

  /** `handleMessage`, by the kind of what came in. */
  function ReactTo(incoming: Incoming): Reaction {
    match incoming
    case TransportPing => Control
    case TransportPong => Ignore
    case TransportClose => Control
    case TextMessage(m) => React(m)
    case OtherMessage => Ignore
  }

  /** `SendWsMessage`, down to `send`: it looks at the socket's flag only. */
  function Put(l: Link, f: Frame, sends: bool): Outcome {
    if !l.connected then Outcome(l, false)
    else if sends then Outcome(l.(wire := l.wire + [Sent(|l.sockets|, f)]), false)
    else Outcome(l, true)
  }

  /** `SignalingClient::SendState`: the code is recorded before anything can fail. */
  function Record(l: Link, code: int, sends: bool): Outcome {
    var recorded := l.(latestState := code);
    if recorded.isConnected then Put(recorded, Status(code), sends) else Outcome(recorded, false)
  }

  /** `connectInternal`: a replay that fails is caught there, after both flags were set. */
  function Connect(l: Link, ok: bool, replayed: bool): Link {
    if !ok then l.(sockets := l.sockets + [Socket(Failed, false)])
    else
      var up := l.(sockets := l.sockets + [Socket(Up, false)], connected := true, isConnected := true);
      if up.latestState != NO_STATE then Record(up, up.latestState, replayed).link else up
  }

  function Reconnect(l: Link, ok: bool, replayed: bool): Link {
    Connect(l.(reconnects := if l.reconnects > 0 then l.reconnects - 1 else 0), ok, replayed)
  }

  /** `handleClose`: whichever socket reports, the flags of the current connection are cleared. */
  function Closed(l: Link, s: nat): Link {
    if s < |l.sockets| then
      l.(connected := false, isConnected := false, reconnects := l.reconnects + 1,
         sockets := l.sockets[s := l.sockets[s].(reported := true)])
    else l
  }

  /** `onError`: only the client's own flag is cleared. */
  function Errored(l: Link): Link {
    l.(isConnected := false)
  }

  /** `disconnect`. */
  function Disconnect(l: Link, closing: Closing): Outcome {
    if !l.connected || l.sockets == [] then Outcome(l, false)
    else
      var last := |l.sockets| - 1;
      var down := l.(connected := false, sockets := l.sockets[last := l.sockets[last].(state := Shut)]);
      Outcome(if closing.Completes? then down.(isConnected := false) else down, closing.Throws?)
  }

  function Stop(l: Link, closing: Closing): Outcome {
    if !l.isConnected then Outcome(l, false)
    else
      var off := Disconnect(l, closing);
      if off.threw then off else Outcome(off.link.(isConnected := false), false)
  }

  /** `SendSdpAnswer` and `SendIceCandidate`. */
  function SendWithId(l: Link, f: Frame, sends: bool): Outcome {
    if !l.isConnected || l.connectionId == "" then Outcome(l, false) else Put(l, f, sends)
  }

  /**
  `handleMessage` on a message that calls for `reaction`. `fine` is false when the answer cannot be sent, or the call
  into the connector or the authenticator ends in an exception.
  */
  function Receive(l: Link, reaction: Reaction, fine: bool): (l': Link)
    ensures l'.sockets == l.sockets && l'.reconnects == l.reconnects && l'.connected == l.connected
    ensures l'.latestState == l.latestState && (l'.isConnected ==> l.isConnected)
  {
    match reaction
    case Ignore => l
    case Throw => Errored(l)
    case Prepare(id) => l.(connectionId := id)
    case Hand(c) =>
      var handed := l.(handed := l.handed + [c]);
      if fine then handed else Errored(handed)
    case Reply =>
      var sent := Put(l, Pong, fine);
      if sent.threw then Errored(sent.link) else sent.link
    case Control => if fine then l else Errored(l)
  }

  /** `offer` says which of the commands handed to the connector the answer is for. */
  datatype Event =
    | Starts(ok: bool, replayed: bool)
    | Reconnects(ok: bool, replayed: bool)
    | SocketCloses(socket: nat)
    | ErrorReported
    | Receives(incoming: Incoming, fine: bool)
    | StateSet(state: State, inMessage: bool, sends: bool)
    | Broadcast(sends: bool)
    | AnswerReady(offer: nat, sdp: string, sends: bool)
    | CandidateFound(candidate: string, sends: bool)
    | Stops(closing: Closing)

  /** `escaped`: an exception left the client on a thread where nothing catches it. */
  datatype World = World(link: Link, state: State, escaped: bool)

  /** The last socket can still report something. */
  predicate Listening(l: Link) {
    l.sockets != [] && !l.sockets[|l.sockets| - 1].reported
  }

  /**
  The client is started once; every socket reports its end at most once, and each report starts one reconnection. An
  answer is made for an offer that arrived.
  */
  predicate Enabled(w: World, e: Event) {
    && !w.escaped
    && match e
       case Starts(_, _) => w.link.sockets == []
       case Reconnects(_, _) => w.link.reconnects > 0
       case SocketCloses(s) => s < |w.link.sockets| && !w.link.sockets[s].reported
       case ErrorReported => Listening(w.link)
       case Receives(_, _) => Listening(w.link)
       case StateSet(_, inMessage, _) => inMessage ==> Listening(w.link)
       case AnswerReady(offer, _, _) => offer < |w.link.handed| && w.link.handed[offer].OfferArrived?
       case _ => true
  }

  /** An exception ends in `onError` when a message is being handled, and escapes otherwise. */
  function After(o: Outcome, state: State, inMessage: bool): World {
    if o.threw && inMessage then World(Errored(o.link), state, false) else World(o.link, state, o.threw)
  }

  function Step(w: World, e: Event): World {
    match e
    case Starts(ok, replayed) => World(Connect(w.link, ok, replayed), w.state, w.escaped)
    case Reconnects(ok, replayed) => World(Reconnect(w.link, ok, replayed), w.state, w.escaped)
    case SocketCloses(s) => World(Closed(w.link, s), w.state, w.escaped)
    case ErrorReported => World(Errored(w.link), w.state, w.escaped)
    case Receives(incoming, fine) => World(Receive(w.link, ReactTo(incoming), fine), w.state, w.escaped)
    case StateSet(s, inMessage, sends) => After(Record(w.link, StateToInt(s), sends), s, inMessage)
    case Broadcast(sends) => After(Record(w.link, StateToInt(w.state), sends), w.state, false)
    case AnswerReady(_, sdp, sends) =>
      After(SendWithId(w.link, Answer(w.link.connectionId, sdp), sends), w.state, false)
    case CandidateFound(c, sends) =>
      After(SendWithId(w.link, Candidate(w.link.connectionId, c), sends), w.state, false)
    case Stops(closing) => After(Stop(w.link, closing), w.state, false)
  }

  function Run(es: seq<Event>): World
    decreases |es|
  {
    if es == [] then World(EMPTY, Initializing, false) else Step(Run(es[..|es| - 1]), es[|es| - 1])
  }

  predicate Legal(es: seq<Event>)
    decreases |es|
  {
    es == [] || (Legal(es[..|es| - 1]) && Enabled(Run(es[..|es| - 1]), es[|es| - 1]))
  }

  predicate Connects(e: Event) {
    e.Starts? || e.Reconnects?
  }

  /** The frame an event puts on the wire, if any. */
  function Emitted(w: World, e: Event): Option<Frame> {
    var l := w.link;
    match e
    case Starts(ok, replayed) =>
      if ok && l.latestState != NO_STATE && replayed then Some(Status(l.latestState)) else None
    case Reconnects(ok, replayed) =>
      if ok && l.latestState != NO_STATE && replayed then Some(Status(l.latestState)) else None
    case Receives(incoming, fine) => if ReactTo(incoming).Reply? && l.connected && fine then Some(Pong) else None
    case StateSet(s, _, sends) => if l.isConnected && l.connected && sends then Some(Status(StateToInt(s))) else None
    case Broadcast(sends) => if l.isConnected && l.connected && sends then Some(Status(StateToInt(w.state))) else None
    case AnswerReady(_, sdp, sends) =>
      if l.isConnected && l.connected && l.connectionId != "" && sends then Some(Answer(l.connectionId, sdp)) else None
    case CandidateFound(c, sends) =>
      if l.isConnected && l.connected && l.connectionId != "" && sends then Some(Candidate(l.connectionId, c)) else None
    case _ => None
  }

  lemma StepEmits(w: World, e: Event)
    ensures var after := Step(w, e).link;
      after.wire == w.link.wire +
        if Emitted(w, e).Some? then [Sent(|after.sockets|, Emitted(w, e).value)] else []
  {
  }

  /** Only a new connection sets the client's flag; every event but a new connection keeps the number of connections. */
  lemma StepConnects(w: World, e: Event)
    ensures var before, after := w.link, Step(w, e).link;
      && |after.sockets| == |before.sockets| + (if Connects(e) then 1 else 0)
      && (after.isConnected && !Connects(e) ==> before.isConnected)
  {
  }

  lemma StepPrepares(w: World, e: Event)
    ensures Step(w, e).link.connectionId
         == if e.Receives? && ReactTo(e.incoming).Prepare? then ReactTo(e.incoming).id else w.link.connectionId
  {
  }

  lemma StepHands(w: World, e: Event)
    ensures Step(w, e).link.handed
         == w.link.handed + if e.Receives? && ReactTo(e.incoming).Hand? then [ReactTo(e.incoming).command] else []
  {
  }
}
