/**
The connection lifecycle as a machine that runs one statement at a time.

`PeerConnectionManager::Impl`, `PeerConnectionObserver`, `MosaicConnector` and `ConnectorStateManager` are one
transition system here. The operation in progress is kept on an explicit call stack, so that a callback may arrive
between any two statements of a teardown and call `ClosePeerConnection` again, exactly as WebRTC may.

The tables `pcs` and `chans` record what the WebRTC library knows: every peer connection and every data channel ever
created. The program sees them only through its own fields (`pc`, `observer`, `channels`, `tracks`).
*/
module Lifecycle {
  import opened Options
  import opened ConnectorStates

  datatype PcStatus = Live | Closed | Dropped

  /** How far the offer/answer exchange of one peer connection has come. `desc` names the connection that made it. */
  datatype Stage =
    | SettingRemote
    | CreatingAnswer
    | SettingLocal(desc: Option<nat>)
    | Answered
    | StageFailed

  datatype Pc = Pc(offer: nat, observer: nat, status: PcStatus, stage: Stage, closes: nat)

  datatype ChannelState = Connecting | Open | Closing | ChannelClosed | Unknown

  /** A data channel of the WebRTC library, with the observer registered on it. */
  datatype Channel = Channel(name: string, state: ChannelState, observer: Option<nat>)

  /** A registered data channel handler: which object it is, and what it holds. */
  datatype Binding = Binding(handler: nat, channel: Option<nat>, observer: Option<nat>, closes: nat)

  /** A registered media track handler: which object it is, and whether it holds a track source. */
  datatype Track = Track(handler: nat, source: bool, closes: nat)

  /** What became of one media track while the answer was prepared. */
  datatype TrackOutcome = NoSource | NoTrack | NotAdded | Added

  datatype Answer = Answer(offer: nat, pc: nat, desc: nat)

  datatype PcChange = PcNew | PcConnecting | PcConnected | PcFailed | PcDisconnected | PcClosed

  /** The statement an operation is about to run. */
  datatype Frame =
    // InitializeWebRTC
    | InitWorker(factoryOk: bool)
    | InitSignaling(factoryOk: bool)
    | InitFactory(factoryOk: bool)
    | InitReady
    // ClosePeerConnection
    | CloseTracks(pending: set<string>)
    | CloseChannels(pending: set<string>)
    | ClosePc
    | ReleasePc
    | Notify
    // HandleSdpOffer and CreatePeerConnection
    | OfferCheck(offer: nat, creates: bool)
    | OfferObserver(offer: nat, creates: bool)
    | OfferMake(offer: nat, creates: bool)
    | OfferFailed
    // ShuttingDown and DestroyPeerConnectionManager
    | StopSignalingServer
    | ShutClose
    | DropPc
    | DropObserver
    | DropFactory
    | StopNetwork
    | StopWorker
    | StopSignalingThread

  /** The call stack: the running operation's next statement on top of the operations that wait for it. */
  datatype Stack = Idle | Running(top: Frame, below: Stack)

  /** Everything but the call stack: the program's fields, what it announced, and the library's tables. */
  datatype Client = Client(
    state: State,
    emitted: seq<State>,
    pc: Option<nat>,
    observer: Option<nat>,
    factory: bool,
    network: bool,
    worker: bool,
    signalingThread: bool,
    signalingClient: bool,
    observersMade: nat,
    pcs: seq<Pc>,
    chans: seq<Channel>,
    channels: map<string, Binding>,
    tracks: map<string, Track>,
    answers: seq<Answer>,
    failed: nat,
    abandoned: nat,
    fault: bool)

  datatype World = World(client: Client, stack: Stack)

  datatype Action =
    | Initialize(factoryOk: bool)
    | Offer(offer: nat, creates: bool)
    | CloseMessage
    | ConnectionChange(from: nat, change: PcChange)
    | RemoteSet(from: nat, outcomes: map<string, TrackOutcome>)
    | AnswerCreated(from: nat, hasDesc: bool)
    | LocalSet(from: nat)
    | StageFails(from: nat)
    | DataChannelArrives(from: nat, name: string, state: ChannelState)
    | ChannelChanges(chan: nat, state: ChannelState)
    | UserClosesChannel(name: string)
    | AddChannelHandler(name: string, handler: nat)
    | AddTrackHandler(name: string, handler: nat)
    | Shutdown
    | Continue(key: string)
    | HandlerThrows
    | AnnounceFails(of: Action)

  function Initial(): World {
    World(Client(Initializing, [], None, None, false, false, false, false, true, 0, [], [], map[], map[], [], 0, 0,
                 false),
          Idle)
  }

  predicate Quiet(w: World) {
    w.stack.Idle?
  }

  function Push(w: World, f: Frame): World {
    World(w.client, Running(f, w.stack))
  }

  /** `ConnectorStateManager::SetState`. */
  function SetState(c: Client, s: State): Client {
    c.(state := s, emitted := c.emitted + [s])
  }

  predicate Pending(s: Stage) {
    s.SettingRemote? || s.CreatingAnswer? || s.SettingLocal?
  }

  predicate IsLive(c: Client, p: nat) {
    p < |c.pcs| && c.pcs[p].status.Live?
  }

  /** The callbacks that make the observer close the connection. */
  predicate ClosingChange(c: PcChange) {
    c.PcFailed? || c.PcDisconnected? || c.PcClosed?
  }

  predicate InitFrame(f: Frame) {
    f.InitWorker? || f.InitSignaling? || f.InitFactory? || f.InitReady?
  }

  predicate OfferFrame(f: Frame) {
    f.OfferCheck? || f.OfferObserver? || f.OfferMake? || f.OfferFailed?
  }

  predicate TearFrame(f: Frame) {
    f.CloseTracks? || f.CloseChannels? || f.ClosePc? || f.ReleasePc? || f.Notify?
  }

  predicate ShutFrame(f: Frame) {
    || f.StopSignalingServer? || f.ShutClose? || f.DropPc? || f.DropObserver?
    || f.DropFactory? || f.StopNetwork? || f.StopWorker? || f.StopSignalingThread?
  }

  /** The state a statement announces. */
  function AnnouncedBy(f: Frame, c: Client): Option<State> {
    match f
    case InitReady => Some(ReadyToConnect)
    case Notify => Some(ReadyToConnect)
    case OfferCheck(_, _) => if c.state.ReadyToConnect? then Some(RtcConnecting) else None
    case OfferFailed => if c.pc.None? then Some(RtcFailed) else None
    case ShutClose => if Active(c.state) then Some(RtcDisconnecting) else None
    case _ => None
  }

  /** The state an action announces. */
  function Announced(w: World, a: Action): Option<State> {
    match a
    case Offer(_, _) => if w.client.pc.Some? && Active(w.client.state) then Some(RtcDisconnecting) else None
    case CloseMessage => if Active(w.client.state) then Some(RtcDisconnecting) else None
    case ConnectionChange(_, change) =>
      if change.PcConnected? then Some(RtcConnected)
      else if ClosingChange(change) && Active(w.client.state) then Some(RtcDisconnecting)
      else None
    case Shutdown => Some(Disconnected)
    case Continue(_) => if Quiet(w) then None else AnnouncedBy(w.stack.top, w.client)
    case _ => None
  }

  /**
  What the environment may do next. Operations run one at a time; while one is running only its own next statement,
  an exception out of a handler being closed, or a nested closing callback can happen. WebRTC delivers "connected" and
  the outcome of a negotiation step only from a peer connection that is live; it may deliver the closing callbacks from
  any connection it ever made. The status frame of an announcement may fail to go out; a message handler or the user
  catches the exception and the process goes on. On a thread of WebRTC nothing catches it and the process ends, so a
  failing first announcement of a callback is no step; one at the end of its teardown leaves the state of one that goes
  out.
  */
  predicate Enabled(w: World, a: Action)
    decreases a
  {
    && !w.client.fault
    && match a
       case Initialize(_) => Quiet(w) && w.client.state.Initializing?
       case Offer(_, _) => Quiet(w)
       case CloseMessage => Quiet(w)
       case ConnectionChange(p, change) =>
         && p < |w.client.pcs|
         && if Quiet(w) then change.PcConnected? ==> IsLive(w.client, p)
            else (TearFrame(w.stack.top) || ShutFrame(w.stack.top)) && ClosingChange(change)
       case RemoteSet(p, _) => Quiet(w) && IsLive(w.client, p) && w.client.pcs[p].stage.SettingRemote?
       case AnswerCreated(p, _) => Quiet(w) && IsLive(w.client, p) && w.client.pcs[p].stage.CreatingAnswer?
       case LocalSet(p) => Quiet(w) && IsLive(w.client, p) && w.client.pcs[p].stage.SettingLocal?
       case StageFails(p) => Quiet(w) && IsLive(w.client, p) && Pending(w.client.pcs[p].stage)
       case DataChannelArrives(p, _, _) => Quiet(w) && IsLive(w.client, p)
       case ChannelChanges(c, _) => Quiet(w) && c < |w.client.chans|
       case UserClosesChannel(l) => Quiet(w) && l in w.client.channels
       case AddChannelHandler(_, _) => Quiet(w)
       case AddTrackHandler(_, _) => Quiet(w)
       case Shutdown => Quiet(w)
       case Continue(key) =>
         && !Quiet(w)
         && ((w.stack.top.CloseTracks? || w.stack.top.CloseChannels?) && w.stack.top.pending != {} ==>
               key in w.stack.top.pending)
       case AnnounceFails(of) => Enabled(w, of) && Announced(w, of).Some? && !of.ConnectionChange?
       case HandlerThrows =>
         && !Quiet(w)
         && match w.stack.top
            case CloseTracks(pending) => pending != {}
            case CloseChannels(pending) => pending != {}
            case ClosePc => w.client.pc.Some?
            case _ => false
  }

  /** `ClosePeerConnection` up to the first statement of its `try` block. */
  function CallClose(w: World): (w': World)
    ensures SameRegistries(w.client, w'.client) && w'.client.observersMade == w.client.observersMade
  {
    if Active(w.client.state) then
      Push(World(SetState(w.client, RtcDisconnecting), w.stack), CloseTracks(w.client.tracks.Keys))
    else w
  }

  function CloseTrack(t: Track): Track {
    t.(source := false, closes := t.closes + 1)
  }

  function CloseBinding(b: Binding): Binding {
    b.(channel := None, closes := b.closes + 1)
  }

  predicate SameRegistries(c: Client, c': Client) {
    c'.channels == c.channels && c'.tracks == c.tracks && c'.chans == c.chans
  }

  predicate SameStates(c: Client, c': Client) {
    c'.state == c.state && c'.emitted == c.emitted
  }

  predicate SameServices(c: Client, c': Client) {
    && c'.factory == c.factory && c'.network == c.network && c'.worker == c.worker
    && c'.signalingThread == c.signalingThread && c'.signalingClient == c.signalingClient
  }

  predicate SameConnection(c: Client, c': Client) {
    c'.pc == c.pc && |c'.pcs| == |c.pcs|
  }

  function Retired(pc: Pc, status: PcStatus): Pc {
    pc.(status := status, closes := pc.closes + if status.Closed? then 1 else 0)
  }

  /** 1 when the connection goes while its offer/answer exchange is under way. */
  function Cut(pc: Pc): nat {
    if pc.status.Live? && Pending(pc.stage) then 1 else 0
  }

  /** One peer connection leaves the live ones; an exchange still under way is abandoned with it. */
  function Retire(c: Client, p: nat, status: PcStatus): (c': Client)
    ensures SameRegistries(c, c') && SameStates(c, c') && SameServices(c, c')
    ensures c'.fault == c.fault && c'.observersMade == c.observersMade
  {
    if p < |c.pcs| then
      c.(pcs := c.pcs[p := Retired(c.pcs[p], status)], abandoned := c.abandoned + Cut(c.pcs[p]))
    else c
  }

  function SetStage(c: Client, p: nat, s: Stage): (c': Client)
    ensures SameRegistries(c, c') && SameStates(c, c') && SameServices(c, c')
    ensures c'.fault == c.fault && c'.observersMade == c.observersMade
    ensures SameConnection(c, c')
  {
    if p < |c.pcs| then c.(pcs := c.pcs[p := c.pcs[p].(stage := s)]) else c
  }

  /** `CreatePeerConnection` succeeded: the new connection is the program's, and one still held is let go. */
  function Created(c: Client, offer: nat, observer: nat): (c': Client)
    ensures SameRegistries(c, c') && SameStates(c, c') && SameServices(c, c')
    ensures c'.fault == c.fault && c'.observersMade == c.observersMade
  {
    var free := if c.pc.Some? then Retire(c, c.pc.value, Dropped) else c;
    free.(pcs := free.pcs + [Pc(offer, observer, Live, SettingRemote, 0)], pc := Some(|free.pcs|))
  }

  /** `CreatePeerConnection` failed: the offer goes to a connection still held, and without one it has failed. */
  function NotCreated(c: Client): Client {
    if c.pc.None? then SetState(c, RtcFailed) else SetStage(c, c.pc.value, SettingRemote)
  }

  /** The effect of one statement, and the statement the same operation goes on with, if any. */
  datatype Ran = Ran(client: Client, next: Option<Frame>)

  function RunInit(f: Frame, c: Client): (ran: Ran)
    requires InitFrame(f)
    ensures SameRegistries(c, ran.client) && ran.client.fault == c.fault
  {
    match f
    case InitWorker(ok) => Ran(c.(worker := true), Some(InitSignaling(ok)))
    case InitSignaling(ok) => Ran(c.(signalingThread := true), Some(InitFactory(ok)))
    case InitFactory(ok) => Ran(c.(factory := ok), Some(InitReady))
    case InitReady => Ran(SetState(c, ReadyToConnect), None)
  }

  function RunTear(f: Frame, key: string, c: Client): (ran: Ran)
    requires TearFrame(f)
    ensures !f.CloseChannels? ==> ran.client.channels == c.channels
    ensures !f.CloseTracks? ==> ran.client.tracks == c.tracks
    ensures ran.client.chans == c.chans && ran.client.fault == c.fault && SameServices(c, ran.client)
    ensures ran.client.observersMade == c.observersMade
  {
    match f
    case CloseTracks(pending) =>
      if pending == {} then Ran(c, Some(CloseChannels(c.channels.Keys)))
      else
        var tracks := if key in c.tracks then c.tracks[key := CloseTrack(c.tracks[key])] else c.tracks;
        Ran(c.(tracks := tracks), Some(CloseTracks(pending - {key})))
    case CloseChannels(pending) =>
      if pending == {} then Ran(c, Some(ClosePc))
      else
        var channels := if key in c.channels then c.channels[key := CloseBinding(c.channels[key])] else c.channels;
        Ran(c.(channels := channels), Some(CloseChannels(pending - {key})))
    case ClosePc =>
      if c.pc.Some? then Ran(Retire(c, c.pc.value, Closed), Some(ReleasePc)) else Ran(c, Some(Notify))
    case ReleasePc => Ran(c.(pc := None), Some(Notify))
    case Notify => Ran(SetState(c, ReadyToConnect), None)
  }

  function RunOffer(f: Frame, c: Client): (ran: Ran)
    requires OfferFrame(f)
    ensures SameRegistries(c, ran.client) && SameServices(c, ran.client)
  {
    match f
    case OfferCheck(offer, ok) =>
      if c.state.ReadyToConnect? then Ran(SetState(c, RtcConnecting), Some(OfferObserver(offer, ok)))
      else Ran(c, None)
    case OfferObserver(offer, ok) =>
      Ran(c.(observer := Some(c.observersMade), observersMade := c.observersMade + 1), Some(OfferMake(offer, ok)))
    case OfferMake(offer, ok) =>
      if !c.factory then Ran(c.(fault := true), None)
      else if ok && c.observer.Some? then Ran(Created(c, offer, c.observer.value), None)
      else Ran(c, Some(OfferFailed))
    case OfferFailed => Ran(NotCreated(c), None)
  }

  function RunShut(f: Frame, c: Client): (ran: Ran)
    requires ShutFrame(f)
    ensures SameRegistries(c, ran.client) && SameStates(c, ran.client) && ran.client.fault == c.fault
  {
    match f
    case StopSignalingServer => Ran(c.(signalingClient := false), Some(ShutClose))
    case ShutClose => Ran(c, Some(DropPc))
    case DropPc =>
      Ran(if c.pc.Some? then Retire(c, c.pc.value, Dropped).(pc := None) else c, Some(DropObserver))
    case DropObserver => Ran(c.(observer := None), Some(DropFactory))
    case DropFactory => Ran(c.(factory := false), Some(StopNetwork))
    case StopNetwork => Ran(c.(network := false), Some(StopWorker))
    case StopWorker => Ran(c.(worker := false), Some(StopSignalingThread))
    case StopSignalingThread => Ran(c.(signalingThread := false), None)
  }

  /** Runs the statement `f`. */
  function RunFrame(f: Frame, key: string, c: Client): Ran {
    if InitFrame(f) then RunInit(f, c)
    else if TearFrame(f) then RunTear(f, key, c)
    else if OfferFrame(f) then RunOffer(f, c)
    else RunShut(f, c)
  }

  /** Runs the next statement of the operation on top; the shutdown's call of `ClosePeerConnection` is a call. */
  function RunTop(w: World, key: string): World
    requires !Quiet(w)
  {
    var ran := RunFrame(w.stack.top, key, w.client);
    var after := World(ran.client, if ran.next.Some? then Running(ran.next.value, w.stack.below) else w.stack.below);
    if w.stack.top.ShutClose? then CallClose(after) else after
  }

  /** A handler whose source was made keeps it even when the track was not made or added. */
  function Sourced(t: Track, n: string, outcomes: map<string, TrackOutcome>): Track {
    if n in outcomes && outcomes[n].NoSource? then t else t.(source := true)
  }

  /** `CreateAllMediaTracks`. */
  function WithSources(tracks: map<string, Track>, outcomes: map<string, TrackOutcome>): map<string, Track> {
    map n | n in tracks :: Sourced(tracks[n], n, outcomes)
  }

  /** The handler `name` is there and holds an open channel. */
  predicate HoldsOpen(c: Client, name: string) {
    && name in c.channels && c.channels[name].channel.Some? && c.channels[name].channel.value < |c.chans|
    && c.chans[c.channels[name].channel.value].state.Open?
  }

  /** The handler takes a new channel and makes a new observer for it. */
  function Bind(c: Client, name: string, state: ChannelState): (c': Client)
    requires name in c.channels
    ensures SameStates(c, c')
    ensures c'.channels.Keys == c.channels.Keys
    ensures forall l :: l in c.channels && l != name ==> c'.channels[l] == c.channels[l]
    ensures c'.channels[name].handler == c.channels[name].handler && c'.tracks == c.tracks
  {
    c.(chans := c.chans + [Channel(name, state, Some(c.observersMade))],
       channels := c.channels[name :=
         c.channels[name].(channel := Some(|c.chans|), observer := Some(c.observersMade))],
       observersMade := c.observersMade + 1)
  }

  /** `MosaicConnector::OnDataChannel`. */
  function Arrive(c: Client, name: string, state: ChannelState): (c': Client)
    ensures SameStates(c, c') && c'.tracks == c.tracks && c'.channels.Keys == c.channels.Keys
    ensures SameServices(c, c') && SameConnection(c, c')
  {
    if name !in c.channels || HoldsOpen(c, name) then c.(chans := c.chans + [Channel(name, state, None)])
    else Bind(c, name, state)
  }

  /** `AfterSetSessionDescription`, on the connection the program holds now. */
  function OnRemoteSet(c: Client, outcomes: map<string, TrackOutcome>): (c': Client)
    ensures c'.channels == c.channels && c'.tracks == WithSources(c.tracks, outcomes) && SameStates(c, c')
    ensures SameServices(c, c') && SameConnection(c, c') && c'.observersMade == c.observersMade
  {
    var made := c.(tracks := WithSources(c.tracks, outcomes));
    if c.pc.None? || !c.factory then made.(fault := true)
    else SetStage(made, c.pc.value, CreatingAnswer)
  }

  /** `AfterCreateSdpAnswer`: the description made by connection `p` is set on the one the program holds now. */
  function OnAnswerCreated(c: Client, p: nat, hasDesc: bool): (c': Client)
    ensures SameRegistries(c, c') && SameStates(c, c')
    ensures SameServices(c, c') && SameConnection(c, c') && c'.observersMade == c.observersMade
  {
    if c.pc.None? then c.(fault := true)
    else SetStage(c, c.pc.value, SettingLocal(if hasDesc then Some(p) else None))
  }

  /** The local description observer of `p`, and `AfterSetLocalDescription`. */
  function OnLocalSet(c: Client, p: nat): (c': Client)
    ensures SameRegistries(c, c') && SameStates(c, c')
    ensures SameServices(c, c') && SameConnection(c, c') && c'.observersMade == c.observersMade
  {
    if p >= |c.pcs| || !c.pcs[p].stage.SettingLocal? then c
    else if c.pcs[p].stage.desc.None? then OnStageFails(c, p)
    else if !c.signalingClient then c.(fault := true)
    else
      SetStage(c, p, Answered).(answers := c.answers + [Answer(c.pcs[p].offer, p, c.pcs[p].stage.desc.value)])
  }

  /** The failure callback of any of the three observers. */
  function OnStageFails(c: Client, p: nat): (c': Client)
    ensures SameRegistries(c, c') && SameStates(c, c')
    ensures SameServices(c, c') && SameConnection(c, c') && c'.observersMade == c.observersMade
  {
    SetStage(c, p, StageFailed).(failed := c.failed + 1)
  }

  function CloseByUser(c: Client, l: string): Client {
    if l in c.channels then c.(channels := c.channels[l := CloseBinding(c.channels[l])]) else c
  }

  /** `AddDataChannelHandler`: the first handler of a label stays. */
  function AddChannel(c: Client, l: string, handler: nat): Client {
    if l in c.channels then c else c.(channels := c.channels[l := Binding(handler, None, None, 0)])
  }

  /** `AddMediaTrackHandler`: the first handler of a name stays. */
  function AddTrack(c: Client, n: string, handler: nat): Client {
    if n in c.tracks then c else c.(tracks := c.tracks[n := Track(handler, false, 0)])
  }

  function Step(w: World, a: Action): World {
    match a
    case Initialize(ok) => Push(World(w.client.(network := true), w.stack), InitWorker(ok))
    case Offer(o, ok) =>
      var pushed := Push(w, OfferCheck(o, ok));
      if w.client.pc.Some? then CallClose(pushed) else pushed
    case CloseMessage => CallClose(w)
    case ConnectionChange(_, change) =>
      if change.PcConnected? then World(SetState(w.client, RtcConnected), w.stack)
      else if ClosingChange(change) then CallClose(w)
      else w
    case Shutdown => Push(World(SetState(w.client, Disconnected), w.stack), StopSignalingServer)
    case Continue(key) => if Quiet(w) then w else RunTop(w, key)
    case HandlerThrows => if Quiet(w) then w else World(w.client, Running(Notify, w.stack.below))
    case RemoteSet(_, outcomes) => World(OnRemoteSet(w.client, outcomes), w.stack)
    case AnswerCreated(p, hasDesc) => World(OnAnswerCreated(w.client, p, hasDesc), w.stack)
    case LocalSet(p) => World(OnLocalSet(w.client, p), w.stack)
    case StageFails(p) => World(OnStageFails(w.client, p), w.stack)
    case DataChannelArrives(_, name, state) => World(Arrive(w.client, name, state), w.stack)
    case ChannelChanges(i, s) =>
      if i < |w.client.chans| then
        World(w.client.(chans := w.client.chans[i := w.client.chans[i].(state := s)]), w.stack)
      else w
    case UserClosesChannel(l) => World(CloseByUser(w.client, l), w.stack)
    case AddChannelHandler(l, h) => World(AddChannel(w.client, l, h), w.stack)
    case AddTrackHandler(n, h) => World(AddTrack(w.client, n, h), w.stack)
    case AnnounceFails(of) =>
      // The state is set before the frame is sent; the exception unwinds the whole operation.
      if Announced(w, of).Some? then World(SetState(w.client, Announced(w, of).value), Idle) else w
  }

  predicate Legal(w: World, acts: seq<Action>)
    decreases |acts|
  {
    acts == [] || (Enabled(w, acts[0]) && Legal(Step(w, acts[0]), acts[1..]))
  }

  function Exec(w: World, acts: seq<Action>): World
    decreases |acts|
  {
    if acts == [] then w else Exec(Step(w, acts[0]), acts[1..])
  }

  /** No exception leaves a handler being closed, or the connection. Only some of the promises depend on it. */
  predicate NoThrow(acts: seq<Action>) {
    HandlerThrows !in acts
  }

  /** The status frame of every announcement goes out. */
  predicate AllAnnounced(acts: seq<Action>) {
    forall a :: a in acts ==> !a.AnnounceFails?
  }
}
