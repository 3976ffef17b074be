/**
The inductive invariants of the lifecycle machine, stated at every intermediate statement of every operation. `Safe`
survives every step, failing announcements included, as long as no exception leaves a handler being closed. `Good` adds
that the states follow the intended graph and agree with the connection; it survives exactly the harmless failures.
*/
module LifecycleInvariant {
  import opened Options
  import opened ConnectorStates
  import opened Lifecycle

  predicate LoosePathGood(c: Client) {
    IsLoosePath(Initializing, c.emitted) && c.state == EndOf(Initializing, c.emitted)
  }

  /** The announced states follow the lifecycle graph and end in the current state. */
  predicate PathGood(c: Client) {
    IsPath(Initializing, c.emitted) && c.state == EndOf(Initializing, c.emitted)
  }

  /** Never more than one teardown is running, and only a superseding offer waits underneath it. */
  predicate StackGood(w: World) {
    || Quiet(w)
    || w.stack.below.Idle?
    || (TearFrame(w.stack.top) && w.stack.below.top.OfferCheck? && w.stack.below.below.Idle?)
  }

  predicate AllStopped(c: Client) {
    c.pc.None? && c.observer.None? && !c.factory && !c.network && !c.worker && !c.signalingThread
  }

  /** What an operation can rely on at each of its statements, whatever failed before it. */
  predicate FrameFits(c: Client, f: Frame) {
    match f
    case InitWorker(_) => c.state.Initializing? && c.network
    case InitSignaling(_) => c.state.Initializing? && c.network && c.worker
    case InitFactory(_) => c.state.Initializing? && c.network && c.worker && c.signalingThread
    case InitReady => c.state.Initializing? && c.network && c.worker && c.signalingThread
    case CloseTracks(pending) => c.state.RtcDisconnecting? && pending <= c.tracks.Keys
    case CloseChannels(pending) => c.state.RtcDisconnecting? && pending <= c.channels.Keys
    case ClosePc => c.state.RtcDisconnecting?
    case ReleasePc => c.state.RtcDisconnecting? && c.pc.Some?
    case Notify => c.state.RtcDisconnecting?
    case OfferCheck(_, _) => c.pc.Some? ==> c.signalingClient
    case OfferObserver(_, _) => c.state.RtcConnecting?
    case OfferMake(_, _) => c.state.RtcConnecting? && c.observer.Some?
    case OfferFailed => c.state.RtcConnecting?
    case StopSignalingServer => c.state.Disconnected? && (c.pc.Some? ==> c.signalingClient)
    case ShutClose => c.state.Disconnected? && !c.signalingClient
    case DropPc => c.state.Disconnected? && !c.signalingClient
    case DropObserver => c.state.Disconnected? && c.pc.None?
    case DropFactory => c.state.Disconnected? && c.pc.None? && c.observer.None?
    case StopNetwork => c.state.Disconnected? && c.pc.None? && c.observer.None? && !c.factory
    case StopWorker => c.state.Disconnected? && c.pc.None? && c.observer.None? && !c.factory && !c.network
    case StopSignalingThread =>
      c.state.Disconnected? && c.pc.None? && c.observer.None? && !c.factory && !c.network && !c.worker
  }

  /** The running statement fits the client; a held connection is served by the signaling client. */
  predicate ControlFits(w: World) {
    if w.client.fault then Quiet(w) && w.client.state.RtcConnecting? && !w.client.factory && w.client.pc.None?
    else if Quiet(w) then w.client.pc.Some? ==> w.client.signalingClient
    else FrameFits(w.client, w.stack.top)
  }

  /** A connection is held only in a state that offers cannot start from, and none when one is created. */
  predicate HoldGood(w: World) {
    if Quiet(w) then
      w.client.pc.Some? ==>
        Active(w.client.state) || w.client.state.RtcDisconnecting? || w.client.state.Disconnected?
    else if w.stack.top.OfferCheck? then
      w.client.pc.Some? ==> w.client.state.RtcDisconnecting? || w.client.state.Disconnected?
    else w.stack.top.Notify? || OfferFrame(w.stack.top) ==> w.client.pc.None?
  }

  /** A connection is held exactly in the two active states. */
  predicate HeldIffActive(c: Client) {
    c.pc.Some? <==> Active(c.state)
  }

  /** The state, the running statement and the existence of a peer connection agree. */
  predicate ControlGood(w: World) {
    w.client.fault
    || if Quiet(w) then HeldIffActive(w.client) && !w.client.state.RtcDisconnecting?
       else if w.stack.top.OfferCheck? then
         w.client.pc.None? && !Active(w.client.state) && !w.client.state.RtcDisconnecting?
       else w.stack.top.CloseTracks? || w.stack.top.CloseChannels? || w.stack.top.ClosePc? ==> w.client.pc.Some?
  }

  predicate ThreadsUp(c: Client) {
    c.network && c.worker && c.signalingThread
  }

  /** Which services exist in which state. */
  predicate ServicesGood(c: Client) {
    && (c.factory ==> ThreadsUp(c))
    && (c.pc.Some? ==> c.pc.value < |c.pcs| && c.factory)
    && (!c.state.Initializing? && !c.state.Disconnected? ==> ThreadsUp(c))
    && (!c.state.Disconnected? ==> c.signalingClient)
    && (c.state.Initializing? ==> c.pcs == [])
  }

  /** The observer the program holds is the one its connection reports to. */
  predicate ObserverGood(c: Client) {
    c.pc.Some? ==> c.pc.value < |c.pcs| && c.observer == Some(c.pcs[c.pc.value].observer)
  }

  /** Nothing but `pc` is live, and each connection was closed once if it counts as closed and never otherwise. */
  predicate OnlyLive(pcs: seq<Pc>, pc: Option<nat>) {
    forall p {:trigger pcs[p]} :: 0 <= p < |pcs| ==>
      && (pcs[p].status.Live? ==> pc == Some(p))
      && pcs[p].closes == if pcs[p].status.Closed? then 1 else 0
  }

  /** The program's peer connection is live until the call that closes it has returned. */
  predicate LiveGood(w: World) {
    && OnlyLive(w.client.pcs, w.client.pc)
    && (w.client.pc.Some? && w.client.pc.value < |w.client.pcs| ==>
          if !Quiet(w) && w.stack.top.ReleasePc? then w.client.pcs[w.client.pc.value].status.Closed?
          else w.client.pcs[w.client.pc.value].status.Live?)
  }

  predicate TracksFree(tracks: map<string, Track>, except: set<string>) {
    forall n :: n in tracks && n !in except ==> !tracks[n].source
  }

  predicate ChannelsFree(channels: map<string, Binding>, except: set<string>) {
    forall l :: l in channels && l !in except ==> channels[l].channel.None?
  }

  /** No registered handler holds a data channel or a track source. */
  predicate Unbound(c: Client) {
    TracksFree(c.tracks, {}) && ChannelsFree(c.channels, {})
  }

  /** Without a peer connection nothing is bound; during a teardown everything already visited is free. */
  predicate BindingsGood(w: World) {
    && (w.client.pc.None? && !w.client.state.Disconnected? ==> Unbound(w.client))
    && (!Quiet(w) ==>
          match w.stack.top
          case CloseTracks(pending) => TracksFree(w.client.tracks, pending)
          case CloseChannels(pending) => TracksFree(w.client.tracks, {}) && ChannelsFree(w.client.channels, pending)
          case ClosePc => Unbound(w.client)
          case ReleasePc => Unbound(w.client)
          case _ => true)
  }

  /** A bound channel carries its handler's label and reports to its handler's current observer. */
  predicate Routed(channels: map<string, Binding>, chans: seq<Channel>) {
    forall l :: l in channels && channels[l].channel.Some? ==>
      && channels[l].channel.value < |chans|
      && chans[channels[l].channel.value].name == l
      && channels[l].observer.Some?
      && chans[channels[l].channel.value].observer == channels[l].observer
  }

  /** 1 when the offer/answer exchange of the live connection `pc` is under way. */
  function InProgress(pcs: seq<Pc>, pc: Option<nat>): nat {
    if pc.Some? && pc.value < |pcs| && pcs[pc.value].status.Live? && Pending(pcs[pc.value].stage) then 1 else 0
  }

  /** A description is only ever set on the connection that created it. */
  predicate OwnDescriptions(pcs: seq<Pc>) {
    forall p {:trigger pcs[p]} :: 0 <= p < |pcs| && pcs[p].stage.SettingLocal? && pcs[p].stage.desc.Some? ==>
      pcs[p].stage.desc.value == p
  }

  /** Every answer went out for the offer of the connection that made it, and no connection answered twice. */
  predicate OwnAnswers(pcs: seq<Pc>, answers: seq<Answer>) {
    && (forall i :: 0 <= i < |answers| ==>
          && answers[i].pc < |pcs| && answers[i].desc == answers[i].pc
          && answers[i].offer == pcs[answers[i].pc].offer && pcs[answers[i].pc].stage.Answered?)
    && (forall i, j :: 0 <= i < j < |answers| ==> answers[i].pc != answers[j].pc)
  }

  /** Every accepted offer was answered, failed, was abandoned by a close or a shutdown, or is in progress. */
  predicate Accounted(c: Client) {
    |c.pcs| == |c.answers| + c.failed + c.abandoned + InProgress(c.pcs, c.pc)
  }

  /** What every step keeps, exceptions out of handlers included. */
  predicate Always(w: World) {
    && StackGood(w) && ControlFits(w) && ServicesGood(w.client)
    && LiveGood(w) && BindingsGood(w) && Routed(w.client.channels, w.client.chans)
  }

  predicate Safe(w: World) {
    && Always(w) && LoosePathGood(w.client) && HoldGood(w) && ObserverGood(w.client)
    && Accounted(w.client) && OwnDescriptions(w.client.pcs) && OwnAnswers(w.client.pcs, w.client.answers)
  }

  predicate Good(w: World) {
    Safe(w) && PathGood(w.client) && ControlGood(w)
  }

  lemma AppendEdge(first: State, emitted: seq<State>, s: State)
    ensures EndOf(first, emitted + [s]) == s
    ensures IsPath(first, emitted) && Edge(EndOf(first, emitted), s) ==> IsPath(first, emitted + [s])
    ensures IsLoosePath(first, emitted) && LooseEdge(EndOf(first, emitted), s) ==> IsLoosePath(first, emitted + [s])
  {
    var longer := emitted + [s];
    forall i | 0 <= i < |longer|
      ensures longer[..i] == emitted[..i]
    {
    }
    assert emitted[..|emitted|] == emitted;
  }

  /** Announcing a state along an edge of the graph keeps the path. */
  lemma SetStateKeepsPath(c: Client, s: State)
    ensures LoosePathGood(c) && LooseEdge(c.state, s) ==> LoosePathGood(SetState(c, s))
    ensures PathGood(c) && Edge(c.state, s) ==> PathGood(SetState(c, s))
  {
    AppendEdge(Initializing, c.emitted, s);
  }

  /** A step from `w` to `w'` keeps both invariants. */
  predicate Kept(w: World, w': World) {
    Always(w') && (Safe(w) ==> Safe(w'))
  }

  lemma CallCloseKeeps(w: World)
    requires Always(w) && !w.client.fault && (Quiet(w) || TearFrame(w.stack.top) || ShutFrame(w.stack.top))
    ensures Kept(w, CallClose(w))
  {
    SetStateKeepsPath(w.client, RtcDisconnecting);
  }

  lemma OfferKeeps(w: World, o: nat, ok: bool)
    requires Always(w) && Enabled(w, Offer(o, ok))
    ensures Kept(w, Step(w, Offer(o, ok)))
  {
    SetStateKeepsPath(w.client, RtcDisconnecting);
  }

  lemma ConnectedKeeps(w: World)
    requires Always(w) && w.client.pc.Some? && Quiet(w) && !w.client.fault
    ensures Kept(w, World(SetState(w.client, RtcConnected), w.stack))
  {
    SetStateKeepsPath(w.client, RtcConnected);
  }

  lemma ShutdownKeeps(w: World)
    requires Always(w) && Enabled(w, Shutdown)
    ensures Kept(w, Step(w, Shutdown))
  {
    SetStateKeepsPath(w.client, Disconnected);
  }

  lemma InitKeeps(w: World, key: string)
    requires Always(w) && !w.client.fault && !Quiet(w) && InitFrame(w.stack.top)
    ensures Kept(w, Step(w, Continue(key)))
  {
    SetStateKeepsPath(w.client, ReadyToConnect);
  }

  lemma CloseTracksKeeps(w: World, key: string)
    requires Always(w) && Enabled(w, Continue(key)) && w.stack.top.CloseTracks?
    ensures Kept(w, Step(w, Continue(key)))
  {
  }

  lemma CloseChannelsKeeps(w: World, key: string)
    requires Always(w) && Enabled(w, Continue(key)) && w.stack.top.CloseChannels?
    ensures Kept(w, Step(w, Continue(key)))
  {
  }

  lemma ClosePcKeeps(w: World, key: string)
    requires Always(w) && Enabled(w, Continue(key)) && w.stack.top.ClosePc?
    ensures Kept(w, Step(w, Continue(key)))
  {
  }

  lemma ReleaseKeeps(w: World, key: string)
    requires Always(w) && Enabled(w, Continue(key)) && (w.stack.top.ReleasePc? || w.stack.top.Notify?)
    ensures Kept(w, Step(w, Continue(key)))
  {
    SetStateKeepsPath(w.client, ReadyToConnect);
  }

  lemma OfferFrameKeeps(w: World, key: string)
    requires Always(w) && Enabled(w, Continue(key)) && OfferFrame(w.stack.top) && !w.stack.top.OfferMake?
    ensures Kept(w, Step(w, Continue(key)))
  {
    SetStateKeepsPath(w.client, RtcConnecting);
    SetStateKeepsPath(w.client, RtcFailed);
  }

  lemma OfferMakeKeeps(w: World, key: string)
    requires Always(w) && Enabled(w, Continue(key)) && w.stack.top.OfferMake?
    ensures Kept(w, Step(w, Continue(key)))
  {
  }

  lemma DropPcKeeps(w: World, key: string)
    requires Always(w) && Enabled(w, Continue(key)) && w.stack.top.DropPc?
    ensures Kept(w, Step(w, Continue(key)))
  {
  }

  lemma StopServicesKeeps(w: World, key: string)
    requires Always(w) && Enabled(w, Continue(key)) && (w.stack.top.StopSignalingServer? || w.stack.top.ShutClose?)
    ensures Kept(w, Step(w, Continue(key)))
  {
  }

  predicate DestroyFrame(f: Frame) {
    f.DropObserver? || f.DropFactory? || f.StopNetwork? || f.StopWorker? || f.StopSignalingThread?
  }

  lemma StopThreadsKeeps(w: World, key: string)
    requires Always(w) && Enabled(w, Continue(key))
    requires w.stack.top.StopNetwork? || w.stack.top.StopWorker? || w.stack.top.StopSignalingThread?
    ensures Kept(w, Step(w, Continue(key)))
  {
  }

  lemma DestroyKeeps(w: World, key: string)
    requires Always(w) && Enabled(w, Continue(key)) && DestroyFrame(w.stack.top)
    ensures Kept(w, Step(w, Continue(key)))
  {
    if !w.stack.top.DropObserver? && !w.stack.top.DropFactory? {
      StopThreadsKeeps(w, key);
    }
  }

  lemma RemoteSetKeeps(w: World, a: Action)
    requires Always(w) && Enabled(w, a) && a.RemoteSet?
    ensures Kept(w, Step(w, a))
  {
  }

  lemma AnswerCreatedKeeps(w: World, a: Action)
    requires Always(w) && Enabled(w, a) && a.AnswerCreated?
    ensures Kept(w, Step(w, a))
  {
  }

  lemma OwnAnswersExtended(pcs: seq<Pc>, answers: seq<Answer>, p: nat)
    requires OwnAnswers(pcs, answers) && p < |pcs| && Pending(pcs[p].stage)
    ensures OwnAnswers(pcs[p := pcs[p].(stage := Answered)], answers + [Answer(pcs[p].offer, p, p)])
  {
  }

  lemma OwnAnswersUntouched(pcs: seq<Pc>, answers: seq<Answer>, p: nat, s: Stage)
    requires OwnAnswers(pcs, answers) && p < |pcs| && Pending(pcs[p].stage)
    ensures OwnAnswers(pcs[p := pcs[p].(stage := s)], answers)
  {
  }

  lemma LocalSetKeeps(w: World, a: Action)
    requires Always(w) && Enabled(w, a) && a.LocalSet?
    ensures Kept(w, Step(w, a))
  {
    if Safe(w) {
      if w.client.pcs[a.from].stage.desc.Some? {
        assert w.client.pcs[a.from].stage.desc.value == a.from;
        OwnAnswersExtended(w.client.pcs, w.client.answers, a.from);
      } else {
        OwnAnswersUntouched(w.client.pcs, w.client.answers, a.from, StageFailed);
      }
    }
  }

  lemma StageFailsKeeps(w: World, a: Action)
    requires Always(w) && Enabled(w, a) && a.StageFails?
    ensures Kept(w, Step(w, a))
  {
  }

  lemma ArriveKeeps(w: World, a: Action)
    requires Always(w) && Enabled(w, a) && a.DataChannelArrives?
    ensures Kept(w, Step(w, a))
  {
  }

  lemma ChannelKeeps(w: World, a: Action)
    requires Always(w) && Enabled(w, a) && (a.ChannelChanges? || a.UserClosesChannel?)
    ensures Kept(w, Step(w, a))
  {
  }

  lemma RegistryKeeps(w: World, a: Action)
    requires Always(w) && Enabled(w, a) && (a.AddChannelHandler? || a.AddTrackHandler?)
    ensures Kept(w, Step(w, a))
  {
  }

  /** The exception out of a failed announcement unwinds the operation between two of its statements. */
  lemma UnwindKeeps(w: World, a: Action)
    requires Always(w) && Enabled(w, a) && a.AnnounceFails?
    ensures Kept(w, Step(w, a))
  {
    SetStateKeepsPath(w.client, Announced(w, a.of).value);
  }

  lemma ContinueKeeps(w: World, key: string)
    requires Always(w) && Enabled(w, Continue(key))
    ensures Kept(w, Step(w, Continue(key)))
  {
    var f := w.stack.top;
    if InitFrame(f) {
      InitKeeps(w, key);
    } else if f.CloseTracks? {
      CloseTracksKeeps(w, key);
    } else if f.CloseChannels? {
      CloseChannelsKeeps(w, key);
    } else if f.ClosePc? {
      ClosePcKeeps(w, key);
    } else if f.ReleasePc? || f.Notify? {
      ReleaseKeeps(w, key);
    } else if f.OfferMake? {
      OfferMakeKeeps(w, key);
    } else if OfferFrame(f) {
      OfferFrameKeeps(w, key);
    } else if f.DropPc? {
      DropPcKeeps(w, key);
    } else if DestroyFrame(f) {
      DestroyKeeps(w, key);
    } else {
      StopServicesKeeps(w, key);
    }
  }

  lemma CallKeeps(w: World, a: Action)
    requires Always(w) && Enabled(w, a) && (a.Initialize? || a.Offer? || a.CloseMessage? || a.Shutdown?)
    ensures Kept(w, Step(w, a))
  {
    match a
    case Initialize(_) =>
    case Offer(o, ok) => OfferKeeps(w, o, ok);
    case CloseMessage => CallCloseKeeps(w);
    case Shutdown => ShutdownKeeps(w);
  }

  lemma CallbackKeeps(w: World, a: Action)
    requires Always(w) && Enabled(w, a)
    requires a.ConnectionChange? || a.RemoteSet? || a.AnswerCreated? || a.LocalSet? || a.StageFails?
    ensures Kept(w, Step(w, a))
  {
    match a
    case ConnectionChange(p, change) =>
      if change.PcConnected? {
        ConnectedKeeps(w);
      } else if ClosingChange(change) {
        CallCloseKeeps(w);
      }
    case RemoteSet(_, _) => RemoteSetKeeps(w, a);
    case AnswerCreated(_, _) => AnswerCreatedKeeps(w, a);
    case LocalSet(_) => LocalSetKeeps(w, a);
    case StageFails(_) => StageFailsKeeps(w, a);
  }

  lemma StepKeeps(w: World, a: Action)
    requires Always(w) && Enabled(w, a) && a != HandlerThrows
    ensures Kept(w, Step(w, a))
  {
    if a.Continue? {
      ContinueKeeps(w, a.key);
    } else if a.AnnounceFails? {
      UnwindKeeps(w, a);
    } else if a.Initialize? || a.Offer? || a.CloseMessage? || a.Shutdown? {
      CallKeeps(w, a);
    } else if a.ConnectionChange? || a.RemoteSet? || a.AnswerCreated? || a.LocalSet? || a.StageFails? {
      CallbackKeeps(w, a);
    } else if a.DataChannelArrives? {
      ArriveKeeps(w, a);
    } else if a.ChannelChanges? || a.UserClosesChannel? {
      ChannelKeeps(w, a);
    } else {
      RegistryKeeps(w, a);
    }
  }

  /** Every step whatsoever keeps `Always`. */
  lemma StepKeepsAlways(w: World, a: Action)
    requires Always(w) && Enabled(w, a)
    ensures Always(Step(w, a))
  {
    if a != HandlerThrows {
      StepKeeps(w, a);
    }
  }

  /** Every step that is not an exception out of a handler keeps `Safe`, announcements that fail included. */
  lemma StepKeepsSafe(w: World, a: Action)
    requires Safe(w) && Enabled(w, a) && a != HandlerThrows
    ensures Safe(Step(w, a))
  {
    StepKeeps(w, a);
  }

  /** The state that a step announces, whether or not its status frame goes out. */
  function Taken(w: World, a: Action): Option<State> {
    if a.AnnounceFails? then Announced(w, a.of) else Announced(w, a)
  }

  /** From `c` to `c'` exactly the state `s`, if any, was announced. */
  predicate AnnouncedOnly(c: Client, s: Option<State>, c': Client) {
    if s.Some? then c'.emitted == c.emitted + [s.value] && c'.state == s.value
    else c'.emitted == c.emitted && c'.state == c.state
  }

  lemma OfferAnnounces(f: Frame, c: Client)
    requires OfferFrame(f)
    ensures AnnouncedOnly(c, AnnouncedBy(f, c), RunOffer(f, c).client)
  {
  }

  lemma TeardownAnnounces(f: Frame, key: string, c: Client)
    requires TearFrame(f)
    ensures AnnouncedOnly(c, AnnouncedBy(f, c), RunTear(f, key, c).client)
  {
  }

  lemma ShutdownAnnounces(f: Frame, c: Client)
    requires ShutFrame(f)
    ensures AnnouncedOnly(c, None, RunShut(f, c).client)
    ensures f.ShutClose? ==> RunShut(f, c).client == c
  {
  }

  lemma StatementAnnounces(w: World, key: string)
    requires !Quiet(w)
    ensures AnnouncedOnly(w.client, AnnouncedBy(w.stack.top, w.client), RunTop(w, key).client)
  {
    var f, c := w.stack.top, w.client;
    if OfferFrame(f) {
      OfferAnnounces(f, c);
    } else if TearFrame(f) {
      TeardownAnnounces(f, key, c);
    } else if ShutFrame(f) {
      ShutdownAnnounces(f, c);
    }
  }

  lemma NegotiationAnnounces(w: World, a: Action)
    requires a.RemoteSet? || a.AnswerCreated? || a.LocalSet? || a.StageFails? || a.DataChannelArrives?
    ensures AnnouncedOnly(w.client, None, Step(w, a).client)
  {
  }

  lemma CallCloseAnnounces(w: World)
    ensures AnnouncedOnly(w.client, if Active(w.client.state) then Some(RtcDisconnecting) else None,
                          CallClose(w).client)
  {
  }

  lemma OfferCallAnnounces(w: World, a: Action)
    requires a.Offer?
    ensures AnnouncedOnly(w.client, Announced(w, a), Step(w, a).client)
  {
    CallCloseAnnounces(Push(w, OfferCheck(a.offer, a.creates)));
  }

  lemma CallAnnounces(w: World, a: Action)
    requires a.CloseMessage? || a.ConnectionChange? || a.Shutdown? || a.Initialize?
    ensures AnnouncedOnly(w.client, Announced(w, a), Step(w, a).client)
  {
    CallCloseAnnounces(w);
  }

  /** Every step announces what `Taken` says and nothing else, and the state is what was announced last. */
  lemma StepAnnounces(w: World, a: Action)
    ensures AnnouncedOnly(w.client, Taken(w, a), Step(w, a).client)
  {
    match a
    case Continue(key) =>
      if !Quiet(w) {
        StatementAnnounces(w, key);
      }
    case RemoteSet(_, _) => NegotiationAnnounces(w, a);
    case AnswerCreated(_, _) => NegotiationAnnounces(w, a);
    case LocalSet(_) => NegotiationAnnounces(w, a);
    case StageFails(_) => NegotiationAnnounces(w, a);
    case DataChannelArrives(_, _, _) => NegotiationAnnounces(w, a);
    case Initialize(_) => CallAnnounces(w, a);
    case Offer(_, _) => OfferCallAnnounces(w, a);
    case CloseMessage => CallAnnounces(w, a);
    case ConnectionChange(_, _) => CallAnnounces(w, a);
    case Shutdown => CallAnnounces(w, a);
    case _ =>
  }

  /** A failed announcement of `s` does no harm: the invariant holds where it leaves the client. */
  predicate Harmless(c: Client, s: State) {
    !s.RtcConnecting? && !s.RtcDisconnecting? && (s.Disconnected? ==> c.pc.None?)
  }

  /** No exception leaves a handler being closed, and an announcement fails only where that is harmless. */
  predicate Tame(w: World, a: Action) {
    a != HandlerThrows && (a.AnnounceFails? && Taken(w, a).Some? ==> Harmless(w.client, Taken(w, a).value))
  }

  lemma TakenAlongEdge(w: World, a: Action)
    requires Good(w) && Enabled(w, a)
    ensures Taken(w, a).Some? ==> Edge(w.client.state, Taken(w, a).value)
  {
  }

  lemma StepKeepsPath(w: World, a: Action)
    requires Good(w) && Enabled(w, a)
    ensures PathGood(Step(w, a).client)
  {
    StepAnnounces(w, a);
    TakenAlongEdge(w, a);
    if Taken(w, a).Some? {
      SetStateKeepsPath(w.client, Taken(w, a).value);
    }
  }

  lemma TeardownKeepsControl(w: World, key: string)
    requires Good(w) && Enabled(w, Continue(key)) && TearFrame(w.stack.top)
    ensures ControlGood(Step(w, Continue(key)))
  {
  }

  lemma OfferKeepsControl(w: World, key: string)
    requires Good(w) && Enabled(w, Continue(key)) && OfferFrame(w.stack.top)
    ensures ControlGood(Step(w, Continue(key)))
  {
  }

  lemma StatementKeepsControl(w: World, key: string)
    requires Good(w) && Enabled(w, Continue(key))
    ensures ControlGood(Step(w, Continue(key)))
  {
    if TearFrame(w.stack.top) {
      TeardownKeepsControl(w, key);
    } else if OfferFrame(w.stack.top) {
      OfferKeepsControl(w, key);
    }
  }

  lemma StepKeepsControl(w: World, a: Action)
    requires Good(w) && Enabled(w, a) && Tame(w, a)
    ensures ControlGood(Step(w, a))
  {
    if a.Continue? {
      StatementKeepsControl(w, a.key);
    }
  }

  /** Every tame step keeps `Good`. */
  lemma StepKeepsGood(w: World, a: Action)
    requires Good(w) && Enabled(w, a) && Tame(w, a)
    ensures Good(Step(w, a))
  {
    StepKeepsSafe(w, a);
    StepKeepsPath(w, a);
    StepKeepsControl(w, a);
  }

  /** Every other step leaves it: an exception out of a handler being closed does so in any case. */
  lemma OtherStepLeavesGood(w: World, a: Action)
    requires Good(w) && Enabled(w, a) && !Tame(w, a)
    ensures !Good(Step(w, a))
    ensures a.AnnounceFails? ==> !HeldIffActive(Step(w, a).client)
  {
  }

  /**
  Exactly the tame steps keep the graph and the agreement of state and connection. A failed announcement breaks that a
  connection is held in the active states alone if and only if what fails is RTC_CONNECTING, RTC_DISCONNECTING, or
  DISCONNECTED while a connection is held.
  */
  lemma GoodIffTame(w: World, a: Action)
    requires Good(w) && Enabled(w, a)
    ensures Good(Step(w, a)) <==> Tame(w, a)
    ensures a.AnnounceFails? ==> (HeldIffActive(Step(w, a).client) <==> Harmless(w.client, Taken(w, a).value))
  {
    if Tame(w, a) {
      StepKeepsGood(w, a);
    } else {
      OtherStepLeavesGood(w, a);
    }
  }

  /** DISCONNECTED, with no shutdown under way, means that everything was released. */
  predicate StoppedGood(w: World) {
    w.client.state.Disconnected? && (Quiet(w) || w.stack.top.OfferCheck?) ==> AllStopped(w.client)
  }

  lemma StatementKeepsStopped(w: World, key: string)
    requires Always(w) && StoppedGood(w) && Enabled(w, Continue(key))
    ensures StoppedGood(Step(w, Continue(key)))
  {
    StatementAnnounces(w, key);
    if w.client.state.Disconnected? {
      if w.stack.top.OfferCheck? {
        assert RunFrame(w.stack.top, key, w.client) == Ran(w.client, None);
      } else {
        assert RunFrame(w.stack.top, key, w.client) == RunShut(w.stack.top, w.client);
      }
    }
  }

  lemma NegotiationKeepsStopped(w: World, a: Action)
    requires Always(w) && StoppedGood(w) && Enabled(w, a)
    requires a.RemoteSet? || a.AnswerCreated? || a.LocalSet? || a.StageFails? || a.DataChannelArrives?
    ensures !w.client.state.Disconnected? && StoppedGood(Step(w, a))
  {
    NegotiationAnnounces(w, a);
  }

  /** The only step that ends this is a shutdown that is not announced while something is still there. */
  lemma StoppedUnlessShutdownFails(w: World, a: Action)
    requires Always(w) && StoppedGood(w) && Enabled(w, a)
    ensures StoppedGood(Step(w, a)) <==> (a == AnnounceFails(Shutdown) ==> AllStopped(w.client))
  {
    if a.Continue? {
      StatementKeepsStopped(w, a.key);
    } else if a.RemoteSet? || a.AnswerCreated? || a.LocalSet? || a.StageFails? || a.DataChannelArrives? {
      NegotiationKeepsStopped(w, a);
    }
  }
}
