/**
What the lifecycle promises, over every run: any number of handlers, offers, close messages, callbacks and shutdowns,
stopped at any statement.
*/
module LifecycleTheorems {
  import opened Options
  import opened ConnectorStates
  import opened Lifecycle
  import opened LifecycleInvariant
  import opened LifecycleAtomic

  lemma InitialIsGood()
    ensures Good(Initial())
  {
  }

  lemma {:induction false} RunKeepsAlways(w: World, acts: seq<Action>)
    requires Always(w) && Legal(w, acts)
    ensures Always(Exec(w, acts))
    decreases |acts|
  {
    if acts != [] {
      StepKeepsAlways(w, acts[0]);
      RunKeepsAlways(Step(w, acts[0]), acts[1..]);
    }
  }

  lemma {:induction false} RunKeepsSafe(w: World, acts: seq<Action>)
    requires Safe(w) && Legal(w, acts) && NoThrow(acts)
    ensures Safe(Exec(w, acts))
    decreases |acts|
  {
    if acts != [] {
      StepKeepsSafe(w, acts[0]);
      RunKeepsSafe(Step(w, acts[0]), acts[1..]);
    }
  }

  /** Every step of the run is tame: an announcement fails only where that is harmless. */
  predicate TameRun(w: World, acts: seq<Action>)
    decreases |acts|
  {
    acts == [] || (Tame(w, acts[0]) && TameRun(Step(w, acts[0]), acts[1..]))
  }

  lemma {:induction false} RunKeepsGood(w: World, acts: seq<Action>)
    requires Good(w) && Legal(w, acts) && TameRun(w, acts)
    ensures Good(Exec(w, acts))
    decreases |acts|
  {
    if acts != [] {
      StepKeepsGood(w, acts[0]);
      RunKeepsGood(Step(w, acts[0]), acts[1..]);
    }
  }

  /** In particular, a run without exceptions, so that all of these keep the path and the agreement. */
  lemma {:induction false} UnfailingRunIsTame(w: World, acts: seq<Action>)
    requires NoThrow(acts) && AllAnnounced(acts)
    ensures TameRun(w, acts)
    decreases |acts|
  {
    if acts != [] {
      assert acts[0] in acts;
      UnfailingRunIsTame(Step(w, acts[0]), acts[1..]);
    }
  }

  /** The world after any run at all. */
  lemma AnyReached(acts: seq<Action>) returns (w: World)
    requires Legal(Initial(), acts)
    ensures w == Exec(Initial(), acts) && Always(w)
  {
    InitialIsGood();
    RunKeepsAlways(Initial(), acts);
    w := Exec(Initial(), acts);
  }

  /** The world after a run in which no exception leaves a handler being closed. */
  lemma Reached(acts: seq<Action>) returns (w: World)
    requires Legal(Initial(), acts) && NoThrow(acts)
    ensures w == Exec(Initial(), acts) && Safe(w)
  {
    InitialIsGood();
    RunKeepsSafe(Initial(), acts);
    w := Exec(Initial(), acts);
  }

  /**
  The announced states form a path of the lifecycle graph, and between operations a peer connection exists exactly
  while the state is RTC_CONNECTING or RTC_CONNECTED. Announcements may fail where that is harmless; `GoodIffTame` says
  that the first step of a run that is not tame breaks it.
  */
  lemma LifecyclePath(acts: seq<Action>)
    requires Legal(Initial(), acts) && TameRun(Initial(), acts)
    ensures var w := Exec(Initial(), acts);
      && IsPath(Initializing, w.client.emitted)
      && w.client.state == EndOf(Initializing, w.client.emitted)
      && (Quiet(w) && !w.client.fault ==> HeldIffActive(w.client))
  {
    InitialIsGood();
    RunKeepsGood(Initial(), acts);
  }

  /**
  Whatever announcements fail, the states leave the graph only where a connection that was not closed after all comes
  up, and between operations a connection is never held in a state from which an offer would create another one.
  */
  lemma LooseLifecyclePath(acts: seq<Action>)
    requires Legal(Initial(), acts) && NoThrow(acts)
    ensures var w := Exec(Initial(), acts);
      && IsLoosePath(Initializing, w.client.emitted)
      && w.client.state == EndOf(Initializing, w.client.emitted)
      && (Quiet(w) && w.client.pc.Some? ==>
            Active(w.client.state) || w.client.state.RtcDisconnecting? || w.client.state.Disconnected?)
  {
    var _ := Reached(acts);
  }

  /**
  At every statement of every run, shutdown included: a connection the library still runs is the program's own, and
  the factory and the threads are alive; a live factory has its threads. Unless an exception left a handler being
  closed, the connection's observer is alive as well.
  */
  lemma LifetimeOrdering(acts: seq<Action>, p: nat)
    requires Legal(Initial(), acts)
    ensures var w := Exec(Initial(), acts);
      && (w.client.factory ==> ThreadsUp(w.client))
      && (IsLive(w.client, p) ==>
            && w.client.pc == Some(p) && w.client.factory && ThreadsUp(w.client)
            && (NoThrow(acts) ==> w.client.observer == Some(w.client.pcs[p].observer)))
  {
    var _ := AnyReached(acts);
    if NoThrow(acts) {
      var _ := Reached(acts);
    }
  }

  /** Before shutdown, whenever there is no peer connection no handler holds a data channel or a track source. */
  lemma NoLeakedBindings(acts: seq<Action>)
    requires Legal(Initial(), acts)
    ensures var w := Exec(Initial(), acts);
      w.client.pc.None? && !w.client.state.Disconnected? ==>
        && (forall l :: l in w.client.channels ==> w.client.channels[l].channel.None?)
        && (forall n :: n in w.client.tracks ==> !w.client.tracks[n].source)
  {
    var _ := AnyReached(acts);
  }

  /**
  Accepted offers are the answers passed to signaling, the failed exchanges, the ones abandoned by a close or a
  shutdown, and at most one in progress. Each answer is the one made by the connection created for its own offer.
  */
  lemma NegotiationConserved(acts: seq<Action>)
    requires Legal(Initial(), acts) && NoThrow(acts)
    ensures var w := Exec(Initial(), acts);
      && |w.client.pcs|
         == |w.client.answers| + w.client.failed + w.client.abandoned + InProgress(w.client.pcs, w.client.pc)
      && InProgress(w.client.pcs, w.client.pc) <= 1
      && (forall a :: a in w.client.answers ==>
            a.pc < |w.client.pcs| && a.desc == a.pc && a.offer == w.client.pcs[a.pc].offer)
      && (forall i, j :: 0 <= i < j < |w.client.answers| ==> w.client.answers[i].pc != w.client.answers[j].pc)
  {
    var _ := Reached(acts);
  }

  /** How many connections have the given status. */
  function CountStatus(pcs: seq<Pc>, s: PcStatus): nat {
    if pcs == [] then 0 else CountStatus(pcs[..|pcs| - 1], s) + if pcs[|pcs| - 1].status == s then 1 else 0
  }

  lemma {:induction false} CountsAddUp(pcs: seq<Pc>, pc: Option<nat>)
    requires OnlyLive(pcs, pc)
    ensures |pcs| == CountStatus(pcs, Closed) + CountStatus(pcs, Dropped) + if HoldsLive(pcs, pc) then 1 else 0
  {
    if pcs != [] {
      var shorter := pcs[..|pcs| - 1];
      forall p | 0 <= p < |shorter|
        ensures shorter[p] == pcs[p]
      {
      }
      CountsAddUp(shorter, pc);
    }
  }

  predicate HoldsLive(pcs: seq<Pc>, pc: Option<nat>) {
    pc.Some? && pc.value < |pcs| && pcs[pc.value].status.Live?
  }

  /**
  At every statement, every connection ever created was closed, once, or dropped by a shutdown, or is the one live
  connection, which the program holds; between operations it is live as long as it is held.
  */
  lemma ConnectionsConserved(acts: seq<Action>)
    requires Legal(Initial(), acts)
    ensures var w := Exec(Initial(), acts);
      && |w.client.pcs| == CountStatus(w.client.pcs, Closed) + CountStatus(w.client.pcs, Dropped)
                           + (if HoldsLive(w.client.pcs, w.client.pc) then 1 else 0)
      && (Quiet(w) ==> (HoldsLive(w.client.pcs, w.client.pc) <==> w.client.pc.Some?))
      && (forall p :: 0 <= p < |w.client.pcs| ==>
            w.client.pcs[p].closes == if w.client.pcs[p].status.Closed? then 1 else 0)
  {
    var w := AnyReached(acts);
    CountsAddUp(w.client.pcs, w.client.pc);
  }

  /**
  A superseding offer finishes the whole teardown first: at the statement that creates a connection no other one is
  live, nothing is bound, and RTC_CONNECTING has been announced.
  */
  lemma TeardownBeforeCreation(acts: seq<Action>, p: nat)
    requires Legal(Initial(), acts) && NoThrow(acts)
    ensures var w := Exec(Initial(), acts);
      !Quiet(w) && w.stack.top.OfferMake? ==> !IsLive(w.client, p) && Unbound(w.client) && w.client.state.RtcConnecting?
  {
    var _ := Reached(acts);
  }

  /** A teardown called by anything that waits for it. */
  lemma TeardownIsAtomic(w: World)
    requires Active(w.client.state)
    ensures CompleteWorld(CallClose(w)) == Complete(Teardown(w.client), w.stack)
  {
  }

  /** An offer is a teardown of the connection in its way, if there is one, and then the offer itself. */
  lemma OfferIsAtomic(c: Client, offer: nat, creates: bool)
    ensures AtomicStep(c, Offer(offer, creates)) == TakeOffer(Cleared(c), offer, creates)
  {
    var f := OfferCheck(offer, creates);
    var free := Cleared(c);
    if c.pc.Some? && Active(c.state) {
      TeardownIsAtomic(Push(World(c, Idle), f));
    }
    assert AtomicStep(c, Offer(offer, creates)) == Complete(free, Running(f, Idle));
    assert Complete(FinishFrame(f, free), Idle) == FinishFrame(f, free);
  }

  /** What one teardown does, whatever was nested into it. */
  lemma TeardownEffect(c: Client)
    requires Always(World(c, Idle)) && !c.fault && Active(c.state)
    ensures var c' := Teardown(c);
      && c'.state.ReadyToConnect? && c'.emitted == c.emitted + [RtcDisconnecting, ReadyToConnect]
      && c'.pc.None? && !c'.fault && |c'.pcs| == |c.pcs|
      && (c.pc.Some? ==>
            && c.pc.value < |c.pcs| && c'.pcs[c.pc.value].status.Closed?
            && c'.pcs[c.pc.value].closes == c.pcs[c.pc.value].closes + 1 == 1)
      && (forall p :: 0 <= p < |c.pcs| && c.pc != Some(p) ==> c'.pcs[p] == c.pcs[p])
      && c'.tracks.Keys == c.tracks.Keys && c'.channels.Keys == c.channels.Keys
      && (forall n :: n in c.tracks ==>
            c'.tracks[n] == Track(c.tracks[n].handler, false, c.tracks[n].closes + 1))
      && (forall l :: l in c.channels ==>
            c'.channels[l] == Binding(c.channels[l].handler, None, c.channels[l].observer, c.channels[l].closes + 1))
      && c'.answers == c.answers && c'.factory == c.factory
  {
  }

  predicate InTeardown(w: World) {
    !Quiet(w) && TearFrame(w.stack.top)
  }

  /** The actions run through a teardown and stop as soon as it is over. */
  predicate EndsTeardown(w: World, acts: seq<Action>)
    decreases |acts|
  {
    if acts == [] then !InTeardown(w) else InTeardown(w) && EndsTeardown(Step(w, acts[0]), acts[1..])
  }

  /** What waits for a teardown goes on after it, unless the end of the teardown is not announced. */
  predicate LeftTo(w: World, below: Stack) {
    w.stack == below || w.stack == Idle
  }

  /** The last statement of a teardown, and the callbacks before it. */
  lemma TeardownEnds(w: World, a: Action)
    requires Always(w) && InTeardown(w) && w.stack.top.Notify? && Enabled(w, a)
    ensures a.ConnectionChange? ==> Step(w, a) == w
    ensures !a.ConnectionChange? ==> a.Continue? || a.AnnounceFails?
    ensures !a.ConnectionChange? ==>
      && Step(w, a).client == SetState(w.client, ReadyToConnect)
      && LeftTo(Step(w, a), w.stack.below) && !InTeardown(Step(w, a))
  {
    if a.Continue? {
      assert RunFrame(Notify, a.key, w.client) == Ran(SetState(w.client, ReadyToConnect), None);
    }
  }

  /** Every statement before it leads on to the same end. */
  lemma TeardownGoesOn(w: World, a: Action)
    requires Always(w) && InTeardown(w) && !w.stack.top.Notify? && Enabled(w, a) && a != HandlerThrows
    ensures InTeardown(Step(w, a)) && Step(w, a).stack.below == w.stack.below
    ensures FinishFrame(Step(w, a).stack.top, Step(w, a).client) == FinishFrame(w.stack.top, w.client)
  {
    if a.Continue? {
      TopTowardsEnd(w, a.key);
    } else {
      NestedCallbackIsNoOp(w, a);
    }
  }

  lemma {:induction false} TeardownRun(w: World, acts: seq<Action>)
    requires Always(w) && InTeardown(w) && Legal(w, acts) && EndsTeardown(w, acts) && NoThrow(acts)
    ensures Exec(w, acts).client == FinishFrame(w.stack.top, w.client) && LeftTo(Exec(w, acts), w.stack.below)
    decreases |acts|
  {
    var a := acts[0];
    var next := Step(w, a);
    StepKeepsAlways(w, a);
    if w.stack.top.Notify? {
      TeardownEnds(w, a);
      if a.ConnectionChange? {
        TeardownRun(next, acts[1..]);
      } else {
        assert acts[1..] == [];
      }
    } else {
      TeardownGoesOn(w, a);
      TeardownRun(next, acts[1..]);
    }
  }

  /** What makes the program close a connection: a message, a callback, or an offer while one is held. */
  predicate StartsTeardown(w: World, a: Action) {
    && Quiet(w) && w.client.state in {RtcConnecting, RtcConnected}
    && (a.CloseMessage? || (a.Offer? && w.client.pc.Some?)
        || (a.ConnectionChange? && a.change in {PcFailed, PcDisconnected, PcClosed}))
  }

  /**
  Re-entrant teardown. Whatever closing callbacks WebRTC nests into a teardown, however many and at whatever statement,
  and whether or not its end can be announced, it ends having closed every handler and the connection exactly once and
  announced one RTC_DISCONNECTING and one READY_TO_CONNECT.
  */
  lemma TeardownIsReentrant(w: World, acts: seq<Action>)
    requires Always(w) && Legal(w, acts) && NoThrow(acts)
    requires acts != [] && StartsTeardown(w, acts[0]) && EndsTeardown(Step(w, acts[0]), acts[1..])
    ensures Exec(w, acts).client == Teardown(w.client)
    ensures LeftTo(Exec(w, acts),
                   if acts[0].Offer? then Running(OfferCheck(acts[0].offer, acts[0].creates), Idle) else Idle)
  {
    StepKeepsAlways(w, acts[0]);
    TeardownRun(Step(w, acts[0]), acts[1..]);
    assert FinishFrame(CloseTracks(w.client.tracks.Keys), SetState(w.client, RtcDisconnecting)) == Teardown(w.client);
  }

  /** An offer with no connection in its way. */
  lemma OfferTaken(c: Client, offer: nat, creates: bool)
    requires !c.fault
    ensures var c' := TakeOffer(c, offer, creates);
      && (c.state.ReadyToConnect? && c.factory && creates ==>
            |c'.pcs| == |c.pcs| + 1 && c'.pcs[|c.pcs|].offer == offer && c'.pc == Some(|c.pcs|))
      && (!(c.state.ReadyToConnect? && c.factory && creates) ==> |c'.pcs| == |c.pcs|)
      && (!c.state.ReadyToConnect? ==> c' == c)
  {
  }

  /**
  An offer is accepted exactly in READY_TO_CONNECT, and in RTC_CONNECTING and RTC_CONNECTED while a connection is held,
  when the factory is there and creates a connection; the program's connection is then the new one. In every other case,
  the states that a failed announcement leaves behind included, it changes nothing.
  */
  lemma OfferAccepted(c: Client, offer: nat, creates: bool)
    requires Always(World(c, Idle)) && !c.fault
    ensures var c' := AtomicStep(c, Offer(offer, creates));
      var open := c.state.ReadyToConnect? || (Active(c.state) && c.pc.Some?);
      && ((|c'.pcs| == |c.pcs| + 1 && c'.pcs[|c.pcs|].offer == offer && c'.pc == Some(|c.pcs|))
          <==> open && c.factory && creates)
      && (open || c' == c)
  {
    OfferIsAtomic(c, offer, creates);
    if Active(c.state) && c.pc.Some? {
      TeardownEffect(c);
      OfferTaken(Teardown(c), offer, creates);
    } else {
      OfferTaken(c, offer, creates);
    }
  }

  /** RTC_FAILED or DISCONNECTED without a connection, at most with an offer or a shutdown under way. */
  predicate Spent(w: World) {
    && w.client.pc.None? && (w.client.state.RtcFailed? || w.client.state.Disconnected?)
    && (Quiet(w) || ((ShutFrame(w.stack.top) || w.stack.top.OfferCheck?) && w.stack.below.Idle?))
  }

  /** The announced states of `longer` are those of `shorter` and then DISCONNECTED any number of times. */
  predicate OnlyDisconnectedSince(shorter: seq<State>, longer: seq<State>) {
    shorter <= longer && forall i :: |shorter| <= i < |longer| ==> longer[i].Disconnected?
  }

  /**
  RTC_FAILED and DISCONNECTED are final without a connection: whatever follows, failing announcements included, no
  connection is ever created again and nothing but DISCONNECTED is announced.
  */
  lemma {:induction false} FailedAndDisconnectedRejectOffers(w: World, acts: seq<Action>)
    requires Always(w) && Spent(w) && Legal(w, acts)
    ensures Spent(Exec(w, acts)) && Exec(w, acts).client.pcs == w.client.pcs
    ensures OnlyDisconnectedSince(w.client.emitted, Exec(w, acts).client.emitted)
    decreases |acts|
  {
    if acts != [] {
      StepKeepsAlways(w, acts[0]);
      SpentStep(w, acts[0]);
      SpentAnnounces(w, acts[0]);
      FailedAndDisconnectedRejectOffers(Step(w, acts[0]), acts[1..]);
    }
  }

  lemma SpentStatement(w: World, key: string)
    requires Spent(w) && !Quiet(w)
    ensures Spent(RunTop(w, key)) && RunTop(w, key).client.pcs == w.client.pcs
  {
    var f, c := w.stack.top, w.client;
    if f.OfferCheck? {
      assert RunFrame(f, key, c) == Ran(c, None);
    } else {
      assert RunFrame(f, key, c) == RunShut(f, c);
    }
  }

  lemma SpentStep(w: World, a: Action)
    requires Always(w) && Spent(w) && Enabled(w, a)
    ensures Spent(Step(w, a)) && Step(w, a).client.pcs == w.client.pcs
  {
    if a.Continue? {
      SpentStatement(w, a.key);
    }
  }

  lemma SpentAnnounces(w: World, a: Action)
    requires Always(w) && Spent(w) && Enabled(w, a)
    ensures OnlyDisconnectedSince(w.client.emitted, Step(w, a).client.emitted)
  {
    StepAnnounces(w, a);
  }

  /**
  Shutdown announces DISCONNECTED before it closes anything, so the guard of ClosePeerConnection skips the teardown:
  the connection is dropped without being closed and every handler keeps exactly what it held.
  */
  lemma ShutdownEffect(c: Client)
    requires Always(World(c, Idle)) && !c.fault
    ensures var c' := AtomicStep(c, Shutdown);
      && c'.state.Disconnected? && c'.emitted == c.emitted + [Disconnected] && AllStopped(c') && !c'.signalingClient
      && c'.channels == c.channels && c'.tracks == c.tracks
      && (Unbound(c') <==> Unbound(c))
      && (c.pc.None? ==> c'.pcs == c.pcs)
      && (c.pc.Some? && c.pc.value < |c.pcs| ==>
            c'.pcs == c.pcs[c.pc.value := c.pcs[c.pc.value].(status := Dropped)])
  {
    var f := StopSignalingServer;
    var announced := SetState(c, Disconnected);
    assert Complete(announced, Running(f, Idle)) == Complete(FinishFrame(f, announced), Idle);
  }

  /** No announcement of a shutdown fails while something is still there. */
  predicate ShutdownsGoOut(w: World, acts: seq<Action>)
    decreases |acts|
  {
    acts == [] || ((acts[0] == AnnounceFails(Shutdown) ==> AllStopped(w.client))
                   && ShutdownsGoOut(Step(w, acts[0]), acts[1..]))
  }

  lemma {:induction false} StoppedRun(w: World, acts: seq<Action>)
    requires Always(w) && StoppedGood(w) && Legal(w, acts) && ShutdownsGoOut(w, acts)
    ensures StoppedGood(Exec(w, acts))
    decreases |acts|
  {
    if acts != [] {
      StepKeepsAlways(w, acts[0]);
      StoppedUnlessShutdownFails(w, acts[0]);
      StoppedRun(Step(w, acts[0]), acts[1..]);
    }
  }

  /** Between operations DISCONNECTED means that connection, observer, factory and threads are gone. */
  lemma DisconnectedMeansReleased(acts: seq<Action>)
    requires Legal(Initial(), acts) && ShutdownsGoOut(Initial(), acts)
    ensures var w := Exec(Initial(), acts); Quiet(w) && w.client.state.Disconnected? ==> AllStopped(w.client)
  {
    InitialIsGood();
    StoppedRun(Initial(), acts);
  }

  lemma FaultOffer(f: Frame, c: Client)
    requires OfferFrame(f) && !c.fault
    ensures RunOffer(f, c).client.fault <==> f.OfferMake? && !c.factory
  {
  }

  lemma FaultFrame(f: Frame, key: string, c: Client)
    requires !c.fault
    ensures RunFrame(f, key, c).client.fault <==> f.OfferMake? && !c.factory
  {
    if OfferFrame(f) {
      FaultOffer(f, c);
    }
  }

  lemma FaultStatement(w: World, key: string)
    requires !Quiet(w) && !w.client.fault
    ensures RunTop(w, key).client.fault <==> w.stack.top.OfferMake? && !w.client.factory
  {
    FaultFrame(w.stack.top, key, w.client);
  }

  lemma FaultCallback(w: World, a: Action)
    requires Always(w) && Enabled(w, a)
    requires a.RemoteSet? || a.AnswerCreated? || a.LocalSet? || a.StageFails? || a.DataChannelArrives?
    ensures !Step(w, a).client.fault
  {
  }

  /** The only null pointer a step can reach is the factory, at the statement that asks it for a connection. */
  lemma FaultExactly(w: World, a: Action)
    requires Always(w) && Enabled(w, a)
    ensures Step(w, a).client.fault <==> a.Continue? && w.stack.top.OfferMake? && !w.client.factory
  {
    if a.Continue? {
      FaultStatement(w, a.key);
    } else if a.RemoteSet? || a.AnswerCreated? || a.LocalSet? || a.StageFails? || a.DataChannelArrives? {
      FaultCallback(w, a);
    }
  }

  /**
  A connection the library still runs has the signaling client to send its candidates through, except between two
  statements of a shutdown: after the client has been dropped and before the connection is.
  */
  lemma CandidateWindow(acts: seq<Action>, p: nat)
    requires Legal(Initial(), acts) && IsLive(Exec(Initial(), acts).client, p)
    ensures var w := Exec(Initial(), acts);
      w.client.signalingClient <==> Quiet(w) || !(w.stack.top.ShutClose? || w.stack.top.DropPc?)
  {
    var _ := AnyReached(acts);
  }

  /** The factory came up, or is about to. */
  predicate FactoryGood(w: World) {
    && (!w.client.state.Initializing? && !w.client.state.Disconnected? ==> w.client.factory)
    && !w.client.fault
    && (!Quiet(w) ==>
          match w.stack.top
          case InitWorker(ok) => ok
          case InitSignaling(ok) => ok
          case InitFactory(ok) => ok
          case InitReady => w.client.factory
          case _ => true)
  }

  lemma FactoryStatement(w: World, key: string)
    requires Always(w) && FactoryGood(w) && Enabled(w, Continue(key))
    ensures FactoryGood(Step(w, Continue(key)))
  {
    FaultStatement(w, key);
    StatementAnnounces(w, key);
  }

  lemma FactoryCallback(w: World, a: Action)
    requires Always(w) && FactoryGood(w) && Enabled(w, a)
    requires a.RemoteSet? || a.AnswerCreated? || a.LocalSet? || a.StageFails? || a.DataChannelArrives?
    ensures FactoryGood(Step(w, a))
  {
    FaultCallback(w, a);
  }

  lemma FactoryStep(w: World, a: Action)
    requires Always(w) && FactoryGood(w) && Enabled(w, a) && a != Initialize(false)
    ensures FactoryGood(Step(w, a))
  {
    if a.Continue? {
      FactoryStatement(w, a.key);
    } else if a.RemoteSet? || a.AnswerCreated? || a.LocalSet? || a.StageFails? || a.DataChannelArrives? {
      FactoryCallback(w, a);
    }
  }

  lemma {:induction false} FactoryRun(w: World, acts: seq<Action>)
    requires Always(w) && FactoryGood(w) && Legal(w, acts) && Initialize(false) !in acts
    ensures FactoryGood(Exec(w, acts))
    decreases |acts|
  {
    if acts != [] {
      StepKeepsAlways(w, acts[0]);
      FactoryStep(w, acts[0]);
      FactoryRun(Step(w, acts[0]), acts[1..]);
    }
  }

  /** Unless the factory could not be created, no run dereferences a null pointer. */
  lemma NoFault(acts: seq<Action>)
    requires Legal(Initial(), acts) && Initialize(false) !in acts
    ensures !Exec(Initial(), acts).client.fault
  {
    InitialIsGood();
    FactoryRun(Initial(), acts);
  }

  /** Each bound channel has its handler's label and current observer, and no channel is bound twice. */
  lemma Routing(acts: seq<Action>, l: string, m: string)
    requires Legal(Initial(), acts)
    ensures var c := Exec(Initial(), acts).client;
      l in c.channels && c.channels[l].channel.Some? ==>
        && c.channels[l].channel.value < |c.chans|
        && c.chans[c.channels[l].channel.value].name == l
        && c.channels[l].observer.Some?
        && c.chans[c.channels[l].channel.value].observer == c.channels[l].observer
        && (m in c.channels && m != l ==> c.channels[m].channel != c.channels[l].channel)
  {
    var _ := AnyReached(acts);
  }

  /** Only the two closing loops touch the registries. */
  lemma StatementKeepsRegistries(f: Frame, key: string, c: Client)
    ensures !f.CloseChannels? ==> RunFrame(f, key, c).client.channels == c.channels
    ensures !f.CloseTracks? ==> RunFrame(f, key, c).client.tracks == c.tracks
    ensures RunFrame(f, key, c).client.chans == c.chans
  {
  }

  lemma ArriveDisplacesNoOpenChannel(c: Client, name: string, state: ChannelState, l: string, i: nat)
    requires l in c.channels && c.channels[l].channel == Some(i) && i < |c.chans| && c.chans[i].state == Open
    ensures l in Arrive(c, name, state).channels && Arrive(c, name, state).channels[l] == c.channels[l]
  {
  }

  lemma StatementClosesChannel(w: World, key: string, l: string)
    requires !Quiet(w) && l in w.client.channels
    ensures l in RunTop(w, key).client.channels
    ensures RunTop(w, key).client.channels[l].channel == w.client.channels[l].channel
         || (RunTop(w, key).client.channels[l].channel.None? && key == l && w.stack.top.CloseChannels?)
  {
    StatementKeepsRegistries(w.stack.top, key, w.client);
  }

  /** A bound open channel is given up only by closing it: by its handler's owner or by a teardown. */
  lemma OpenNeverDisplaced(w: World, a: Action, l: string, i: nat)
    requires Enabled(w, a)
    requires var c := w.client;
      l in c.channels && c.channels[l].channel == Some(i) && i < |c.chans| && c.chans[i].state == Open
    ensures l in Step(w, a).client.channels
    ensures Step(w, a).client.channels[l].channel == Some(i)
         || (Step(w, a).client.channels[l].channel.None?
             && (a == UserClosesChannel(l) || (a == Continue(l) && w.stack.top.CloseChannels?)))
  {
    match a
    case Continue(key) => StatementClosesChannel(w, key, l);
    case DataChannelArrives(_, name, state) => ArriveDisplacesNoOpenChannel(w.client, name, state, l, i);
    case _ =>
  }

  /** Handler objects stay with their keys. */
  predicate SameHandlers(c: Client, c': Client, l: string) {
    && (l in c.channels ==> l in c'.channels && c'.channels[l].handler == c.channels[l].handler)
    && (l in c.tracks ==> l in c'.tracks && c'.tracks[l].handler == c.tracks[l].handler)
  }

  lemma ArriveKeepsHandlers(c: Client, name: string, state: ChannelState, l: string)
    ensures SameHandlers(c, Arrive(c, name, state), l)
  {
  }

  lemma NegotiationKeepsHandlers(c: Client, outcomes: map<string, TrackOutcome>, p: nat, hasDesc: bool, l: string)
    ensures SameHandlers(c, OnRemoteSet(c, outcomes), l)
    ensures SameHandlers(c, OnAnswerCreated(c, p, hasDesc), l)
    ensures SameHandlers(c, OnLocalSet(c, p), l)
  {
  }

  lemma FirstHandlerStep(w: World, a: Action, l: string)
    requires Enabled(w, a)
    ensures SameHandlers(w.client, Step(w, a).client, l)
  {
    match a {
      case Continue(key) => StatementKeepsRegistries(w.stack.top, key, w.client);
      case RemoteSet(_, outcomes) => NegotiationKeepsHandlers(w.client, outcomes, 0, false, l);
      case AnswerCreated(p, hasDesc) => NegotiationKeepsHandlers(w.client, map[], p, hasDesc, l);
      case LocalSet(p) => NegotiationKeepsHandlers(w.client, map[], p, false, l);
      case DataChannelArrives(_, name, state) => ArriveKeepsHandlers(w.client, name, state, l);
      case _ =>
    }
  }

  /** The first handler registered for a label, and the first for a track name, keep it whatever happens. */
  lemma {:induction false} FirstHandlerKept(w: World, acts: seq<Action>, l: string)
    requires Legal(w, acts)
    ensures SameHandlers(w.client, Exec(w, acts).client, l)
    decreases |acts|
  {
    if acts != [] {
      FirstHandlerStep(w, acts[0], l);
      FirstHandlerKept(Step(w, acts[0]), acts[1..], l);
    }
  }
}
