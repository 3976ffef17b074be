/**
What single operations do to the client, field by field: the exchange of an offer and its answer, the callbacks of a
connection, an offer, an arriving data channel, a registration.
*/
module LifecycleEffects {
  import opened Options
  import opened ConnectorStates
  import opened Lifecycle
  import opened LifecycleInvariant
  import opened LifecycleAtomic
  import opened LifecycleTheorems

  /** The library runs connection `p`, whose exchange is where it starts, and nothing else is under way. */
  predicate Offered(w: World, p: nat) {
    && Always(w) && Quiet(w) && !w.client.fault
    && p < |w.client.pcs| && w.client.pcs[p].status == Live && w.client.pcs[p].stage == SettingRemote
  }

  /** Apart from its exchange, its answer and the sources of the tracks, the client is as it was. */
  predicate OnlyExchanged(c: Client, p: nat, stage: Stage, c': Client) {
    && p < |c.pcs| && c'.pcs == c.pcs[p := c.pcs[p].(stage := stage)]
    && c'.pc == c.pc && c'.state == c.state && c'.emitted == c.emitted && c'.channels == c.channels
    && c'.observer == c.observer && c'.abandoned == c.abandoned && !c'.fault
  }

  /** Every track handler that returned a source holds it; the others hold what they held. */
  predicate SourcesMade(c: Client, outcomes: map<string, TrackOutcome>, c': Client) {
    && c'.tracks.Keys == c.tracks.Keys
    && forall n :: n in c.tracks ==>
         && c'.tracks[n].handler == c.tracks[n].handler && c'.tracks[n].closes == c.tracks[n].closes
         && (c'.tracks[n].source <==> c.tracks[n].source || n !in outcomes || outcomes[n] != NoSource)
  }

  lemma RemoteSetEffect(w: World, p: nat, outcomes: map<string, TrackOutcome>)
    requires Offered(w, p)
    ensures Enabled(w, RemoteSet(p, outcomes))
    ensures var w' := Step(w, RemoteSet(p, outcomes));
      && w'.stack == w.stack && OnlyExchanged(w.client, p, CreatingAnswer, w'.client)
      && SourcesMade(w.client, outcomes, w'.client)
      && w'.client.answers == w.client.answers && w'.client.failed == w.client.failed
  {
  }

  lemma AnswerCreatedEffect(w: World, p: nat, hasDesc: bool)
    requires Always(w) && Quiet(w) && !w.client.fault
    requires p < |w.client.pcs| && w.client.pcs[p].status == Live && w.client.pcs[p].stage == CreatingAnswer
    ensures Enabled(w, AnswerCreated(p, hasDesc))
    ensures var w' := Step(w, AnswerCreated(p, hasDesc));
      && w'.stack == w.stack
      && OnlyExchanged(w.client, p, SettingLocal(if hasDesc then Some(p) else None), w'.client)
      && w'.client.tracks == w.client.tracks
      && w'.client.answers == w.client.answers && w'.client.failed == w.client.failed
  {
  }

  lemma LocalSetEffect(w: World, p: nat)
    requires Always(w) && Quiet(w) && !w.client.fault
    requires p < |w.client.pcs| && w.client.pcs[p].status == Live && w.client.pcs[p].stage.SettingLocal?
    ensures Enabled(w, LocalSet(p))
    ensures var c, w' := w.client, Step(w, LocalSet(p)); var desc := c.pcs[p].stage.desc;
      && w'.stack == w.stack && w'.client.tracks == c.tracks
      && OnlyExchanged(c, p, if desc.Some? then Answered else StageFailed, w'.client)
      && w'.client.answers == c.answers + (if desc.Some? then [Answer(c.pcs[p].offer, p, desc.value)] else [])
      && w'.client.failed == c.failed + if desc.Some? then 0 else 1
  {
  }

  /** An action, and the run after it. */
  lemma LegalFirst(w: World, a: Action, rest: seq<Action>)
    requires Enabled(w, a) && Legal(Step(w, a), rest)
    ensures Legal(w, [a] + rest) && Exec(w, [a] + rest) == Exec(Step(w, a), rest)
  {
    var acts := [a] + rest;
    assert acts[0] == a && acts[1..] == rest;
  }

  lemma ThreeLegal(w: World, a: Action, b: Action, c: Action)
    requires Enabled(w, a) && Enabled(Step(w, a), b) && Enabled(Step(Step(w, a), b), c)
    ensures Legal(w, [a, b, c]) && Exec(w, [a, b, c]) == Step(Step(Step(w, a), b), c)
  {
    var w1 := Step(w, a);
    var w2 := Step(w1, b);
    LegalFirst(w2, c, []);
    LegalFirst(w1, b, [c] + []);
    LegalFirst(w, a, [b] + ([c] + []));
    assert [a] + ([b] + ([c] + [])) == [a, b, c];
  }

  /**
  An offer is answered. Wherever a run has come to, the three callbacks of the exchange of a connection send exactly one
  answer, the one this connection made, for its own offer; without a description they count one failure instead.
  */
  lemma OfferIsAnswered(w: World, p: nat, outcomes: map<string, TrackOutcome>, hasDesc: bool)
    requires Offered(w, p)
    ensures var acts := [RemoteSet(p, outcomes), AnswerCreated(p, hasDesc), LocalSet(p)];
      var c, w' := w.client, Exec(w, acts);
      && Legal(w, acts) && Quiet(w')
      && OnlyExchanged(c, p, if hasDesc then Answered else StageFailed, w'.client)
      && SourcesMade(c, outcomes, w'.client)
      && w'.client.answers == c.answers + (if hasDesc then [Answer(c.pcs[p].offer, p, p)] else [])
      && w'.client.failed == c.failed + if hasDesc then 0 else 1
  {
    var a, b := RemoteSet(p, outcomes), AnswerCreated(p, hasDesc);
    var w1, w2 := Step(w, a), Step(Step(w, a), b);
    RemoteSetEffect(w, p, outcomes);
    StepKeepsAlways(w, a);
    AnswerCreatedEffect(w1, p, hasDesc);
    StepKeepsAlways(w1, b);
    LocalSetEffect(w2, p);
    ThreeLegal(w, a, b, LocalSet(p));
  }

  /** A step of the exchange that fails counts, and sends nothing. */
  lemma FailedStageEffect(w: World, p: nat)
    requires Enabled(w, StageFails(p))
    ensures var c, w' := w.client, Step(w, StageFails(p));
      && w'.stack == w.stack && OnlyExchanged(c, p, StageFailed, w'.client) && w'.client.tracks == c.tracks
      && w'.client.answers == c.answers && w'.client.failed == c.failed + 1
  {
  }

  /** The initialisation, from its first statement to its last. */
  lemma InitializeEffect(c: Client, factoryOk: bool)
    requires Always(World(c, Idle)) && !c.fault && c.state == Initializing
    ensures var c' := AtomicStep(c, Initialize(factoryOk));
      && c'.network && c'.worker && c'.signalingThread && c'.factory == factoryOk
      && c'.state == ReadyToConnect && c'.emitted == c.emitted + [ReadyToConnect]
      && c'.pc == c.pc && c'.pcs == c.pcs && c'.observer == c.observer
      && c'.channels == c.channels && c'.tracks == c.tracks && !c'.fault
  {
    var f, started := InitWorker(factoryOk), c.(network := true);
    assert Complete(started, Running(f, Idle)) == Complete(FinishFrame(f, started), Idle);
  }

  /** The connection is closed and let go, and two states are announced. */
  predicate TornDownOnce(c: Client, c': Client) {
    && c'.state == ReadyToConnect && c'.emitted == c.emitted + [RtcDisconnecting, ReadyToConnect]
    && c'.pc == None && |c'.pcs| == |c.pcs|
    && (c.pc.Some? && c.pc.value < |c.pcs| ==>
          c'.pcs[c.pc.value].status == Closed && c'.pcs[c.pc.value].closes == c.pcs[c.pc.value].closes + 1)
    && (forall n :: n in c.tracks ==> n in c'.tracks && !c'.tracks[n].source)
    && (forall l :: l in c.channels ==> l in c'.channels && c'.channels[l].channel == None)
  }

  lemma CloseEffect(w: World)
    requires Always(w) && Quiet(w) && !w.client.fault
    ensures w.client.state in {RtcConnecting, RtcConnected} ==> TornDownOnce(w.client, CompleteWorld(CallClose(w)))
    ensures w.client.state !in {RtcConnecting, RtcConnected} ==> CallClose(w) == w
  {
    assert w == World(w.client, Idle);
    if w.client.state in {RtcConnecting, RtcConnected} {
      TeardownIsAtomic(w);
      TeardownEffect(w.client);
      assert CompleteWorld(CallClose(w)) == Teardown(w.client);
    }
  }

  /**
  What each callback about the state of a connection does between operations: failed, disconnected and closed tear down
  in the two active states and do nothing in any other, connected is announced, new and connecting do nothing.
  */
  lemma CallbackEffect(w: World, p: nat, change: PcChange)
    requires Always(w) && Enabled(w, ConnectionChange(p, change)) && Quiet(w)
    ensures var c, w' := w.client, Step(w, ConnectionChange(p, change));
      && (change in {PcFailed, PcDisconnected, PcClosed} && c.state in {RtcConnecting, RtcConnected} ==>
            TornDownOnce(c, CompleteWorld(w')))
      && (change in {PcFailed, PcDisconnected, PcClosed} && c.state !in {RtcConnecting, RtcConnected} ==> w' == w)
      && (change in {PcNew, PcConnecting} ==> w' == w)
      && (change == PcConnected ==>
            w' == World(c.(state := RtcConnected, emitted := c.emitted + [RtcConnected]), w.stack))
  {
    CloseEffect(w);
  }

  /**
  In the middle of a teardown or a shutdown, at whatever statement, each of the three can come from any connection ever
  made, and then changes nothing.
  */
  lemma CallbacksNestAnywhere(w: World, p: nat, change: PcChange)
    requires Always(w) && !Quiet(w) && (TearFrame(w.stack.top) || ShutFrame(w.stack.top))
    requires p < |w.client.pcs| && change in {PcFailed, PcDisconnected, PcClosed}
    ensures Enabled(w, ConnectionChange(p, change)) && Step(w, ConnectionChange(p, change)) == w
  {
    NestedCallbackIsNoOp(w, ConnectionChange(p, change));
  }

  /** A message that asks to close tears down like a closing callback. */
  lemma CloseMessageEffect(w: World)
    requires Always(w) && Enabled(w, CloseMessage)
    ensures var c, w' := w.client, Step(w, CloseMessage);
      if c.state in {RtcConnecting, RtcConnected} then TornDownOnce(c, CompleteWorld(w')) else w' == w
  {
    CloseEffect(w);
  }

  /** What an offer does that finds no connection in its way. */
  lemma OfferEffect(c: Client, offer: nat, creates: bool)
    requires Always(World(c, Idle)) && !c.fault && c.pc == None && c.state == ReadyToConnect
    ensures var c' := AtomicStep(c, Offer(offer, creates));
      && c'.fault == !c.factory
      && c'.observer == Some(c.observersMade) && c'.observersMade == c.observersMade + 1
      && c'.channels == c.channels && c'.tracks == c.tracks && c'.answers == c.answers && c'.failed == c.failed
      && (c.factory && creates ==>
            && c'.state == RtcConnecting && c'.emitted == c.emitted + [RtcConnecting]
            && c'.pc == Some(|c.pcs|) && c'.pcs == c.pcs + [Pc(offer, c.observersMade, Live, SettingRemote, 0)])
      && (c.factory && !creates ==>
            && c'.state == RtcFailed && c'.emitted == c.emitted + [RtcConnecting] + [RtcFailed]
            && c'.pc == None && c'.pcs == c.pcs)
  {
    OfferIsAtomic(c, offer, creates);
    assert Cleared(c) == c;
  }

  /** And one that finds one: that is closed first. */
  lemma SupersedingOfferEffect(c: Client, offer: nat, creates: bool)
    requires Always(World(c, Idle)) && !c.fault && c.pc.Some? && c.state in {RtcConnecting, RtcConnected}
    ensures var c' := AtomicStep(c, Offer(offer, creates));
      && c.pc.value < |c.pcs| <= |c'.pcs| && c'.pcs[c.pc.value].status == Closed
      && c'.pcs[c.pc.value].closes == c.pcs[c.pc.value].closes + 1
      && (creates ==>
            && c'.emitted == c.emitted + [RtcDisconnecting, ReadyToConnect] + [RtcConnecting]
            && c'.pc == Some(|c.pcs|) && |c'.pcs| == |c.pcs| + 1
            && c'.pcs[|c.pcs|] == Pc(offer, c.observersMade, Live, SettingRemote, 0))
      && (!creates ==>
            && c'.emitted == c.emitted + [RtcDisconnecting, ReadyToConnect] + [RtcConnecting] + [RtcFailed]
            && c'.pc == None && |c'.pcs| == |c.pcs|)
  {
    OfferIsAtomic(c, offer, creates);
    TeardownEffect(c);
    var free := Teardown(c);
    assert free.observersMade == c.observersMade;
    assert Cleared(c) == free;
  }

  /** The handler of that name holds a channel that is open. */
  predicate HasOpenChannel(c: Client, name: string, i: nat) {
    name in c.channels && c.channels[name].channel == Some(i) && i < |c.chans| && c.chans[i].state == Open
  }

  /**
  What becomes of an arriving channel. It is left alone when no handler has its label or the handler's channel is open;
  otherwise the handler holds it from then on, with a new observer.
  */
  lemma ArrivalEffect(w: World, p: nat, name: string, state: ChannelState)
    requires Enabled(w, DataChannelArrives(p, name, state))
    ensures var c, c' := w.client, Step(w, DataChannelArrives(p, name, state)).client;
      && (name !in c.channels || (exists i :: HasOpenChannel(c, name, i)) ==>
            c'.channels == c.channels && c'.chans == c.chans + [Channel(name, state, None)])
      && (name in c.channels && (forall i :: !HasOpenChannel(c, name, i)) ==>
            && c'.chans == c.chans + [Channel(name, state, Some(c.observersMade))]
            && c'.channels.Keys == c.channels.Keys
            && c'.channels[name].handler == c.channels[name].handler
            && c'.channels[name].closes == c.channels[name].closes
            && c'.channels[name].channel == Some(|c.chans|)
            && c'.channels[name].observer == Some(c.observersMade)
            && (forall l :: l in c.channels && l != name ==> c'.channels[l] == c.channels[l]))
  {
    var c := w.client;
    if name in c.channels && c.channels[name].channel.Some? {
      var i := c.channels[name].channel.value;
      assert HasOpenChannel(c, name, i) <==> i < |c.chans| && c.chans[i].state == Open;
    }
  }

  /** The owner of a handler closes its channel. */
  lemma UserCloseEffect(w: World, l: string)
    requires Enabled(w, UserClosesChannel(l))
    ensures var c, c' := w.client, Step(w, UserClosesChannel(l)).client;
      && l in c.channels && c'.channels.Keys == c.channels.Keys && c'.chans == c.chans
      && c'.channels[l].channel == None && c'.channels[l].handler == c.channels[l].handler
      && (forall m :: m in c.channels && m != l ==> c'.channels[m] == c.channels[m])
  {
  }

  /** A handler is registered under a new name, holding nothing, and under a name that is taken not at all. */
  lemma RegistrationEffect(w: World, name: string, handler: nat)
    ensures var c, c' := w.client, Step(w, AddChannelHandler(name, handler)).client;
      c'.channels == if name in c.channels then c.channels else c.channels[name := Binding(handler, None, None, 0)]
    ensures var c, c' := w.client, Step(w, AddTrackHandler(name, handler)).client;
      c'.tracks == if name in c.tracks then c.tracks else c.tracks[name := Track(handler, false, 0)]
  {
  }
}
