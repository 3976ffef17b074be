/** Concrete runs from the start, which show that the assumptions of the lifecycle theorems are needed. */
module LifecycleRuns {
  import opened Options
  import opened ConnectorStates
  import opened Lifecycle
  import opened LifecycleInvariant
  import opened LifecycleAtomic
  import opened LifecycleTheorems
  import opened LifecycleFailures

  /** A legal run from one world to another. */
  predicate Leads(w: World, acts: seq<Action>, w': World) {
    Legal(w, acts) && Exec(w, acts) == w'
  }

  lemma LeadsFirst(w: World, acts: seq<Action>, w': World)
    requires acts != []
    ensures Leads(w, acts, w') <==> Enabled(w, acts[0]) && Leads(Step(w, acts[0]), acts[1..], w')
  {
  }

  lemma {:induction false} LeadsThen(w: World, acts: seq<Action>, w': World, more: seq<Action>, w'': World)
    requires Leads(w, acts, w') && Leads(w', more, w'')
    ensures Leads(w, acts + more, w'')
    decreases |acts|
  {
    if acts == [] {
      assert acts + more == more;
    } else {
      var all := acts + more;
      assert all[0] == acts[0] && all[1..] == acts[1..] + more;
      LeadsFirst(w, acts, w');
      LeadsThen(Step(w, acts[0]), acts[1..], w', more, w'');
      LeadsFirst(w, all, w'');
    }
  }

  /** Adds one action to a run from the start. */
  lemma Then(acts: seq<Action>, w: World, a: Action) returns (acts': seq<Action>, w': World)
    requires Leads(Initial(), acts, w) && Enabled(w, a)
    ensures acts' == acts + [a] && w' == Step(w, a) && Leads(Initial(), acts', w')
  {
    var one := [a];
    assert one[1..] == [];
    LeadsFirst(w, one, Step(w, a));
    LeadsThen(Initial(), acts, w, one, Step(w, a));
    acts', w' := acts + one, Step(w, a);
  }

  predicate KeepsAssumptions(acts: seq<Action>, acts': seq<Action>) {
    (NoThrow(acts) ==> NoThrow(acts')) && (AllAnnounced(acts) ==> AllAnnounced(acts'))
  }

  /** Adds the rest of the operation in progress to a run from the start. */
  lemma ThenRest(acts: seq<Action>, w: World) returns (acts': seq<Action>, w': World)
    requires Leads(Initial(), acts, w)
    ensures w' == World(CompleteWorld(w), Idle)
    ensures Leads(Initial(), acts', w') && KeepsAssumptions(acts, acts') && Always(w')
  {
    var _ := AnyReached(acts);
    var rest := OperationEnds(w);
    acts', w' := acts + rest, World(CompleteWorld(w), Idle);
    LeadsThen(Initial(), acts, w, rest, w');
    var _ := AnyReached(acts');
  }

  /** Adds a whole operation to a run from the start. */
  lemma ThenAll(acts: seq<Action>, w: World, a: Action) returns (acts': seq<Action>, w': World)
    requires Leads(Initial(), acts, w) && Quiet(w) && Enabled(w, a) && !a.AnnounceFails?
    ensures w' == World(AtomicStep(w.client, a), Idle)
    ensures Leads(Initial(), acts', w') && KeepsAssumptions(acts, acts') && Always(w')
  {
    assert w == World(w.client, Idle);
    var started, busy := Then(acts, w, a);
    acts', w' := ThenRest(started, busy);
  }

  /** The connector comes up with one track handler registered. */
  lemma FirstReady(factoryOk: bool) returns (acts: seq<Action>, w: World)
    ensures Leads(Initial(), acts, w) && NoThrow(acts) && AllAnnounced(acts) && Always(w) && Quiet(w)
    ensures !w.client.fault && w.client.state.ReadyToConnect? && w.client.factory == factoryOk
    ensures w.client.pc.None? && w.client.pcs == [] && w.client.observersMade == 0
    ensures w.client.tracks.Keys == {"camera"} && w.client.channels == map[] && w.client.chans == []
  {
    acts, w := ThenAll([], Initial(), AddTrackHandler("camera", 1));
    var c := w.client;
    acts, w := ThenAll(acts, w, Initialize(factoryOk));
    var f := InitWorker(factoryOk);
    assert w.client == Complete(c.(network := true), Running(f, Idle));
    assert w.client == FinishFrame(f, c.(network := true));
  }

  /** And the offer 7 arrives. */
  lemma FirstOffer(factoryOk: bool) returns (acts: seq<Action>, w: World)
    ensures Leads(Initial(), acts, w) && NoThrow(acts) && AllAnnounced(acts) && Always(w) && Quiet(w)
    ensures !factoryOk ==> w.client.fault
    ensures factoryOk ==>
      && !w.client.fault && w.client.state.RtcConnecting? && w.client.factory
      && w.client.pc == Some(0) && w.client.pcs == [Pc(7, 0, Live, SettingRemote, 0)]
      && w.client.observersMade == 1 && w.client.tracks.Keys == {"camera"}
      && w.client.channels == map[] && w.client.chans == []
  {
    acts, w := FirstReady(factoryOk);
    var c := w.client;
    acts, w := ThenAll(acts, w, Offer(7, true));
    OfferIsAtomic(c, 7, true);
  }

  /** The condition of `NoFault` is needed: after a factory that could not be created, the first offer faults. */
  lemma MissingFactoryFaults() returns (acts: seq<Action>)
    ensures Legal(Initial(), acts) && NoThrow(acts) && Exec(Initial(), acts).client.fault
  {
    var w;
    acts, w := FirstOffer(false);
  }

  /** An exception that leaves a handler being closed ends in READY_TO_CONNECT with the connection still live. */
  lemma ThrowingHandlerKeepsConnection() returns (acts: seq<Action>, w: World)
    ensures Leads(Initial(), acts, w) && !NoThrow(acts)
    ensures Quiet(w) && !w.client.fault && w.client.state.ReadyToConnect? && w.client.pc == Some(0)
    ensures w.client.pcs == [Pc(7, 0, Live, SettingRemote, 0)] && w.client.observersMade == 1
    ensures w.client.factory && Accounted(w.client)
    ensures w.client.emitted != [] && w.client.state == w.client.emitted[|w.client.emitted| - 1]
  {
    acts, w := FirstOffer(true);
    var _ := Reached(acts);
    acts, w := Then(acts, w, CloseMessage);
    assert w.stack.top == CloseTracks({"camera"});
    acts, w := Then(acts, w, HandlerThrows);
    acts, w := Then(acts, w, Continue(""));
  }

  /**
  The next offer then replaces the observer which that connection still calls, and reaches the statement that creates a
  connection while that one is live.
  */
  lemma ThrowingHandlerLosesObserver() returns (acts: seq<Action>, w: World)
    ensures Leads(Initial(), acts, w)
    ensures IsLive(w.client, 0) && w.client.observer != Some(w.client.pcs[0].observer)
    ensures !Quiet(w) && w.stack.top.OfferMake?
  {
    acts, w := ThrowingHandlerKeepsConnection();
    acts, w := Then(acts, w, Offer(8, true));
    assert w.stack == Running(OfferCheck(8, true), Idle);
    acts, w := Then(acts, w, Continue(""));
    assert w.stack == Running(OfferObserver(8, true), Idle);
    acts, w := Then(acts, w, Continue(""));
  }

  /** When that connection comes up, the announced states leave even the loose graph. */
  lemma ThrowingHandlerLeavesGraph() returns (acts: seq<Action>, w: World)
    ensures Leads(Initial(), acts, w)
    ensures !IsLoosePath(Initializing, w.client.emitted)
  {
    acts, w := ThrowingHandlerKeepsConnection();
    var before := w.client;
    acts, w := Then(acts, w, ConnectionChange(0, PcConnected));
    assert w.client.emitted[..|before.emitted|] == before.emitted;
  }

  /** An exchange that is over begins again without a new connection. */
  lemma OfferedAgainMiscounts(c: Client)
    requires Accounted(c) && c.pc.Some? && IsLive(c, c.pc.value) && !Pending(c.pcs[c.pc.value].stage)
    ensures !Accounted(NotCreated(c))
  {
  }

  lemma OfferMiscounts(c: Client, offer: nat)
    requires c.state.ReadyToConnect? && c.factory
    requires Accounted(c) && c.pc.Some? && IsLive(c, c.pc.value) && !Pending(c.pcs[c.pc.value].stage)
    ensures !Accounted(TakeOffer(c, offer, false))
  {
    var held := SetState(c, RtcConnecting).(observer := Some(c.observersMade), observersMade := c.observersMade + 1);
    OfferedAgainMiscounts(held);
    assert TakeOffer(c, offer, false) == NotCreated(held);
  }

  /** Its exchange fails. */
  lemma ThrowingHandlerThenFailure() returns (acts: seq<Action>, w: World)
    ensures Leads(Initial(), acts, w) && Quiet(w) && !w.client.fault && w.client.state.ReadyToConnect?
    ensures w.client.factory && w.client.pc == Some(0) && w.client.pcs == [Pc(7, 0, Live, StageFailed, 0)]
    ensures Accounted(w.client)
  {
    acts, w := ThrowingHandlerKeepsConnection();
    acts, w := Then(acts, w, StageFails(0));
  }

  /** When the next offer then cannot create a connection, the accounts no longer add up. */
  lemma ThrowingHandlerLosesCount() returns (acts: seq<Action>, w: World)
    ensures Leads(Initial(), acts, w) && Quiet(w) && !Accounted(w.client)
  {
    acts, w := ThrowingHandlerThenFailure();
    OfferMiscounts(w.client, 8);
    OfferIsAtomic(w.client, 8, false);
    acts, w := ThenAll(acts, w, Offer(8, false));
  }

  lemma TakenWhileHeld(c: Client, offer: nat)
    requires c.state.ReadyToConnect? && c.factory && c.pc == Some(0) && |c.pcs| == 1 && c.pcs[0].closes == 0
    ensures var c' := TakeOffer(c, offer, true);
      && c'.state.RtcConnecting? && c'.pc == Some(1) && |c'.pcs| == 2
      && c'.pcs[0].status.Dropped? && c'.pcs[0].closes == 0
  {
  }

  /** Within a single offer, the connection in its way is replaced without being closed. */
  lemma ThrowingHandlerSkipsClose() returns (acts: seq<Action>, w: World)
    ensures Leads(Initial(), acts, w)
    ensures Quiet(w) && w.client.state.RtcConnecting? && w.client.pc == Some(1) && |w.client.pcs| == 2
    ensures w.client.pcs[0].status.Dropped? && w.client.pcs[0].closes == 0
  {
    acts, w := FirstOffer(true);
    acts, w := Then(acts, w, Offer(8, true));
    assert w.stack == Running(CloseTracks({"camera"}), Running(OfferCheck(8, true), Idle));
    acts, w := Then(acts, w, HandlerThrows);
    var c, check := SetState(w.client, ReadyToConnect), OfferCheck(8, true);
    assert CompleteWorld(w) == Complete(c, Running(check, Idle)) == FinishFrame(check, c);
    TakenWhileHeld(c, 8);
    acts, w := ThenRest(acts, w);
  }

  /** An offer whose RTC_CONNECTING is not announced leaves a hollow client. */
  lemma FailedConnectingRun() returns (acts: seq<Action>, w: World)
    ensures Leads(Initial(), acts, w) && NoThrow(acts)
    ensures Quiet(w) && Hollow(w) && !Good(w)
  {
    acts, w := FirstReady(true);
    acts, w := Then(acts, w, Offer(7, true));
    assert w.stack == Running(OfferCheck(7, true), Idle);
    acts, w := Then(acts, w, AnnounceFails(Continue("")));
  }

  /** A close whose RTC_DISCONNECTING is not announced leaves a wedged client and its connection live. */
  lemma FailedDisconnectingRun() returns (acts: seq<Action>, w: World)
    ensures Leads(Initial(), acts, w) && NoThrow(acts)
    ensures Quiet(w) && Wedged(w) && IsLive(w.client, 0) && w.client.pc == Some(0) && !Good(w)
  {
    acts, w := FirstOffer(true);
    acts, w := Then(acts, w, AnnounceFails(CloseMessage));
  }

  /** When that connection comes up after all, the announced states leave the lifecycle graph. */
  lemma FailedDisconnectingLeavesGraph() returns (acts: seq<Action>, w: World)
    ensures Leads(Initial(), acts, w) && NoThrow(acts)
    ensures w.client.state.RtcConnected? && !IsPath(Initializing, w.client.emitted)
  {
    acts, w := FailedDisconnectingRun();
    var emitted := w.client.emitted;
    var _ := Reached(acts);
    acts, w := Then(acts, w, ConnectionChange(0, PcConnected));
    assert w.client.emitted[..|emitted|] == emitted;
  }

  /** A shutdown whose DISCONNECTED is not announced releases nothing. */
  lemma FailedShutdownRun() returns (acts: seq<Action>, w: World)
    ensures Leads(Initial(), acts, w) && NoThrow(acts)
    ensures Quiet(w) && w.client.state.Disconnected? && IsLive(w.client, 0) && w.client.pc == Some(0)
    ensures Holding(w) && !Good(w)
  {
    acts, w := FirstOffer(true);
    acts, w := Then(acts, w, AnnounceFails(Shutdown));
  }
}
