/**
What happens when an exception leaves a handler that is being closed, or the status frame of an announcement does not go
out: how an operation ends then, which states it leaves the client in, and which promises that breaks.
*/
module LifecycleFailures {
  import opened Options
  import opened ConnectorStates
  import opened Lifecycle
  import opened LifecycleInvariant
  import opened LifecycleTheorems

  /** RTC_DISCONNECTING without a teardown that would end it: what a close leaves whose first announcement failed. */
  predicate Wedged(w: World) {
    && w.client.state.RtcDisconnecting? && !w.client.fault
    && (Quiet(w) || (w.stack.top.OfferCheck? && w.stack.below.Idle?))
  }

  /** A shutdown, or the connection that was not closed comes up. */
  predicate Frees(a: Action) {
    a.Shutdown? || a == AnnounceFails(Shutdown) || (a.ConnectionChange? && a.change.PcConnected?)
  }

  lemma WedgedStep(w: World, a: Action)
    requires Always(w) && Wedged(w) && Enabled(w, a)
    ensures Wedged(Step(w, a)) <==> !Frees(a)
    ensures !Frees(a) ==> Step(w, a).client.emitted == w.client.emitted
    ensures !Frees(a) ==> Step(w, a).client.pc == w.client.pc && |Step(w, a).client.pcs| == |w.client.pcs|
  {
    StepAnnounces(w, a);
    if a.Continue? {
      assert RunFrame(w.stack.top, a.key, w.client) == Ran(w.client, None);
    } else if a.RemoteSet? || a.AnswerCreated? || a.LocalSet? || a.StageFails? || a.DataChannelArrives? {
      FaultCallback(w, a);
      CallbackKeepsConnection(w, a);
    }
  }

  lemma CallbackKeepsConnection(w: World, a: Action)
    requires a.RemoteSet? || a.AnswerCreated? || a.LocalSet? || a.StageFails? || a.DataChannelArrives?
    ensures var c, c' := w.client, Step(w, a).client;
      Step(w, a).stack == w.stack && c'.pc == c.pc && |c'.pcs| == |c.pcs|
  {
  }

  /**
  A wedged client stays wedged until it is shut down or the connection it failed to close comes up: every offer and
  every close before that does nothing, nothing is announced, and the connection stays.
  */
  lemma {:induction false} WedgedUntilFreed(w: World, acts: seq<Action>)
    requires Always(w) && Wedged(w) && Legal(w, acts) && forall a :: a in acts ==> !Frees(a)
    ensures var c, c' := w.client, Exec(w, acts).client;
      Wedged(Exec(w, acts)) && c'.emitted == c.emitted && c'.pc == c.pc && |c'.pcs| == |c.pcs|
    decreases |acts|
  {
    if acts != [] {
      assert acts[0] in acts;
      StepKeepsAlways(w, acts[0]);
      WedgedStep(w, acts[0]);
      WedgedUntilFreed(Step(w, acts[0]), acts[1..]);
    }
  }

  /** RTC_CONNECTING without a connection: what an offer leaves whose announcement failed. */
  predicate Hollow(w: World) {
    && w.client.state.RtcConnecting? && w.client.pc.None? && !w.client.fault
    && (Quiet(w) || (w.stack.top.OfferCheck? && w.stack.below.Idle?))
  }

  /** A close, a closing callback out of an earlier connection, or a shutdown. */
  predicate Clears(a: Action) {
    || a.CloseMessage? || a == AnnounceFails(CloseMessage)
    || (a.ConnectionChange? && a.change in {PcFailed, PcDisconnected, PcClosed})
    || a.Shutdown? || a == AnnounceFails(Shutdown)
  }

  lemma HollowStep(w: World, a: Action)
    requires Always(w) && Hollow(w) && Enabled(w, a)
    ensures Hollow(Step(w, a)) <==> !Clears(a)
    ensures !Clears(a) ==> Step(w, a).client.emitted == w.client.emitted
    ensures !Clears(a) ==> |Step(w, a).client.pcs| == |w.client.pcs|
  {
    StepAnnounces(w, a);
    if a.Continue? {
      assert RunFrame(w.stack.top, a.key, w.client) == Ran(w.client, None);
    } else if a.RemoteSet? || a.AnswerCreated? || a.LocalSet? || a.StageFails? || a.DataChannelArrives? {
      FaultCallback(w, a);
      CallbackKeepsConnection(w, a);
    }
  }

  /** A hollow client rejects every offer until it is closed or shut down. */
  lemma {:induction false} HollowUntilCleared(w: World, acts: seq<Action>)
    requires Always(w) && Hollow(w) && Legal(w, acts) && forall a :: a in acts ==> !Clears(a)
    ensures var c, c' := w.client, Exec(w, acts).client;
      Hollow(Exec(w, acts)) && c'.emitted == c.emitted && |c'.pcs| == |c.pcs|
    decreases |acts|
  {
    if acts != [] {
      assert acts[0] in acts;
      StepKeepsAlways(w, acts[0]);
      HollowStep(w, acts[0]);
      HollowUntilCleared(Step(w, acts[0]), acts[1..]);
    }
  }

  /** Factory, threads and signaling client are there, and no shutdown is under way. */
  predicate Holding(w: World) {
    && w.client.factory && ThreadsUp(w.client) && w.client.signalingClient && !w.client.state.Initializing?
    && (Quiet(w) || !ShutFrame(w.stack.top))
  }

  lemma StatementHolds(w: World, key: string)
    requires Always(w) && Holding(w) && Enabled(w, Continue(key))
    ensures Holding(RunTop(w, key))
  {
    StatementAnnounces(w, key);
  }

  lemma CallbackHolds(w: World, a: Action)
    requires a.RemoteSet? || a.AnswerCreated? || a.LocalSet? || a.StageFails? || a.DataChannelArrives?
    ensures SameServices(w.client, Step(w, a).client) && Step(w, a).stack == w.stack
  {
  }

  lemma HoldingStep(w: World, a: Action)
    requires Always(w) && Holding(w) && Enabled(w, a) && !a.Shutdown?
    ensures Holding(Step(w, a))
  {
    StepAnnounces(w, a);
    if a.Continue? {
      StatementHolds(w, a.key);
    } else if a.RemoteSet? || a.AnswerCreated? || a.LocalSet? || a.StageFails? || a.DataChannelArrives? {
      CallbackHolds(w, a);
    }
  }

  /**
  Only a shutdown whose announcement goes out releases anything: after one that failed, everything is still there
  however often it fails again.
  */
  lemma {:induction false} HoldingUntilShutdown(w: World, acts: seq<Action>)
    requires Always(w) && Holding(w) && Legal(w, acts) && Shutdown !in acts
    ensures Holding(Exec(w, acts))
    decreases |acts|
  {
    if acts != [] {
      StepKeepsAlways(w, acts[0]);
      HoldingStep(w, acts[0]);
      HoldingUntilShutdown(Step(w, acts[0]), acts[1..]);
    }
  }

  /** A teardown goes on as one until its last statement has run, and it does not get a connection it does not hold. */
  lemma TeardownHolds(w: World, a: Action)
    requires Always(w) && InTeardown(w) && !w.stack.top.Notify? && Enabled(w, a)
    ensures InTeardown(Step(w, a)) && Step(w, a).stack.below == w.stack.below
    ensures Step(w, a).stack.top.Notify? && a != HandlerThrows ==> Step(w, a).client.pc.None?
    ensures !Step(w, a).stack.top.Notify? || a == HandlerThrows ==> Step(w, a).client.pc == w.client.pc
  {
  }

  /**
  A teardown that has announced RTC_DISCONNECTING ends in READY_TO_CONNECT in any case, also when that is not
  announced, whether it was called by a message, a callback or an offer that waits for it. It ends without a
  connection exactly when it had none to close or no exception left a handler being closed.
  */
  lemma {:induction false} TeardownEndsCleanIffNoThrow(w: World, acts: seq<Action>)
    requires Always(w) && InTeardown(w) && Legal(w, acts) && EndsTeardown(w, acts)
    ensures Exec(w, acts).client.state.ReadyToConnect? && LeftTo(Exec(w, acts), w.stack.below)
    ensures Exec(w, acts).client.pc.None? <==> w.client.pc.None? || (!w.stack.top.Notify? && NoThrow(acts))
    ensures w.stack.top.Notify? ==> NoThrow(acts)
    decreases |acts|
  {
    var a := acts[0];
    var next := Step(w, a);
    assert acts == [a] + acts[1..];
    StepKeepsAlways(w, a);
    if w.stack.top.Notify? {
      TeardownEnds(w, a);
      if a.ConnectionChange? {
        TeardownEndsCleanIffNoThrow(next, acts[1..]);
      } else {
        assert acts[1..] == [];
      }
    } else {
      TeardownHolds(w, a);
      TeardownEndsCleanIffNoThrow(next, acts[1..]);
    }
  }

  /** The offer that created no connection goes to one still held, whose exchange is over. */
  predicate OffersAgain(w: World, a: Action) {
    && a.Continue? && !Quiet(w) && w.stack.top.OfferFailed?
    && w.client.pc.Some? && w.client.pc.value < |w.client.pcs| && !Pending(w.client.pcs[w.client.pc.value].stage)
  }

  /** The statements that create, give up or offer again a connection. */
  predicate ConnectionFrame(f: Frame) {
    f.ClosePc? || f.ReleasePc? || f.OfferMake? || f.OfferFailed? || f.DropPc?
  }

  /** Everything the negotiation accounts and the observers depend on. */
  predicate SameExchanges(c: Client, c': Client) {
    && c'.pcs == c.pcs && c'.pc == c.pc
    && c'.answers == c.answers && c'.failed == c.failed && c'.abandoned == c.abandoned
  }

  predicate SameObserver(c: Client, c': Client) {
    c'.observer == c.observer && c'.observersMade == c.observersMade
  }

  lemma OtherTearSame(f: Frame, key: string, c: Client)
    requires TearFrame(f) && !ConnectionFrame(f)
    ensures SameExchanges(c, RunTear(f, key, c).client) && SameObserver(c, RunTear(f, key, c).client)
  {
  }

  lemma OtherOfferSame(f: Frame, c: Client)
    requires OfferFrame(f) && !ConnectionFrame(f)
    ensures SameExchanges(c, RunOffer(f, c).client)
    ensures f.OfferCheck? ==> SameObserver(c, RunOffer(f, c).client)
  {
    if f.OfferCheck? {
      assert RunOffer(f, c).client in {c, SetState(c, RtcConnecting)};
    }
  }

  lemma OtherShutSame(f: Frame, c: Client)
    requires ShutFrame(f) && !ConnectionFrame(f)
    ensures SameExchanges(c, RunShut(f, c).client)
    ensures !f.DropObserver? ==> SameObserver(c, RunShut(f, c).client)
  {
  }

  lemma OtherFrameSame(f: Frame, key: string, c: Client)
    requires !ConnectionFrame(f)
    ensures SameExchanges(c, RunFrame(f, key, c).client)
    ensures !f.OfferObserver? && !f.DropObserver? ==> SameObserver(c, RunFrame(f, key, c).client)
  {
    if TearFrame(f) {
      OtherTearSame(f, key, c);
    } else if OfferFrame(f) {
      OtherOfferSame(f, c);
    } else if ShutFrame(f) {
      OtherShutSame(f, c);
    }
  }

  lemma ReleaseAccounts(w: World, key: string)
    requires Always(w) && Accounted(w.client) && Enabled(w, Continue(key))
    requires w.stack.top.ClosePc? || w.stack.top.ReleasePc? || w.stack.top.DropPc?
    ensures Accounted(RunFrame(w.stack.top, key, w.client).client)
  {
  }

  lemma MakeAccounts(w: World, key: string)
    requires Always(w) && Accounted(w.client) && Enabled(w, Continue(key)) && w.stack.top.OfferMake?
    ensures Accounted(RunFrame(w.stack.top, key, w.client).client)
  {
  }

  lemma OfferAgainAccounts(w: World, key: string)
    requires Always(w) && Accounted(w.client) && Enabled(w, Continue(key)) && w.stack.top.OfferFailed?
    ensures Accounted(RunFrame(w.stack.top, key, w.client).client) <==> !OffersAgain(w, Continue(key))
  {
    assert RunFrame(w.stack.top, key, w.client) == Ran(NotCreated(w.client), None);
  }

  lemma StatementAccounts(w: World, key: string)
    requires Always(w) && Accounted(w.client) && Enabled(w, Continue(key))
    ensures Accounted(RunFrame(w.stack.top, key, w.client).client) <==> !OffersAgain(w, Continue(key))
  {
    var f := w.stack.top;
    if f.OfferFailed? {
      OfferAgainAccounts(w, key);
    } else if f.OfferMake? {
      MakeAccounts(w, key);
    } else if ConnectionFrame(f) {
      ReleaseAccounts(w, key);
    } else {
      OtherFrameSame(f, key, w.client);
    }
  }

  lemma CallbackAccounts(w: World, a: Action)
    requires Always(w) && Accounted(w.client) && Enabled(w, a)
    requires a.RemoteSet? || a.AnswerCreated? || a.LocalSet? || a.StageFails? || a.DataChannelArrives?
    ensures Accounted(Step(w, a).client)
  {
  }

  /** The only step that puts the negotiation accounts out: it takes a connection held without being closed. */
  lemma AccountedUnlessOfferedAgain(w: World, a: Action)
    requires Always(w) && Accounted(w.client) && Enabled(w, a)
    ensures Accounted(Step(w, a).client) <==> !OffersAgain(w, a)
  {
    if a.Continue? {
      StatementAccounts(w, a.key);
    } else if a.RemoteSet? || a.AnswerCreated? || a.LocalSet? || a.StageFails? || a.DataChannelArrives? {
      CallbackAccounts(w, a);
    }
  }

  /** Observers are numbered as they are made. */
  predicate ObserversMade(c: Client) {
    && (forall p {:trigger c.pcs[p]} :: 0 <= p < |c.pcs| ==> c.pcs[p].observer < c.observersMade)
    && (c.observer.Some? ==> c.observer.value < c.observersMade)
  }

  /** A new observer is made while a connection is held. */
  predicate ReplacesObserver(w: World, a: Action) {
    a.Continue? && !Quiet(w) && w.stack.top.OfferObserver? && w.client.pc.Some?
  }

  lemma ReleaseObserves(w: World, key: string)
    requires Always(w) && ObserversMade(w.client) && ObserverGood(w.client) && Enabled(w, Continue(key))
    requires w.stack.top.ClosePc? || w.stack.top.ReleasePc? || w.stack.top.DropPc?
    ensures var c' := RunFrame(w.stack.top, key, w.client).client; ObserversMade(c') && ObserverGood(c')
  {
  }

  lemma OfferObserves(w: World, key: string)
    requires Always(w) && ObserversMade(w.client) && ObserverGood(w.client) && Enabled(w, Continue(key))
    requires w.stack.top.OfferMake? || w.stack.top.OfferFailed?
    ensures var c' := RunFrame(w.stack.top, key, w.client).client; ObserversMade(c') && ObserverGood(c')
  {
    assert RunFrame(w.stack.top, key, w.client) == RunOffer(w.stack.top, w.client);
  }

  lemma StatementObserves(w: World, key: string)
    requires Always(w) && ObserversMade(w.client) && ObserverGood(w.client) && Enabled(w, Continue(key))
    ensures var c' := RunFrame(w.stack.top, key, w.client).client;
      ObserversMade(c') && (ObserverGood(c') <==> !ReplacesObserver(w, Continue(key)))
  {
    var f := w.stack.top;
    if f.OfferMake? || f.OfferFailed? {
      OfferObserves(w, key);
    } else if ConnectionFrame(f) {
      ReleaseObserves(w, key);
    } else {
      OtherFrameSame(f, key, w.client);
    }
  }

  lemma CallbackObserves(w: World, a: Action)
    requires Always(w) && ObserversMade(w.client) && ObserverGood(w.client) && Enabled(w, a)
    requires a.RemoteSet? || a.AnswerCreated? || a.LocalSet? || a.StageFails? || a.DataChannelArrives?
    ensures ObserversMade(Step(w, a).client) && ObserverGood(Step(w, a).client)
  {
  }

  lemma CloseCallObserves(w: World)
    ensures SameExchanges(w.client, CallClose(w).client) && SameObserver(w.client, CallClose(w).client)
  {
  }

  lemma CallObserves(w: World, a: Action)
    requires a.Initialize? || a.Offer? || a.CloseMessage? || a.ConnectionChange? || a.Shutdown? || a.AnnounceFails?
    ensures SameExchanges(w.client, Step(w, a).client) && SameObserver(w.client, Step(w, a).client)
  {
    if a.Offer? {
      CloseCallObserves(Push(w, OfferCheck(a.offer, a.creates)));
    } else if a.CloseMessage? || a.ConnectionChange? {
      CloseCallObserves(w);
    }
  }

  /** The only step after which the held connection calls an observer that is gone: the same kind of offer, earlier. */
  lemma ObservedUnlessReplaced(w: World, a: Action)
    requires Always(w) && ObserversMade(w.client) && ObserverGood(w.client) && Enabled(w, a)
    ensures ObserversMade(Step(w, a).client)
    ensures ObserverGood(Step(w, a).client) <==> !ReplacesObserver(w, a)
  {
    if a.Continue? {
      StatementObserves(w, a.key);
    } else if a.RemoteSet? || a.AnswerCreated? || a.LocalSet? || a.StageFails? || a.DataChannelArrives? {
      CallbackObserves(w, a);
    } else if a.Initialize? || a.Offer? || a.CloseMessage? || a.ConnectionChange? || a.Shutdown? || a.AnnounceFails? {
      CallObserves(w, a);
    }
  }
}
