/**
The whole machine as a sequence of operations, each taken in one step, whichever of its announcements fail and
wherever an exception leaves a handler that it closes. Every run amounts to such a sequence, and every such sequence
is a run.
*/
module LifecycleOutcomes {
  import opened Options
  import opened ConnectorStates
  import opened Lifecycle
  import opened LifecycleInvariant
  import opened LifecycleAtomic
  import opened LifecycleTheorems
  import opened LifecycleRuns

  /** Where an operation leaves the client, and whether it ends in an exception. */
  datatype Outcome = Outcome(client: Client, threw: bool)

  /**
  How far a teardown gets: to its end, or to an exception out of a handler or the connection; `closed` went before.
  */
  datatype Reach = Whole | TrackThrows(closed: set<string>) | ChannelThrows(closed: set<string>) | PcThrows

  /** How an operation goes: the states whose announcements fail, and how far a teardown in it gets. */
  datatype Course = Course(failing: set<State>, reach: Reach)

  const FINE := Course({}, Whole)

  /** The connection is given up exactly by a teardown that gets to its end, and is as it was otherwise. */
  predicate PcAfter(c: Client, reach: Reach, c': Client) {
    && (c'.pc == c.pc || c'.pc.None?) && |c'.pcs| == |c.pcs|
    && (c'.pc.None? <==> c.pc.None? || reach.Whole?)
    && (!reach.Whole? ==> c'.pcs == c.pcs)
  }

  function TornPc(c: Client, reach: Reach): (c': Client)
    ensures c'.tracks == c.tracks && c'.channels == c.channels && SameStates(c, c')
    ensures reach.Whole? || reach.PcThrows? ==> PcAfter(c, reach, c')
  {
    if c.pc.None? || reach.PcThrows? then c else Retire(c, c.pc.value, Closed).(pc := None)
  }

  function TornChannels(c: Client, pending: set<string>, reach: Reach): (c': Client)
    ensures c'.tracks == c.tracks && SameStates(c, c')
    ensures !reach.TrackThrows? ==> PcAfter(c, reach, c')
    ensures c'.channels == ClosedChannels(c.channels, if reach.ChannelThrows? then reach.closed else pending)
  {
    if reach.ChannelThrows? then c.(channels := ClosedChannels(c.channels, reach.closed))
    else TornPc(c.(channels := ClosedChannels(c.channels, pending)), reach)
  }

  function TornTracks(c: Client, pending: set<string>, reach: Reach): (c': Client)
    ensures SameStates(c, c') && PcAfter(c, reach, c')
    ensures c'.tracks == ClosedTracks(c.tracks, if reach.TrackThrows? then reach.closed else pending)
    ensures c'.channels
         == if reach.TrackThrows? then c.channels
            else ClosedChannels(c.channels, if reach.ChannelThrows? then reach.closed else c.channels.Keys)
  {
    if reach.TrackThrows? then c.(tracks := ClosedTracks(c.tracks, reach.closed))
    else TornChannels(c.(tracks := ClosedTracks(c.tracks, pending)), c.channels.Keys, reach)
  }

  /** A teardown from its statement `f` up to its last one. */
  function Torn(f: Frame, c: Client, reach: Reach): Client
    requires TearFrame(f)
  {
    match f
    case CloseTracks(pending) => TornTracks(c, pending, reach)
    case CloseChannels(pending) => TornChannels(c, pending, reach)
    case ClosePc => TornPc(c, reach)
    case ReleasePc => c.(pc := None)
    case Notify => c
  }

  /** From its statement `f` on a teardown can get that far, and no farther. */
  predicate CanReach(f: Frame, c: Client, reach: Reach)
    requires TearFrame(f)
  {
    match reach
    case Whole => true
    case TrackThrows(closed) => f.CloseTracks? && closed < f.pending
    case ChannelThrows(closed) =>
      (f.CloseTracks? && closed < c.channels.Keys) || (f.CloseChannels? && closed < f.pending)
    case PcThrows => (f.CloseTracks? || f.CloseChannels? || f.ClosePc?) && c.pc.Some?
  }

  /** `ClosePeerConnection` past its guard and its first announcement. */
  function TornDown(c: Client, reach: Reach): (c': Client)
    ensures PcAfter(c, reach, c')
  {
    SetState(TornTracks(SetState(c, RtcDisconnecting), c.tracks.Keys, reach), ReadyToConnect)
  }

  /** `ClosePeerConnection`. */
  function CloseOutcome(c: Client, course: Course): Outcome {
    if !Active(c.state) then Outcome(c, false)
    else if RtcDisconnecting in course.failing then Outcome(SetState(c, RtcDisconnecting), true)
    else Outcome(TornDown(c, course.reach), ReadyToConnect in course.failing)
  }

  /** `HandleSdpOffer` from its second statement on. */
  function AcceptOutcome(c: Client, offer: nat, creates: bool, failing: set<State>): Outcome {
    if !c.state.ReadyToConnect? then Outcome(c, false)
    else if RtcConnecting in failing then Outcome(SetState(c, RtcConnecting), true)
    else
      var taken := TakeOffer(c, offer, creates);
      Outcome(taken, taken.state.RtcFailed? && RtcFailed in failing)
  }

  /** The connection in the way of an offer is closed first. */
  function ClearOutcome(c: Client, course: Course): Outcome {
    if c.pc.Some? then CloseOutcome(c, course) else Outcome(c, false)
  }

  /** `HandleSdpOffer`. */
  function OfferOutcome(c: Client, offer: nat, creates: bool, course: Course): Outcome {
    var closed := ClearOutcome(c, course);
    if closed.threw then closed else AcceptOutcome(closed.client, offer, creates, course.failing)
  }

  /** `ShuttingDown`. */
  function ShutdownOutcome(c: Client, failing: set<State>): Outcome {
    var announced := SetState(c, Disconnected);
    if Disconnected in failing then Outcome(announced, true)
    else Outcome(DroppedAll(announced.(signalingClient := false)), false)
  }

  /** `OnConnectionChange`. */
  function ChangeOutcome(c: Client, change: PcChange, course: Course): Outcome {
    if change.PcConnected? then Outcome(SetState(c, RtcConnected), RtcConnected in course.failing)
    else if ClosingChange(change) then CloseOutcome(c, course)
    else Outcome(c, false)
  }

  /** A whole operation, or a callback, that goes as `course` says. */
  function OpOutcome(c: Client, a: Action, course: Course): Client {
    match a
    case Offer(offer, creates) => OfferOutcome(c, offer, creates, course).client
    case CloseMessage => CloseOutcome(c, course).client
    case ConnectionChange(_, change) => ChangeOutcome(c, change, course).client
    case Shutdown => ShutdownOutcome(c, course.failing).client
    case _ => AtomicStep(c, a)
  }

  /** The operation can start, and go so. The run ends when the announcement of a callback fails. */
  predicate Possible(c: Client, a: Action, course: Course) {
    && Enabled(World(c, Idle), a) && !a.AnnounceFails?
    && CanReach(CloseTracks(c.tracks.Keys), c, course.reach)
    && (a.ConnectionChange? ==> RtcDisconnecting !in course.failing && RtcConnected !in course.failing)
  }

  /** The operations `ops`, one after the other, each as its course says, lead from one client to the other. */
  predicate Follows(c: Client, ops: seq<Action>, courses: seq<Course>, c': Client)
    decreases |ops|
  {
    && |ops| == |courses|
    && if ops == [] then c' == c
       else Possible(c, ops[0], courses[0]) && Follows(OpOutcome(c, ops[0], courses[0]), ops[1..], courses[1..], c')
  }

  /** The operation that an action starts: one whose first announcement fails is still that operation. */
  function Started(a: Action): Action {
    if a.AnnounceFails? then a.of else a
  }

  /** The operations of a run, without their further statements and the callbacks nested into them. */
  function Operations(w: World, acts: seq<Action>): seq<Action>
    decreases |acts|
  {
    if acts == [] then []
    else (if Quiet(w) then [Started(acts[0])] else []) + Operations(Step(w, acts[0]), acts[1..])
  }

  /** The handlers a teardown that gets so far has closed: those before the exception, and no other. */
  predicate ClosedBefore(c: Client, reach: Reach, c': Client) {
    && c'.tracks.Keys == c.tracks.Keys && c'.channels.Keys == c.channels.Keys
    && (forall n :: n in c.tracks ==>
          c'.tracks[n] == if reach.TrackThrows? && n !in reach.closed then c.tracks[n] else CloseTrack(c.tracks[n]))
    && (forall l :: l in c.channels ==>
          c'.channels[l] == if reach.TrackThrows? || (reach.ChannelThrows? && l !in reach.closed) then c.channels[l]
                            else CloseBinding(c.channels[l]))
  }

  /**
  What a teardown has done that an exception has cut short: READY_TO_CONNECT is announced all the same, the connection
  is held and as it was, and exactly the handlers before the exception are closed.
  */
  lemma CutTeardownEffect(c: Client, reach: Reach)
    ensures var c' := TornDown(c, reach);
      && c'.state.ReadyToConnect? && c'.emitted == c.emitted + [RtcDisconnecting, ReadyToConnect]
      && (c'.pc.None? <==> c.pc.None? || reach.Whole?)
      && (!reach.Whole? ==> c'.pc == c.pc && c'.pcs == c.pcs)
      && ClosedBefore(c, reach, c')
  {
  }

  lemma WholePc(c: Client)
    ensures SetState(TornPc(c, Whole), ReadyToConnect) == FinishPc(c)
  {
  }

  lemma WholeTeardown(c: Client)
    ensures TornDown(c, Whole) == Teardown(c)
  {
    var closing := SetState(c, RtcDisconnecting);
    WholePc(closing.(tracks := ClosedTracks(c.tracks, c.tracks.Keys),
                     channels := ClosedChannels(c.channels, c.channels.Keys)));
  }

  lemma WholeFrame(f: Frame, c: Client)
    requires TearFrame(f)
    ensures SetState(Torn(f, c, Whole), ReadyToConnect) == FinishFrame(f, c)
  {
    match f
    case CloseTracks(pending) =>
      WholePc(c.(tracks := ClosedTracks(c.tracks, pending), channels := ClosedChannels(c.channels, c.channels.Keys)));
    case CloseChannels(pending) => WholePc(c.(channels := ClosedChannels(c.channels, pending)));
    case ClosePc => WholePc(c);
    case _ =>
  }

  /** When nothing fails, the outcomes are the atomic steps of the machine. */
  lemma CloseIsAtomic(c: Client)
    ensures AtomicStep(c, CloseMessage) == CloseOutcome(c, FINE).client
  {
    if Active(c.state) {
      var f, closing := CloseTracks(c.tracks.Keys), SetState(c, RtcDisconnecting);
      assert Complete(closing, Running(f, Idle)) == Complete(FinishFrame(f, closing), Idle);
      WholeTeardown(c);
    }
  }

  lemma ShutdownIsAtomic(c: Client)
    ensures AtomicStep(c, Shutdown) == ShutdownOutcome(c, {}).client
  {
    var announced := SetState(c, Disconnected);
    assert Complete(announced, Running(StopSignalingServer, Idle)) == FinishFrame(StopSignalingServer, announced);
  }

  lemma OfferOutcomeIsAtomic(c: Client, offer: nat, creates: bool)
    ensures AtomicStep(c, Offer(offer, creates)) == OfferOutcome(c, offer, creates, FINE).client
  {
    OfferIsAtomic(c, offer, creates);
    WholeTeardown(c);
    var free := Cleared(c);
    assert OfferOutcome(c, offer, creates, FINE) == AcceptOutcome(free, offer, creates, {});
    assert AcceptOutcome(free, offer, creates, {}).client == TakeOffer(free, offer, creates);
  }

  lemma ChangeIsAtomic(c: Client, from: nat, change: PcChange)
    ensures AtomicStep(c, ConnectionChange(from, change)) == ChangeOutcome(c, change, FINE).client
  {
    CloseIsAtomic(c);
    assert ClosingChange(change) ==> AtomicStep(c, ConnectionChange(from, change)) == AtomicStep(c, CloseMessage);
  }

  // Every run amounts to a sequence of operations.

  /** What waits for a teardown, or runs without one, once its turn comes. */
  function Goes(f: Frame, c: Client, failing: set<State>): Client {
    if f.OfferCheck? then AcceptOutcome(c, f.offer, f.creates, failing).client else FinishFrame(f, c)
  }

  /** Where the operation in progress leads when the rest of it goes as `course` says. */
  function Ends(w: World, course: Course): Client {
    if Quiet(w) then w.client
    else if !TearFrame(w.stack.top) then Goes(w.stack.top, w.client, course.failing)
    else
      var torn := SetState(Torn(w.stack.top, w.client, course.reach), ReadyToConnect);
      if w.stack.below.Idle? || ReadyToConnect in course.failing then torn
      else Goes(w.stack.below.top, torn, course.failing)
  }

  predicate CanEnd(w: World, course: Course) {
    InTeardown(w) ==> CanReach(w.stack.top, w.client, course.reach)
  }

  /** The same exception, seen after one more handler has been closed. */
  function After(f: Frame, key: string, reach: Reach): Reach {
    if f.CloseTracks? && reach.TrackThrows? then TrackThrows(reach.closed - {key})
    else if f.CloseChannels? && reach.ChannelThrows? then ChannelThrows(reach.closed - {key})
    else reach
  }

  /** And seen before that. */
  function Before(f: Frame, key: string, reach: Reach): Reach {
    if f.CloseTracks? && reach.TrackThrows? then TrackThrows(reach.closed + {key})
    else if f.CloseChannels? && reach.ChannelThrows? then ChannelThrows(reach.closed + {key})
    else reach
  }

  /** The statement runs to its end on the way to that exception. */
  predicate OnTheWay(f: Frame, key: string, reach: Reach) {
    && (f.CloseTracks? && reach.TrackThrows? ==> key in reach.closed)
    && (f.CloseChannels? && reach.ChannelThrows? ==> key in reach.closed)
    && !(f.ClosePc? && reach.PcThrows?)
  }

  lemma OneLess(closed: set<string>, pending: set<string>, key: string)
    requires closed < pending && key in closed
    ensures closed - {key} < pending - {key}
  {
    var other :| other in pending && other !in closed;
    assert other in pending - {key} && other !in closed - {key};
  }

  lemma TracksTorn(f: Frame, key: string, c: Client, reach: Reach)
    requires f.CloseTracks? && f.pending <= c.tracks.Keys && (f.pending != {} ==> key in f.pending)
    requires CanReach(f, c, reach) && OnTheWay(f, key, reach)
    ensures var ran := RunTear(f, key, c);
      && ran.next.Some? && TearFrame(ran.next.value) && CanReach(ran.next.value, ran.client, After(f, key, reach))
      && Torn(ran.next.value, ran.client, After(f, key, reach)) == Torn(f, c, reach)
  {
    if f.pending == {} {
      NoneLeft(c);
    } else {
      if reach.TrackThrows? {
        OneLess(reach.closed, f.pending, key);
      }
      CloseOneTrack(c.tracks, if reach.TrackThrows? then reach.closed else f.pending, key);
    }
  }

  lemma ChannelsTorn(f: Frame, key: string, c: Client, reach: Reach)
    requires f.CloseChannels? && f.pending <= c.channels.Keys && (f.pending != {} ==> key in f.pending)
    requires CanReach(f, c, reach) && OnTheWay(f, key, reach)
    ensures var ran := RunTear(f, key, c);
      && ran.next.Some? && TearFrame(ran.next.value) && CanReach(ran.next.value, ran.client, After(f, key, reach))
      && Torn(ran.next.value, ran.client, After(f, key, reach)) == Torn(f, c, reach)
  {
    if f.pending == {} {
      NoneLeft(c);
    } else {
      if reach.ChannelThrows? {
        OneLess(reach.closed, f.pending, key);
      }
      CloseOneChannel(c.channels, if reach.ChannelThrows? then reach.closed else f.pending, key);
    }
  }

  /** One statement of a teardown does not change what the teardown comes to. */
  lemma StatementTorn(w: World, key: string, reach: Reach)
    requires Always(w) && InTeardown(w) && !w.stack.top.Notify? && Enabled(w, Continue(key))
    requires CanReach(w.stack.top, w.client, reach) && OnTheWay(w.stack.top, key, reach)
    ensures var ran := RunFrame(w.stack.top, key, w.client); var reach' := After(w.stack.top, key, reach);
      && ran.next.Some? && TearFrame(ran.next.value) && CanReach(ran.next.value, ran.client, reach')
      && Torn(ran.next.value, ran.client, reach') == Torn(w.stack.top, w.client, reach)
  {
    var f := w.stack.top;
    if f.CloseTracks? {
      TracksTorn(f, key, w.client, reach);
    } else if f.CloseChannels? {
      ChannelsTorn(f, key, w.client, reach);
    }
  }

  lemma TeardownStatementBack(w: World, key: string, after: Course) returns (course: Course)
    requires Always(w) && InTeardown(w) && !w.stack.top.Notify? && Enabled(w, Continue(key))
    requires CanEnd(Step(w, Continue(key)), after)
    ensures CanEnd(w, course) && Ends(w, course) == Ends(Step(w, Continue(key)), after)
  {
    var f := w.stack.top;
    var reach := Before(f, key, after.reach);
    course := after.(reach := reach);
    var ran := RunFrame(f, key, w.client);
    assert ran.next.Some? && TearFrame(ran.next.value);
    assert Step(w, Continue(key)) == World(ran.client, Running(ran.next.value, w.stack.below));
    assert CanReach(f, w.client, reach) && OnTheWay(f, key, reach) && After(f, key, reach) == after.reach;
    StatementTorn(w, key, reach);
  }

  /** How a teardown goes, seen from one of its steps before. */
  lemma TeardownStepBack(w: World, a: Action, after: Course) returns (course: Course)
    requires Always(w) && InTeardown(w) && !w.stack.top.Notify? && Enabled(w, a) && CanEnd(Step(w, a), after)
    ensures CanEnd(w, course) && Ends(w, course) == Ends(Step(w, a), after)
  {
    var f := w.stack.top;
    if a.Continue? {
      course := TeardownStatementBack(w, a.key, after);
    } else if a.ConnectionChange? {
      NestedCallbackIsNoOp(w, a);
      course := after;
    } else {
      course := after.(reach :=
        if f.CloseTracks? then TrackThrows({}) else if f.CloseChannels? then ChannelThrows({}) else PcThrows);
      NoneLeft(w.client);
    }
  }

  /** The same for the last statement of a teardown, which nothing but a failing announcement keeps from its end. */
  lemma NotifyStepBack(w: World, a: Action, after: Course) returns (course: Course)
    requires Always(w) && InTeardown(w) && w.stack.top.Notify? && Enabled(w, a) && CanEnd(Step(w, a), after)
    ensures CanEnd(w, course) && Ends(w, course) == Ends(Step(w, a), after)
  {
    if a.ConnectionChange? {
      course := after;
    } else if a.Continue? {
      course := Course(after.failing - {ReadyToConnect}, Whole);
    } else {
      course := Course({ReadyToConnect}, Whole);
    }
  }

  /** For an offer about to be accepted, whose announcement decides. */
  lemma CheckStepBack(w: World, a: Action, after: Course) returns (course: Course)
    requires Always(w) && !Quiet(w) && w.stack.top.OfferCheck? && Enabled(w, a)
    ensures Ends(w, course) == Ends(Step(w, a), after)
  {
    if a.Continue? {
      course := FINE;
      TopTowardsEnd(w, a.key);
    } else {
      course := Course({RtcConnecting}, Whole);
    }
  }

  /** Every other statement is followed by one of the same kind. */
  lemma OtherStatement(f: Frame, key: string, c: Client)
    requires !TearFrame(f) && !f.OfferCheck?
    ensures var next := RunFrame(f, key, c).next; next.Some? ==> !TearFrame(next.value) && !next.value.OfferCheck?
  {
  }

  /** And for every other statement, after which nothing can happen that makes a difference. */
  lemma OtherStepBack(w: World, a: Action, after: Course)
    requires Always(w) && !Quiet(w) && !InTeardown(w) && !w.stack.top.OfferCheck? && Enabled(w, a)
    ensures Ends(w, after) == Ends(Step(w, a), after)
  {
    var f := w.stack.top;
    if a.ConnectionChange? {
      NestedCallbackIsNoOp(w, a);
    } else if a.Continue? {
      TopTowardsEnd(w, a.key);
      OtherStatement(f, a.key, w.client);
      var ran := RunFrame(f, a.key, w.client);
      assert Step(w, a) == World(ran.client, if ran.next.Some? then Running(ran.next.value, Idle) else Idle);
    } else {
      assert f.InitReady? || f.OfferFailed?;
    }
  }

  lemma StepBack(w: World, a: Action, after: Course) returns (course: Course)
    requires Always(w) && !Quiet(w) && Enabled(w, a) && CanEnd(Step(w, a), after)
    ensures CanEnd(w, course) && Ends(w, course) == Ends(Step(w, a), after)
  {
    if w.stack.top.OfferCheck? {
      course := CheckStepBack(w, a, after);
    } else if !InTeardown(w) {
      OtherStepBack(w, a, after);
      course := after;
    } else if w.stack.top.Notify? {
      course := NotifyStepBack(w, a, after);
    } else {
      course := TeardownStepBack(w, a, after);
    }
  }

  /** How an offer goes as a whole, seen from its first step. */
  lemma OfferFirstBack(w: World, a: Action, after: Course) returns (course: Course)
    requires Always(w) && Quiet(w) && a.Offer? && Enabled(w, a) && CanEnd(Step(w, a), after)
    ensures Possible(w.client, a, course) && OpOutcome(w.client, a, course) == Ends(Step(w, a), after)
  {
    assert w == World(w.client, Idle);
    var c := w.client;
    if c.pc.Some? && Active(c.state) {
      course := Course(after.failing - {RtcDisconnecting}, after.reach);
      assert CloseOutcome(c, course).client == TornDown(c, after.reach);
    } else {
      course := Course(after.failing, Whole);
      assert OpOutcome(c, a, course) == AcceptOutcome(c, a.offer, a.creates, after.failing).client;
    }
  }

  lemma CloseFirstBack(w: World, a: Action, after: Course) returns (course: Course)
    requires Always(w) && Quiet(w) && (a.CloseMessage? || a.ConnectionChange?)
    requires Enabled(w, a) && CanEnd(Step(w, a), after)
    ensures Possible(w.client, a, course) && OpOutcome(w.client, a, course) == Ends(Step(w, a), after)
  {
    assert w == World(w.client, Idle);
    var reach := if InTeardown(Step(w, a)) then after.reach else Whole;
    course := Course(after.failing - {RtcDisconnecting, RtcConnected}, reach);
  }

  lemma FailedFirstBack(w: World, a: Action, after: Course) returns (course: Course)
    requires Always(w) && Quiet(w) && a.AnnounceFails? && Enabled(w, a)
    ensures Possible(w.client, a.of, course) && OpOutcome(w.client, a.of, course) == Ends(Step(w, a), after)
  {
    assert w == World(w.client, Idle);
    assert a.of.Offer? || a.of.CloseMessage? || a.of.Shutdown?;
    course := Course({Announced(w, a.of).value}, Whole);
  }

  /** Operations of one statement, and the initialisation, go in one way only. */
  lemma SingleFirstBack(w: World, a: Action, after: Course)
    requires Always(w) && Quiet(w) && Enabled(w, a)
    requires !a.AnnounceFails? && !a.Shutdown? && !a.Offer? && !a.CloseMessage? && !a.ConnectionChange?
    ensures Possible(w.client, a, FINE) && OpOutcome(w.client, a, FINE) == Ends(Step(w, a), after)
  {
    assert w == World(w.client, Idle);
    if a.Initialize? {
      var f, started := InitWorker(a.factoryOk), w.client.(network := true);
      assert Step(w, a) == World(started, Running(f, Idle));
      assert Complete(started, Running(f, Idle)) == Complete(FinishFrame(f, started), Idle);
    } else {
      assert Quiet(Step(w, a));
    }
  }

  /** How an operation goes as a whole, seen from its first step. */
  lemma FirstStepBack(w: World, a: Action, after: Course) returns (course: Course)
    requires Always(w) && Quiet(w) && Enabled(w, a) && CanEnd(Step(w, a), after)
    ensures Possible(w.client, Started(a), course)
    ensures OpOutcome(w.client, Started(a), course) == Ends(Step(w, a), after)
  {
    if a.AnnounceFails? {
      course := FailedFirstBack(w, a, after);
    } else if a.Shutdown? {
      assert w == World(w.client, Idle);
      course := FINE;
      ShutdownIsAtomic(w.client);
    } else if a.Offer? {
      course := OfferFirstBack(w, a, after);
    } else if a.CloseMessage? || a.ConnectionChange? {
      course := CloseFirstBack(w, a, after);
    } else {
      course := FINE;
      SingleFirstBack(w, a, after);
    }
  }

  lemma FineEnd(w: World)
    requires Always(w)
    ensures CanEnd(w, FINE) && Ends(w, FINE) == CompleteWorld(w)
  {
    if !Quiet(w) {
      var f, below := w.stack.top, w.stack.below;
      var c := FinishFrame(f, w.client);
      assert CompleteWorld(w) == Complete(c, below);
      if TearFrame(f) {
        WholeFrame(f, w.client);
      }
      if !below.Idle? {
        assert Complete(c, below) == Complete(FinishFrame(below.top, c), below.below);
      }
    }
  }

  /**
  The reduction theorem for all runs. Take any legal run whatsoever: callbacks nested into teardowns, handlers that
  throw, announcements that fail. Once the operation it stops in has been completed, it has reached the very state
  reached by its operations one after the other, each in one step that goes in one of the ways in which such an
  operation can go.
  */
  lemma {:induction false} RunFollows(w: World, acts: seq<Action>) returns (course: Course, courses: seq<Course>)
    requires Always(w) && Legal(w, acts)
    ensures CanEnd(w, course)
    ensures Follows(Ends(w, course), Operations(w, acts), courses, CompleteWorld(Exec(w, acts)))
    decreases |acts|
  {
    if acts == [] {
      course, courses := FINE, [];
      FineEnd(w);
    } else {
      var a, after := acts[0], FINE;
      StepKeepsAlways(w, a);
      after, courses := RunFollows(Step(w, a), acts[1..]);
      if Quiet(w) {
        var first := FirstStepBack(w, a, after);
        var ops := Operations(Step(w, a), acts[1..]);
        assert Operations(w, acts) == [Started(a)] + ops;
        assert ([Started(a)] + ops)[1..] == ops && ([first] + courses)[1..] == courses;
        course, courses := FINE, [first] + courses;
      } else {
        course := StepBack(w, a, after);
        assert Operations(w, acts) == Operations(Step(w, a), acts[1..]);
      }
    }
  }

  /** In particular from the start. */
  lemma EveryRunFollows(acts: seq<Action>) returns (courses: seq<Course>)
    requires Legal(Initial(), acts)
    ensures Follows(Initial().client, Operations(Initial(), acts), courses, CompleteWorld(Exec(Initial(), acts)))
  {
    InitialIsGood();
    var _, found := RunFollows(Initial(), acts);
    courses := found;
  }

  // And every sequence of operations is a run.

  /** What happens inside an operation. */
  predicate Inner(a: Action) {
    a.Continue? || a.HandlerThrows? || (a.AnnounceFails? && a.of.Continue?)
  }

  predicate AllInner(acts: seq<Action>) {
    forall a :: a in acts ==> Inner(a)
  }

  /** One statement of the operation on top, and what is left of it. */
  lemma OneStatement(w: World) returns (key: string)
    requires Always(w) && !Quiet(w)
    ensures Enabled(w, Continue(key)) && Always(RunTop(w, key)) && Closer(RunTop(w, key), w)
    ensures var ran := RunFrame(w.stack.top, key, w.client);
      && RunTop(w, key)
         == World(ran.client, if ran.next.Some? then Running(ran.next.value, w.stack.below) else w.stack.below)
      && Rest(ran) == FinishFrame(w.stack.top, w.client)
  {
    key := CanGoOn(w);
    StepKeepsAlways(w, Continue(key));
    StatementGetsCloser(w, key);
    TopTowardsEnd(w, key);
    if w.stack.top.ShutClose? {
      assert !Active(w.client.state);
    }
  }

  /** The operation on top can run to its end, where `FinishFrame` says. */
  lemma {:induction false} TopEnds(w: World) returns (acts: seq<Action>)
    requires Always(w) && !Quiet(w)
    ensures AllInner(acts) && Leads(w, acts, World(FinishFrame(w.stack.top, w.client), w.stack.below))
    decreases Left(w.stack.top, w.client)
  {
    var key := OneStatement(w);
    var next := RunTop(w, key);
    if RunFrame(w.stack.top, key, w.client).next.None? {
      acts := [Continue(key)];
      assert acts[1..] == [];
      LeadsFirst(w, acts, next);
    } else {
      var rest := TopEnds(next);
      acts := [Continue(key)] + rest;
      assert acts[1..] == rest;
      LeadsFirst(w, acts, World(FinishFrame(w.stack.top, w.client), w.stack.below));
    }
  }

  /** An action and the run after it. */
  lemma LeadsOn(w: World, a: Action, rest: seq<Action>, w': World) returns (acts: seq<Action>)
    requires Enabled(w, a) && Leads(Step(w, a), rest, w')
    ensures acts == [a] + rest && Leads(w, acts, w')
  {
    acts := [a] + rest;
    assert acts[1..] == rest;
    LeadsFirst(w, acts, w');
  }

  /** The next statement of a teardown is the one that ends in the exception. */
  predicate ThrowsNow(f: Frame, reach: Reach) {
    || (f.CloseTracks? && reach == TrackThrows({}))
    || (f.CloseChannels? && reach == ChannelThrows({}))
    || (f.ClosePc? && reach.PcThrows?)
  }

  /** Otherwise a handler can be closed on the way to it. */
  lemma NextOnTheWay(w: World, reach: Reach) returns (key: string)
    requires Always(w) && InTeardown(w) && CanReach(w.stack.top, w.client, reach) && !ThrowsNow(w.stack.top, reach)
    ensures Enabled(w, Continue(key)) && OnTheWay(w.stack.top, key, reach)
  {
    var f := w.stack.top;
    if f.CloseTracks? && reach.TrackThrows? {
      key :| key in reach.closed;
    } else if f.CloseChannels? && reach.ChannelThrows? {
      key :| key in reach.closed;
    } else {
      key := CanGoOn(w);
    }
  }

  /** A teardown can run to its last statement in every way in which it can go. */
  lemma {:induction false} TeardownNotifies(w: World, reach: Reach) returns (acts: seq<Action>)
    requires Always(w) && InTeardown(w) && CanReach(w.stack.top, w.client, reach)
    ensures AllInner(acts)
    ensures Leads(w, acts, World(Torn(w.stack.top, w.client, reach), Running(Notify, w.stack.below)))
    decreases Left(w.stack.top, w.client)
  {
    var f := w.stack.top;
    var end := World(Torn(f, w.client, reach), Running(Notify, w.stack.below));
    if f.Notify? {
      acts := [];
    } else if ThrowsNow(f, reach) {
      NoneLeft(w.client);
      acts := LeadsOn(w, HandlerThrows, [], end);
    } else {
      var key := NextOnTheWay(w, reach);
      StatementTorn(w, key, reach);
      StatementGetsCloser(w, key);
      StepKeepsAlways(w, Continue(key));
      var rest := TeardownNotifies(RunTop(w, key), After(f, key, reach));
      acts := LeadsOn(w, Continue(key), rest, end);
    }
  }

  /** From an offer's own first statement, and from any statement outside a teardown. */
  lemma GoesReached(w: World, failing: set<State>) returns (acts: seq<Action>)
    requires Always(w) && !Quiet(w) && !InTeardown(w)
    ensures AllInner(acts) && Leads(w, acts, World(Goes(w.stack.top, w.client, failing), Idle))
  {
    if w.stack.top.OfferCheck? && w.client.state.ReadyToConnect? && RtcConnecting in failing {
      acts := LeadsOn(w, AnnounceFails(Continue("")), [], Step(w, AnnounceFails(Continue(""))));
    } else {
      acts := TopEnds(w);
    }
  }

  /** The operation in progress can end in every way in which it can go. */
  lemma EndReached(w: World, course: Course) returns (acts: seq<Action>)
    requires Always(w) && CanEnd(w, course)
    ensures AllInner(acts) && Leads(w, acts, World(Ends(w, course), Idle))
  {
    var end := World(Ends(w, course), Idle);
    if Quiet(w) {
      acts := [];
    } else if !InTeardown(w) {
      acts := GoesReached(w, course.failing);
    } else {
      var almost := World(Torn(w.stack.top, w.client, course.reach), Running(Notify, w.stack.below));
      var first := TeardownNotifies(w, course.reach);
      RunKeepsAlways(w, first);
      var last := NotifiedEnds(almost, course.failing);
      LeadsThen(w, first, almost, last, end);
      acts := first + last;
    }
  }

  lemma NotifiedEnds(w: World, failing: set<State>) returns (acts: seq<Action>)
    requires Always(w) && InTeardown(w) && w.stack.top.Notify?
    ensures AllInner(acts) && Leads(w, acts, World(Ends(w, Course(failing, Whole)), Idle))
  {
    var end := World(Ends(w, Course(failing, Whole)), Idle);
    if w.stack.below.Idle? {
      acts := LeadsOn(w, Continue(""), [], end);
    } else if ReadyToConnect in failing {
      acts := LeadsOn(w, AnnounceFails(Continue("")), [], end);
    } else {
      StepKeepsAlways(w, Continue(""));
      var rest := GoesReached(Step(w, Continue("")), failing);
      acts := LeadsOn(w, Continue(""), rest, end);
    }
  }

  /** The first action of an operation that goes as `course` says. */
  function FirstAction(c: Client, a: Action, course: Course): Action {
    var s := Announced(World(c, Idle), a);
    if s.Some? && s.value in course.failing && !a.ConnectionChange? then AnnounceFails(a) else a
  }

  lemma OfferFirstEnds(c: Client, a: Action, course: Course)
    requires Always(World(c, Idle)) && Possible(c, a, course) && a.Offer? && FirstAction(c, a, course) == a
    ensures CanEnd(Step(World(c, Idle), a), course) && Ends(Step(World(c, Idle), a), course) == OpOutcome(c, a, course)
  {
    if c.pc.Some? && Active(c.state) {
      assert CloseOutcome(c, course).client == TornDown(c, course.reach);
    }
  }

  lemma FirstEnds(c: Client, a: Action, course: Course)
    requires Always(World(c, Idle)) && Possible(c, a, course) && FirstAction(c, a, course) == a
    ensures CanEnd(Step(World(c, Idle), a), course) && Ends(Step(World(c, Idle), a), course) == OpOutcome(c, a, course)
  {
    if a.Offer? {
      OfferFirstEnds(c, a, course);
    } else if !a.CloseMessage? && !a.ConnectionChange? && !a.Shutdown? {
      SingleFirstBack(World(c, Idle), a, course);
    }
  }

  lemma FirstActionEnds(c: Client, a: Action, course: Course)
    requires Always(World(c, Idle)) && Possible(c, a, course)
    ensures var w, first := World(c, Idle), FirstAction(c, a, course);
      && Enabled(w, first) && Started(first) == a && CanEnd(Step(w, first), course)
      && Ends(Step(w, first), course) == OpOutcome(c, a, course)
  {
    if FirstAction(c, a, course) == a {
      FirstEnds(c, a, course);
    }
  }

  lemma {:induction false} InnerStartsNothing(w: World, acts: seq<Action>)
    requires Legal(w, acts) && AllInner(acts)
    ensures Operations(w, acts) == []
    decreases |acts|
  {
    if acts != [] {
      assert acts[0] in acts && !Quiet(w);
      InnerStartsNothing(Step(w, acts[0]), acts[1..]);
    }
  }

  /** The machine can take every operation in every way in which it can go. */
  lemma OutcomeReached(c: Client, a: Action, course: Course) returns (acts: seq<Action>)
    requires Always(World(c, Idle)) && Possible(c, a, course)
    ensures Leads(World(c, Idle), acts, World(OpOutcome(c, a, course), Idle))
    ensures Operations(World(c, Idle), acts) == [a]
  {
    var w, first := World(c, Idle), FirstAction(c, a, course);
    FirstActionEnds(c, a, course);
    StepKeepsAlways(w, first);
    var rest := EndReached(Step(w, first), course);
    acts := LeadsOn(w, first, rest, World(OpOutcome(c, a, course), Idle));
    InnerStartsNothing(Step(w, first), rest);
    assert acts[1..] == rest;
  }

  lemma {:induction false} OperationsThen(w: World, acts: seq<Action>, more: seq<Action>)
    ensures Operations(w, acts + more) == Operations(w, acts) + Operations(Exec(w, acts), more)
    decreases |acts|
  {
    if acts == [] {
      assert acts + more == more;
    } else {
      var all := acts + more;
      assert all[0] == acts[0] && all[1..] == acts[1..] + more;
      OperationsThen(Step(w, acts[0]), acts[1..], more);
    }
  }

  /**
  The other half: every sequence of operations, each of which goes in one of its ways, is what some run amounts to.
  */
  lemma {:induction false} FollowedByRun(c: Client, ops: seq<Action>, courses: seq<Course>, c': Client)
    returns (acts: seq<Action>)
    requires Always(World(c, Idle)) && Follows(c, ops, courses, c')
    ensures Leads(World(c, Idle), acts, World(c', Idle)) && Operations(World(c, Idle), acts) == ops
    decreases |ops|
  {
    if ops == [] {
      acts := [];
    } else {
      var w, next := World(c, Idle), OpOutcome(c, ops[0], courses[0]);
      var first := OutcomeReached(c, ops[0], courses[0]);
      RunKeepsAlways(w, first);
      var rest := FollowedByRun(next, ops[1..], courses[1..], c');
      LeadsThen(w, first, World(next, Idle), rest, World(c', Idle));
      OperationsThen(w, first, rest);
      acts := first + rest;
    }
  }
}
