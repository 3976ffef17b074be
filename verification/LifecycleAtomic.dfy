/**
Operations seen as single steps. `Complete` says what an interrupted operation amounts to once it has run to its end;
the reduction theorem says that however closing callbacks are nested into running operations, the outcome is that of
the top-level operations run one after the other, each in one step.
*/
module LifecycleAtomic {
  import opened Options
  import opened ConnectorStates
  import opened Lifecycle
  import opened LifecycleInvariant

  function ClosedTracks(tracks: map<string, Track>, pending: set<string>): map<string, Track> {
    map n | n in tracks :: if n in pending then CloseTrack(tracks[n]) else tracks[n]
  }

  function ClosedChannels(channels: map<string, Binding>, pending: set<string>): map<string, Binding> {
    map l | l in channels :: if l in pending then CloseBinding(channels[l]) else channels[l]
  }

  /** From the closing of the peer connection to the end of a teardown. */
  function FinishPc(c: Client): Client {
    SetState(if c.pc.Some? then Retire(c, c.pc.value, Closed).(pc := None) else c, ReadyToConnect)
  }

  /** A whole teardown, for a state in which `ClosePeerConnection` passes its guard. */
  function Teardown(c: Client): Client {
    FinishPc(SetState(c, RtcDisconnecting).(
      tracks := ClosedTracks(c.tracks, c.tracks.Keys),
      channels := ClosedChannels(c.channels, c.channels.Keys)))
  }

  /** What `ClosePeerConnection` comes to. */
  function AfterClose(c: Client): Client {
    if Active(c.state) then Teardown(c) else c
  }

  /** The client once an offer has cleared the connection in its way. */
  function Cleared(c: Client): Client {
    if c.pc.Some? then AfterClose(c) else c
  }

  /** Creating a peer connection for an offer, and what follows when that fails. */
  function FinishMake(c: Client, offer: nat, creates: bool): Client {
    if !c.factory then c.(fault := true)
    else if creates && c.observer.Some? then Created(c, offer, c.observer.value)
    else NotCreated(c)
  }

  function FinishObserver(c: Client, offer: nat, creates: bool): Client {
    FinishMake(c.(observer := Some(c.observersMade), observersMade := c.observersMade + 1), offer, creates)
  }

  /** An offer once no earlier connection is in its way. */
  function TakeOffer(c: Client, offer: nat, creates: bool): Client {
    if c.state.ReadyToConnect? then FinishObserver(SetState(c, RtcConnecting), offer, creates) else c
  }

  /** `DestroyPeerConnectionManager` after its first statement. */
  function Destroyed(c: Client): Client {
    c.(observer := None, factory := false, network := false, worker := false, signalingThread := false)
  }

  function DroppedAll(c: Client): Client {
    Destroyed(if c.pc.Some? then Retire(c, c.pc.value, Dropped).(pc := None) else c)
  }

  /** What is left of the operation whose next statement is `f`. */
  function FinishFrame(f: Frame, c: Client): Client {
    match f
    case InitWorker(ok) => SetState(c.(worker := true, signalingThread := true, factory := ok), ReadyToConnect)
    case InitSignaling(ok) => SetState(c.(signalingThread := true, factory := ok), ReadyToConnect)
    case InitFactory(ok) => SetState(c.(factory := ok), ReadyToConnect)
    case InitReady => SetState(c, ReadyToConnect)
    case CloseTracks(pending) =>
      FinishPc(c.(tracks := ClosedTracks(c.tracks, pending),
                  channels := ClosedChannels(c.channels, c.channels.Keys)))
    case CloseChannels(pending) => FinishPc(c.(channels := ClosedChannels(c.channels, pending)))
    case ClosePc => FinishPc(c)
    case ReleasePc => SetState(c.(pc := None), ReadyToConnect)
    case Notify => SetState(c, ReadyToConnect)
    case OfferCheck(o, ok) => TakeOffer(c, o, ok)
    case OfferObserver(o, ok) => FinishObserver(c, o, ok)
    case OfferMake(o, ok) => FinishMake(c, o, ok)
    case OfferFailed => NotCreated(c)
    case StopSignalingServer => DroppedAll(c.(signalingClient := false))
    case ShutClose => DroppedAll(c)
    case DropPc => DroppedAll(c)
    case DropObserver => Destroyed(c)
    case DropFactory => c.(factory := false, network := false, worker := false, signalingThread := false)
    case StopNetwork => c.(network := false, worker := false, signalingThread := false)
    case StopWorker => c.(worker := false, signalingThread := false)
    case StopSignalingThread => c.(signalingThread := false)
  }

  /** Where the operations on the stack lead when nothing but their own statements runs. */
  function Complete(c: Client, s: Stack): Client
    decreases s
  {
    match s
    case Idle => c
    case Running(f, below) => Complete(FinishFrame(f, c), below)
  }

  function CompleteWorld(w: World): Client {
    Complete(w.client, w.stack)
  }

  /** A whole operation, or a callback, in one step. */
  function AtomicStep(c: Client, a: Action): Client {
    CompleteWorld(Step(World(c, Idle), a))
  }

  function AtomicExec(c: Client, ops: seq<Action>): Client
    decreases |ops|
  {
    if ops == [] then c else AtomicExec(AtomicStep(c, ops[0]), ops[1..])
  }

  /** The actions of a run that start an operation, leaving out its further statements and the nested callbacks. */
  function TopLevel(w: World, acts: seq<Action>): seq<Action>
    decreases |acts|
  {
    if acts == [] then []
    else (if Quiet(w) then [acts[0]] else []) + TopLevel(Step(w, acts[0]), acts[1..])
  }

  lemma CloseOneTrack(tracks: map<string, Track>, pending: set<string>, key: string)
    requires key in pending && pending <= tracks.Keys
    ensures ClosedTracks(tracks[key := CloseTrack(tracks[key])], pending - {key}) == ClosedTracks(tracks, pending)
  {
  }

  lemma CloseOneChannel(channels: map<string, Binding>, pending: set<string>, key: string)
    requires key in pending && pending <= channels.Keys
    ensures ClosedChannels(channels[key := CloseBinding(channels[key])], pending - {key})
         == ClosedChannels(channels, pending)
  {
  }

  lemma NoneLeft(c: Client)
    ensures ClosedTracks(c.tracks, {}) == c.tracks
    ensures ClosedChannels(c.channels, {}) == c.channels
  {
  }

  /** Where an operation leads after one of its statements. */
  function Rest(ran: Ran): Client {
    if ran.next.None? then ran.client else FinishFrame(ran.next.value, ran.client)
  }

  lemma HandlersTowardsEnd(f: Frame, key: string, c: Client)
    requires f.CloseTracks? || f.CloseChannels?
    requires f.CloseTracks? && f.pending != {} ==> key in f.pending && f.pending <= c.tracks.Keys
    requires f.CloseChannels? && f.pending != {} ==> key in f.pending && f.pending <= c.channels.Keys
    ensures Rest(RunFrame(f, key, c)) == FinishFrame(f, c)
  {
    NoneLeft(c);
    if f.pending != {} {
      if f.CloseTracks? {
        CloseOneTrack(c.tracks, f.pending, key);
      } else {
        CloseOneChannel(c.channels, f.pending, key);
      }
    }
  }

  lemma ConnectionTowardsEnd(f: Frame, key: string, c: Client)
    requires f.ClosePc? || f.ReleasePc? || f.Notify?
    ensures Rest(RunFrame(f, key, c)) == FinishFrame(f, c)
  {
    var ran := RunTear(f, key, c);
    if f.ClosePc? {
      assert ran == if c.pc.Some? then Ran(Retire(c, c.pc.value, Closed), Some(ReleasePc)) else Ran(c, Some(Notify));
    }
  }

  lemma OfferTowardsEnd(f: Frame, key: string, c: Client)
    requires OfferFrame(f)
    ensures Rest(RunFrame(f, key, c)) == FinishFrame(f, c)
  {
    var ran := RunOffer(f, c);
    match f
    case OfferCheck(offer, ok) =>
      if c.state.ReadyToConnect? {
        assert ran == Ran(SetState(c, RtcConnecting), Some(OfferObserver(offer, ok)));
      }
    case OfferObserver(offer, ok) =>
      assert ran.next == Some(OfferMake(offer, ok));
    case _ =>
  }

  lemma InitTowardsEnd(f: Frame, key: string, c: Client)
    requires InitFrame(f)
    ensures Rest(RunFrame(f, key, c)) == FinishFrame(f, c)
  {
  }

  lemma DropTowardsEnd(f: Frame, key: string, c: Client)
    requires f.StopSignalingServer? || f.ShutClose? || f.DropPc?
    ensures Rest(RunFrame(f, key, c)) == FinishFrame(f, c)
  {
  }

  lemma StopTowardsEnd(f: Frame, key: string, c: Client)
    requires f.StopNetwork? || f.StopWorker? || f.StopSignalingThread?
    ensures Rest(RunFrame(f, key, c)) == FinishFrame(f, c)
  {
  }

  lemma DestroyTowardsEnd(f: Frame, key: string, c: Client)
    requires DestroyFrame(f)
    ensures Rest(RunFrame(f, key, c)) == FinishFrame(f, c)
  {
    if f.StopNetwork? || f.StopWorker? || f.StopSignalingThread? {
      StopTowardsEnd(f, key, c);
    }
  }

  /** One statement of an operation does not change what the operation comes to. */
  lemma TopTowardsEnd(w: World, key: string)
    requires Always(w) && Enabled(w, Continue(key))
    ensures Rest(RunFrame(w.stack.top, key, w.client)) == FinishFrame(w.stack.top, w.client)
  {
    var f := w.stack.top;
    if f.CloseTracks? || f.CloseChannels? {
      HandlersTowardsEnd(f, key, w.client);
    } else if TearFrame(f) {
      ConnectionTowardsEnd(f, key, w.client);
    } else if OfferFrame(f) {
      OfferTowardsEnd(f, key, w.client);
    } else if InitFrame(f) {
      InitTowardsEnd(f, key, w.client);
    } else if DestroyFrame(f) {
      DestroyTowardsEnd(f, key, w.client);
    } else {
      DropTowardsEnd(f, key, w.client);
    }
  }

  /** One more statement of the running operation does not change where the stack leads. */
  lemma ContinueTowardsEnd(w: World, key: string)
    requires Always(w) && Enabled(w, Continue(key))
    ensures CompleteWorld(Step(w, Continue(key))) == CompleteWorld(w)
  {
    TopTowardsEnd(w, key);
  }

  /** A closing callback that arrives while an operation runs changes nothing at all. */
  lemma NestedCallbackIsNoOp(w: World, a: Action)
    requires Always(w) && Enabled(w, a) && !Quiet(w) && a.ConnectionChange?
    ensures Step(w, a) == w
  {
  }

  /**
  The reduction theorem. Take any run, with closing callbacks nested any number of times at any statement of any
  teardown. Once the operation it stops in has been completed, it has reached the very state reached by its top-level
  operations alone, each taken as one step.
  */
  lemma {:induction false} Reduction(w: World, acts: seq<Action>)
    requires Always(w) && Legal(w, acts) && NoThrow(acts) && AllAnnounced(acts)
    ensures CompleteWorld(Exec(w, acts)) == AtomicExec(CompleteWorld(w), TopLevel(w, acts))
    decreases |acts|
  {
    if acts != [] {
      var a := acts[0];
      var next := Step(w, a);
      StepKeepsAlways(w, a);
      Reduction(next, acts[1..]);
      if Quiet(w) {
        assert w == World(w.client, Idle);
        assert TopLevel(w, acts) == [a] + TopLevel(next, acts[1..]);
      } else {
        assert TopLevel(w, acts) == TopLevel(next, acts[1..]);
        if a.ConnectionChange? {
          NestedCallbackIsNoOp(w, a);
        } else {
          ContinueTowardsEnd(w, a.key);
        }
      }
    }
  }

  /** An upper bound for the number of statements the frame `f` still has to run. */
  function Left(f: Frame, c: Client): nat {
    match f
    case InitWorker(_) => 4
    case InitSignaling(_) => 3
    case InitFactory(_) => 2
    case InitReady => 1
    case CloseTracks(pending) => |pending| + |c.channels.Keys| + 5
    case CloseChannels(pending) => |pending| + 4
    case ClosePc => 3
    case ReleasePc => 2
    case Notify => 1
    case OfferCheck(_, _) => 4
    case OfferObserver(_, _) => 3
    case OfferMake(_, _) => 2
    case OfferFailed => 1
    case StopSignalingServer => 8
    case ShutClose => 7
    case DropPc => 6
    case DropObserver => 5
    case DropFactory => 4
    case StopNetwork => 3
    case StopWorker => 2
    case StopSignalingThread => 1
  }

  lemma TeardownLeavesLess(f: Frame, key: string, c: Client)
    requires TearFrame(f)
    requires (f.CloseTracks? || f.CloseChannels?) && f.pending != {} ==> key in f.pending
    ensures var ran := RunTear(f, key, c);
      ran.next.Some? ==> Left(ran.next.value, ran.client) < Left(f, c)
  {
  }

  lemma OfferLeavesLess(f: Frame, c: Client)
    requires OfferFrame(f)
    ensures var ran := RunOffer(f, c);
      ran.next.Some? ==> Left(ran.next.value, ran.client) < Left(f, c)
  {
  }

  lemma StatementLeavesLess(f: Frame, key: string, c: Client)
    requires (f.CloseTracks? || f.CloseChannels?) && f.pending != {} ==> key in f.pending
    ensures var ran := RunFrame(f, key, c);
      ran.next.Some? ==> Left(ran.next.value, ran.client) < Left(f, c)
  {
    if TearFrame(f) {
      TeardownLeavesLess(f, key, c);
    } else if OfferFrame(f) {
      OfferLeavesLess(f, c);
    }
  }

  function Depth(s: Stack): nat {
    match s
    case Idle => 0
    case Running(_, below) => 1 + Depth(below)
  }

  /** One world is closer to the end of its operations than another. */
  predicate Closer(w': World, w: World) {
    || Depth(w'.stack) < Depth(w.stack)
    || (Depth(w'.stack) == Depth(w.stack) && !Quiet(w') && !Quiet(w)
        && Left(w'.stack.top, w'.client) < Left(w.stack.top, w.client))
  }

  lemma StatementGetsCloser(w: World, key: string)
    requires Always(w) && Enabled(w, Continue(key))
    ensures Closer(RunTop(w, key), w)
  {
    var f := w.stack.top;
    StatementLeavesLess(f, key, w.client);
    if f.ShutClose? {
      assert !Active(w.client.state);
    }
  }

  /** The running operation can go on. */
  lemma CanGoOn(w: World) returns (key: string)
    requires Always(w) && !Quiet(w)
    ensures Enabled(w, Continue(key))
  {
    key := "";
    if (w.stack.top.CloseTracks? || w.stack.top.CloseChannels?) && w.stack.top.pending != {} {
      key :| key in w.stack.top.pending;
    }
  }

  /** It then gets closer to its end. */
  lemma Progress(w: World) returns (key: string)
    requires Always(w) && !Quiet(w)
    ensures Enabled(w, Continue(key)) && Always(Step(w, Continue(key)))
    ensures CompleteWorld(Step(w, Continue(key))) == CompleteWorld(w)
    ensures Closer(Step(w, Continue(key)), w)
  {
    key := CanGoOn(w);
    StepKeepsAlways(w, Continue(key));
    ContinueTowardsEnd(w, key);
    StatementGetsCloser(w, key);
  }

  /** Every operation ends, by its own statements alone, where `Complete` says. */
  lemma {:induction false} OperationEnds(w: World) returns (acts: seq<Action>)
    requires Always(w)
    ensures Legal(w, acts) && (forall a :: a in acts ==> a.Continue?)
    ensures Exec(w, acts) == World(CompleteWorld(w), Idle)
    decreases Depth(w.stack), if Quiet(w) then 0 else Left(w.stack.top, w.client)
  {
    if Quiet(w) {
      acts := [];
      assert w == World(w.client, Idle);
    } else {
      var key := Progress(w);
      var rest := OperationEnds(Step(w, Continue(key)));
      acts := [Continue(key)] + rest;
      assert acts[1..] == rest;
    }
  }
}
