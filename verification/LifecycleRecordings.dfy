/**
The lifecycle and the recordings together. Every registered media track handler has a recording of its own, started and
stopped by its owner at any time; a teardown closes the handlers, and closing one stops its recording.
*/
module LifecycleRecordings {
  import opened Lifecycle
  import opened LifecycleInvariant
  import opened LifecycleAtomic
  import opened LifecycleTheorems
  import Recorder

  /** A world of the lifecycle with the recording of each track handler. */
  datatype Joint = Joint(world: World, recordings: map<string, Recorder.Handler>)

  /** A step of the lifecycle, or a call of a handler's owner or of a frame source. */
  datatype Event = Takes(action: Action) | Calls(name: string, call: Recorder.Call)

  /** What a change of the lifecycle's view of a handler is for the handler itself. */
  function Follow(t: Track, t': Track, h: Recorder.Handler): Recorder.Handler {
    if t'.closes > t.closes then Recorder.Close(h)
    else if t'.source && !t.source then Recorder.CreateSource(h)
    else h
  }

  /** The handlers whose numbers are in `recordable` support recording. */
  function JointStep(j: Joint, e: Event, recordable: set<nat>): Joint {
    match e
    case Calls(name, call) =>
      if name in j.recordings
      then j.(recordings := j.recordings[name := Recorder.Step(j.recordings[name], call).handler]) else j
    case Takes(a) =>
      var before, after := j.world.client.tracks, Step(j.world, a).client.tracks;
      Joint(Step(j.world, a), map n | n in after ::
        if n in before && n in j.recordings then Follow(before[n], after[n], j.recordings[n])
        else Recorder.Fresh(after[n].handler in recordable, true))
  }

  /** Sources are made and handlers are closed by the lifecycle alone. */
  predicate JointEnabled(j: Joint, e: Event) {
    match e
    case Takes(a) => Enabled(j.world, a)
    case Calls(name, call) => name in j.recordings && !call.SourceCreated? && !call.ClosedCall?
  }

  predicate JointLegal(j: Joint, es: seq<Event>, recordable: set<nat>)
    decreases |es|
  {
    es == [] || (JointEnabled(j, es[0]) && JointLegal(JointStep(j, es[0], recordable), es[1..], recordable))
  }

  function JointExec(j: Joint, es: seq<Event>, recordable: set<nat>): Joint
    decreases |es|
  {
    if es == [] then j else JointExec(JointStep(j, es[0], recordable), es[1..], recordable)
  }

  /** The lifecycle's part of a run. */
  function Actions(es: seq<Event>): seq<Action>
    decreases |es|
  {
    if es == [] then [] else (if es[0].Takes? then [es[0].action] else []) + Actions(es[1..])
  }

  lemma {:induction false} ActionsRun(j: Joint, es: seq<Event>, recordable: set<nat>)
    requires JointLegal(j, es, recordable)
    ensures Legal(j.world, Actions(es)) && JointExec(j, es, recordable).world == Exec(j.world, Actions(es))
    decreases |es|
  {
    if es != [] {
      ActionsRun(JointStep(j, es[0], recordable), es[1..], recordable);
      if es[0].Takes? {
        assert Actions(es) == [es[0].action] + Actions(es[1..]);
        assert Actions(es)[1..] == Actions(es[1..]);
      } else {
        assert Actions(es) == Actions(es[1..]);
      }
    }
  }

  /** One handler before and after a step: it stays, is closed at most once, and gives its source up only then. */
  predicate TrackGoesOn(c: Client, c': Client, n: string) {
    n in c.tracks ==>
      && n in c'.tracks && c.tracks[n].closes <= c'.tracks[n].closes
      && (if c'.tracks[n].closes > c.tracks[n].closes then !c'.tracks[n].source
          else c.tracks[n].source ==> c'.tracks[n].source)
  }

  lemma StatementTrackGoesOn(w: World, key: string, n: string)
    requires !Quiet(w)
    ensures TrackGoesOn(w.client, RunTop(w, key).client, n)
  {
    StatementKeepsRegistries(w.stack.top, key, w.client);
  }

  lemma StepTrackGoesOn(w: World, a: Action, n: string)
    ensures TrackGoesOn(w.client, Step(w, a).client, n)
  {
    if a.Continue? {
      if !Quiet(w) {
        StatementTrackGoesOn(w, a.key, n);
      }
    } else if a.RemoteSet? {
      assert Step(w, a).client.tracks == WithSources(w.client.tracks, a.outcomes);
    }
  }

  /** The lifecycle's handlers and the recordings are the same, and agree about who holds a source. */
  predicate Linked(j: Joint) {
    && j.recordings.Keys == j.world.client.tracks.Keys
    && forall n :: n in j.recordings ==> (j.world.client.tracks[n].source <==> j.recordings[n].source.Some?)
  }

  lemma LinkedStep(j: Joint, e: Event, recordable: set<nat>)
    requires Linked(j) && JointEnabled(j, e)
    ensures Linked(JointStep(j, e, recordable))
  {
    if e.Takes? {
      var j' := JointStep(j, e, recordable);
      forall n | n in j'.recordings
        ensures j'.world.client.tracks[n].source <==> j'.recordings[n].source.Some?
      {
        StepTrackGoesOn(j.world, e.action, n);
        if n !in j.recordings {
          NewTrack(j.world, e.action, n);
        }
      }
    }
  }

  /** A handler that was not there has just been registered. */
  lemma NewTrack(w: World, a: Action, n: string)
    requires n !in w.client.tracks && n in Step(w, a).client.tracks
    ensures a.AddTrackHandler? && Step(w, a).client.tracks[n] == Track(a.handler, false, 0)
  {
    if a.Continue? {
      StatementKeepsRegistries(w.stack.top, a.key, w.client);
    }
  }

  lemma {:induction false} LinkedRun(j: Joint, es: seq<Event>, recordable: set<nat>)
    requires Linked(j) && JointLegal(j, es, recordable)
    ensures Linked(JointExec(j, es, recordable))
    decreases |es|
  {
    if es != [] {
      LinkedStep(j, es[0], recordable);
      LinkedRun(JointStep(j, es[0], recordable), es[1..], recordable);
    }
  }

  /** Exactly the last file can be unreleased, and is while the recording is not stopped. */
  predicate FilesGood(h: Recorder.Handler) {
    && (h.writing <==> !h.mode.NotRecording?)
    && (h.writing ==> h.recordable && h.video.Some? && h.files != [])
    && (forall i :: 0 <= i < |h.files| ==> (h.files[i].released <==> !(h.writing && i == |h.files| - 1)))
  }

  predicate RecordingStopped(h: Recorder.Handler) {
    h.mode.NotRecording? && !h.writing && forall i :: 0 <= i < |h.files| ==> h.files[i].released
  }

  lemma CallKeepsFiles(h: Recorder.Handler, c: Recorder.Call)
    requires FilesGood(h)
    ensures FilesGood(Recorder.Step(h, c).handler)
  {
  }

  /** The owner changes the state of the recording itself. */
  predicate Controls(e: Event, n: string) {
    e.Calls? && e.name == n && (e.call.Started? || e.call.PausedCall? || e.call.Resumed? || e.call.Stopped?)
  }

  /**
  Between two joint worlds the recording of `n` was stopped if its handler was closed, and goes on as it was
  otherwise.
  */
  predicate StoppedIffClosed(j: Joint, j': Joint, n: string) {
    && n in j.recordings && n in j'.recordings && n in j.world.client.tracks && n in j'.world.client.tracks
    && FilesGood(j.recordings[n]) && FilesGood(j'.recordings[n])
    && j.world.client.tracks[n].closes <= j'.world.client.tracks[n].closes
    && if j'.world.client.tracks[n].closes > j.world.client.tracks[n].closes then RecordingStopped(j'.recordings[n])
       else j'.recordings[n].mode == j.recordings[n].mode && j'.recordings[n].writing == j.recordings[n].writing
  }

  lemma StoppedThen(a: Joint, b: Joint, c: Joint, n: string)
    requires StoppedIffClosed(a, b, n) && StoppedIffClosed(b, c, n)
    ensures StoppedIffClosed(a, c, n)
  {
  }

  lemma StoppedStep(j: Joint, e: Event, recordable: set<nat>, n: string)
    requires Linked(j) && JointEnabled(j, e) && !Controls(e, n)
    requires n in j.recordings && FilesGood(j.recordings[n])
    ensures StoppedIffClosed(j, JointStep(j, e, recordable), n)
  {
    if e.Takes? {
      StepTrackGoesOn(j.world, e.action, n);
      CallKeepsFiles(j.recordings[n], Recorder.ClosedCall);
      CallKeepsFiles(j.recordings[n], Recorder.SourceCreated);
    } else if e.name == n {
      CallKeepsFiles(j.recordings[n], e.call);
    }
  }

  /**
  Over every run of the lifecycle with frames and settings arriving at any point, a recording that its owner leaves
  alone is stopped, with all its files released, if its handler was closed in the run, and otherwise goes on exactly
  as before.
  */
  lemma {:induction false} RecordingStopsIffClosed(j: Joint, es: seq<Event>, recordable: set<nat>, n: string)
    requires Linked(j) && JointLegal(j, es, recordable) && forall e :: e in es ==> !Controls(e, n)
    requires n in j.recordings && FilesGood(j.recordings[n])
    ensures StoppedIffClosed(j, JointExec(j, es, recordable), n)
    decreases |es|
  {
    if es != [] {
      var next := JointStep(j, es[0], recordable);
      StoppedStep(j, es[0], recordable, n);
      LinkedStep(j, es[0], recordable);
      RecordingStopsIffClosed(next, es[1..], recordable, n);
      StoppedThen(j, next, JointExec(j, es, recordable), n);
    }
  }

  /** A teardown during which no exception leaves a handler stops every recording. */
  lemma TeardownStopsRecordings(j: Joint, es: seq<Event>, recordable: set<nat>, n: string)
    requires Always(j.world) && Linked(j) && n in j.recordings && FilesGood(j.recordings[n])
    requires JointLegal(j, es, recordable) && forall e :: e in es ==> !Controls(e, n)
    requires var acts := Actions(es);
      && acts != [] && NoThrow(acts) && StartsTeardown(j.world, acts[0])
      && EndsTeardown(Step(j.world, acts[0]), acts[1..])
    ensures var j' := JointExec(j, es, recordable);
      n in j'.recordings && RecordingStopped(j'.recordings[n]) && j'.recordings[n].source.None?
  {
    ActionsRun(j, es, recordable);
    RecordingStopsIffClosed(j, es, recordable, n);
    LinkedRun(j, es, recordable);
    TeardownIsReentrant(j.world, Actions(es));
  }

  /** A shutdown stops none: the handlers are not closed, so a recording under way goes on with its file unreleased. */
  lemma ShutdownKeepsRecordings(j: Joint, es: seq<Event>, recordable: set<nat>, n: string)
    requires Always(j.world) && Linked(j) && n in j.recordings && FilesGood(j.recordings[n])
    requires JointLegal(j, es, recordable) && forall e :: e in es ==> !Controls(e, n)
    requires Quiet(j.world) && !j.world.client.fault
    requires JointExec(j, es, recordable).world == World(AtomicStep(j.world.client, Shutdown), Idle)
    ensures var j' := JointExec(j, es, recordable);
      && n in j'.recordings && j'.recordings[n].mode == j.recordings[n].mode
      && j'.recordings[n].writing == j.recordings[n].writing
      && (RecordingStopped(j'.recordings[n]) <==> RecordingStopped(j.recordings[n]))
  {
    RecordingStopsIffClosed(j, es, recordable, n);
    assert j.world == World(j.world.client, Idle);
    ShutdownEffect(j.world.client);
  }
}
