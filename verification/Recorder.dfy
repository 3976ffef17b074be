/**
A media track handler: every frame goes to a live track source and to a recording. The recording has a state of its own
on top of a video writer whose opening may fail.
*/
module Recorder {
  import opened Options

  datatype RecordState = NotRecording | Recording | Paused

  /** A frame is opaque, and so is its conversion between the two image formats. */
  type Frame = nat

  datatype Settings = Settings(path: string, fps: real, width: int, height: int)

  /** A file the writer has opened: with which settings, in which second, and what was written to it. */
  datatype File = File(settings: Settings, second: nat, frames: seq<Frame>, released: bool)

  datatype Source = Source(running: bool, stopFlag: bool)

  /**
  `video` is the recorder's settings when there is a recorder; the writer's file, if open, is the last of `files`.
  */
  datatype Handler = Handler(
    recordable: bool,
    video: Option<Settings>,
    mode: RecordState,
    writing: bool,
    files: seq<File>,
    source: Option<Source>,
    live: seq<Frame>)

  /** What the check of a path comes to: the file system may refuse to answer, which is an exception. */
  datatype PathCheck = Usable | Unusable | CheckThrows

  /** How a call ends: normally, by an exception, or on a null recorder. */
  datatype Ending = Returned | OpenFailed | NotOpened | CheckFailed | NullRecorder

  datatype Outcome = Outcome(handler: Handler, ending: Ending)

  const DEFAULT_PATH := "./recordings"

  function Fresh(recordable: bool, pathOk: bool): Handler {
    var video := if recordable && pathOk then Some(Settings(DEFAULT_PATH, 30.0, 640, 480)) else None;
    Handler(recordable && pathOk, video, NotRecording, false, [], None, [])
  }

  /** `SetRecordFilePath`: the check of the state logs an error and goes on. */
  function SetPath(h: Handler, path: string, check: PathCheck): Outcome {
    if check.CheckThrows? then Outcome(h, CheckFailed)
    else if check.Unusable? then Outcome(h, Returned)
    else if h.video.None? then Outcome(h, NullRecorder)
    else Outcome(h.(video := Some(h.video.value.(path := path))), Returned)
  }

  /** `SetVideoParameters`, which goes on in the same way. */
  function SetParameters(h: Handler, fps: real, width: int, height: int): Outcome {
    if h.video.None? then Outcome(h, NullRecorder)
    else Outcome(h.(video := Some(h.video.value.(fps := fps, width := width, height := height))), Returned)
  }

  /** `opens` is false when the writer cannot be opened; `second` is what the clock says. */
  function StartRecording(h: Handler, opens: bool, second: nat): Outcome {
    if !h.recordable || h.video.None? then Outcome(h, Returned)
    else if h.writing then Outcome(h.(mode := Recording), Returned)
    else if opens then
      var files := h.files + [File(h.video.value, second, [], false)];
      Outcome(h.(mode := Recording, writing := true, files := files), Returned)
    else Outcome(h, OpenFailed)
  }

  function PauseRecording(h: Handler): Handler {
    if h.recordable && h.mode.Recording? then h.(mode := Paused) else h
  }

  function ResumeRecording(h: Handler): Handler {
    if h.recordable && h.mode.Paused? then h.(mode := Recording) else h
  }

  /** The writer's file is released. */
  function Released(files: seq<File>): seq<File> {
    if files == [] then files else files[|files| - 1 := files[|files| - 1].(released := true)]
  }

  function StopRecording(h: Handler): Handler {
    if !h.recordable || h.video.None? then h
    else h.(mode := NotRecording, writing := false, files := if h.writing then Released(h.files) else h.files)
  }

  function Written(files: seq<File>, f: Frame): seq<File> {
    if files == [] then files else files[|files| - 1 := files[|files| - 1].(frames := files[|files| - 1].frames + [f])]
  }

  function RecordFrame(h: Handler, f: Frame): Outcome {
    if !h.recordable || !h.mode.Recording? then Outcome(h, Returned)
    else if h.video.None? then Outcome(h, NullRecorder)
    else if h.writing then Outcome(h.(files := Written(h.files, f)), Returned)
    else Outcome(h, NotOpened)
  }

  function Live(s: Option<Source>): bool {
    s.Some? && s.value.running && !s.value.stopFlag
  }

  /** `SendFrame`: the live sink first, then the recording. */
  function SendFrame(h: Handler, f: Frame): Outcome {
    RecordFrame(if Live(h.source) then h.(live := h.live + [f]) else h, f)
  }

  /** `CreateVideoTrackSource`: a source still held is used again. */
  function CreateSource(h: Handler): Handler {
    if h.source.None? then h.(source := Some(Source(false, false))) else h
  }

  function SetRunning(h: Handler, running: bool): Handler {
    if h.source.Some? then h.(source := Some(h.source.value.(running := running))) else h
  }

  function SetStopFlag(h: Handler, stop: bool): Handler {
    if h.source.Some? then h.(source := Some(h.source.value.(stopFlag := stop))) else h
  }

  /** `Close`, after the `Stop` hook, whose calls come before it. */
  function Close(h: Handler): Handler {
    StopRecording(h).(source := None)
  }

  datatype Call =
    | PathSet(path: string, check: PathCheck)
    | ParametersSet(fps: real, width: int, height: int)
    | Started(opens: bool, second: nat)
    | PausedCall
    | Resumed
    | Stopped
    | FrameSent(frame: Frame)
    | FrameRecorded(frame: Frame)
    | SourceCreated
    | RunningSet(running: bool)
    | StopFlagSet(stop: bool)
    | ClosedCall

  function Step(h: Handler, c: Call): Outcome {
    match c
    case PathSet(path, check) => SetPath(h, path, check)
    case ParametersSet(fps, width, height) => SetParameters(h, fps, width, height)
    case Started(opens, second) => StartRecording(h, opens, second)
    case PausedCall => Outcome(PauseRecording(h), Returned)
    case Resumed => Outcome(ResumeRecording(h), Returned)
    case Stopped => Outcome(StopRecording(h), Returned)
    case FrameSent(f) => SendFrame(h, f)
    case FrameRecorded(f) => RecordFrame(h, f)
    case SourceCreated => Outcome(CreateSource(h), Returned)
    case RunningSet(running) => Outcome(SetRunning(h, running), Returned)
    case StopFlagSet(stop) => Outcome(SetStopFlag(h, stop), Returned)
    case ClosedCall => Outcome(Close(h), Returned)
  }

  /** The handler after the calls `cs`, whose exceptions the caller has caught. */
  function Run(first: Handler, cs: seq<Call>): Handler
    decreases |cs|
  {
    if cs == [] then first else Step(Run(first, cs[..|cs| - 1]), cs[|cs| - 1]).handler
  }

  // What a reader of the calls expects, without looking at the handler.

  /** The call opens a new file, when the recording is in the state `mode`. */
  predicate Opening(mode: RecordState, c: Call) {
    mode.NotRecording? && c.Started? && c.opens
  }

  /** The state of a recording that is supported. */
  function ModeAfter(cs: seq<Call>): RecordState
    decreases |cs|
  {
    if cs == [] then NotRecording
    else
      var mode := ModeAfter(cs[..|cs| - 1]);
      match cs[|cs| - 1]
      case Started(opens, _) => if mode.NotRecording? && !opens then NotRecording else Recording
      case PausedCall => if mode.Recording? then Paused else mode
      case Resumed => if mode.Paused? then Recording else mode
      case Stopped => NotRecording
      case ClosedCall => NotRecording
      case _ => mode
  }

  /** The settings in force: the last valid path and the last parameters. */
  function SettingsAfter(cs: seq<Call>): Settings
    decreases |cs|
  {
    if cs == [] then Settings(DEFAULT_PATH, 30.0, 640, 480)
    else
      var s := SettingsAfter(cs[..|cs| - 1]);
      match cs[|cs| - 1]
      case PathSet(path, check) => if check.Usable? then s.(path := path) else s
      case ParametersSet(fps, width, height) => s.(fps := fps, width := width, height := height)
      case _ => s
  }

  datatype Opened = Opened(settings: Settings, second: nat)

  /** The settings in force and the second at each opening. */
  function Openings(cs: seq<Call>): seq<Opened>
    decreases |cs|
  {
    if cs == [] then []
    else
      var before, c := cs[..|cs| - 1], cs[|cs| - 1];
      Openings(before) + if Opening(ModeAfter(before), c) then [Opened(SettingsAfter(before), c.second)] else []
  }

  /** The call passes a frame to the recording: `RecordFrame` is public as well. */
  predicate Records(c: Call) {
    c.FrameSent? || c.FrameRecorded?
  }

  /** The frames passed on while recording after the opening number `n` and before the next one. */
  function FramesOf(cs: seq<Call>, n: nat): seq<Frame>
    decreases |cs|
  {
    if cs == [] then []
    else
      var before, c := cs[..|cs| - 1], cs[|cs| - 1];
      FramesOf(before, n) +
      if Records(c) && ModeAfter(before).Recording? && |Openings(before)| == n + 1 then [c.frame] else []
  }

  /** A source was made since the last close. */
  predicate SourceHeld(cs: seq<Call>)
    decreases |cs|
  {
    cs != [] && !cs[|cs| - 1].ClosedCall? && (cs[|cs| - 1].SourceCreated? || SourceHeld(cs[..|cs| - 1]))
  }

  /** The last call to say so since then has set it running. */
  predicate SetToRun(cs: seq<Call>)
    decreases |cs|
  {
    cs != []
    && match cs[|cs| - 1]
       case RunningSet(running) => running && SourceHeld(cs[..|cs| - 1])
       case ClosedCall => false
       case _ => SetToRun(cs[..|cs| - 1])
  }

  /** The last call to say so since then has asked it to stop. */
  predicate AskedToStop(cs: seq<Call>)
    decreases |cs|
  {
    cs != []
    && match cs[|cs| - 1]
       case StopFlagSet(stop) => stop && SourceHeld(cs[..|cs| - 1])
       case ClosedCall => false
       case _ => AskedToStop(cs[..|cs| - 1])
  }

  /** The frames sent while the source was held, set to run, and not asked to stop. */
  function LiveFrames(cs: seq<Call>): seq<Frame>
    decreases |cs|
  {
    if cs == [] then []
    else
      var before, c := cs[..|cs| - 1], cs[|cs| - 1];
      LiveFrames(before) +
      if c.FrameSent? && SourceHeld(before) && SetToRun(before) && !AskedToStop(before) then [c.frame] else []
  }

  /** What a file is after the calls: it is released unless it is the last one and the recording goes on. */
  function FileAfter(cs: seq<Call>, n: nat): File
    requires n < |Openings(cs)|
  {
    File(Openings(cs)[n].settings, Openings(cs)[n].second, FramesOf(cs, n),
         n + 1 < |Openings(cs)| || ModeAfter(cs).NotRecording?)
  }

  /** No frame was sent after an opening that has not happened. */
  lemma {:induction false} NoFramesBeforeOpening(cs: seq<Call>, n: nat)
    requires |Openings(cs)| <= n
    ensures FramesOf(cs, n) == []
    decreases |cs|
  {
    if cs != [] {
      NoFramesBeforeOpening(cs[..|cs| - 1], n);
    }
  }

  predicate FilesAgree(files: seq<File>, cs: seq<Call>) {
    && |files| == |Openings(cs)|
    && forall n :: 0 <= n < |files| ==> files[n] == FileAfter(cs, n)
  }

  predicate Agrees(h: Handler, cs: seq<Call>) {
    && h.recordable && h.video == Some(SettingsAfter(cs))
    && h.mode == ModeAfter(cs)
    && (h.writing <==> !ModeAfter(cs).NotRecording?)
    && (h.writing ==> h.files != [])
    && FilesAgree(h.files, cs)
  }

  lemma OpeningAgrees(h: Handler, cs: seq<Call>)
    requires cs != [] && Agrees(h, cs[..|cs| - 1]) && Opening(ModeAfter(cs[..|cs| - 1]), cs[|cs| - 1])
    ensures FilesAgree(Step(h, cs[|cs| - 1]).handler.files, cs)
  {
    var before := cs[..|cs| - 1];
    NoFramesBeforeOpening(before, |Openings(before)|);
    assert Openings(cs) == Openings(before) + [Opened(SettingsAfter(before), cs[|cs| - 1].second)];
    forall n | 0 <= n < |Openings(before)|
      ensures h.files[n] == FileAfter(cs, n)
    {
      assert h.files[n] == FileAfter(before, n);
    }
  }

  lemma FrameAgrees(h: Handler, cs: seq<Call>)
    requires cs != [] && Agrees(h, cs[..|cs| - 1]) && Records(cs[|cs| - 1])
    ensures FilesAgree(Step(h, cs[|cs| - 1]).handler.files, cs)
  {
    var before, after := cs[..|cs| - 1], Step(h, cs[|cs| - 1]).handler;
    assert Openings(cs) == Openings(before);
    forall n | 0 <= n < |h.files|
      ensures after.files[n] == FileAfter(cs, n)
    {
      assert h.files[n] == FileAfter(before, n);
    }
  }

  lemma OtherCallAgrees(h: Handler, cs: seq<Call>)
    requires cs != [] && Agrees(h, cs[..|cs| - 1]) && !Records(cs[|cs| - 1])
    requires !Opening(ModeAfter(cs[..|cs| - 1]), cs[|cs| - 1])
    ensures FilesAgree(Step(h, cs[|cs| - 1]).handler.files, cs)
  {
    var before, after := cs[..|cs| - 1], Step(h, cs[|cs| - 1]).handler;
    assert Openings(cs) == Openings(before);
    forall n | 0 <= n < |h.files|
      ensures after.files[n] == FileAfter(cs, n)
    {
      assert h.files[n] == FileAfter(before, n);
    }
  }

  lemma CallAgrees(h: Handler, cs: seq<Call>)
    requires cs != [] && Agrees(h, cs[..|cs| - 1])
    ensures Agrees(Step(h, cs[|cs| - 1]).handler, cs)
  {
    if Opening(ModeAfter(cs[..|cs| - 1]), cs[|cs| - 1]) {
      OpeningAgrees(h, cs);
    } else if Records(cs[|cs| - 1]) {
      FrameAgrees(h, cs);
    } else {
      OtherCallAgrees(h, cs);
    }
  }

  /**
  Recorder soundness, over every sequence of calls and failed openings: the writer is open exactly when the recording is
  not stopped, there is one file for each opening, with the settings in force then, and it holds in order exactly the
  frames sent or recorded while recording since that opening.
  */
  lemma {:induction false} FilesHoldWhatWasRecorded(cs: seq<Call>)
    ensures Agrees(Run(Fresh(true, true), cs), cs)
    decreases |cs|
  {
    if cs != [] {
      FilesHoldWhatWasRecorded(cs[..|cs| - 1]);
      CallAgrees(Run(Fresh(true, true), cs[..|cs| - 1]), cs);
    }
  }

  /** Without recording support, or when the default directory cannot be used, nothing is ever recorded. */
  lemma {:induction false} NothingRecorded(recordable: bool, pathOk: bool, cs: seq<Call>)
    requires !(recordable && pathOk)
    ensures var h := Run(Fresh(recordable, pathOk), cs);
      !h.recordable && h.video == None && h.mode == NotRecording && !h.writing && h.files == []
    decreases |cs|
  {
    if cs != [] {
      NothingRecorded(recordable, pathOk, cs[..|cs| - 1]);
    }
  }

  /** How the next call ends, exactly: a frame never meets a closed writer. */
  lemma EndingExactly(recordable: bool, pathOk: bool, cs: seq<Call>, c: Call)
    ensures var supported := recordable && pathOk;
      Step(Run(Fresh(recordable, pathOk), cs), c).ending ==
        if supported && c.Started? && !c.opens && ModeAfter(cs).NotRecording? then OpenFailed
        else if c.PathSet? && c.check.CheckThrows? then CheckFailed
        else if !supported && (c.ParametersSet? || (c.PathSet? && c.check.Usable?)) then NullRecorder
        else Returned
  {
    if recordable && pathOk {
      FilesHoldWhatWasRecorded(cs);
    } else {
      NothingRecorded(recordable, pathOk, cs);
    }
  }

  lemma {:induction false} RunAppend(first: Handler, cs: seq<Call>, more: seq<Call>)
    ensures Run(first, cs + more) == Run(Run(first, cs), more)
    decreases |more|
  {
    if more == [] {
      assert cs + more == cs;
    } else {
      var all, init := cs + more, more[..|more| - 1];
      assert all[..|all| - 1] == cs + init && all[|all| - 1] == more[|more| - 1];
      RunAppend(first, cs, init);
    }
  }

  /** A failed opening leaves no trace: whatever was called before and after, the handler ends as without it. */
  lemma FailedOpeningLeavesNoTrace(recordable: bool, pathOk: bool, before: seq<Call>, second: nat, after: seq<Call>)
    requires ModeAfter(before).NotRecording?
    ensures Run(Fresh(recordable, pathOk), before + [Started(false, second)] + after)
         == Run(Fresh(recordable, pathOk), before + after)
  {
    var first, failed := Fresh(recordable, pathOk), [Started(false, second)];
    if recordable && pathOk {
      FilesHoldWhatWasRecorded(before);
    } else {
      NothingRecorded(recordable, pathOk, before);
    }
    RunThen(first, before, Started(false, second));
    RunAppend(first, before + failed, after);
    RunAppend(first, before, after);
  }

  /** A file is named after the directory and the second it was opened in. */
  function FileName(f: File): (string, nat) {
    (f.settings.path, f.second)
  }

  /** Which recording the file of each name holds: a file opened again is written anew. */
  function Disk(files: seq<File>): map<(string, nat), nat>
    decreases |files|
  {
    if files == [] then map[] else Disk(files[..|files| - 1])[FileName(files[|files| - 1]) := |files| - 1]
  }

  /** A recording is still on the disk exactly when no later one was opened in the same directory and second. */
  lemma {:induction false} RecordingSurvives(files: seq<File>, n: nat)
    requires n < |files|
    ensures FileName(files[n]) in Disk(files)
    ensures Disk(files)[FileName(files[n])] == n <==>
      forall m :: n < m < |files| ==> FileName(files[m]) != FileName(files[n])
    decreases |files|
  {
    var init := files[..|files| - 1];
    if n < |init| {
      assert init[n] == files[n];
      RecordingSurvives(init, n);
      if FileName(files[|init|]) != FileName(files[n]) {
        assert forall m :: n < m < |init| ==> init[m] == files[m];
        assert forall m :: n < m < |files| && m != |init| ==> init[m] == files[m];
      }
    }
  }

  /**
  The live track gets exactly the frames sent while its source was held, set to run and not asked to stop, whatever is
  recorded.
  */
  lemma {:induction false} LiveTrackGetsItsFrames(recordable: bool, pathOk: bool, cs: seq<Call>)
    ensures var h := Run(Fresh(recordable, pathOk), cs);
      && h.source == (if SourceHeld(cs) then Some(Source(SetToRun(cs), AskedToStop(cs))) else None)
      && h.live == LiveFrames(cs)
    ensures !SourceHeld(cs) ==> !SetToRun(cs) && !AskedToStop(cs)
    decreases |cs|
  {
    if cs != [] {
      LiveTrackGetsItsFrames(recordable, pathOk, cs[..|cs| - 1]);
    }
  }

  /** The calls that act on the live source only. */
  predicate LiveOnly(c: Call) {
    c.SourceCreated? || c.RunningSet? || c.StopFlagSet?
  }

  function WithoutLive(cs: seq<Call>): seq<Call>
    decreases |cs|
  {
    if cs == [] then []
    else WithoutLive(cs[..|cs| - 1]) + if LiveOnly(cs[|cs| - 1]) then [] else [cs[|cs| - 1]]
  }

  lemma KeptCall(cs: seq<Call>)
    requires cs != [] && !LiveOnly(cs[|cs| - 1])
    ensures var kept := WithoutLive(cs);
      kept != [] && kept[..|kept| - 1] == WithoutLive(cs[..|cs| - 1]) && kept[|kept| - 1] == cs[|cs| - 1]
  {
    assert WithoutLive(cs) == WithoutLive(cs[..|cs| - 1]) + [cs[|cs| - 1]];
  }

  lemma {:induction false} ReferenceIgnoresLive(cs: seq<Call>)
    ensures ModeAfter(WithoutLive(cs)) == ModeAfter(cs)
    ensures SettingsAfter(WithoutLive(cs)) == SettingsAfter(cs)
    ensures Openings(WithoutLive(cs)) == Openings(cs)
    decreases |cs|
  {
    if cs != [] {
      ReferenceIgnoresLive(cs[..|cs| - 1]);
      if !LiveOnly(cs[|cs| - 1]) {
        KeptCall(cs);
      } else {
        assert WithoutLive(cs) == WithoutLive(cs[..|cs| - 1]);
      }
    }
  }

  lemma {:induction false} FramesIgnoreLive(cs: seq<Call>, n: nat)
    ensures FramesOf(WithoutLive(cs), n) == FramesOf(cs, n)
    decreases |cs|
  {
    if cs != [] {
      FramesIgnoreLive(cs[..|cs| - 1], n);
      if !LiveOnly(cs[|cs| - 1]) {
        ReferenceIgnoresLive(cs[..|cs| - 1]);
        KeptCall(cs);
      } else {
        assert WithoutLive(cs) == WithoutLive(cs[..|cs| - 1]);
      }
    }
  }

  /** The recording does not depend on the live track: every file is the same when the live track is never set up. */
  lemma RecordingIgnoresLive(cs: seq<Call>)
    ensures Run(Fresh(true, true), WithoutLive(cs)).files == Run(Fresh(true, true), cs).files
  {
    var files, others := Run(Fresh(true, true), cs).files, Run(Fresh(true, true), WithoutLive(cs)).files;
    FilesHoldWhatWasRecorded(cs);
    FilesHoldWhatWasRecorded(WithoutLive(cs));
    ReferenceIgnoresLive(cs);
    forall n | 0 <= n < |files|
      ensures files[n] == others[n]
    {
      FramesIgnoreLive(cs, n);
      assert files[n] == FileAfter(cs, n) && others[n] == FileAfter(WithoutLive(cs), n);
    }
  }

  lemma RunThen(first: Handler, cs: seq<Call>, c: Call)
    ensures Run(first, cs + [c]) == Step(Run(first, cs), c).handler
  {
    assert (cs + [c])[..|cs|] == cs;
  }

  /**
  The guard of the setters has no effect: a path set at any time, even in the middle of a recording, leaves the open
  file alone and is the path of the next one.
  */
  lemma PathSetAtAnyTime(cs: seq<Call>, path: string, second: nat)
    ensures var h, changed := Run(Fresh(true, true), cs), Run(Fresh(true, true), cs + [PathSet(path, Usable)]);
      && changed.files == h.files && changed.writing == h.writing && changed.mode == h.mode
      && var next := Run(Fresh(true, true), cs + [PathSet(path, Usable)] + [Stopped] + [Started(true, second)]).files;
         && |next| == |h.files| + 1
         && next[|h.files|] == File(SettingsAfter(cs).(path := path), second, [], false)
  {
    FilesHoldWhatWasRecorded(cs);
    RunThen(Fresh(true, true), cs, PathSet(path, Usable));
    RunThen(Fresh(true, true), cs + [PathSet(path, Usable)], Stopped);
    RunThen(Fresh(true, true), cs + [PathSet(path, Usable)] + [Stopped], Started(true, second));
  }
}
