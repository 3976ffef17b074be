/** The recorder, the recordable part of a handler, and the media track handler itself, each updated in place. */
module RecorderObjects {
  import opened Options
  import opened Recorder

  /** OpenCV's writer, with the files it has opened. */
  class VideoWriter {
    var isOpen: bool
    ghost var files: seq<File>

    constructor ()
      ensures !isOpen && files == []
    {
      isOpen, files := false, [];
    }

    method Open(settings: Settings, second: nat, ok: bool)
      requires !isOpen
      modifies this
      ensures isOpen == ok && files == old(files) + if ok then [File(settings, second, [], false)] else []
    {
      isOpen := ok;
      if ok {
        files := files + [File(settings, second, [], false)];
      }
    }

    method Release()
      modifies this
      ensures !isOpen && files == Released(old(files))
    {
      isOpen, files := false, Released(files);
    }

    method Write(f: Frame)
      requires isOpen
      modifies this`files
      ensures files == Written(old(files), f)
    {
      files := Written(files, f);
    }
  }

  class VideoRecorder {
    const writer: VideoWriter
    var path: string
    var fps: real
    var width: int
    var height: int

    constructor (path: string)
      ensures Configured() == Settings(path, 30.0, 640, 480)
      ensures fresh(writer) && !writer.isOpen && writer.files == []
    {
      this.path := path;
      fps, width, height := 30.0, 640, 480;
      writer := new VideoWriter();
    }

    function Configured(): Settings
      reads this
    {
      Settings(path, fps, width, height)
    }

    method SetRecordFilePath(path: string)
      modifies this`path
      ensures Configured() == old(Configured()).(path := path)
    {
      this.path := path;
    }

    method SetVideoParameters(fps: real, width: int, height: int)
      modifies this
      ensures Configured() == old(Configured()).(fps := fps, width := width, height := height)
    {
      this.fps, this.width, this.height := fps, width, height;
    }

    method Start(opens: bool, second: nat) returns (ending: Ending)
      modifies writer
      ensures ending == if old(writer.isOpen) || opens then Returned else OpenFailed
      ensures writer.isOpen == (old(writer.isOpen) || opens)
      ensures writer.files
           == old(writer.files) + if !old(writer.isOpen) && opens then [File(Configured(), second, [], false)] else []
    {
      if !writer.isOpen {
        writer.Open(Configured(), second, opens);
        if !writer.isOpen {
          return OpenFailed;
        }
      }
      ending := Returned;
    }

    method Stop()
      modifies writer
      ensures !writer.isOpen
      ensures writer.files == if old(writer.isOpen) then Released(old(writer.files)) else old(writer.files)
    {
      if writer.isOpen {
        writer.Release();
      }
    }

    method SaveFrame(f: Frame) returns (ending: Ending)
      modifies writer`files
      ensures ending == if writer.isOpen then Returned else NotOpened
      ensures writer.files == if writer.isOpen then Written(old(writer.files), f) else old(writer.files)
    {
      if writer.isOpen {
        writer.Write(f);
        ending := Returned;
      } else {
        ending := NotOpened;
      }
    }
  }

  /** `actual_video_track_source_`. */
  class ActualVideoTrackSource {
    var running: bool
    var stopFlag: bool
    ghost var delivered: seq<Frame>

    constructor ()
      ensures !running && !stopFlag && delivered == []
    {
      running, stopFlag, delivered := false, false, [];
    }

    method SendFrame(f: Frame)
      modifies this`delivered
      ensures delivered == old(delivered) + if running && !stopFlag then [f] else []
    {
      if running && !stopFlag {
        delivered := delivered + [f];
      }
    }
  }

  /** `Recordable::Impl`. */
  class Recordable {
    var recordable: bool
    var recorder: VideoRecorder?
    var mode: RecordState

    constructor (recordable: bool, pathOk: bool)
      ensures View(None, []) == Fresh(recordable, pathOk)
      ensures recorder != null ==> fresh(recorder) && fresh(recorder.writer)
    {
      this.recordable, recorder, mode := recordable, null, NotRecording;
      new;
      if this.recordable {
        if pathOk {
          recorder := new VideoRecorder(DEFAULT_PATH);
        } else {
          this.recordable := false;
        }
      }
    }

    /** All the state there is, with the live half of the handler filled in. */
    ghost function View(source: Option<Source>, live: seq<Frame>): Handler
      reads this, recorder, if recorder != null then {recorder.writer} else {}
    {
      if recorder == null then Handler(recordable, None, mode, false, [], source, live)
      else
        var writer := recorder.writer;
        Handler(recordable, Some(recorder.Configured()), mode, writer.isOpen, writer.files, source, live)
    }

    ghost function Parts(): set<object>
      reads this, recorder
    {
      {this} + if recorder != null then {recorder, recorder.writer} else {}
    }

    method SetRecordFilePath(path: string, check: PathCheck) returns (ending: Ending)
      modifies Parts()
      ensures recorder == old(recorder)
      ensures forall s, l :: Outcome(View(s, l), ending) == SetPath(old(View(s, l)), path, check)
    {
      if check.CheckThrows? {
        return CheckFailed;
      }
      ending := Returned;
      if check.Usable? {
        if recorder == null {
          return NullRecorder;
        }
        recorder.SetRecordFilePath(path);
      }
    }

    method SetVideoParameters(fps: real, width: int, height: int) returns (ending: Ending)
      modifies Parts()
      ensures recorder == old(recorder)
      ensures forall s, l :: Outcome(View(s, l), ending) == SetParameters(old(View(s, l)), fps, width, height)
    {
      if recorder == null {
        return NullRecorder;
      }
      recorder.SetVideoParameters(fps, width, height);
      ending := Returned;
    }

    method StartRecording(opens: bool, second: nat) returns (ending: Ending)
      modifies Parts()
      ensures recorder == old(recorder)
      ensures forall s, l :: Outcome(View(s, l), ending) == Recorder.StartRecording(old(View(s, l)), opens, second)
    {
      ending := Returned;
      if recordable && recorder != null {
        ending := recorder.Start(opens, second);
        if ending.Returned? {
          mode := Recording;
        }
      }
    }

    method PauseRecording()
      modifies this`mode
      ensures forall s, l :: View(s, l) == Recorder.PauseRecording(old(View(s, l)))
    {
      if recordable && mode.Recording? {
        mode := Paused;
      }
    }

    method ResumeRecording()
      modifies this`mode
      ensures forall s, l :: View(s, l) == Recorder.ResumeRecording(old(View(s, l)))
    {
      if recordable && mode.Paused? {
        mode := Recording;
      }
    }

    method StopRecording()
      modifies Parts()
      ensures recorder == old(recorder)
      ensures forall s, l :: View(s, l) == Recorder.StopRecording(old(View(s, l)))
    {
      if recordable && recorder != null {
        recorder.Stop();
        mode := NotRecording;
      }
    }

    method RecordFrame(f: Frame) returns (ending: Ending)
      modifies Parts()
      ensures recorder == old(recorder)
      ensures forall s, l :: Outcome(View(s, l), ending) == Recorder.RecordFrame(old(View(s, l)), f)
    {
      ending := Returned;
      if recordable && mode.Recording? {
        if recorder == null {
          return NullRecorder;
        }
        ending := recorder.SaveFrame(f);
      }
    }
  }

  /** `AMediaTrackHandler`. `delivered` is what the sources it had before the current one passed on. */
  class AMediaTrackHandler {
    const recording: Recordable
    var source: ActualVideoTrackSource?
    ghost var delivered: seq<Frame>

    constructor (recordable: bool, pathOk: bool)
      ensures View() == Fresh(recordable, pathOk)
    {
      recording := new Recordable(recordable, pathOk);
      source, delivered := null, [];
    }

    ghost function LiveSource(): Option<Source>
      reads this, source
    {
      if source == null then None else Some(Source(source.running, source.stopFlag))
    }

    ghost function AllDelivered(): seq<Frame>
      reads this, source
    {
      delivered + if source == null then [] else source.delivered
    }

    ghost function View(): Handler
      reads this, source, recording, recording.recorder
      reads if recording.recorder != null then {recording.recorder.writer} else {}
    {
      recording.View(LiveSource(), AllDelivered())
    }

    method SendFrame(f: Frame) returns (ending: Ending)
      modifies recording.Parts(), source
      ensures source == old(source)
      ensures Outcome(View(), ending) == Recorder.SendFrame(old(View()), f)
      ensures source != null ==>
        source.delivered == old(source.delivered) + if source.running && !source.stopFlag then [f] else []
    {
      if source != null {
        source.SendFrame(f);
      }
      assert AllDelivered() == old(AllDelivered()) + if Live(old(LiveSource())) then [f] else [];
      ending := recording.RecordFrame(f);
    }

    /** The `Start` hook, called at the end, makes calls of its own. */
    method CreateVideoTrackSource()
      modifies this
      ensures source != null && View() == CreateSource(old(View()))
    {
      if source == null {
        source := new ActualVideoTrackSource();
      }
      assert AllDelivered() == old(AllDelivered());
    }

    method SetRunning(running: bool)
      modifies source
      ensures View() == Recorder.SetRunning(old(View()), running)
    {
      if source != null {
        source.running := running;
      }
    }

    method SetStopFlag(stop: bool)
      modifies source
      ensures View() == Recorder.SetStopFlag(old(View()), stop)
    {
      if source != null {
        source.stopFlag := stop;
      }
    }

    method Close()
      modifies this, recording.Parts()
      ensures source == null && View() == Recorder.Close(old(View()))
    {
      recording.StopRecording();
      if source != null {
        delivered := delivered + source.delivered;
      }
      source := null;
      assert AllDelivered() == old(AllDelivered());
    }
  }
}
