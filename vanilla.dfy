/** The Vanilla agent's pass-through debug processor and the environment check
    its start-up performs. The processor tracks one lifecycle flag that Start
    and End frames set and clear, picks a log line per frame kind, and forwards
    every frame unchanged in the direction it arrived, even when handling it
    raised. */
module VanillaAgent {
  import opened Wrappers
  import opened Environment

  /** The direction a frame travels in the pipeline. */
  datatype Direction = Upstream | Downstream

  /** The frame kinds the processor distinguishes; every other kind is `OtherFrame`. */
  datatype Frame =
    | StartFrame
    | EndFrame
    | TextFrame(text: string)
    | UserStartedSpeakingFrame
    | UserStoppedSpeakingFrame
    | AudioRawFrame(audio: seq<bv8>)
    | OtherFrame

  /** A line the processor prints. */
  datatype Note =
    | StartedNote(direction: Direction)
    | EndedNote(direction: Direction)
    | TextNote(text: string, direction: Direction)
    | SpeakingStartedNote(direction: Direction)
    | SpeakingStoppedNote(direction: Direction)
    | AudioNote(bytes: nat, status: string, direction: Direction)
    | ErrorNote

  /** The lifecycle flag after a frame: set by a Start frame, cleared by an End
      frame, kept by every other frame. */
  function NextStarted(pipelineStarted: bool, frame: Frame): (r: bool)
    ensures frame.StartFrame? ==> r
    ensures frame.EndFrame? ==> !r
    ensures !frame.StartFrame? && !frame.EndFrame? ==> r == pipelineStarted
  {
    match frame
    case StartFrame => true
    case EndFrame => false
    case _ => pipelineStarted
  }

  /** The audio log's status word. */
  function Status(pipelineStarted: bool): (status: string)
    ensures status == "ACTIVE" <==> pipelineStarted
    ensures status == "WAITING" <==> !pipelineStarted
  {
    if pipelineStarted then "ACTIVE" else "WAITING"
  }

  /** The line printed for a frame that was handled without error, given the
      flag after the frame and whether the two-second audio throttle lets a
      line through; `None` when the frame is not logged. Audio frames are
      logged only when they carry bytes. */
  function NoteFor(frame: Frame, direction: Direction, pipelineStarted: bool, audioLogDue: bool): (note: Option<Note>)
    ensures frame.StartFrame? <==> note.Some? && note.value.StartedNote?
    ensures frame.EndFrame? <==> note.Some? && note.value.EndedNote?
    ensures note.Some? && note.value.AudioNote? <==> frame.AudioRawFrame? && |frame.audio| > 0 && audioLogDue
    ensures note.Some? && note.value.AudioNote? ==>
      note.value.bytes == |frame.audio| && note.value.status == Status(pipelineStarted)
    ensures note.Some? ==> !note.value.ErrorNote? && note.value.direction == direction
    ensures frame.OtherFrame? ==> note.None?
  {
    match frame
    case StartFrame => Some(StartedNote(direction))
    case EndFrame => Some(EndedNote(direction))
    case TextFrame(text) => Some(TextNote(text, direction))
    case UserStartedSpeakingFrame => Some(SpeakingStartedNote(direction))
    case UserStoppedSpeakingFrame => Some(SpeakingStoppedNote(direction))
    case AudioRawFrame(audio) =>
      if |audio| > 0 && audioLogDue then Some(AudioNote(|audio|, Status(pipelineStarted), direction)) else None
    case OtherFrame => None
  }

  /** How one step of `process_frame` ends: normally, by raising an
      `Exception`, or by raising a `BaseException` that is not an `Exception`
      (such as `asyncio.CancelledError`), which `except Exception` does not
      catch. */
  datatype Outcome = Ok | Raises | Cancelled

  /** The `except Exception` handler runs: the logging step raised, or it
      succeeded and the first push raised. */
  predicate EntersHandler(handling: Outcome, firstPush: Outcome) {
    handling.Raises? || (handling.Ok? && firstPush.Raises?)
  }

  /** An exception leaves `process_frame`: a `BaseException` from the logging
      step or the first push, or whatever the handler's own error print
      raises, since that print is outside any `try`. The handler's push sits
      under a bare `except`, so nothing it raises escapes. */
  predicate Escapes(handling: Outcome, firstPush: Outcome, errorPrintRaises: bool) {
    handling.Cancelled? || (handling.Ok? && firstPush.Cancelled?) ||
    (EntersHandler(handling, firstPush) && errorPrintRaises)
  }

  /** The lines one call prints: the frame's own line when the logging step
      completed, then the error line when the handler ran and its print
      succeeded. */
  function LogLines(frame: Frame, direction: Direction, pipelineStarted: bool, audioLogDue: bool,
                    handling: Outcome, firstPush: Outcome, errorPrintRaises: bool): (lines: seq<Note>)
    ensures |lines| <= 2
    ensures ErrorNote in lines <==> EntersHandler(handling, firstPush) && !errorPrintRaises
    ensures !handling.Ok? ==> forall i :: 0 <= i < |lines| ==> lines[i] == ErrorNote
    ensures handling.Ok? && NoteFor(frame, direction, pipelineStarted, audioLogDue).Some? ==>
      |lines| > 0 && lines[0] == NoteFor(frame, direction, pipelineStarted, audioLogDue).value
  {
    var own := NoteFor(frame, direction, pipelineStarted, audioLogDue);
    (if handling.Ok? && own.Some? then [own.value] else []) +
    (if EntersHandler(handling, firstPush) && !errorPrintRaises then [ErrorNote] else [])
  }

  /** The push attempts `process_frame` makes, each forwarding the frame
      unchanged in its direction: the push at the end of the logging step when
      that step completed, and the handler's push when the handler ran and its
      print did not raise. */
  function PushAttempts(frame: Frame, direction: Direction, handling: Outcome, firstPush: Outcome,
                        errorPrintRaises: bool): (pushes: seq<(Frame, Direction)>)
    ensures |pushes| <= 2
    ensures forall i :: 0 <= i < |pushes| ==> pushes[i] == (frame, direction)
    ensures pushes == [] <==> handling.Cancelled? || (handling.Raises? && errorPrintRaises)
    ensures |pushes| == 2 <==> handling.Ok? && firstPush.Raises? && !errorPrintRaises
  {
    (if handling.Ok? then [(frame, direction)] else []) +
    (if EntersHandler(handling, firstPush) && !errorPrintRaises then [(frame, direction)] else [])
  }

  /** When neither step is cancelled and the error print succeeds, nothing
      escapes and the frame is pushed at least once. */
  lemma ExceptionsAreContained(frame: Frame, direction: Direction, handling: Outcome, firstPush: Outcome)
    requires !handling.Cancelled? && !firstPush.Cancelled?
    ensures !Escapes(handling, firstPush, false)
    ensures |PushAttempts(frame, direction, handling, firstPush, false)| >= 1
  {
  }

  /** When nothing escapes, the frame was pushed at least once, and a second
      time only to retry a first push that raised. */
  lemma ForwardedUnlessEscaping(frame: Frame, direction: Direction, handling: Outcome, firstPush: Outcome,
                                errorPrintRaises: bool)
    requires !Escapes(handling, firstPush, errorPrintRaises)
    ensures 1 <= |PushAttempts(frame, direction, handling, firstPush, errorPrintRaises)|
    ensures |PushAttempts(frame, direction, handling, firstPush, errorPrintRaises)| == 2 ==> firstPush.Raises?
  {
  }

  /** `ValidationFreeDebugProcessor`. The audio throttle's time stamp
      `_last_audio_log` is replaced by the `audioLogDue` argument. */
  class ValidationFreeDebugProcessor {
    var debugName: string
    var pipelineStarted: bool
    var started: bool

    /** A new processor, named "Debug" unless told otherwise, has not seen a
        Start frame and claims to be started already. */
    constructor(name: string := "Debug")
      ensures debugName == name && !pipelineStarted && started
    {
      debugName := name;
      pipelineStarted := false;
      started := true;
    }

    /** `_check_started` does nothing: it raises nothing and returns `None`. */
    method CheckStarted(frame: Frame) returns (result: Option<bool>)
      ensures result.None?
    {
      result := None;
    }

    /** The audio status word for the current state. */
    function StatusLabel(): (status: string)
      reads this
      ensures status == "ACTIVE" <==> pipelineStarted
    {
      Status(pipelineStarted)
    }

    /** `process_frame`: updates the lifecycle flag, prints its lines,
        forwards the frame and reports whether an exception left the call.
        `handling` and `firstPush` say how the logging step and the push after
        it end; `errorPrintRaises` whether the handler's error print raises. */
    method ProcessFrame(frame: Frame, direction: Direction, handling: Outcome, firstPush: Outcome,
                        errorPrintRaises: bool, audioLogDue: bool)
      returns (lines: seq<Note>, pushes: seq<(Frame, Direction)>, escapes: bool)
      modifies this
      ensures pipelineStarted == NextStarted(old(pipelineStarted), frame)
      ensures debugName == old(debugName) && started == old(started)
      ensures lines == LogLines(frame, direction, pipelineStarted, audioLogDue, handling, firstPush, errorPrintRaises)
      ensures pushes == PushAttempts(frame, direction, handling, firstPush, errorPrintRaises)
      ensures escapes == Escapes(handling, firstPush, errorPrintRaises)
    {
      if frame.StartFrame? {
        pipelineStarted := true;
      } else if frame.EndFrame? {
        pipelineStarted := false;
      }
      lines := [];
      pushes := [];
      escapes := false;
      if handling.Ok? {
        var own := NoteFor(frame, direction, pipelineStarted, audioLogDue);
        if own.Some? {
          lines := [own.value];
        }
        pushes := [(frame, direction)];
      }
      if handling.Cancelled? || (handling.Ok? && firstPush.Cancelled?) {
        escapes := true;
        return;
      }
      if EntersHandler(handling, firstPush) {
        if errorPrintRaises {
          escapes := true;
          return;
        }
        lines := lines + [ErrorNote];
        pushes := pushes + [(frame, direction)];
      }
    }
  }

  // ------------------------------------------------------ frame sequences

  predicate IsLifecycle(frame: Frame) {
    frame.StartFrame? || frame.EndFrame?
  }

  /** The lifecycle flag after a whole sequence of frames: it differs from the
      initial flag only if some frame was a Start or End frame. */
  function Replay(pipelineStarted: bool, frames: seq<Frame>): (r: bool)
    ensures r != pipelineStarted ==> exists j :: 0 <= j < |frames| && IsLifecycle(frames[j])
  {
    if frames == [] then pipelineStarted
    else
      var prefix := frames[..|frames| - 1];
      var last := frames[|frames| - 1];
      var r := NextStarted(Replay(pipelineStarted, prefix), last);
      assert forall j :: 0 <= j < |prefix| ==> prefix[j] == frames[j];
      r
  }

  /** After a sequence of frames the flag is set exactly when the last Start or
      End frame in it was a Start frame. */
  lemma {:induction false} ReplayLastLifecycle(pipelineStarted: bool, frames: seq<Frame>, k: nat)
    requires k < |frames| && IsLifecycle(frames[k])
    requires forall j :: k < j < |frames| ==> !IsLifecycle(frames[j])
    ensures Replay(pipelineStarted, frames) == frames[k].StartFrame?
  {
    if k < |frames| - 1 {
      ReplayLastLifecycle(pipelineStarted, frames[..|frames| - 1], k);
    }
  }

  /** Without Start or End frames the flag never changes. */
  lemma {:induction false} ReplayWithoutLifecycle(pipelineStarted: bool, frames: seq<Frame>)
    requires forall j :: 0 <= j < |frames| ==> !IsLifecycle(frames[j])
    ensures Replay(pipelineStarted, frames) == pipelineStarted
  {
    if frames != [] {
      ReplayWithoutLifecycle(pipelineStarted, frames[..|frames| - 1]);
    }
  }

  // ------------------------------------------------- start-up environment

  /** The variables the agent needs before it builds a pipeline. */
  const RequiredVars: seq<string> := ["OPENAI_API_KEY", "DAILY_TOKEN", "DAILY_ROOM_URL"]

  /** `[var for var in names if not os.getenv(var)]`. */
  function MissingVars(env: map<string, string>, names: seq<string>): (missing: seq<string>)
    ensures |missing| <= |names|
  {
    if names == [] then []
    else
      var init := MissingVars(env, names[..|names| - 1]);
      var last := names[|names| - 1];
      if IsSet(env, last) then init else init + [last]
  }

  /** A name is reported missing exactly when it is required and unset. */
  lemma {:induction false} MissingVarsMembers(env: map<string, string>, names: seq<string>, x: string)
    ensures x in MissingVars(env, names) <==> x in names && !IsSet(env, x)
  {
    if names != [] {
      var init := names[..|names| - 1];
      MissingVarsMembers(env, init, x);
      assert names == init + [names[|names| - 1]];
    }
  }

  /** The missing names keep the required list's order. */
  lemma {:induction false} MissingVarsAppend(env: map<string, string>, a: seq<string>, b: seq<string>)
    ensures MissingVars(env, a + b) == MissingVars(env, a) + MissingVars(env, b)
  {
    if b != [] {
      assert (a + b)[..|a + b| - 1] == a + b[..|b| - 1];
      MissingVarsAppend(env, a, b[..|b| - 1]);
    } else {
      assert a + b == a;
    }
  }

  /** The missing required names are exactly the unset ones. */
  lemma MissingRequired(env: map<string, string>)
    ensures forall x :: x in MissingVars(env, RequiredVars) <==> x in RequiredVars && !IsSet(env, x)
  {
    forall x ensures x in MissingVars(env, RequiredVars) <==> x in RequiredVars && !IsSet(env, x) {
      MissingVarsMembers(env, RequiredVars, x);
    }
  }

  /** What `main` does after the environment check. */
  datatype Startup = Abort(missing: seq<string>) | BuildPipeline

  /** `main` returns before building anything when a required variable is
      missing, and goes on to the pipeline otherwise. */
  function StartupDecision(env: map<string, string>): (d: Startup)
    ensures d.Abort? <==> exists x :: x in RequiredVars && !IsSet(env, x)
    ensures d.Abort? ==> d.missing == MissingVars(env, RequiredVars) && d.missing != []
  {
    var missing := MissingVars(env, RequiredVars);
    MissingRequired(env);
    if missing != [] then
      assert missing[0] in missing;
      Abort(missing)
    else BuildPipeline
  }
}
