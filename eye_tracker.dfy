/**
 * The browser-extension eye tracker (chrome/eyes.py): an object that is
 * started, stepped once per frame and stopped, counting the frames in which
 * some face shows an eye.
 */
module EyeTracking {
  import opened Wrappers
  import opened Gaze

  /** `self.cap`: no capture object yet, or a webcam handle. */
  datatype Capture = NoCapture | Camera(isOpen: bool, released: bool)

  /** A frame can be read from the capture only when it opened and was not released. */
  predicate Readable(cap: Capture) {
    cap.Camera? && cap.isOpen && !cap.released
  }

  /**
   * What one `step` adds to `focus_time`: 1 when the tracker runs, the frame
   * was read, and some face has an eye; 0 otherwise.
   */
  function Gain(running: bool, cap: Capture, frame: Option<seq<Face>>): (g: nat)
    ensures g <= 1
    ensures g == 1 <==> running && Readable(cap) && frame.Some? && AnyEyes(frame.value)
  {
    if running && Readable(cap) && frame.Some? && AnyEyes(frame.value) then 1 else 0
  }

  /** `focus_score = focus_time / total_time if total_time > 0 else 0`. */
  function Score(focus: nat, total: real): (s: real)
    ensures total <= 0.0 ==> s == 0.0
    ensures total > 0.0 ==> s * total == focus as real && s >= 0.0
  {
    if total > 0.0 then focus as real / total else 0.0
  }

  /** How `stop` ends: the subtraction from a `start_time` of None raises, or the score. */
  datatype StopResult = StartTimeMissing | Stopped(score: real)

  /**
   * The face loop of `step`: looks for eyes face by face and stops at the
   * first face that has some. `examined` counts the faces looked at.
   */
  method ScanFaces(faces: seq<Face>) returns (detected: bool, examined: nat)
    ensures detected == AnyEyes(faces)
    ensures examined <= |faces|
    ensures detected ==> examined > 0 && faces[examined - 1].eyes != []
    ensures !detected ==> examined == |faces|
    ensures forall k :: 0 <= k < examined - 1 ==> faces[k].eyes == []
  {
    detected, examined := false, 0;
    while examined < |faces|
      invariant examined <= |faces|
      invariant forall k :: 0 <= k < examined ==> faces[k].eyes == []
    {
      var face := faces[examined];
      examined := examined + 1;
      if |face.eyes| > 0 {
        detected := true;
        break;
      }
    }
  }

  class EyeTracker {
    var cap: Capture
    var focusTime: nat
    var startTime: Option<real>
    var running: bool

    /** A running tracker has a start time and a camera. */
    predicate Valid()
      reads this
    {
      running ==> startTime.Some? && cap.Camera?
    }

    /** `__init__`. */
    constructor ()
      ensures cap == NoCapture && focusTime == 0 && startTime == None && !running
      ensures Valid()
    {
      cap := NoCapture;
      focusTime := 0;
      startTime := None;
      running := false;
    }

    /**
     * `start`: opens the webcam; `opens` says whether it opened and `now` is
     * `time.time()`. On failure only the handle is replaced and the method
     * returns early.
     */
    method Start(opens: bool, now: real)
      requires Valid()
      modifies this
      ensures Valid()
      ensures cap == Camera(opens, false)
      ensures !opens ==> focusTime == old(focusTime) && startTime == old(startTime) && running == old(running)
      ensures opens ==> focusTime == 0 && startTime == Some(now) && running
    {
      cap := Camera(opens, false);
      if !opens {
        return;
      }
      focusTime := 0;
      startTime := Some(now);
      running := true;
    }

    /**
     * `step`: `frame` is what `cap.read()` would return, None for a failed read.
     * Only `focus_time` can change, and by at most 1.
     */
    method Step(frame: Option<seq<Face>>)
      requires Valid()
      modifies this
      ensures Valid()
      ensures focusTime == old(focusTime) + Gain(old(running), old(cap), frame)
      ensures cap == old(cap) && startTime == old(startTime) && running == old(running)
    {
      if !running {
        return;
      }
      if !Readable(cap) || frame.None? {
        return;
      }
      var detected, _ := ScanFaces(frame.value);
      if detected {
        focusTime := focusTime + 1;
      }
    }

    /**
     * `stop`, with `now` for `time.time()`: always clears `running`; then
     * releases the camera and returns the score, unless there is no start
     * time, in which case the subtraction raises before anything else.
     */
    method Stop(now: real) returns (result: StopResult)
      requires Valid()
      modifies this
      ensures Valid()
      ensures !running
      ensures focusTime == old(focusTime) && startTime == old(startTime)
      ensures old(startTime).None? ==> result == StartTimeMissing && cap == old(cap)
      ensures old(startTime).Some? ==>
        && result == Stopped(Score(focusTime, now - old(startTime).value))
        && cap == (if old(cap).Camera? then old(cap).(released := true) else NoCapture)
    {
      running := false;
      if startTime.None? {
        return StartTimeMissing;
      }
      var totalTime := now - startTime.value;
      if cap.Camera? {
        cap := cap.(released := true);
      }
      result := Stopped(Score(focusTime, totalTime));
    }
  }
}
