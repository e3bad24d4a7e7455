/**
 * The stand-alone eye tracker (eyes.py): a capture loop that keeps the last 30
 * eye centres and measures focus time as the part of the session in which eyes
 * were seen, tolerating gaps shorter than `focus_threshold`.
 */
module EyesMain {
  import opened Wrappers
  import opened Gaze

  /** `focus_threshold`, in seconds. */
  const FocusThreshold: real := 1.0

  /** The clock reading the next frame's duration is measured from. */
  function LastClock(start: real, shots: seq<Shot>): real
  {
    if shots == [] then start else shots[|shots| - 1].now
  }

  /** `last_eyes_detected_time`: the reading of the most recent frame with eyes, None before the first. */
  function LastDetection(shots: seq<Shot>): (t: Option<real>)
    ensures t.None? <==> forall i :: 0 <= i < |shots| ==> !AnyEyes(shots[i].faces)
    ensures t.Some? ==>
      exists i :: (0 <= i < |shots| && AnyEyes(shots[i].faces) && t.value == shots[i].now
                   && forall j :: i < j < |shots| ==> !AnyEyes(shots[j].faces))
  {
    if shots == [] then None
    else if AnyEyes(shots[|shots| - 1].faces) then Some(shots[|shots| - 1].now)
    else
      var t := LastDetection(shots[..|shots| - 1]);
      assert forall i :: 0 <= i < |shots| - 1 ==> shots[..|shots| - 1][i] == shots[i];
      t
  }

  /** A frame counts towards focus when it has eyes and the previous detection is recent enough. */
  predicate Counts(s: Shot, previous: Option<real>) {
    AnyEyes(s.faces) && (previous.None? || s.now - previous.value < FocusThreshold)
  }

  /** `focus_time` after the given frames. */
  function FocusTime(start: real, shots: seq<Shot>): (focus: real)
    ensures (forall i :: 0 <= i < |shots| ==> !AnyEyes(shots[i].faces)) ==> focus == 0.0
  {
    if shots == [] then 0.0
    else
      var prefix := shots[..|shots| - 1];
      var s := shots[|shots| - 1];
      FocusTime(start, prefix) + if Counts(s, LastDetection(prefix)) then s.now - LastClock(start, prefix) else 0.0
  }

  /** `time.time()` never goes below the start reading and never goes back. */
  predicate ClockMonotone(start: real, shots: seq<Shot>) {
    && (forall i :: 0 <= i < |shots| ==> start <= shots[i].now)
    && (forall i, j :: 0 <= i < j < |shots| ==> shots[i].now <= shots[j].now)
  }

  /** With a monotone clock, focus time lies between 0 and the elapsed time. */
  lemma {:induction false} FocusWithinElapsed(start: real, shots: seq<Shot>)
    requires ClockMonotone(start, shots)
    ensures 0.0 <= FocusTime(start, shots) <= LastClock(start, shots) - start
  {
    if shots != [] {
      var prefix := shots[..|shots| - 1];
      assert ClockMonotone(start, prefix);
      FocusWithinElapsed(start, prefix);
      assert LastClock(start, prefix) <= shots[|shots| - 1].now;
    }
  }

  /** `(focus_time / total_time) * 100 if total_time > 0 else 0`. */
  function FocusScore(focus: real, total: real): (score: real)
    ensures total <= 0.0 ==> score == 0.0
    ensures total > 0.0 ==> score * total == focus * 100.0
  {
    if total > 0.0 then focus / total * 100.0 else 0.0
  }

  /** A score of focus within elapsed time is a percentage. */
  lemma ScoreIsPercentage(focus: real, total: real)
    requires 0.0 <= focus <= total
    ensures 0.0 <= FocusScore(focus, total) <= 100.0
  {
    if total > 0.0 {
      assert focus / total <= total / total;
    }
  }

  /** What one more frame does to the quantities the loop keeps. */
  lemma Advance(start: real, shots: seq<Shot>, i: nat)
    requires i < |shots|
    ensures Trail(shots[..i + 1]) == Trail(shots[..i]) + Centres(shots[i].faces)
    ensures LastClock(start, shots[..i + 1]) == shots[i].now
    ensures LastDetection(shots[..i + 1]) ==
      if AnyEyes(shots[i].faces) then Some(shots[i].now) else LastDetection(shots[..i])
    ensures FocusTime(start, shots[..i + 1]) == FocusTime(start, shots[..i])
      + if Counts(shots[i], LastDetection(shots[..i])) then shots[i].now - LastClock(start, shots[..i]) else 0.0
  {
    assert shots[..i + 1][..i] == shots[..i];
  }

  /** One pass of the capture loop over frame `i`. */
  method ProcessFrame(start: real, shots: seq<Shot>, i: nat, positions: seq<Point>, totalTime: real, focusTime: real, lastDetected: Option<real>)
    returns (positions': seq<Point>, totalTime': real, focusTime': real, lastDetected': Option<real>)
    requires i < |shots|
    requires positions == Window(Trail(shots[..i]))
    requires totalTime == LastClock(start, shots[..i]) - start
    requires focusTime == FocusTime(start, shots[..i])
    requires lastDetected == LastDetection(shots[..i])
    ensures positions' == Window(Trail(shots[..i + 1]))
    ensures totalTime' == LastClock(start, shots[..i + 1]) - start
    ensures focusTime' == FocusTime(start, shots[..i + 1])
    ensures lastDetected' == LastDetection(shots[..i + 1])
  {
    var shot := shots[i];
    Advance(start, shots, i);
    WindowAppend(Trail(shots[..i]), Centres(shot.faces));
    var eyesDetected;
    positions', eyesDetected := RecordEyes(shot.faces, positions);
    var currentTime := shot.now;
    var frameDuration := currentTime - (totalTime + start);
    totalTime' := totalTime + frameDuration;
    focusTime', lastDetected' := focusTime, lastDetected;
    if eyesDetected {
      if lastDetected.None? || currentTime - lastDetected.value < FocusThreshold {
        focusTime' := focusTime + frameDuration;
      }
      lastDetected' := Some(currentTime);
    }
  }

  /** The loop's variables at the end of the session. */
  datatype Summary = Summary(positions: seq<Point>, totalTime: real, focusTime: real, lastDetected: Option<real>, score: real)

  /** How `main` ends: one of its two early returns, or the session summary. */
  datatype Outcome = CameraUnavailable | NoInitialFrame | Finished(summary: Summary)

  /**
   * `main`. `start` is the reading taken before the first frame, `shots` the
   * frames read until the read failed or 'q' was pressed.
   */
  method TrackFocus(cameraOpens: bool, initialFrameRead: bool, start: real, shots: seq<Shot>) returns (outcome: Outcome)
    ensures !cameraOpens ==> outcome == CameraUnavailable
    ensures cameraOpens && !initialFrameRead ==> outcome == NoInitialFrame
    ensures cameraOpens && initialFrameRead ==> outcome.Finished?
    ensures outcome.Finished? ==>
      var s := outcome.summary;
      && s.positions == Window(Trail(shots))
      && s.totalTime == LastClock(start, shots) - start
      && s.focusTime == FocusTime(start, shots)
      && s.lastDetected == LastDetection(shots)
      && s.score == FocusScore(s.focusTime, s.totalTime)
    ensures outcome.Finished? && ClockMonotone(start, shots) ==>
      0.0 <= outcome.summary.focusTime <= outcome.summary.totalTime && 0.0 <= outcome.summary.score <= 100.0
  {
    if !cameraOpens {
      return CameraUnavailable;
    }
    if !initialFrameRead {
      return NoInitialFrame;
    }
    var positions: seq<Point> := [];
    var totalTime: real := 0.0;
    var focusTime: real := 0.0;
    var lastDetected: Option<real> := None;
    for i := 0 to |shots|
      invariant positions == Window(Trail(shots[..i]))
      invariant totalTime == LastClock(start, shots[..i]) - start
      invariant focusTime == FocusTime(start, shots[..i])
      invariant lastDetected == LastDetection(shots[..i])
    {
      positions, totalTime, focusTime, lastDetected := ProcessFrame(start, shots, i, positions, totalTime, focusTime, lastDetected);
    }
    assert shots[..|shots|] == shots;
    var score := FocusScore(focusTime, totalTime);
    if ClockMonotone(start, shots) {
      FocusWithinElapsed(start, shots);
      ScoreIsPercentage(focusTime, totalTime);
    }
    outcome := Finished(Summary(positions, totalTime, focusTime, lastDetected, score));
  }
}
