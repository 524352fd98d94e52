/** The one-shot calibration stage: for CALIBRATION_WINDOW seconds after the
    session starts it keeps the latest head-pose angles read, then latches as
    done, falling back to zero angles if nothing was ever read. */
module Calibration {
  import opened Common
  import opened Detection

  const CALIBRATION_WINDOW: Time := 5.0
  const DEFAULT_ANGLES := Angles(0.0, 0.0, 0.0)

  /** Whether calibration has finished, and the baseline taken so far. */
  datatype CalibrationState = CalibrationState(done: bool, baseline: Option<Angles>)

  /** The state at session start: not done, no baseline. */
  const UNCALIBRATED := CalibrationState(false, None)

  /** Calibration has a baseline once it is done. */
  predicate Consistent(c: CalibrationState) {
    c.done ==> c.baseline.Some?
  }

  /** The head-pose classifier is called this frame: either calibration is
      over, or the window is still open. On the frame that closes the window
      it is not called. */
  predicate PoseConsulted(c: CalibrationState, sessionStart: Time, now: Time) {
    c.done || now - sessionStart <= CALIBRATION_WINDOW
  }

  /** One frame of calibration; `pose` is what the classifier answered when it
      was called without a baseline. */
  function Calibrate(c: CalibrationState, sessionStart: Time, now: Time, pose: PoseResult): (r: CalibrationState)
    ensures c.done ==> r == c
    ensures Consistent(c) ==> Consistent(r)
    ensures !c.done && now - sessionStart <= CALIBRATION_WINDOW ==>
              !r.done && r.baseline == (if pose.PoseAngles? then Some(pose.angles) else c.baseline)
    ensures !c.done && now - sessionStart > CALIBRATION_WINDOW ==>
              r == CalibrationState(true, Some(c.baseline.GetOr(DEFAULT_ANGLES)))
  {
    if c.done then c
    else if now - sessionStart <= CALIBRATION_WINDOW then
      (if pose.PoseAngles? then c.(baseline := Some(pose.angles)) else c)
    else
      CalibrationState(true, if c.baseline.None? then Some(DEFAULT_ANGLES) else c.baseline)
  }

  /** What calibration sees of a frame: when, and the head-pose answer. */
  datatype Sample = Sample(now: Time, pose: PoseResult)

  /** The state before frame `i` of a session that started at `sessionStart`. */
  function StateBefore(sessionStart: Time, frames: seq<Sample>, i: nat): CalibrationState
    requires i <= |frames|
  {
    if i == 0 then UNCALIBRATED
    else Calibrate(StateBefore(sessionStart, frames, i - 1), sessionStart, frames[i - 1].now, frames[i - 1].pose)
  }

  /** The angles of the last successful reading among `frames`, if any. */
  function LastReading(frames: seq<Sample>): Option<Angles> {
    if frames == [] then None
    else if frames[|frames| - 1].pose.PoseAngles? then Some(frames[|frames| - 1].pose.angles)
    else LastReading(frames[..|frames| - 1])
  }

  /** While the window is open, calibration is not done and its baseline is the
      last successful reading so far. */
  lemma {:induction false} BaselineTracksLastReading(sessionStart: Time, frames: seq<Sample>, i: nat)
    requires i <= |frames|
    requires forall m :: 0 <= m < i ==> frames[m].now - sessionStart <= CALIBRATION_WINDOW
    ensures StateBefore(sessionStart, frames, i) == CalibrationState(false, LastReading(frames[..i]))
  {
    if i > 0 {
      BaselineTracksLastReading(sessionStart, frames, i - 1);
      assert frames[..i][..i - 1] == frames[..i - 1];
    }
  }

  /** Once done, calibration never runs again and the baseline never changes. */
  lemma {:induction false} CalibrationLatches(sessionStart: Time, frames: seq<Sample>, i: nat, k: nat)
    requires i <= k <= |frames|
    requires StateBefore(sessionStart, frames, i).done
    ensures StateBefore(sessionStart, frames, k) == StateBefore(sessionStart, frames, i)
  {
    if k > i {
      CalibrationLatches(sessionStart, frames, i, k - 1);
    }
  }

  /** The first frame `k` past the window finishes calibration: from then on the
      baseline is the last reading taken inside the window, or zero angles when
      there was none, and it stays so for the rest of the session. */
  lemma CalibrationOutcome(sessionStart: Time, frames: seq<Sample>, k: nat)
    requires k < |frames|
    requires forall m :: 0 <= m < k ==> frames[m].now - sessionStart <= CALIBRATION_WINDOW
    requires frames[k].now - sessionStart > CALIBRATION_WINDOW
    ensures forall i :: k < i <= |frames| ==>
              StateBefore(sessionStart, frames, i) ==
                CalibrationState(true, Some(LastReading(frames[..k]).GetOr(DEFAULT_ANGLES)))
  {
    BaselineTracksLastReading(sessionStart, frames, k);
    forall i | k < i <= |frames|
      ensures StateBefore(sessionStart, frames, i) == StateBefore(sessionStart, frames, k + 1)
    {
      CalibrationLatches(sessionStart, frames, k + 1, i);
    }
  }

  /** Calibration is never done before some frame has fallen outside the window. */
  lemma {:induction false} DoneOnlyAfterWindow(sessionStart: Time, frames: seq<Sample>, i: nat) returns (m: nat)
    requires i <= |frames|
    requires StateBefore(sessionStart, frames, i).done
    ensures m < i && frames[m].now - sessionStart > CALIBRATION_WINDOW
  {
    if StateBefore(sessionStart, frames, i - 1).done {
      m := DoneOnlyAfterWindow(sessionStart, frames, i - 1);
    } else {
      m := i - 1;
    }
  }
}
