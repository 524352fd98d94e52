/** The warning state machine. States are Idle and Active; the first cheating
    frame only arms the warning, later cheating frames within WARNING_DURATION
    of arming present it, and the first cheating frame after that, or any frame
    without cheating, returns to Idle. */
module Warning {
  import opened Common

  const WARNING_DURATION: Time := 5.0

  /** Whether a warning is active, and when it was armed. The arming time is
      kept, unused, after the warning goes idle. */
  datatype WarningState = WarningState(active: bool, start: Time)

  /** The state before the first frame of a session. */
  const IDLE := WarningState(false, 0.0)

  /** The state after one frame, and whether that frame presents the warning
      (overlay, alert sound and log records). */
  datatype WarningStep = WarningStep(state: WarningState, present: bool)

  /** One frame of the warning machine. */
  function Update(w: WarningState, cheating: bool, now: Time): (r: WarningStep)
    ensures !cheating ==> !r.state.active && !r.present
    ensures cheating && !w.active ==> r.state == WarningState(true, now) && !r.present
    ensures r.present <==> cheating && w.active && now - w.start < WARNING_DURATION
    ensures r.present ==> r.state == w
    ensures w.active && now - w.start >= WARNING_DURATION ==> !r.state.active
    ensures r.state.active ==> cheating && (r.state.start == now || r.state == w)
  {
    if cheating then
      if !w.active then WarningStep(WarningState(true, now), false)
      else if now - w.start < WARNING_DURATION then WarningStep(w, true)
      else WarningStep(w.(active := false), false)
    else WarningStep(w.(active := false), false)
  }

  /** What the warning machine sees of a frame: the verdict, and when. */
  datatype Sample = Sample(cheating: bool, now: Time)

  /** The warning state before frame `i` of a run that starts from `w0`. */
  function StateBefore(w0: WarningState, frames: seq<Sample>, i: nat): WarningState
    requires i <= |frames|
  {
    if i == 0 then w0
    else Update(StateBefore(w0, frames, i - 1), frames[i - 1].cheating, frames[i - 1].now).state
  }

  /** Frame `k` of a run from `w0` presents the warning. */
  predicate PresentsAt(w0: WarningState, frames: seq<Sample>, k: nat)
    requires k < |frames|
  {
    Update(StateBefore(w0, frames, k), frames[k].cheating, frames[k].now).present
  }

  /** From an idle start, an active warning before frame `i` was armed by an
      earlier frame `j` that found the machine idle, and the machine has stayed
      active with that frame's time on every frame since. */
  lemma {:induction false} ArmedBy(w0: WarningState, frames: seq<Sample>, i: nat) returns (j: nat)
    requires i <= |frames| && !w0.active
    requires StateBefore(w0, frames, i).active
    ensures j < i && !StateBefore(w0, frames, j).active && frames[j].cheating
    ensures forall m :: j < m <= i ==> StateBefore(w0, frames, m) == WarningState(true, frames[j].now)
  {
    var before := StateBefore(w0, frames, i - 1);
    if !before.active {
      j := i - 1;
    } else {
      j := ArmedBy(w0, frames, i - 1);
      assert StateBefore(w0, frames, i) == before;
    }
  }

  /** Every presenting frame belongs to an episode: an earlier arming frame `j`
      that found the machine idle, saw cheating and did not present, followed by
      presenting frames only, all less than WARNING_DURATION after `j`. This is
      the one frame of latency between detection and presentation. */
  lemma PresentationFollowsArming(w0: WarningState, frames: seq<Sample>, k: nat) returns (j: nat)
    requires k < |frames| && !w0.active
    requires PresentsAt(w0, frames, k)
    ensures j < k && !StateBefore(w0, frames, j).active
    ensures frames[j].cheating && !PresentsAt(w0, frames, j)
    ensures forall m :: j < m <= k ==> PresentsAt(w0, frames, m) && frames[m].now - frames[j].now < WARNING_DURATION
  {
    j := ArmedBy(w0, frames, k);
    forall m | j < m <= k
      ensures PresentsAt(w0, frames, m) && frames[m].now - frames[j].now < WARNING_DURATION
    {
      if m < k {
        assert StateBefore(w0, frames, m + 1).active;
      }
    }
  }

  /** No presentation on the first frame of a run from an idle start, and none
      on a frame that follows a frame without cheating. */
  lemma PresentationNeedsCheatingBefore(w0: WarningState, frames: seq<Sample>, k: nat)
    requires k < |frames| && !w0.active
    ensures PresentsAt(w0, frames, k) ==> 0 < k && frames[k - 1].cheating && frames[k].cheating
  {
    if PresentsAt(w0, frames, k) {
      var j := PresentationFollowsArming(w0, frames, k);
      assert frames[k - 1].cheating;
    }
  }
}
