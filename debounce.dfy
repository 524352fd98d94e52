/** The screenshot timer kept for each of the three signals (head, gaze,
    phone). A timer starts on the first adverse frame, fires once the signal
    has stayed adverse for SCREENSHOT_DELAY seconds, and is cleared by a firing
    or by any frame on which the signal is not adverse. */
module Debounce {
  import opened Common

  const SCREENSHOT_DELAY: Time := 3.0

  /** The timer after one frame, and whether that frame takes a screenshot. */
  datatype TimerStep = TimerStep(timer: Option<Time>, fired: bool)

  /** One frame of one timer. */
  function Tick(timer: Option<Time>, adverse: bool, now: Time): (r: TimerStep)
    ensures r.fired <==> adverse && timer.Some? && now - timer.value >= SCREENSHOT_DELAY
    ensures r.fired ==> r.timer.None?
    ensures adverse && timer.Some? && !r.fired ==> r.timer == timer
    ensures !adverse ==> r == TimerStep(None, false)
    ensures adverse && timer.None? ==> r == TimerStep(Some(now), false)
  {
    if !adverse then TimerStep(None, false)
    else if timer.None? then TimerStep(Some(now), false)
    else if now - timer.value >= SCREENSHOT_DELAY then TimerStep(None, true)
    else TimerStep(timer, false)
  }

  /** What one timer sees of a frame: whether its signal is adverse, and when. */
  datatype Sample = Sample(adverse: bool, now: Time)

  /** The timer before frame `i` of a run that starts from `t0`. */
  function TimerBefore(t0: Option<Time>, frames: seq<Sample>, i: nat): Option<Time>
    requires i <= |frames|
  {
    if i == 0 then t0
    else Tick(TimerBefore(t0, frames, i - 1), frames[i - 1].adverse, frames[i - 1].now).timer
  }

  /** Frame `k` of a run from `t0` takes a screenshot. */
  predicate FiresAt(t0: Option<Time>, frames: seq<Sample>, k: nat)
    requires k < |frames|
  {
    Tick(TimerBefore(t0, frames, k), frames[k].adverse, frames[k].now).fired
  }

  /** The clock never runs backwards along the run. */
  ghost predicate Nondecreasing(frames: seq<Sample>) {
    forall i, j :: 0 <= i <= j < |frames| ==> frames[i].now <= frames[j].now
  }

  /** Frames j..k are all adverse. */
  ghost predicate AdverseThroughout(frames: seq<Sample>, j: nat, k: nat)
    requires j <= k < |frames|
  {
    forall m :: j <= m <= k ==> frames[m].adverse
  }

  /** From a cleared timer, a set timer before frame `i` was started by an
      earlier frame `j` that found it clear, and it has held that frame's time on
      every frame since. */
  lemma {:induction false} TimerOrigin(frames: seq<Sample>, i: nat) returns (j: nat)
    requires i <= |frames|
    requires TimerBefore(None, frames, i).Some?
    ensures j < i && TimerBefore(None, frames, j).None?
    ensures forall m :: j < m <= i ==> TimerBefore(None, frames, m) == Some(frames[j].now)
  {
    var before := TimerBefore(None, frames, i - 1);
    if before.None? {
      j := i - 1;
    } else {
      j := TimerOrigin(frames, i - 1);
      assert TimerBefore(None, frames, i) == before;
    }
  }

  /** A timer held after frame `m` means the signal was adverse on `m` and `m`
      took no screenshot. */
  lemma HeldTimerMeansAdverse(frames: seq<Sample>, m: nat)
    requires m < |frames|
    requires TimerBefore(None, frames, m + 1).Some?
    ensures frames[m].adverse && !FiresAt(None, frames, m)
  {
  }

  /** Every screenshot closes a window of its own: an earlier frame `j` found
      the timer clear, the signal was adverse on every frame from `j` to the
      screenshot, nothing fired in between, and at least SCREENSHOT_DELAY seconds
      separate `j` from the screenshot. */
  lemma FireClosesWindow(frames: seq<Sample>, k: nat) returns (j: nat)
    requires k < |frames| && FiresAt(None, frames, k)
    ensures j < k && TimerBefore(None, frames, j).None?
    ensures AdverseThroughout(frames, j, k)
    ensures forall m :: j <= m < k ==> !FiresAt(None, frames, m)
    ensures frames[k].now - frames[j].now >= SCREENSHOT_DELAY
  {
    j := TimerOrigin(frames, k);
    forall m | j <= m < k
      ensures frames[m].adverse && !FiresAt(None, frames, m)
    {
      HeldTimerMeansAdverse(frames, m);
    }
  }

  /** Retrigger, not latch: after a screenshot at `k1`, the next one at `k2`
      needs a fresh start frame strictly after `k1` and another
      SCREENSHOT_DELAY seconds of uninterrupted adverse frames. */
  lemma FiresAreSeparated(frames: seq<Sample>, k1: nat, k2: nat) returns (j: nat)
    requires k1 < k2 < |frames|
    requires FiresAt(None, frames, k1) && FiresAt(None, frames, k2)
    ensures k1 < j < k2 && AdverseThroughout(frames, j, k2)
    ensures frames[k2].now - frames[j].now >= SCREENSHOT_DELAY
  {
    j := FireClosesWindow(frames, k2);
  }

  /** A screenshot at `k` follows an adverse frame immediately before it. */
  lemma FireFollowsAdversePair(frames: seq<Sample>, k: nat)
    requires k < |frames|
    ensures FiresAt(None, frames, k) ==> 0 < k && frames[k - 1].adverse && frames[k].adverse
  {
    if FiresAt(None, frames, k) {
      var j := FireClosesWindow(frames, k);
    }
  }

  /** A signal that is never adverse on two consecutive frames (for instance one
      that toggles every frame) never takes a screenshot. */
  lemma NoFireWhenToggling(frames: seq<Sample>)
    requires forall m :: 0 < m < |frames| ==> !(frames[m - 1].adverse && frames[m].adverse)
    ensures forall k :: 0 <= k < |frames| ==> !FiresAt(None, frames, k)
  {
    forall k | 0 <= k < |frames|
      ensures FiresAt(None, frames, k) ==> 0 < k && frames[k - 1].adverse && frames[k].adverse
    {
      FireFollowsAdversePair(frames, k);
    }
  }

  /** While nothing has fired, a run of adverse frames keeps the timer at the
      time of the first frame. */
  lemma {:induction false} TimerHeldSinceFirst(frames: seq<Sample>, i: nat)
    requires 1 <= i <= |frames|
    requires forall m :: 0 <= m < |frames| ==> frames[m].adverse
    requires forall m :: 0 <= m < i ==> !FiresAt(None, frames, m)
    ensures TimerBefore(None, frames, i) == Some(frames[0].now)
  {
    if i > 1 {
      TimerHeldSinceFirst(frames, i - 1);
      assert !FiresAt(None, frames, i - 1);
    }
  }

  /** A signal adverse on every frame of a run, from a clear timer, fires no
      later than the first frame at least SCREENSHOT_DELAY seconds after the
      run's first frame. */
  lemma SustainedSignalFires(frames: seq<Sample>, k: nat) returns (m: nat)
    requires 0 < k < |frames|
    requires forall i :: 0 <= i < |frames| ==> frames[i].adverse
    requires frames[k].now - frames[0].now >= SCREENSHOT_DELAY
    ensures m <= k && FiresAt(None, frames, m)
  {
    m := 0;
    while m < k && !FiresAt(None, frames, m)
      invariant m <= k
      invariant forall i :: 0 <= i < m ==> !FiresAt(None, frames, i)
    {
      m := m + 1;
    }
    if !FiresAt(None, frames, m) {
      TimerHeldSinceFirst(frames, k);
    }
  }

  /** Two screenshots of one run from a clear timer lie at least twice
      SCREENSHOT_DELAY after the run's first frame, when the clock never runs
      backwards. */
  lemma SecondFireNeedsTwoDelays(frames: seq<Sample>, k1: nat, k2: nat)
    requires k1 < k2 < |frames| && Nondecreasing(frames)
    requires FiresAt(None, frames, k1) && FiresAt(None, frames, k2)
    ensures frames[k2].now - frames[0].now >= 2.0 * SCREENSHOT_DELAY
  {
    var i := FireClosesWindow(frames, k1);
    var j := FiresAreSeparated(frames, k1, k2);
    assert frames[0].now <= frames[i].now && frames[k1].now <= frames[j].now;
  }

  /** A signal adverse on every frame of a run that lasts at least
      SCREENSHOT_DELAY but less than twice that, from a clear timer and with a
      clock that never runs backwards, takes exactly one screenshot. */
  lemma SustainedSignalFiresOnce(frames: seq<Sample>) returns (k: nat)
    requires |frames| > 1 && Nondecreasing(frames)
    requires forall m :: 0 <= m < |frames| ==> frames[m].adverse
    requires SCREENSHOT_DELAY <= frames[|frames| - 1].now - frames[0].now < 2.0 * SCREENSHOT_DELAY
    ensures k < |frames| && FiresAt(None, frames, k)
    ensures forall m :: 0 <= m < |frames| && FiresAt(None, frames, m) ==> m == k
  {
    k := SustainedSignalFires(frames, |frames| - 1);
    TwoFiresSpanTwoDelays(frames);
  }

  /** The run-level form of SecondFireNeedsTwoDelays: a run from a clear timer
      that takes two screenshots spans at least twice SCREENSHOT_DELAY. */
  lemma TwoFiresSpanTwoDelays(frames: seq<Sample>)
    requires |frames| > 0 && Nondecreasing(frames)
    ensures forall m1, m2 :: 0 <= m1 < m2 < |frames| && FiresAt(None, frames, m1) && FiresAt(None, frames, m2) ==>
              frames[|frames| - 1].now - frames[0].now >= 2.0 * SCREENSHOT_DELAY
  {
    forall m1, m2 | 0 <= m1 < m2 < |frames| && FiresAt(None, frames, m1) && FiresAt(None, frames, m2)
      ensures frames[|frames| - 1].now - frames[0].now >= 2.0 * SCREENSHOT_DELAY
    {
      SecondFireNeedsTwoDelays(frames, m1, m2);
      assert frames[m2].now <= frames[|frames| - 1].now;
    }
  }
}
