/** One proctoring session: the per-frame update of the main loop, as pure
    functions `NextState` and `FrameEffects` over the session's state and as the
    `Session` object whose `Step` method updates its fields in place and appends
    to the cheating log. */
module Proctor {
  import opened Common
  import opened Detection
  import Calibration
  import Debounce
  import Warning
  import CheatingLog

  /** Everything the main loop carries from one frame to the next. `head` is
      the only label that persists; gaze and phone are read afresh each frame. */
  datatype SessionState = SessionState(
    calibration: Calibration.CalibrationState,
    sessionStart: Time,
    head: string,
    headTimer: Option<Time>,
    eyeTimer: Option<Time>,
    mobileTimer: Option<Time>,
    warning: Warning.WarningState)

  /** The state of a session that started at `start`. */
  function Initial(start: Time): (s: SessionState)
    ensures s.sessionStart == start && !s.calibration.done && Calibration.Consistent(s.calibration)
    ensures !HeadAdverse(s.head) && s.headTimer.None? && s.eyeTimer.None? && s.mobileTimer.None?
    ensures !s.warning.active
  {
    SessionState(Calibration.UNCALIBRATED, start, LOOKING_AT_SCREEN, None, None, None, Warning.IDLE)
  }

  /** What one frame brings: the clock reading and the three classifier outcomes. */
  datatype FrameInput = FrameInput(now: Time, gaze: GazeResult, pose: PoseResult, mobile: MobileResult)

  /** A screenshot request, tagged with its signal and, for head and gaze, the label. */
  datatype Screenshot = HeadShot(direction: string) | EyeShot(direction: string) | MobileShot

  /** What the frame shows: the plain frame, the warning overlay (with the alert
      sound), or nothing at all (the frame that arms the warning). */
  datatype Display = ShowNormal | ShowWarning | ShowNothing

  /** The observable effects of one frame. */
  datatype Effects = Effects(screenshots: seq<Screenshot>, logged: seq<LogRecord>, display: Display)

  /** A frame's new state and effects together. */
  datatype Outcome = Outcome(state: SessionState, effects: Effects)

  /** The head label after the head-pose stage of a frame. During calibration
      only a failed call changes it (to "Error"); afterwards a direction reply
      replaces it and a failed call sets "Error"; otherwise it persists. */
  function HeadAfter(s: SessionState, now: Time, pose: PoseResult): (head: string)
    ensures !Calibration.PoseConsulted(s.calibration, s.sessionStart, now) ==> head == s.head
    ensures Calibration.PoseConsulted(s.calibration, s.sessionStart, now) && pose.PoseFailed? ==> head == ERROR
    ensures pose.NoPair? ==> head == s.head
    ensures !s.calibration.done && !pose.PoseFailed? ==> head == s.head
    ensures s.calibration.done && pose.PoseDirection? ==> head == pose.direction
  {
    if !s.calibration.done then
      if now - s.sessionStart <= Calibration.CALIBRATION_WINDOW && pose.PoseFailed? then ERROR
      else s.head
    else
      match pose
      case PoseDirection(d) => d
      case PoseFailed => ERROR
      case _ => s.head
  }

  /** The screenshots of a frame, head first, then gaze, then phone. */
  function Shots(headFired: bool, eyeFired: bool, mobileFired: bool, head: string, gaze: string): (shots: seq<Screenshot>)
    ensures HeadShot(head) in shots <==> headFired
    ensures EyeShot(gaze) in shots <==> eyeFired
    ensures MobileShot in shots <==> mobileFired
    ensures |shots| <= 3
  {
    (if headFired then [HeadShot(head)] else []) +
    (if eyeFired then [EyeShot(gaze)] else []) +
    (if mobileFired then [MobileShot] else [])
  }

  /** The position of each kind of screenshot in the order a frame takes them. */
  function ShotRank(x: Screenshot): nat {
    match x
    case HeadShot(_) => 0
    case EyeShot(_) => 1
    case MobileShot => 2
  }

  /** A frame's screenshots are among the three possible ones (head with the
      head label, gaze with the gaze label, phone), each at most once, in the
      order head, gaze, phone. */
  lemma ShotsShape(headFired: bool, eyeFired: bool, mobileFired: bool, head: string, gaze: string)
    ensures var shots := Shots(headFired, eyeFired, mobileFired, head, gaze);
      && (forall x :: x in shots ==> x in [HeadShot(head), EyeShot(gaze), MobileShot])
      && (forall i, j :: 0 <= i < j < |shots| ==> ShotRank(shots[i]) < ShotRank(shots[j]))
  {
  }

  /** The session state after one frame of the main loop. */
  function NextState(s: SessionState, f: FrameInput): SessionState {
    var head := HeadAfter(s, f.now, f.pose);
    var gaze := GazeLabel(f.gaze);
    var mobile := MobileFlag(f.mobile);
    SessionState(
      Calibration.Calibrate(s.calibration, s.sessionStart, f.now, f.pose),
      s.sessionStart,
      head,
      Debounce.Tick(s.headTimer, HeadAdverse(head), f.now).timer,
      Debounce.Tick(s.eyeTimer, GazeAdverse(gaze), f.now).timer,
      Debounce.Tick(s.mobileTimer, mobile, f.now).timer,
      Warning.Update(s.warning, Cheating(head, gaze, mobile), f.now).state)
  }

  /** The screenshots, log rows and display of one frame of the main loop,
      without camera, drawing or sound. At most one screenshot per signal; rows
      only on a frame that shows the warning, and the warning only while one
      armed less than WARNING_DURATION ago is active. */
  function FrameEffects(s: SessionState, f: FrameInput): (e: Effects)
    ensures |e.screenshots| <= 3
    ensures e.logged != [] ==> e.display == ShowWarning
    ensures e.display == ShowWarning ==> s.warning.active && f.now - s.warning.start < Warning.WARNING_DURATION
  {
    var head := HeadAfter(s, f.now, f.pose);
    var gaze := GazeLabel(f.gaze);
    var mobile := MobileFlag(f.mobile);
    var w := Warning.Update(s.warning, Cheating(head, gaze, mobile), f.now);
    Effects(
      Shots(Debounce.Tick(s.headTimer, HeadAdverse(head), f.now).fired,
            Debounce.Tick(s.eyeTimer, GazeAdverse(gaze), f.now).fired,
            Debounce.Tick(s.mobileTimer, mobile, f.now).fired,
            head, gaze),
      if w.present then FrameRecords(f.now, head, gaze, mobile) else [],
      if !w.state.active then ShowNormal else if w.present then ShowWarning else ShowNothing)
  }

  /** What every frame keeps true: the session start never changes, a
      baseline once taken stays, a running timer means its signal is adverse
      on this frame, and an active warning means this frame is cheating. */
  lemma FrameInvariants(s: SessionState, f: FrameInput)
    ensures var r := NextState(s, f);
      && r.sessionStart == s.sessionStart
      && (Calibration.Consistent(s.calibration) ==> Calibration.Consistent(r.calibration))
      && (r.headTimer.Some? ==> HeadAdverse(r.head))
      && (r.eyeTimer.Some? ==> GazeAdverse(GazeLabel(f.gaze)))
      && (r.mobileTimer.Some? ==> MobileFlag(f.mobile))
      && (r.warning.active ==> Cheating(r.head, GazeLabel(f.gaze), MobileFlag(f.mobile)))
  {
  }

  /** A failed gaze call reads as "Error": it never starts the gaze timer,
      takes a gaze screenshot or logs an eye-movement row. */
  lemma GazeFailureIsNeutral(s: SessionState, f: FrameInput)
    requires f.gaze.GazeFailed?
    ensures NextState(s, f).eyeTimer.None?
    ensures forall x :: x in FrameEffects(s, f).screenshots ==> !x.EyeShot?
    ensures forall r :: r in FrameEffects(s, f).logged ==> r.kind != EyeMovement
  {
    FrameRecordsShape(f.now, HeadAfter(s, f.now, f.pose), ERROR, MobileFlag(f.mobile));
  }

  /** A failed phone-detector call reads as "no phone": it never starts the
      phone timer, takes a phone screenshot or logs a phone row. */
  lemma MobileFailureIsNeutral(s: SessionState, f: FrameInput)
    requires f.mobile.MobileFailed?
    ensures NextState(s, f).mobileTimer.None?
    ensures forall x :: x in FrameEffects(s, f).screenshots ==> !x.MobileShot?
    ensures forall r :: r in FrameEffects(s, f).logged ==> r.kind != MobileDetection
  {
    FrameRecordsShape(f.now, HeadAfter(s, f.now, f.pose), GazeLabel(f.gaze), false);
  }

  /** A failed head-pose call on a frame that consults it reads as "Error": it
      clears the head timer and takes no head screenshot and logs no head row. */
  lemma PoseFailureIsNeutral(s: SessionState, f: FrameInput)
    requires f.pose.PoseFailed? && Calibration.PoseConsulted(s.calibration, s.sessionStart, f.now)
    ensures NextState(s, f).head == ERROR && NextState(s, f).headTimer.None?
    ensures forall x :: x in FrameEffects(s, f).screenshots ==> !x.HeadShot?
    ensures forall r :: r in FrameEffects(s, f).logged ==> r.kind != HeadMisalignment
  {
    FrameRecordsShape(f.now, ERROR, GazeLabel(f.gaze), MobileFlag(f.mobile));
  }

  /** Three failed calls on a frame that consults the head-pose classifier
      leave the warning idle and show the plain frame, with no screenshot and
      no log row. */
  lemma FailedFrameIsQuiet(s: SessionState, f: FrameInput)
    requires f.gaze.GazeFailed? && f.mobile.MobileFailed? && f.pose.PoseFailed?
    requires Calibration.PoseConsulted(s.calibration, s.sessionStart, f.now)
    ensures !NextState(s, f).warning.active
    ensures FrameEffects(s, f) == Effects([], [], ShowNormal)
  {
  }

  /** What a frame shows, and when it logs: the plain frame exactly when no
      warning is active afterwards; nothing at all exactly on the arming frame;
      the warning exactly on a frame that presents it, and only such a frame
      appends log rows, one per adverse signal. */
  lemma DisplayAndLog(s: SessionState, f: FrameInput)
    ensures var o := Outcome(NextState(s, f), FrameEffects(s, f));
            var cheating := Cheating(o.state.head, GazeLabel(f.gaze), MobileFlag(f.mobile));
      && (o.effects.display == ShowNormal <==> !o.state.warning.active)
      && (o.effects.display == ShowNothing <==> cheating && !s.warning.active)
      && (o.effects.display == ShowWarning <==>
            cheating && s.warning.active && f.now - s.warning.start < Warning.WARNING_DURATION)
      && (o.effects.logged != [] <==> o.effects.display == ShowWarning)
      && (o.effects.display == ShowWarning ==>
            o.effects.logged == FrameRecords(f.now, o.state.head, GazeLabel(f.gaze), MobileFlag(f.mobile)))
  {
  }

  /** The three timers are independent of each other and of the warning: a
      timer's next value and its screenshot depend only on its own previous
      value and its own signal. */
  lemma TimersAreIndependent(s: SessionState, f: FrameInput, w: Warning.WarningState,
                             head: Option<Time>, eye: Option<Time>, mobile: Option<Time>)
    ensures var o := Outcome(NextState(s, f), FrameEffects(s, f));
            var s' := s.(warning := w, headTimer := head, eyeTimer := eye, mobileTimer := mobile);
            var o' := Outcome(NextState(s', f), FrameEffects(s', f));
      && o'.effects.screenshots == Shots(Debounce.Tick(head, HeadAdverse(o.state.head), f.now).fired,
                                         Debounce.Tick(eye, GazeAdverse(GazeLabel(f.gaze)), f.now).fired,
                                         Debounce.Tick(mobile, MobileFlag(f.mobile), f.now).fired,
                                         o.state.head, GazeLabel(f.gaze))
      && (head == s.headTimer ==> o'.state.headTimer == o.state.headTimer)
      && (eye == s.eyeTimer ==> o'.state.eyeTimer == o.state.eyeTimer)
      && (mobile == s.mobileTimer ==> o'.state.mobileTimer == o.state.mobileTimer)
      && (s.headTimer == head && s.eyeTimer == eye && s.mobileTimer == mobile ==>
            o'.effects.screenshots == o.effects.screenshots)
  {
  }

  /** The session state before frame `i` of a run from `s0`. */
  function StateBefore(s0: SessionState, frames: seq<FrameInput>, i: nat): SessionState
    requires i <= |frames|
  {
    if i == 0 then s0 else NextState(StateBefore(s0, frames, i - 1), frames[i - 1])
  }

  /** The effects of frame `k` of a run from `s0`. */
  function EffectsAt(s0: SessionState, frames: seq<FrameInput>, k: nat): Effects
    requires k < |frames|
  {
    FrameEffects(StateBefore(s0, frames, k), frames[k])
  }

  /** The rows each frame of a run logs, frame by frame. */
  function RowsOf(s0: SessionState, frames: seq<FrameInput>): (rows: seq<seq<LogRecord>>)
    ensures |rows| == |frames|
  {
    seq(|frames|, k requires 0 <= k < |frames| => EffectsAt(s0, frames, k).logged)
  }

  /** The log after the first `i` frames of a run from `s0`, starting from
      the rows `base` it already held: each frame appends its own rows. */
  function LogOf(base: seq<LogRecord>, s0: SessionState, frames: seq<FrameInput>, i: nat): seq<LogRecord>
    requires i <= |frames|
  {
    CheatingLog.Appended(base, RowsOf(s0, frames), i)
  }

  /** One more frame of a run: its state and log extend the run so far by
      exactly that frame's transition. */
  lemma RunAdvances(base: seq<LogRecord>, s0: SessionState, frames: seq<FrameInput>, i: nat)
    requires i < |frames|
    ensures var s := StateBefore(s0, frames, i);
            var f := FrameInput(frames[i].now, frames[i].gaze, frames[i].pose, frames[i].mobile);
      && StateBefore(s0, frames, i + 1) == NextState(s, f)
      && LogOf(base, s0, frames, i + 1) == LogOf(base, s0, frames, i) + FrameEffects(s, f).logged
  {
    assert FrameInput(frames[i].now, frames[i].gaze, frames[i].pose, frames[i].mobile) == frames[i];
    assert RowsOf(s0, frames)[i] == EffectsAt(s0, frames, i).logged;
  }

  /** A log that already held `base` ends up as `base` followed by exactly the
      rows the run appends. */
  lemma LogOfBase(base: seq<LogRecord>, s0: SessionState, frames: seq<FrameInput>, i: nat)
    requires i <= |frames|
    ensures LogOf(base, s0, frames, i) == base + LogOf([], s0, frames, i)
  {
    CheatingLog.AppendedKeepsBase(base, RowsOf(s0, frames), i);
  }

  /** The clock never runs backwards along the run. */
  ghost predicate Chronological(frames: seq<FrameInput>) {
    forall i, j :: 0 <= i <= j < |frames| ==> frames[i].now <= frames[j].now
  }

  /** Frame `k` takes a screenshot of the given signal. */
  predicate HasHeadShot(e: Effects) { exists x :: x in e.screenshots && x.HeadShot? }
  predicate HasEyeShot(e: Effects) { exists x :: x in e.screenshots && x.EyeShot? }
  predicate HasMobileShot(e: Effects) { exists x :: x in e.screenshots && x.MobileShot? }

  /** What the head timer sees of a run: the head label after each frame. */
  function HeadView(s0: SessionState, frames: seq<FrameInput>): (v: seq<Debounce.Sample>)
    ensures |v| == |frames|
  {
    seq(|frames|, m requires 0 <= m < |frames| =>
          Debounce.Sample(HeadAdverse(StateBefore(s0, frames, m + 1).head), frames[m].now))
  }

  /** What the gaze timer sees of a run. */
  function EyeView(frames: seq<FrameInput>): (v: seq<Debounce.Sample>)
    ensures |v| == |frames|
  {
    seq(|frames|, m requires 0 <= m < |frames| => Debounce.Sample(GazeAdverse(GazeLabel(frames[m].gaze)), frames[m].now))
  }

  /** What the phone timer sees of a run. */
  function MobileView(frames: seq<FrameInput>): (v: seq<Debounce.Sample>)
    ensures |v| == |frames|
  {
    seq(|frames|, m requires 0 <= m < |frames| => Debounce.Sample(MobileFlag(frames[m].mobile), frames[m].now))
  }

  /** What the warning machine sees of a run: the cheating verdict of each frame. */
  function WarningView(s0: SessionState, frames: seq<FrameInput>): (v: seq<Warning.Sample>)
    ensures |v| == |frames|
  {
    seq(|frames|, m requires 0 <= m < |frames| =>
          Warning.Sample(Cheating(StateBefore(s0, frames, m + 1).head, GazeLabel(frames[m].gaze),
                                  MobileFlag(frames[m].mobile)), frames[m].now))
  }

  /** What calibration sees of a run. */
  function CalibrationView(frames: seq<FrameInput>): (v: seq<Calibration.Sample>)
    ensures |v| == |frames|
  {
    seq(|frames|, m requires 0 <= m < |frames| => Calibration.Sample(frames[m].now, frames[m].pose))
  }

  /** Along a whole run, each of the three timers evolves exactly as its own
      machine does on what it sees of the frames. */
  lemma {:induction false} TimersFollowTheirMachines(s0: SessionState, frames: seq<FrameInput>, i: nat)
    requires i <= |frames|
    ensures StateBefore(s0, frames, i).headTimer == Debounce.TimerBefore(s0.headTimer, HeadView(s0, frames), i)
    ensures StateBefore(s0, frames, i).eyeTimer == Debounce.TimerBefore(s0.eyeTimer, EyeView(frames), i)
    ensures StateBefore(s0, frames, i).mobileTimer == Debounce.TimerBefore(s0.mobileTimer, MobileView(frames), i)
  {
    HeadTimerFollows(s0, frames, i);
    EyeTimerFollows(s0, frames, i);
    MobileTimerFollows(s0, frames, i);
  }

  lemma {:induction false} HeadTimerFollows(s0: SessionState, frames: seq<FrameInput>, i: nat)
    requires i <= |frames|
    ensures StateBefore(s0, frames, i).headTimer == Debounce.TimerBefore(s0.headTimer, HeadView(s0, frames), i)
  {
    if i > 0 {
      HeadTimerFollows(s0, frames, i - 1);
    }
  }

  lemma {:induction false} EyeTimerFollows(s0: SessionState, frames: seq<FrameInput>, i: nat)
    requires i <= |frames|
    ensures StateBefore(s0, frames, i).eyeTimer == Debounce.TimerBefore(s0.eyeTimer, EyeView(frames), i)
  {
    if i > 0 {
      EyeTimerFollows(s0, frames, i - 1);
    }
  }

  lemma {:induction false} MobileTimerFollows(s0: SessionState, frames: seq<FrameInput>, i: nat)
    requires i <= |frames|
    ensures StateBefore(s0, frames, i).mobileTimer == Debounce.TimerBefore(s0.mobileTimer, MobileView(frames), i)
  {
    if i > 0 {
      MobileTimerFollows(s0, frames, i - 1);
    }
  }

  /** Along a whole run, the warning evolves exactly as the warning machine
      does on the frames' cheating verdicts. */
  lemma {:induction false} WarningFollowsItsMachine(s0: SessionState, frames: seq<FrameInput>, i: nat)
    requires i <= |frames|
    ensures StateBefore(s0, frames, i).warning == Warning.StateBefore(s0.warning, WarningView(s0, frames), i)
  {
    if i > 0 {
      WarningFollowsItsMachine(s0, frames, i - 1);
    }
  }

  /** Along a whole run from a fresh calibration, calibration evolves exactly
      as its own machine does on the frames' clock readings and pose replies. */
  lemma {:induction false} CalibrationFollowsItsMachine(s0: SessionState, frames: seq<FrameInput>, i: nat)
    requires i <= |frames| && s0.calibration == Calibration.UNCALIBRATED
    ensures StateBefore(s0, frames, i).calibration ==
              Calibration.StateBefore(s0.sessionStart, CalibrationView(frames), i)
  {
    if i > 0 {
      CalibrationFollowsItsMachine(s0, frames, i - 1);
      StartIsConstant(s0, frames, i - 1);
    }
  }

  /** The head label persists across frames: along a run, frames whose
      head-pose reply is neither a direction label nor a failure (no pair, or
      angles) leave it exactly as it was, whether or not calibration is done. */
  lemma {:induction false} HeadDirectionPersists(s0: SessionState, frames: seq<FrameInput>, j: nat, i: nat)
    requires j <= i <= |frames|
    requires forall m :: j <= m < i ==> !frames[m].pose.PoseDirection? && !frames[m].pose.PoseFailed?
    ensures StateBefore(s0, frames, i).head == StateBefore(s0, frames, j).head
  {
    if i > j {
      HeadDirectionPersists(s0, frames, j, i - 1);
      HeadKept(StateBefore(s0, frames, i - 1), frames[i - 1]);
    }
  }

  /** A frame whose head-pose reply is neither a direction label nor a
      failure keeps the head label. */
  lemma HeadKept(s: SessionState, f: FrameInput)
    requires !f.pose.PoseDirection? && !f.pose.PoseFailed?
    ensures NextState(s, f).head == s.head
  {
  }

  /** The session start never changes along a run. */
  lemma {:induction false} StartIsConstant(s0: SessionState, frames: seq<FrameInput>, i: nat)
    requires i <= |frames|
    ensures StateBefore(s0, frames, i).sessionStart == s0.sessionStart
  {
    if i > 0 {
      StartIsConstant(s0, frames, i - 1);
    }
  }

  /** A frame takes a screenshot of a signal exactly when that signal's
      timer fires on it. */
  lemma FrameShotsAreFirings(s: SessionState, f: FrameInput)
    ensures HasHeadShot(FrameEffects(s, f)) <==> Debounce.Tick(s.headTimer, HeadAdverse(NextState(s, f).head), f.now).fired
    ensures HasEyeShot(FrameEffects(s, f)) <==> Debounce.Tick(s.eyeTimer, GazeAdverse(GazeLabel(f.gaze)), f.now).fired
    ensures HasMobileShot(FrameEffects(s, f)) <==> Debounce.Tick(s.mobileTimer, MobileFlag(f.mobile), f.now).fired
  {
    var head, gaze := NextState(s, f).head, GazeLabel(f.gaze);
    var shots := FrameEffects(s, f).screenshots;
    assert HasHeadShot(FrameEffects(s, f)) ==> HeadShot(head) in shots;
    assert HasEyeShot(FrameEffects(s, f)) ==> EyeShot(gaze) in shots;
  }

  /** Along a run, a frame's screenshots are exactly the firings of the three
      timers as each runs on what it sees of the frames. */
  lemma ShotsAreFirings(s0: SessionState, frames: seq<FrameInput>, k: nat)
    requires k < |frames|
    ensures HasHeadShot(EffectsAt(s0, frames, k)) <==> Debounce.FiresAt(s0.headTimer, HeadView(s0, frames), k)
    ensures HasEyeShot(EffectsAt(s0, frames, k)) <==> Debounce.FiresAt(s0.eyeTimer, EyeView(frames), k)
    ensures HasMobileShot(EffectsAt(s0, frames, k)) <==> Debounce.FiresAt(s0.mobileTimer, MobileView(frames), k)
  {
    TimersFollowTheirMachines(s0, frames, k);
    FrameShotsAreFirings(StateBefore(s0, frames, k), frames[k]);
    assert NextState(StateBefore(s0, frames, k), frames[k]) == StateBefore(s0, frames, k + 1);
  }

  /** A phone flag that is never up on two consecutive frames (for instance
      one that toggles every frame) never produces a phone screenshot. */
  lemma TogglingPhoneNeverScreenshots(s0: SessionState, frames: seq<FrameInput>)
    requires s0.mobileTimer.None?
    requires forall m :: 0 < m < |frames| ==> !(MobileFlag(frames[m - 1].mobile) && MobileFlag(frames[m].mobile))
    ensures forall k :: 0 <= k < |frames| ==> !HasMobileShot(EffectsAt(s0, frames, k))
  {
    var v := MobileView(frames);
    Debounce.NoFireWhenToggling(v);
    forall k | 0 <= k < |frames|
      ensures !HasMobileShot(EffectsAt(s0, frames, k))
    {
      ShotsAreFirings(s0, frames, k);
    }
  }

  /** Once calibration is done it stays done along a run. */
  lemma {:induction false} StaysCalibrated(s0: SessionState, frames: seq<FrameInput>, i: nat)
    requires i <= |frames| && s0.calibration.done
    ensures StateBefore(s0, frames, i).calibration == s0.calibration
  {
    if i > 0 {
      StaysCalibrated(s0, frames, i - 1);
    }
  }

  /** A calibrated session whose head-pose classifier keeps answering the same
      adverse direction while the gaze stays centred, for at least
      SCREENSHOT_DELAY but less than twice that, takes exactly one head
      screenshot and no gaze screenshot. */
  lemma SteadyHeadTurnScreenshotsOnce(s0: SessionState, frames: seq<FrameInput>, direction: string) returns (k: nat)
    requires s0.calibration.done && s0.headTimer.None?
    requires HeadAdverse(direction)
    requires |frames| > 1 && Chronological(frames)
    requires forall m :: 0 <= m < |frames| ==>
               frames[m].pose == PoseDirection(direction) && frames[m].gaze == Gaze(LOOKING_CENTER)
    requires Debounce.SCREENSHOT_DELAY <= frames[|frames| - 1].now - frames[0].now < 2.0 * Debounce.SCREENSHOT_DELAY
    ensures k < |frames| && HasHeadShot(EffectsAt(s0, frames, k))
    ensures forall m :: 0 <= m < |frames| && HasHeadShot(EffectsAt(s0, frames, m)) ==> m == k
    ensures forall m :: 0 <= m < |frames| ==> !HasEyeShot(EffectsAt(s0, frames, m))
  {
    var v := HeadView(s0, frames);
    forall m | 0 <= m < |frames|
      ensures v[m].adverse
    {
      StaysCalibrated(s0, frames, m);
    }
    k := Debounce.SustainedSignalFiresOnce(v);
    forall m | 0 <= m < |frames|
      ensures HasHeadShot(EffectsAt(s0, frames, m)) <==> Debounce.FiresAt(None, v, m)
      ensures !HasEyeShot(EffectsAt(s0, frames, m))
    {
      ShotsAreFirings(s0, frames, m);
      assert !EyeView(frames)[m].adverse;
    }
  }

  /** The one frame of latency, along a session: every frame that presents the
      warning is preceded by a frame that showed nothing (the arming frame),
      with only presenting frames, all within WARNING_DURATION of arming, in
      between. */
  lemma SessionPresentationFollowsArming(s0: SessionState, frames: seq<FrameInput>, k: nat) returns (j: nat)
    requires k < |frames| && !s0.warning.active
    requires EffectsAt(s0, frames, k).display == ShowWarning
    ensures j < k && EffectsAt(s0, frames, j).display == ShowNothing
    ensures forall m :: j < m <= k ==>
              EffectsAt(s0, frames, m).display == ShowWarning &&
              frames[m].now - frames[j].now < Warning.WARNING_DURATION
  {
    var v := WarningView(s0, frames);
    forall m | 0 <= m < |frames|
      ensures EffectsAt(s0, frames, m).display == ShowWarning <==> Warning.PresentsAt(s0.warning, v, m)
      ensures EffectsAt(s0, frames, m).display == ShowNothing <==>
                v[m].cheating && !Warning.StateBefore(s0.warning, v, m).active
    {
      DisplayFollowsWarningMachine(s0, frames, m);
    }
    j := Warning.PresentationFollowsArming(s0.warning, v, k);
  }

  /** A frame shows the warning exactly when the warning machine presents on
      the frame's verdict, and nothing exactly when that verdict arms it. */
  lemma FrameDisplayFollowsUpdate(s: SessionState, f: FrameInput)
    ensures var cheating := Cheating(NextState(s, f).head, GazeLabel(f.gaze), MobileFlag(f.mobile));
      && (FrameEffects(s, f).display == ShowWarning <==> Warning.Update(s.warning, cheating, f.now).present)
      && (FrameEffects(s, f).display == ShowNothing <==> cheating && !s.warning.active)
  {
  }

  /** A frame of a run shows the warning exactly when the warning machine
      presents, and nothing exactly when it arms. */
  lemma DisplayFollowsWarningMachine(s0: SessionState, frames: seq<FrameInput>, m: nat)
    requires m < |frames|
    ensures var v := WarningView(s0, frames);
      && (EffectsAt(s0, frames, m).display == ShowWarning <==> Warning.PresentsAt(s0.warning, v, m))
      && (EffectsAt(s0, frames, m).display == ShowNothing <==>
            v[m].cheating && !Warning.StateBefore(s0.warning, v, m).active)
  {
    WarningFollowsItsMachine(s0, frames, m);
    FrameDisplayFollowsUpdate(StateBefore(s0, frames, m), frames[m]);
    assert NextState(StateBefore(s0, frames, m), frames[m]) == StateBefore(s0, frames, m + 1);
  }

  /** From a fresh session, the first frame `k` past the calibration window
      fixes the baseline for the rest of the run: the last angles read inside
      the window, or zero angles when no reading succeeded. */
  lemma {:induction false} SessionCalibration(start: Time, frames: seq<FrameInput>, k: nat)
    requires k < |frames|
    requires forall m :: 0 <= m < k ==> frames[m].now - start <= Calibration.CALIBRATION_WINDOW
    requires frames[k].now - start > Calibration.CALIBRATION_WINDOW
    ensures forall i :: k < i <= |frames| ==>
              StateBefore(Initial(start), frames, i).calibration ==
                Calibration.CalibrationState(true, Some(Calibration.LastReading(CalibrationView(frames)[..k])
                                                          .GetOr(Calibration.DEFAULT_ANGLES)))
  {
    Calibration.CalibrationOutcome(start, CalibrationView(frames), k);
    forall i | k < i <= |frames|
      ensures StateBefore(Initial(start), frames, i).calibration ==
                Calibration.StateBefore(start, CalibrationView(frames), i)
    {
      CalibrationFollowsItsMachine(Initial(start), frames, i);
    }
  }

  /** Every row a frame logs carries that frame's time. */
  lemma LoggedAtFrameTime(s: SessionState, f: FrameInput)
    ensures CheatingLog.StampedAt(FrameEffects(s, f).logged, f.now)
  {
    FrameRecordsShape(f.now, NextState(s, f).head, GazeLabel(f.gaze), MobileFlag(f.mobile));
  }

  /** With a clock that never runs backwards, the log a run appends is in
      time order and no row is later than the run's last frame. */
  lemma LogIsChronological(s0: SessionState, frames: seq<FrameInput>, i: nat)
    requires i <= |frames| && Chronological(frames)
    ensures CheatingLog.TimeOrdered(LogOf([], s0, frames, i))
    ensures i > 0 ==> CheatingLog.NoLaterThan(LogOf([], s0, frames, i), frames[i - 1].now)
  {
    var rows := RowsOf(s0, frames);
    var times := seq(|frames|, k requires 0 <= k < |frames| => frames[k].now);
    forall k | 0 <= k < |rows|
      ensures CheatingLog.StampedAt(rows[k], times[k])
    {
      LoggedAtFrameTime(StateBefore(s0, frames, k), frames[k]);
    }
    CheatingLog.AppendedInTimeOrder(rows, times, i);
  }

  /** The session object of the main loop: the loop's globals as fields, and
      the cheating log file as a sequence of rows. */
  class Session {
    const sessionStart: Time
    var calibrationDone: bool
    var calibratedAngles: Option<Angles>
    var headDirection: string
    var headTimer: Option<Time>
    var eyeTimer: Option<Time>
    var mobileTimer: Option<Time>
    var warningActive: bool
    var warningStart: Time
    var log: seq<LogRecord>

    /** The fields as a session state. */
    function State(): SessionState
      reads this
    {
      SessionState(Calibration.CalibrationState(calibrationDone, calibratedAngles), sessionStart,
                   headDirection, headTimer, eyeTimer, mobileTimer,
                   Warning.WarningState(warningActive, warningStart))
    }

    /** Calibration has a baseline once it is done. */
    ghost predicate Valid()
      reads this
    {
      Calibration.Consistent(State().calibration)
    }

    /** A session starting at `start`, appending to a log that already holds `previous`. */
    constructor (start: Time, previous: seq<LogRecord>)
      ensures Valid() && State() == Initial(start) && log == previous
    {
      sessionStart := start;
      calibrationDone := false;
      calibratedAngles := None;
      headDirection := LOOKING_AT_SCREEN;
      headTimer, eyeTimer, mobileTimer := None, None, None;
      warningActive := false;
      warningStart := 0.0;
      log := previous;
    }

    /** One pass of the main loop at time `now` with the three classifier
        outcomes of the frame. */
    method Step(now: Time, gaze: GazeResult, pose: PoseResult, mobile: MobileResult) returns (effects: Effects)
      requires Valid()
      modifies this
      ensures Valid()
      ensures State() == NextState(old(State()), FrameInput(now, gaze, pose, mobile))
      ensures effects == FrameEffects(old(State()), FrameInput(now, gaze, pose, mobile))
      ensures log == old(log) + effects.logged
    {
      // Eye detection: a failed call reads as "Error".
      var gazeDirection := ERROR;
      if gaze.Gaze? {
        gazeDirection := gaze.direction;
      }

      ReadHeadPose(now, pose);

      // Phone detection: a failed call reads as "no phone".
      var mobileDetected := false;
      if mobile.Mobile? {
        mobileDetected := mobile.detected;
      }

      var before := log;
      var presenting := UpdateWarning(now, gazeDirection, mobileDetected);
      var shots := TickTimers(now, gazeDirection, mobileDetected);

      // Display: the plain frame only when no warning is active.
      var display := ShowNothing;
      if !warningActive {
        display := ShowNormal;
      } else if presenting {
        display := ShowWarning;
      }
      effects := Effects(shots, log[|before|..], display);
      assert log == before + effects.logged;
      assert gazeDirection == GazeLabel(gaze) && mobileDetected == MobileFlag(mobile);
    }

    /** The head-pose stage: calibration while the window is open, then
        tracking against the baseline. */
    method ReadHeadPose(now: Time, pose: PoseResult)
      requires Valid()
      modifies this`calibrationDone, this`calibratedAngles, this`headDirection
      ensures Valid()
      ensures State().calibration == Calibration.Calibrate(old(State()).calibration, sessionStart, now, pose)
      ensures headDirection == HeadAfter(old(State()), now, pose)
    {
      if !calibrationDone {
        if now - sessionStart <= Calibration.CALIBRATION_WINDOW {
          match pose
          case PoseAngles(a) => calibratedAngles := Some(a);
          case PoseFailed => headDirection := ERROR;
          case _ =>
        } else {
          calibrationDone := true;
          if calibratedAngles.None? {
            calibratedAngles := Some(Calibration.DEFAULT_ANGLES);
          }
        }
      } else {
        match pose
        case PoseDirection(d) => headDirection := d;
        case PoseFailed => headDirection := ERROR;
        case _ =>
      }
    }

    /** The warning stage. The first cheating frame only arms the warning, and
        every presenting frame logs again, roughly once per frame for the whole
        window; both are kept as the main loop has them. */
    method UpdateWarning(now: Time, gazeDirection: string, mobileDetected: bool) returns (presenting: bool)
      modifies this`warningActive, this`warningStart, this`log
      ensures var w := Warning.Update(old(State()).warning, Cheating(headDirection, gazeDirection, mobileDetected), now);
              State().warning == w.state && presenting == w.present &&
              log == old(log) + (if presenting then FrameRecords(now, headDirection, gazeDirection, mobileDetected) else [])
    {
      presenting := false;
      if Cheating(headDirection, gazeDirection, mobileDetected) {
        if !warningActive {
          warningActive := true;
          warningStart := now;
        } else if now - warningStart < Warning.WARNING_DURATION {
          presenting := true;
          if HeadAdverse(headDirection) {
            log := log + [LogRecord(now, HeadMisalignment, headDirection)];
          }
          if GazeAdverse(gazeDirection) {
            log := log + [LogRecord(now, EyeMovement, gazeDirection)];
          }
          if mobileDetected {
            log := log + [LogRecord(now, MobileDetection, PHONE_DETECTED)];
          }
        } else {
          warningActive := false;
        }
      } else {
        warningActive := false;
      }
    }

    /** The screenshot stage: one debounce timer per signal. */
    method TickTimers(now: Time, gazeDirection: string, mobileDetected: bool) returns (shots: seq<Screenshot>)
      modifies this`headTimer, this`eyeTimer, this`mobileTimer
      ensures var ht := Debounce.Tick(old(headTimer), HeadAdverse(headDirection), now);
              var et := Debounce.Tick(old(eyeTimer), GazeAdverse(gazeDirection), now);
              var mt := Debounce.Tick(old(mobileTimer), mobileDetected, now);
              headTimer == ht.timer && eyeTimer == et.timer && mobileTimer == mt.timer &&
              shots == Shots(ht.fired, et.fired, mt.fired, headDirection, gazeDirection)
    {
      var headShots: seq<Screenshot> := [];
      if HeadAdverse(headDirection) {
        if headTimer.None? {
          headTimer := Some(now);
        } else if now - headTimer.value >= Debounce.SCREENSHOT_DELAY {
          headShots := [HeadShot(headDirection)];
          headTimer := None;
        }
      } else {
        headTimer := None;
      }
      var eyeShots: seq<Screenshot> := [];
      if GazeAdverse(gazeDirection) {
        if eyeTimer.None? {
          eyeTimer := Some(now);
        } else if now - eyeTimer.value >= Debounce.SCREENSHOT_DELAY {
          eyeShots := [EyeShot(gazeDirection)];
          eyeTimer := None;
        }
      } else {
        eyeTimer := None;
      }
      var mobileShots: seq<Screenshot> := [];
      if mobileDetected {
        if mobileTimer.None? {
          mobileTimer := Some(now);
        } else if now - mobileTimer.value >= Debounce.SCREENSHOT_DELAY {
          mobileShots := [MobileShot];
          mobileTimer := None;
        }
      } else {
        mobileTimer := None;
      }
      shots := headShots + eyeShots + mobileShots;
    }

    /** The main loop over a sequence of frames: one Step per frame, in order. */
    method Run(frames: seq<FrameInput>)
      requires Valid()
      modifies this
      ensures Valid()
      ensures State() == StateBefore(old(State()), frames, |frames|)
      ensures log == LogOf(old(log), old(State()), frames, |frames|)
      ensures log == old(log) + LogOf([], old(State()), frames, |frames|)
      ensures Chronological(frames) ==> CheatingLog.TimeOrdered(log[|old(log)|..])
    {
      ghost var s0 := State();
      ghost var log0 := log;
      for i := 0 to |frames|
        invariant Valid()
        invariant State() == StateBefore(s0, frames, i)
        invariant log == LogOf(log0, s0, frames, i)
      {
        Advance(s0, log0, frames, i);
      }
      LogOfBase(log0, s0, frames, |frames|);
      assert log[|log0|..] == LogOf([], s0, frames, |frames|);
      if Chronological(frames) {
        LogIsChronological(s0, frames, |frames|);
      }
    }

    /** Frame `i` of the main loop over `frames`, from a session that was in
        state `s0` with log `log0` before the loop. */
    method Advance(ghost s0: SessionState, ghost log0: seq<LogRecord>, frames: seq<FrameInput>, i: nat)
      requires Valid() && i < |frames|
      requires State() == StateBefore(s0, frames, i) && log == LogOf(log0, s0, frames, i)
      modifies this
      ensures Valid()
      ensures State() == StateBefore(s0, frames, i + 1) && log == LogOf(log0, s0, frames, i + 1)
    {
      RunAdvances(log0, s0, frames, i);
      var effects := Step(frames[i].now, frames[i].gaze, frames[i].pose, frames[i].mobile);
    }
  }
}
