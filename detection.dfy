/** The three classifier outcomes of one frame, their degradation to neutral
    labels, the cheating predicate and the log records of a presenting frame. */
module Detection {
  import opened Common

  const ERROR := "Error"
  const LOOKING_AT_SCREEN := "Looking at Screen"
  const LOOKING_CENTER := "Looking Center"
  const PHONE_DETECTED := "Phone Detected"

  /** Head-pose angles (pitch, yaw, roll) as the head-pose classifier reports them. */
  datatype Angles = Angles(pitch: real, yaw: real, roll: real)

  /** What the gaze classifier did this frame: a label, or it raised. */
  datatype GazeResult = Gaze(direction: string) | GazeFailed

  /** What the head-pose classifier did this frame. Called without a baseline
      (calibration) it answers a pair whose second part is the angles; called
      with one it answers a pair whose second part is a direction label. It may
      also answer something that is not a pair, or raise. */
  datatype PoseResult =
    | PoseAngles(angles: Angles)
    | PoseDirection(direction: string)
    | NoPair
    | PoseFailed

  /** What the phone detector did this frame: a flag, or it raised. */
  datatype MobileResult = Mobile(detected: bool) | MobileFailed

  /** A failed gaze call degrades to the neutral label "Error". */
  function GazeLabel(g: GazeResult): (gaze: string)
    ensures g.GazeFailed? ==> gaze == ERROR
    ensures g.Gaze? ==> gaze == g.direction
  {
    match g
    case Gaze(d) => d
    case GazeFailed => ERROR
  }

  /** A failed phone-detector call degrades to "no phone". */
  function MobileFlag(m: MobileResult): (detected: bool)
    ensures m.MobileFailed? ==> !detected
    ensures m.Mobile? ==> detected == m.detected
  {
    match m
    case Mobile(b) => b
    case MobileFailed => false
  }

  /** The head signal is adverse: neither facing the screen nor an error. */
  predicate HeadAdverse(head: string) {
    head != LOOKING_AT_SCREEN && head != ERROR
  }

  /** The gaze signal is adverse: neither centred nor an error. */
  predicate GazeAdverse(gaze: string) {
    gaze != LOOKING_CENTER && gaze != ERROR
  }

  /** The frame-level cheating verdict over the current three signals. */
  predicate Cheating(head: string, gaze: string, mobile: bool) {
    HeadAdverse(head) || GazeAdverse(gaze) || mobile
  }

  /** The cheating verdict by cases on the labels, and "Error" counting as the
      neutral label of its signal. */
  lemma CheatingCharacterised(head: string, gaze: string, mobile: bool)
    ensures Cheating(head, gaze, mobile) <==>
              head !in {LOOKING_AT_SCREEN, ERROR} || gaze !in {LOOKING_CENTER, ERROR} || mobile
    ensures Cheating(ERROR, gaze, mobile) == Cheating(LOOKING_AT_SCREEN, gaze, mobile)
    ensures Cheating(head, ERROR, mobile) == Cheating(head, LOOKING_CENTER, mobile)
    ensures !Cheating(ERROR, ERROR, false)
  {
  }

  /** The kinds of record the cheating log holds. */
  datatype EventKind = HeadMisalignment | EyeMovement | MobileDetection

  /** The position of each kind in the order a presenting frame writes them. */
  function Rank(k: EventKind): nat {
    match k
    case HeadMisalignment => 0
    case EyeMovement => 1
    case MobileDetection => 2
  }

  /** One row of the cheating log: when, what kind, and the detail column. */
  datatype LogRecord = LogRecord(at: Time, kind: EventKind, details: string)

  /** The rows a presenting frame appends: one per adverse signal, head first,
      then gaze, then phone. */
  function FrameRecords(now: Time, head: string, gaze: string, mobile: bool): (rs: seq<LogRecord>)
    ensures |rs| <= 3
    ensures rs != [] <==> Cheating(head, gaze, mobile)
    ensures LogRecord(now, HeadMisalignment, head) in rs <==> HeadAdverse(head)
    ensures LogRecord(now, EyeMovement, gaze) in rs <==> GazeAdverse(gaze)
    ensures LogRecord(now, MobileDetection, PHONE_DETECTED) in rs <==> mobile
  {
    (if HeadAdverse(head) then [LogRecord(now, HeadMisalignment, head)] else []) +
    (if GazeAdverse(gaze) then [LogRecord(now, EyeMovement, gaze)] else []) +
    (if mobile then [LogRecord(now, MobileDetection, PHONE_DETECTED)] else [])
  }

  /** The rows of a presenting frame all carry the frame's time, are among the
      three possible rows, and come in the order head, gaze, phone. */
  lemma FrameRecordsShape(now: Time, head: string, gaze: string, mobile: bool)
    ensures var rs := FrameRecords(now, head, gaze, mobile);
      && (forall r :: r in rs ==>
            r.at == now &&
            r in [LogRecord(now, HeadMisalignment, head), LogRecord(now, EyeMovement, gaze),
                  LogRecord(now, MobileDetection, PHONE_DETECTED)])
      && (forall i, j :: 0 <= i < j < |rs| ==> Rank(rs[i].kind) < Rank(rs[j].kind))
  {
  }
}
