# Real-time cheating detection: the per-frame session update

This project models the main loop of a webcam proctoring tool (`main.py`). Every
frame, three classifiers run on the camera image: gaze, head pose and phone.
Their answers feed four small pieces of state:

- **Calibration.** For the first 5 seconds of the session the loop keeps the
  latest head-pose angles as a baseline. Afterwards it latches "done", falling
  back to zero angles if no reading ever succeeded.
- **Cheating verdict.** The head label, the gaze label and the phone flag make
  one boolean. The label `"Error"` (a failed call) counts as neutral.
- **Warning machine.** This has two states, Idle and Active. The first cheating
  frame only arms the warning. Later cheating frames within 5 seconds present it
  and write one log row per adverse signal. A frame without cheating, or one
  after the 5 seconds, returns it to Idle.
- **Debounce timers.** There is one timer each for head, gaze and phone. A timer
  starts on the first adverse frame. It requests a screenshot once its signal
  has been adverse for 3 seconds, and then clears.

The display choice follows the warning. The plain frame is shown only when no
warning is active after the update. The frame that arms the warning shows
nothing.

Two behaviours of the loop are kept as written, not corrected:

- the one frame of latency between arming and presenting the warning;
- a new set of log rows on every presenting frame, roughly once per frame for
  the whole warning window.

The model has these modules:

- `Common`: time as a real number, and `Option`.
- `CheatingLog`: the log as a sequence of rows that frames append to in batches, and its time order.
- `Detection`: classifier outcomes, their neutral labels, the cheating verdict
  and the rows of a presenting frame.
- `Calibration`, `Debounce`, `Warning`: each stage as a one-frame function,
  plus its run over a sequence of frames and the properties of that run.
- `Proctor`: the session state and the pure one-frame functions `NextState`
  and `FrameEffects`. It also holds the class `Session`, whose fields are the
  loop's globals plus the cheating log. `Session.Step` performs one frame in
  place and is proved to agree with `NextState` and `FrameEffects`.
  `Session.Run` loops `Step` over a sequence of frames. The session-level
  lemmas show that each timer, the warning and calibration, run inside the
  session, behave exactly as their stand-alone machines.

## Model

| member | source | states |
|---|---|---|
| `Detection.GazeLabel` | main.py:79-85 | A failed gaze call reads as "Error"; otherwise the classifier's label is used. |
| `Detection.MobileFlag` | main.py:109-115 | A failed phone-detector call reads as "no phone"; otherwise the detector's flag is used. |
| `Detection.Cheating` | main.py:117-122 | The frame-level verdict: the head is adverse, or the gaze is adverse, or a phone is seen. Its characterisation is stated by `CheatingCharacterised`. |
| `Detection.CheatingCharacterised` | main.py:117-122 | The verdict holds iff the head label is outside {"Looking at Screen", "Error"}, the gaze label is outside {"Looking Center", "Error"}, or a phone is seen. "Error" acts like the neutral label of its signal, and all-failed inputs are not cheating. |
| `Detection.FrameRecords` | main.py:132-137 | A presenting frame writes at most three rows, and at least one exactly when the verdict holds. There is a head row with the head label iff the head is adverse, a gaze row with the gaze label iff the gaze is adverse, and a "Phone Detected" row iff a phone is seen. |
| `Detection.FrameRecordsShape` | main.py:132-137 | Every row carries the frame's time and is one of the three possible rows. The rows come in the order head, gaze, phone. |
| `Calibration.Calibrate` | main.py:89-99 | Once done, calibration is unchanged. Inside the window it stays not done, and a successful reading replaces the baseline. The first frame past the window latches done, with the baseline or zero angles. It keeps "done implies a baseline". |
| `Calibration.BaselineTracksLastReading` | main.py:91-94 | While every frame is inside the window, calibration is not done and its baseline is the last successful reading so far. |
| `Calibration.CalibrationLatches` | main.py:89-96 | Once calibration is done, every later state equals that one: it never re-runs, and the baseline never changes. |
| `Calibration.CalibrationOutcome` | main.py:95-99 | After the first frame past the window, the state is done, with the last reading inside the window as the baseline, or zero angles when there was none. |
| `Calibration.DoneOnlyAfterWindow` | main.py:91-96 | Calibration is done only after some earlier frame fell outside the window. |
| `Debounce.Tick` | main.py:144-152 | A non-adverse frame clears the timer and takes no screenshot. An adverse frame with a clear timer starts it at `now` and takes none. A screenshot is taken iff the signal is adverse and the timer is at least 3 s old, and it clears the timer. An adverse frame whose running timer does not fire keeps it unchanged. |
| `Debounce.TimerOrigin` | main.py:144-152 | A running timer was started by an earlier frame that found it clear, and it has held that frame's time ever since. |
| `Debounce.HeldTimerMeansAdverse` | main.py:144-152 | A timer still held after a frame means that frame was adverse and took no screenshot. |
| `Debounce.FireClosesWindow` | main.py:144-152 | Every screenshot ends a window that opened at an earlier frame with a clear timer. The signal was adverse throughout the window, nothing else fired in it, and it spans at least 3 s. |
| `Debounce.FiresAreSeparated` | main.py:144-152 | Retrigger, not latch: between two screenshots there is a fresh start frame strictly after the first, followed by at least 3 s of uninterrupted adverse frames. |
| `Debounce.FireFollowsAdversePair` | main.py:144-152 | A screenshot frame is adverse and directly follows an adverse frame. |
| `Debounce.NoFireWhenToggling` | main.py:144-152 | A signal that is never adverse on two consecutive frames never takes a screenshot. |
| `Debounce.TimerHeldSinceFirst` | main.py:144-147 | While nothing has fired on an all-adverse run, the timer holds the time of the first frame. |
| `Debounce.SustainedSignalFires` | main.py:144-150 | An all-adverse run takes a screenshot no later than the first frame at least 3 s after its start. |
| `Debounce.SecondFireNeedsTwoDelays` | main.py:144-152 | With a clock that never runs backwards, a second screenshot lies at least 6 s after the run's start. |
| `Debounce.TwoFiresSpanTwoDelays` | main.py:144-152 | A run with two screenshots spans at least twice the 3 s delay. |
| `Debounce.SustainedSignalFiresOnce` | main.py:144-152 | An all-adverse run lasting at least 3 s but under 6 s takes exactly one screenshot. |
| `Warning.Update` | main.py:125-141 | A non-cheating frame forces Idle. A cheating frame while Idle arms the warning at `now`, without presenting. A frame presents iff it is cheating and the warning is Active and under 5 s old, and the state then stays as it was. An Active warning 5 s old or more goes Idle. |
| `Warning.ArmedBy` | main.py:125-128 | An active warning was armed by an earlier cheating frame that found the machine idle, and it has kept that frame's time since. |
| `Warning.PresentationFollowsArming` | main.py:125-141 | Every presenting frame is preceded by an arming frame that saw cheating and did not present. Between them are only presenting frames, all less than 5 s after arming. |
| `Warning.PresentationNeedsCheatingBefore` | main.py:125-131 | From Idle, a presenting frame is never the first frame and always follows a cheating frame. |
| `Proctor.Initial` | main.py:27-43 | A fresh session state starts its clock at the given time and is uncalibrated, with a consistent calibration. Its head label is not adverse, its three timers are clear and its warning is idle. |
| `Proctor.HeadAfter` | main.py:88-107 | The head label changes only on frames that call the head-pose classifier. A failed call sets "Error". A reply that is not a pair keeps the label. During calibration every reply other than a failure keeps the label. After calibration a direction reply sets it. |
| `Proctor.Shots` | main.py:143-172 | A frame has a head screenshot with the head label iff the head timer fired. The same holds for gaze with the gaze label, and for the phone. There are at most three screenshots. |
| `Proctor.ShotsShape` | main.py:143-172 | Nothing else is screenshotted: each screenshot is one of the three possible ones for the frame's labels, with no repeats, in the order head, gaze, phone. |
| `Proctor.NextState` | main.py:73-179 | The session state after one frame: calibration, head label, the three timers and the warning. Its properties are stated by `FrameInvariants`, `Session.Step` and the run lemmas below. |
| `Proctor.FrameEffects` | main.py:124-176 | A frame takes at most three screenshots. It logs only when it shows the warning, and it shows the warning only while a warning armed less than 5 s ago is active. |
| `Proctor.FrameInvariants` | main.py:73-179 | One frame keeps the session start and the consistency of calibration. Afterwards a running head, gaze or phone timer means that signal is adverse on the frame, and an active warning means the frame's verdict is cheating. |
| `Proctor.GazeFailureIsNeutral` | main.py:83-85 | A failed gaze call clears the gaze timer, and takes no gaze screenshot and no eye-movement row. |
| `Proctor.MobileFailureIsNeutral` | main.py:113-115 | A failed phone-detector call clears the phone timer, and takes no phone screenshot and no phone row. |
| `Proctor.PoseFailureIsNeutral` | main.py:105-107 | A failed head-pose call sets the head label to "Error", clears the head timer, and takes no head screenshot and no head row. |
| `Proctor.FailedFrameIsQuiet` | main.py:117-141 | When all three calls fail, the warning goes Idle and the frame shows the plain image, with no screenshot and no row. |
| `Proctor.HeadKept` | main.py:100-107 | A frame whose head-pose reply is neither a direction label nor a failure keeps the head label, whether or not calibration is done. |
| `Proctor.HeadDirectionPersists` | main.py:100-107 | Along a run, a stretch of frames none of which gets a direction label or a failure from the head-pose classifier leaves the head label exactly as it was before the stretch. |
| `Proctor.DisplayAndLog` | main.py:125-176 | The plain frame is shown iff no warning is active afterwards. Nothing is shown iff the frame arms the warning. The warning is shown iff the frame presents it. Only a presenting frame logs, and it logs exactly its frame rows. |
| `Proctor.TimersAreIndependent` | main.py:143-172 | A frame's screenshots and each timer's next value depend only on that timer's own value and signal, not on the other timers or on the warning. |
| `Proctor.TimersFollowTheirMachines` | main.py:143-172 | Along a run, each session timer equals its stand-alone timer run on what it sees of the frames. |
| `Proctor.HeadTimerFollows` | main.py:143-152 | Along a run, the head timer equals the stand-alone timer run on the head labels after each frame. |
| `Proctor.EyeTimerFollows` | main.py:154-162 | Along a run, the gaze timer equals the stand-alone timer run on the frames' gaze labels. |
| `Proctor.MobileTimerFollows` | main.py:164-172 | Along a run, the phone timer equals the stand-alone timer run on the frames' phone flags. |
| `Proctor.WarningFollowsItsMachine` | main.py:124-141 | Along a run, the session's warning equals the warning machine run on the frames' verdicts. |
| `Proctor.CalibrationFollowsItsMachine` | main.py:87-99 | Along a run from a fresh session, calibration equals the stand-alone calibration run on the frames' times and pose replies. |
| `Proctor.FrameShotsAreFirings` | main.py:143-172 | A frame takes a screenshot of a signal exactly when that signal's timer fires on it. |
| `Proctor.ShotsAreFirings` | main.py:143-172 | Along a run, a frame's screenshots are exactly the firings of the stand-alone timers. |
| `Proctor.TogglingPhoneNeverScreenshots` | main.py:164-172 | A phone flag that is never up on two consecutive frames never causes a phone screenshot. |
| `Proctor.StaysCalibrated` | main.py:89-96 | Along a run, a finished calibration never changes. |
| `Proctor.SteadyHeadTurnScreenshotsOnce` | main.py:100-162 | A calibrated session with a steady adverse head direction and centred gaze, lasting at least 3 s but under 6 s, takes exactly one head screenshot and no gaze screenshot. |
| `Proctor.FrameDisplayFollowsUpdate` | main.py:124-176 | A frame shows the warning exactly when the warning machine presents, and nothing exactly when it arms. |
| `Proctor.DisplayFollowsWarningMachine` | main.py:124-176 | Along a run, a frame's display follows the stand-alone warning machine in the same way. |
| `Proctor.SessionPresentationFollowsArming` | main.py:124-176 | In a session, every frame that shows the warning follows a frame that showed nothing. In between, every frame shows the warning, within 5 s of the frame that showed nothing. |
| `Proctor.SessionCalibration` | main.py:89-99 | From a fresh session, every state after the first frame past the window is done. Its baseline is the last reading inside the window, or zero angles. |
| `CheatingLog.AppendedKeepsBase` | main.py:65-69 | Appending batches of rows to a log never touches what it already held: the result is the old log followed by exactly the appended rows. |
| `CheatingLog.AppendedInTimeOrder` | main.py:65-69 | Batches stamped with times that never decrease append into a time-ordered log, with no row later than the last batch's time. |
| `Proctor.LogOfBase` | main.py:65-69 | The log after a run is the rows the file already held, followed by exactly the rows the run logs. |
| `Proctor.LoggedAtFrameTime` | main.py:65-69 | Every row a frame logs carries that frame's time. |
| `Proctor.LogIsChronological` | main.py:65-69 | With a clock that never runs backwards, the rows a run logs are in time order, and none is later than the last frame. |
| `Proctor.Session.constructor` | main.py:27-43 | A new session is uncalibrated, with no baseline. Its head label is "Looking at Screen", its timers are clear and its warning is idle. Its log is whatever the file already held. |
| `Proctor.Session.Step` | main.py:73-179 | One frame changes the fields exactly as `NextState` does and returns exactly `FrameEffects`. It appends exactly the returned rows to the log, and keeps "done implies a baseline". |
| `Proctor.Session.ReadHeadPose` | main.py:87-107 | The head-pose stage performs one calibration step and sets the head label as `HeadAfter` says. |
| `Proctor.Session.UpdateWarning` | main.py:124-141 | The warning stage moves the warning fields as `Warning.Update` does. It reports whether the frame presents, and appends the frame rows exactly when it does. |
| `Proctor.Session.TickTimers` | main.py:143-172 | The screenshot stage moves each timer as `Debounce.Tick` does and returns the screenshots of the firings. |
| `Proctor.Session.Run` | main.py:73-179 | Looping `Step` over frames leaves the fields in the state of the run, and the log extended by each frame's rows in order. The old log is kept as a prefix, and with a clock that never runs backwards the rows the run appends are in time order. |

## Left out

- Camera capture, the failed-read exit, the quit key and window teardown are left out. They are I/O and loop control; `Session.Run` takes the frames as a sequence.
- Drawing is left out: text labels, the overlay blending and the window itself. The display is one of three values: plain frame, warning, or nothing.
- The alert sound is not modelled on its own. It always comes with the warning display.
- The CSV file is not modelled: its creation, its header row, the per-write open and close, and the `strftime` timestamp. The log is a sequence of rows holding the time as a number, the kind and the detail text.
- Screenshot file names and image writing are left out. A screenshot is a value carrying its signal and, for head and gaze, the label.
- The classifiers themselves are not modelled. Each is an opaque outcome for the frame: a label or angles, a reply that is not a pair, or a failure. The phone detector's network and confidence threshold (mobile_detection.py) are not part of this model. Neither is the dependence of head-pose replies on the baseline.
- Time uses one clock reading per frame. The loop reads the wall clock several times per frame; a single reading is taken for all of them. Time is a real number. Run lemmas that need a clock that never runs backwards state it as a precondition.
- Proctor.HeadAfter: a head-pose reply whose second element has the wrong kind for the mode is treated as "not a pair". That means angles after calibration, or a direction label during it. The loop would store such a value anyway, in the head label or the baseline.
- On the frame that closes the calibration window, the head-pose classifier is not called, so that frame's pose input is ignored. This is the loop's own behaviour.
- The image content of a screenshot is not modelled.
