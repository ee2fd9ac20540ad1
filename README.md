# Podcast Timer countdown logic, in Dafny

This project models the countdown core of Podcast Timer (`podcast_timer.py`), a desktop utility
with two countdowns: the **Episode Timer** (top zone) and the **Speaker Timer** (bottom zone).
Each timer zone (`TimerZone`) counts down once per second. As the elapsed fraction
`1 - remain/total` grows, the zone moves through four stages: great, then yellow at 0.75, then
red at 0.90, then done when the remaining time reaches zero. Each stage has its own status text
and colours. When a stage change is reported, the application (`PodcastTimerApp`) asks for tones.
The application starts, pauses, resumes and resets both zones together. "Next speaker" refills
only the speaker zone. An edit opens the minute and second entries of both zones.

Files:

- `wrappers.dfy`: the `Option` type.
- `stages.dfy`: the stage classifier.
  - `StageAt` is the source's own expression over the real-valued fraction.
  - `Classify` is the same classification in integers (`10*elapsed >= 9*total`, `4*elapsed >= 3*total`).
  - `ClassifyMatchesFraction` proves the two agree on every input.
  - The source compares binary floating-point numbers; the model uses exact reals.
- `feedback.dfy`: the rest of the display and sound logic.
  - The `_apply_stage` mapping (`Describe`, `Status`).
  - The tone requests of `_tick` (`Beeps`, `Cues`, `DispatchCues`).
  - The mm:ss split and the `02d` formatting of `_refresh_display` and `_start_edit_local`.
  - The palette choice of `get_palette`.
- `timer.dfy`: one zone.
  - `ZoneState` is the zone's state.
  - One pure function per zone method: `Ticked`, `WithTime`, `Started`, `Stopped`, `SpeakerReset`, `StageChecked`, `EditEntered`, `EditOpened`, `EditCommitted`, `EditCancelled`.
  - Lemmas about those functions.
  - The class `TimerZone`, whose methods update its fields in place. Each method's postcondition equates `State()` with the matching function of `old(State())`.
- `session.dfy`: the controller.
  - `AppState` is the controller's state.
  - One pure function per callback, plus `Step` and `Replay` over a command sequence.
  - The session invariant `Consistent`, with a proof that every command keeps it.
  - The class `PodcastTimerApp`, which owns two `TimerZone` objects.

Some behaviours are easy to idealise away; the model follows the code:

- `set_time` leaves the stage unchanged.
- `stop_timer` does not refill the remaining time; `_on_reset` does that afterwards (`Timer.StopKeepsRemaining`).
- A zero-length timer never reaches done, because `tick` refuses to run when nothing remains (`Timer.ZeroLengthStaysGreat`).
- The two-zone commit `_on_ok_both` is not atomic. Each zone commits on its own, and the Settings button is unlocked even when a commit failed (`Session.OkBothCommitsSeparately`).
- Pressing Escape in one zone's entries cancels only that zone's edit. It leaves the Settings button locked.
- After an `_on_ok_both` whose episode entries did not parse, the SAVE button commits only the episode zone (`Session.PodcastTimerApp.OnSave`).

## Model

| member | source | states |
|---|---|---|
| Stages.ClassifyMatchesFraction | podcast_timer.py:520-530 | the source's real-valued classifier (done at 0, red at pct >= 0.90, yellow at pct >= 0.75, pct = 0 for a zero-length timer) equals the integer classifier on every input |
| Stages.ClassifyMonotone | podcast_timer.py:526-530 | counting down never lowers the stage's rank |
| Stages.ClassifyBands | podcast_timer.py:526-530 | with time left the stage is not done; it is great iff more than a quarter remains, red iff at most a tenth remains |
| Feedback.SpeakerStatusNamesStage | podcast_timer.py:578-583 | the speaker status text is never blank and different stages give different texts |
| Feedback.EpisodeStatus | podcast_timer.py:551-566 | the episode status is blank iff great outside the half-way band, "HALF WAY THERE" iff great inside it; the fraction only matters while great |
| Feedback.LookIgnoresFraction | podcast_timer.py:535-605 | apart from the episode zone's great stage, everything `_apply_stage` shows depends only on the stage |
| Feedback.ZoneLook | podcast_timer.py:540-591 | both zones use the same background for a stage, red-tinted iff red or done; the zone label reads "TIME'S UP" iff done |
| Feedback.HalfWayExact | podcast_timer.py:561-562 | `0.50 <= pct < 0.55` is `2*elapsed >= total && 20*elapsed < 11*total` for every duration (both false for 0:00) |
| Feedback.DispatchCues | podcast_timer.py:800-804 | the loop over the non-None tick results yields exactly the tones `Cues` lists, in order |
| Feedback.CuesAppend | podcast_timer.py:801-804 | the tones for two lists of changes are the tones of the first followed by those of the second |
| Feedback.BeepsCount | podcast_timer.py:88-92 | a change to yellow or red asks for one tone, done for two, great for none; every tone is at least 330 Hz and 180 ms |
| Feedback.CuesOfNoChange | podcast_timer.py:801-804 | ticks that report no change ask for no tone |
| Feedback.MinSec | podcast_timer.py:518 | the minute and second shown satisfy `m*60 + s == remain` with `0 <= s < 60` (floor division, also for negative values) |
| Feedback.MinSecRoundTrip | podcast_timer.py:453-455 | a duration set as m minutes and s < 60 seconds is displayed as m and s again |
| Feedback.MinSecOfEditable | podcast_timer.py:400-401 | every duration an edit can produce shows between 0 and 99 minutes |
| Feedback.Pad2RoundTrip | podcast_timer.py:384-385 | the `02d` text pre-filled into an entry reads back as the same number, and 0..99 is written as exactly two digits |
| Feedback.GetPalette | podcast_timer.py:66-69 | the light palette is chosen iff the theme is "light", or "system" on a light desktop; otherwise dark |
| Timer.Clamp | podcast_timer.py:400-401 | the clamped value lies in range, equals the input when in range and the nearer bound otherwise |
| Timer.TimerZone.constructor | podcast_timer.py:261-262 | a new zone is 0:00, idle, editable, great and not editing |
| Timer.TimerZone.ApplyStage | podcast_timer.py:535-605 | the status and zone label texts become those `Describe` gives for the stored stage and fraction |
| Timer.TimerZone.RefreshDisplay | podcast_timer.py:517-524 | the stored fraction becomes `1 - remain/total` (0 for a zero-length timer); the episode zone re-applies its stage while great |
| Timer.TimerZone.SetTime | podcast_timer.py:453-456 | duration and remaining time become `m*60 + s`, the entered values are stored, the stage is left as it was |
| Timer.TimerZone.StartTimer | podcast_timer.py:458-464 | running and not editable, an open edit is cancelled, the stage is applied |
| Timer.TimerZone.StopTimer | podcast_timer.py:477-495 | not running, editable, great, fraction 0, blank status, zone label restored; remaining time unchanged |
| Timer.TimerZone.ResetSpeaker | podcast_timer.py:508-510 | remaining time refilled, stage great, display refreshed and applied; run flags untouched |
| Timer.TimerZone.CheckStage | podcast_timer.py:526-533 | the stage is reclassified and returned only when it differs from the stored one |
| Timer.TimerZone.Tick | podcast_timer.py:512-515 | refused when not running or nothing remains; otherwise one second less, then the stage check |
| Timer.TimerZone.EnterEditMode | podcast_timer.py:373-378 | nothing unless editable and not editing; hands over when a coordinated edit is wired, else opens locally |
| Timer.TimerZone.StartEditLocal | podcast_timer.py:380-382 | opens the edit unless already open |
| Timer.TimerZone.CommitEdit | podcast_timer.py:397-407 | nothing unless editing; unparsable entries only flag them; otherwise closes the edit and sets the clamped time |
| Timer.TimerZone.CancelEdit | podcast_timer.py:414-419 | closes an open edit and clears the flag |
| Timer.TickRefused | podcast_timer.py:512-513 | a tick while not running or with nothing left changes nothing and reports nothing |
| Timer.TickStep | podcast_timer.py:512-515 | an accepted tick lowers the remaining time by exactly one and keeps it within [0, total]; the new stage is the integer classification; a stage is reported iff it changed |
| Timer.TickKeepsConsistent | podcast_timer.py:512-533 | a tick keeps the zone invariant: bounds, the stage and fraction matching the remaining time, the texts matching the stage |
| Timer.StartKeepsConsistent | podcast_timer.py:458-464 | starting keeps the zone invariant |
| Timer.SpeakerResetKeepsConsistent | podcast_timer.py:508-510 | next speaker keeps the zone invariant |
| Timer.EditKeepsConsistent | podcast_timer.py:373-425 | opening (on an editable zone), entering, cancelling and committing an edit keep the zone invariant |
| Timer.CommitValid | podcast_timer.py:397-407 | a commit of parsed entries clamps minutes to [0, 99] and seconds to [0, 59], sets a full duration of at most 99:59, keeps the stage and ends editing |
| Timer.CommitInvalid | podcast_timer.py:399-405 | entries that do not parse change nothing but the flag, and the zone stays in edit mode |
| Timer.EnterEditGuard | podcast_timer.py:373-378 | an edit opens only on an editable zone not already editing, and is handed over iff such a zone delegates |
| Timer.StopKeepsRemaining | podcast_timer.py:477-481 | stop alone leaves the remaining time and duration as they were |
| Timer.SpeakerResetRefills | podcast_timer.py:508-510 | reset_speaker refills to the duration and returns to great without touching running, editable or editing |
| Timer.RunTrace | podcast_timer.py:512-533 | during a run, the k-th tick leaves remain - k - 1 and reports a stage exactly when the classification changes there |
| Timer.RunReportsInOrder | podcast_timer.py:526-533 | over a run, each reported stage ranks strictly above every earlier one and is never great, so yellow, red and done are each reported at most once and in that order |
| Timer.RunNeverReportsGreat | podcast_timer.py:526-533 | any stage a run reports is yellow, red or done, never great |
| Timer.RunNeverBackwards | podcast_timer.py:526-533 | the stage never moves backwards during a run |
| Timer.RunToZero | podcast_timer.py:512-533 | running all the way down ends at 0 in done, the last tick reports done, and further ticks are refused |
| Timer.ZeroLengthStaysGreat | podcast_timer.py:513 | a zero-length timer stays great and reports nothing however often it ticks |
| Timer.TwentyMinuteRun | podcast_timer.py:526-530 | a fresh 20:00 run reports yellow at tick 900, red at tick 1080, done at tick 1200 and nothing on any other tick |
| Session.PodcastTimerApp.constructor | podcast_timer.py:627-650 | both zones are built and set from the settings; the clock is stopped and the Settings button enabled |
| Session.PodcastTimerApp.OnStart | podcast_timer.py:731-743 | the entered durations go into the settings, both zones start, Settings locks, the clock runs |
| Session.PodcastTimerApp.OnPause | podcast_timer.py:745-748 | only stops the clock |
| Session.PodcastTimerApp.OnResume | podcast_timer.py:757-758 | only restarts the clock |
| Session.PodcastTimerApp.OnReset | podcast_timer.py:768-781 | clock stopped, both zones stopped, refilled, great and refreshed, Settings unlocked |
| Session.PodcastTimerApp.Refill | podcast_timer.py:771-774 | a zone's remaining time becomes its duration, its stage great, its fraction 0 |
| Session.PodcastTimerApp.OnNext | podcast_timer.py:787-789 | only the speaker zone is reset |
| Session.PodcastTimerApp.OnEditBoth | podcast_timer.py:715-721 | both zones open their edit, Settings locks, SAVE commits both |
| Session.PodcastTimerApp.OnPencil | podcast_timer.py:373-377 | the episode zone's edit request, handed over to the edit of both zones |
| Session.PodcastTimerApp.OnOkBoth | podcast_timer.py:723-729 | each zone commits its own entries, Settings unlocks, SAVE goes back to the episode zone's own commit |
| Session.PodcastTimerApp.OnSave | podcast_timer.py:323-329 | a SAVE click does nothing while the episode zone's entries are hidden; otherwise it commits both zones while wired to `_on_ok_both` (721), only the episode zone otherwise (728) |
| Session.PodcastTimerApp.OnTick | podcast_timer.py:797-805 | nothing without the clock; otherwise both zones tick, top first, and with audio on the tones of their changes are returned in that order |
| Session.LaunchConsistent | podcast_timer.py:649-650 | launching with non-negative durations gives a consistent, idle, full pair |
| Session.DefaultLaunch | podcast_timer.py:22-26 | the default settings launch a consistent, idle pair showing 20:00 and 2:00 |
| Session.ResetKeepsConsistent | podcast_timer.py:768-781 | reset keeps the session invariant |
| Session.StartKeepsConsistent | podcast_timer.py:731-743 | start keeps the session invariant |
| Session.TickKeepsConsistent | podcast_timer.py:797-805 | a clock tick keeps the session invariant |
| Session.PencilKeepsConsistent | podcast_timer.py:715-721 | opening the edit of both zones keeps the session invariant |
| Session.SaveKeepsConsistent | podcast_timer.py:723-729 | SAVE keeps the session invariant, including the Settings lock while running: SAVE is only clickable while the episode zone edits, which it never does while running |
| Session.KeyKeepsConsistent | podcast_timer.py:331-334 | Return and Escape in one zone's entries keep the session invariant |
| Session.StepKeepsConsistent | podcast_timer.py:731-789 | every command keeps the session invariant: both zones consistent, running or idle together, and the Settings button locked while they run (738-739) |
| Session.ReplayKeepsConsistent | podcast_timer.py:731-805 | every state reached from a consistent one by any sequence of commands is consistent |
| Session.StepKeepsLocked | podcast_timer.py:715-789 | every command keeps the Settings lock: each zone runs iff not editable and edits only while editable, both run together, and Settings is locked while they run |
| Session.ReplayKeepsLocked | podcast_timer.py:715-805 | the Settings lock holds along any command sequence from a state that has it |
| Session.SettingsLockedWhileRunning | podcast_timer.py:738-739 | for every settings record and every command sequence from launch, the Settings button is locked whenever the timers run |
| Session.ReachableConsistent | podcast_timer.py:731-805 | every state reachable from a launch with non-negative durations satisfies the whole session invariant |
| Session.SaveNeedsEdit | podcast_timer.py:380-385 | with the episode zone's entries hidden (SAVE is among them, 323-329, and `_cancel_edit` hides them, 417) a SAVE click changes nothing |
| Session.TickDrivesBoth | podcast_timer.py:797-804 | a running clock ticks both zones, and with audio on asks for the episode zone's tones, then the speaker zone's: (660, 180) for yellow, (440, 220) for red, (330, 300) twice for done; none with audio off |
| Session.TickNeedsClock | podcast_timer.py:798 | without a running clock a tick changes nothing and asks for no tone |
| Session.MutedTickSameState | podcast_timer.py:800 | with audio off no tone is asked for, and the zones change exactly as with audio on |
| Session.PauseResumeFreezes | podcast_timer.py:745-766 | pause leaves both zones as they are, no tick applies while paused, and resume gives back the state from before the pause |
| Session.ResetRestores | podcast_timer.py:768-781 | after reset the clock is stopped; both zones are idle, editable, great and full; both status lines are blank |
| Session.NextLeavesEpisode | podcast_timer.py:787-789 | next speaker refills the speaker zone to great and leaves the episode zone, the clock and the speaker's run flags untouched |
| Session.PencilOpensBoth | podcast_timer.py:715-719 | the pencil opens both zones' edits and locks Settings when idle and not editing; otherwise it changes nothing |
| Session.OkBothCommitsSeparately | podcast_timer.py:723-727 | with valid episode entries and unparsable speaker entries, the episode zone commits while the speaker zone stays open and unchanged |
| Session.StartSavesDurations | podcast_timer.py:731-736 | the durations written to the settings at start give the same durations on the next launch |
| Session.RunningStatusShowsStage | podcast_timer.py:520-566 | while running, for any duration including 0:00, the speaker status names its stage; the episode status names its stage, or while great reads "HALF WAY THERE" iff `2*elapsed >= total && 20*elapsed < 11*total` |

## Left out

- Widgets and drawing are not modelled: layout, colours on buttons, the progress bar (`_draw_bar`, `_rrect`, `_vbar`), the pencil canvas, `_refresh_digit_color` and the digit labels' colours. The digit labels' text is `Pad2` of `MinSec(remain)` and is not kept as state.
- Which callback each button is wired to in each state is not modelled as a guard. For example, START becomes PAUSE and then RESUME, and NEXT does nothing before a start. Every callback is a command that can be issued at any time. The SAVE button is the exception: its two wirings are modelled, and so is its being on screen only while the episode zone edits.
- Animation is not modelled: `_pulse_loop`, `pulse_tick`, `_blend` (floating-point colour blending) and `_blink_loop`. `_update_bg` does nothing.
- Tone synthesis and playback (`_play_tone`, numpy, pygame) and the background threads are not modelled. A tone is a requested `(frequency, duration)` pair. The 0.38 s delay before the second done tone is not modelled.
- The clock thread (`_clock_loop`) and `after(0, ...)` scheduling are not modelled; a tick is one atomic step guarded by the clock flag. There is a race: a clock thread still sleeping through a pause can wake after a quick resume, and two threads then tick. This race is not modelled.
- Settings I/O is not modelled: `load_settings`, `save_settings`, the settings panel (`SettingsPanel`, `_open_settings`, `_close_settings`, `_on_settings_apply`, `_apply_settings` rebuilds) and `darkdetect`. The settings record keeps only the audio flag and the four duration fields.
- `int()` parsing of the entry text is not modelled. A commit receives each entry as already parsed, with `None` for text on which `int()` raises `ValueError`.
- Binary floating point is not modelled: the fraction and the thresholds are exact reals.
- `create_icon.py` is not part of this model; it draws the application icon.
- Session.LaunchConsistent: the session invariant is proved only for launches with non-negative durations. `set_time` accepts the settings file's values unclamped, so a hand-edited file with a negative duration gives a zone whose remaining time is negative. `tick` refuses to run on such a zone.
- Session.ReachableConsistent: the full session invariant (bounds, stage and texts matching the remaining time) is proved only for launches with non-negative durations, for the reason on the line above; the Settings lock alone holds for every launch (`Session.SettingsLockedWhileRunning`).
