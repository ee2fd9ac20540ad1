/**
 * The session controller (`PodcastTimerApp`, logic only): two zones, the episode timer on
 * top and the speaker timer below, driven together by a one-second tick that `_clock_running`
 * guards, with start, pause, resume, reset, next speaker and the coordinated edit.
 */
module Session {
  import opened Wrappers
  import opened Stages
  import Feedback
  import Timer

  /** The persisted preferences the controller reads and writes. */
  datatype Settings = Settings(
    audioEnabled: bool, topMinutes: int, topSeconds: int, botMinutes: int, botSeconds: int)

  /** `DEFAULT_SETTINGS`, the fields that matter here. */
  const DefaultSettings := Settings(true, 20, 0, 2, 0)

  const EpisodeName := "Episode Timer"
  const SpeakerName := "Speaker Timer"

  /**
   * The controller's state. `settingsEnabled` is whether the Settings button accepts clicks;
   * `saveCommitsBoth` is whether the episode zone's SAVE button is wired to `_on_ok_both`.
   */
  datatype AppState = AppState(
    top: Timer.ZoneState, bot: Timer.ZoneState,
    clockRunning: bool, settingsEnabled: bool, saveCommitsBoth: bool, settings: Settings)

  /** `__init__` with `_apply_settings(first_run=True)`: build both zones, then set their times. */
  function Launched(s: Settings): AppState
  {
    AppState(
      Timer.WithTime(Timer.Initial(true, EpisodeName), s.topMinutes, s.topSeconds),
      Timer.WithTime(Timer.Initial(false, SpeakerName), s.botMinutes, s.botSeconds),
      false, true, false, s)
  }

  /** `_on_start`: remember the durations, start both zones, lock settings, run the clock. */
  function AfterStart(st: AppState): AppState
  {
    var s := st.settings.(topMinutes := st.top.editMin, topSeconds := st.top.editSec,
                          botMinutes := st.bot.editMin, botSeconds := st.bot.editSec);
    st.(settings := s, top := Timer.Started(st.top), bot := Timer.Started(st.bot),
        settingsEnabled := false, clockRunning := true)
  }

  /** `_on_pause`: only stops the clock; both zones stay running. */
  function AfterPause(st: AppState): AppState
  {
    if st.clockRunning then st.(clockRunning := false) else st
  }

  /** `_on_resume`. */
  function AfterResume(st: AppState): AppState
  {
    st.(clockRunning := true)
  }

  /** `_on_reset` for one zone: stop, refill, back to great, refresh. */
  function ZoneReset(z: Timer.ZoneState): Timer.ZoneState
  {
    var z1 := Timer.Stopped(z);
    Timer.Refreshed(z1.(remainSec := z1.totalSec, stage := Great, barPct := 0.0))
  }

  /** `_on_reset`: the episode zone re-applies its stage, the speaker zone keeps a blank status. */
  function AfterReset(st: AppState): AppState
  {
    st.(clockRunning := false, top := Timer.Applied(ZoneReset(st.top)), bot := ZoneReset(st.bot),
        settingsEnabled := true)
  }

  /** `_on_next`: the speaker zone alone starts over. */
  function AfterNext(st: AppState): AppState
  {
    st.(bot := Timer.SpeakerReset(st.bot))
  }

  /** `_on_edit_both`. */
  function AfterEditBoth(st: AppState): AppState
  {
    st.(top := Timer.EditOpened(st.top), bot := Timer.EditOpened(st.bot),
        settingsEnabled := false, saveCommitsBoth := true)
  }

  /** The episode zone's pencil: `_enter_edit_mode`, which hands over to `_on_edit_both`. */
  function AfterPencil(st: AppState): AppState
  {
    var (top, handOff) := Timer.EditEntered(st.top, true);
    if handOff then AfterEditBoth(st) else st.(top := top)
  }

  /** `_on_ok_both`: each zone commits on its own, so one can commit while the other stays open. */
  function AfterOkBoth(st: AppState, topMin: Option<int>, topSec: Option<int>,
                       botMin: Option<int>, botSec: Option<int>): AppState
  {
    st.(top := Timer.EditCommitted(st.top, topMin, topSec),
        bot := Timer.EditCommitted(st.bot, botMin, botSec),
        settingsEnabled := true, saveCommitsBoth := false)
  }

  /**
   * The SAVE button: `_on_ok_both` once an edit of both is open, the episode zone's own commit
   * otherwise. SAVE sits among the episode zone's entries, which are on screen only while that
   * zone is editing, so with them hidden there is nothing to click.
   */
  function AfterSave(st: AppState, topMin: Option<int>, topSec: Option<int>,
                     botMin: Option<int>, botSec: Option<int>): AppState
  {
    if !st.top.editing then st
    else if st.saveCommitsBoth then AfterOkBoth(st, topMin, topSec, botMin, botSec)
    else st.(top := Timer.EditCommitted(st.top, topMin, topSec))
  }

  /**
   * `_tick`: nothing unless the clock runs; otherwise the episode zone ticks, then the speaker
   * zone, and with audio enabled each reported stage change requests its tones, in that order.
   */
  function AfterTick(st: AppState): (AppState, seq<Feedback.Tone>)
  {
    if !st.clockRunning then (st, [])
    else
      var (top, topNew) := Timer.Ticked(st.top);
      var (bot, botNew) := Timer.Ticked(st.bot);
      (st.(top := top, bot := bot),
       if st.settings.audioEnabled then Feedback.Cues([topNew, botNew]) else [])
  }

  /** What a user (or the clock) can do; `Commit` and `Cancel` are Return and Escape in one zone's entries. */
  datatype Command =
    | Start | Pause | Resume | Reset | Next | Pencil | Tick
    | Save(topMin: Option<int>, topSec: Option<int>, botMin: Option<int>, botSec: Option<int>)
    | Commit(onTop: bool, m: Option<int>, s: Option<int>)
    | Cancel(onTop: bool)

  function Step(st: AppState, c: Command): AppState
  {
    match c
    case Start => AfterStart(st)
    case Pause => AfterPause(st)
    case Resume => AfterResume(st)
    case Reset => AfterReset(st)
    case Next => AfterNext(st)
    case Pencil => AfterPencil(st)
    case Tick => AfterTick(st).0
    case Save(tm, ts, bm, bs) => AfterSave(st, tm, ts, bm, bs)
    case Commit(onTop, m, s) =>
      if onTop then st.(top := Timer.EditCommitted(st.top, m, s))
      else st.(bot := Timer.EditCommitted(st.bot, m, s))
    case Cancel(onTop) =>
      if onTop then st.(top := Timer.EditCancelled(st.top))
      else st.(bot := Timer.EditCancelled(st.bot))
  }

  function Replay(st: AppState, cs: seq<Command>): AppState
    decreases |cs|
  {
    if cs == [] then st else Replay(Step(st, cs[0]), cs[1..])
  }

  // ---------------------------------------------------------------------------------------
  // Properties of the session

  /**
   * Both zones consistent, in their places, and running or idle together; while they run the
   * Settings button stays locked.
   */
  ghost predicate Consistent(st: AppState)
  {
    && st.top.isTop && !st.bot.isTop
    && st.top.name == EpisodeName && st.bot.name == SpeakerName
    && Timer.Consistent(st.top) && Timer.Consistent(st.bot)
    && st.top.running == st.bot.running
    && (st.top.running ==> !st.settingsEnabled)
  }

  /** Launching with non-negative durations gives an idle, full, great pair. */
  lemma LaunchConsistent(s: Settings)
    requires s.topMinutes * 60 + s.topSeconds >= 0 && s.botMinutes * 60 + s.botSeconds >= 0
    ensures Consistent(Launched(s))
    ensures var st := Launched(s);
      && !st.clockRunning && !st.top.running && !st.bot.running
      && st.top.remainSec == st.top.totalSec == s.topMinutes * 60 + s.topSeconds
      && st.bot.remainSec == st.bot.totalSec == s.botMinutes * 60 + s.botSeconds
  {
  }

  /** The default launch: a consistent, idle pair showing 20:00 on top and 2:00 below. */
  lemma DefaultLaunch()
    ensures Consistent(Launched(DefaultSettings))
    ensures Feedback.MinSec(Launched(DefaultSettings).top.remainSec) == (20, 0)
    ensures Feedback.MinSec(Launched(DefaultSettings).bot.remainSec) == (2, 0)
  {
    LaunchConsistent(DefaultSettings);
    Feedback.MinSecRoundTrip(20, 0);
    Feedback.MinSecRoundTrip(2, 0);
  }

  lemma ResetKeepsConsistent(st: AppState)
    requires Consistent(st)
    ensures Consistent(AfterReset(st))
  {
  }

  lemma StartKeepsConsistent(st: AppState)
    requires Consistent(st)
    ensures Consistent(AfterStart(st))
  {
  }

  lemma TickKeepsConsistent(st: AppState)
    requires Consistent(st)
    ensures Consistent(AfterTick(st).0)
  {
    Timer.TickKeepsConsistent(st.top);
    Timer.TickKeepsConsistent(st.bot);
  }

  lemma PencilKeepsConsistent(st: AppState)
    requires Consistent(st)
    ensures Consistent(AfterPencil(st))
  {
  }

  lemma SaveKeepsConsistent(st: AppState, tm: Option<int>, ts: Option<int>, bm: Option<int>, bs: Option<int>)
    requires Consistent(st)
    ensures Consistent(AfterSave(st, tm, ts, bm, bs))
  {
  }

  lemma KeyKeepsConsistent(st: AppState, onTop: bool, m: Option<int>, s: Option<int>)
    requires Consistent(st)
    ensures Consistent(Step(st, Commit(onTop, m, s)))
    ensures Consistent(Step(st, Cancel(onTop)))
  {
  }

  /** Every command keeps the session invariant. */
  lemma StepKeepsConsistent(st: AppState, c: Command)
    requires Consistent(st)
    ensures Consistent(Step(st, c))
  {
    match c
    case Start => StartKeepsConsistent(st);
    case Pause =>
    case Resume =>
    case Reset => ResetKeepsConsistent(st);
    case Next => Timer.SpeakerResetKeepsConsistent(st.bot);
    case Tick => TickKeepsConsistent(st);
    case Pencil => PencilKeepsConsistent(st);
    case Save(tm, ts, bm, bs) => SaveKeepsConsistent(st, tm, ts, bm, bs);
    case Commit(onTop, m, s) => KeyKeepsConsistent(st, onTop, m, s);
    case Cancel(onTop) => KeyKeepsConsistent(st, onTop, None, None);
  }

  /** Every state reached from a consistent state by any sequence of commands is consistent. */
  lemma {:induction false} ReplayKeepsConsistent(st: AppState, cs: seq<Command>)
    requires Consistent(st)
    ensures Consistent(Replay(st, cs))
    decreases |cs|
  {
    if cs != [] {
      StepKeepsConsistent(st, cs[0]);
      ReplayKeepsConsistent(Step(st, cs[0]), cs[1..]);
    }
  }

  /**
   * The part of the session invariant that holds for any settings, negative durations
   * included: each zone runs exactly when it is not editable, edits only while editable, both
   * run together, and the Settings button is locked while they run.
   */
  ghost predicate Locked(st: AppState)
  {
    && st.top.running == !st.top.editable && st.bot.running == !st.bot.editable
    && (st.top.editing ==> st.top.editable) && (st.bot.editing ==> st.bot.editable)
    && st.top.running == st.bot.running
    && (st.top.running ==> !st.settingsEnabled)
  }

  /** Every command keeps the Settings lock. */
  lemma StepKeepsLocked(st: AppState, c: Command)
    requires Locked(st)
    ensures Locked(Step(st, c))
  {
    match c
    case Start =>
    case Pause =>
    case Resume =>
    case Reset =>
    case Next =>
    case Tick =>
    case Pencil =>
    case Save(tm, ts, bm, bs) =>
    case Commit(onTop, m, s) =>
    case Cancel(onTop) =>
  }

  lemma {:induction false} ReplayKeepsLocked(st: AppState, cs: seq<Command>)
    requires Locked(st)
    ensures Locked(Replay(st, cs))
    decreases |cs|
  {
    if cs != [] {
      StepKeepsLocked(st, cs[0]);
      ReplayKeepsLocked(Step(st, cs[0]), cs[1..]);
    }
  }

  /** Whatever the settings and whatever the user does, Settings is locked while the timers run. */
  lemma SettingsLockedWhileRunning(s: Settings, cs: seq<Command>)
    ensures Replay(Launched(s), cs).top.running ==> !Replay(Launched(s), cs).settingsEnabled
  {
    ReplayKeepsLocked(Launched(s), cs);
  }

  /**
   * Every state reachable from a launch with non-negative durations is consistent; in
   * particular the Settings button is locked whenever the timers run.
   */
  lemma ReachableConsistent(s: Settings, cs: seq<Command>)
    requires s.topMinutes * 60 + s.topSeconds >= 0 && s.botMinutes * 60 + s.botSeconds >= 0
    ensures Consistent(Replay(Launched(s), cs))
    ensures Replay(Launched(s), cs).top.running ==> !Replay(Launched(s), cs).settingsEnabled
  {
    LaunchConsistent(s);
    ReplayKeepsConsistent(Launched(s), cs);
  }

  /** SAVE is not on screen unless the episode zone is editing, so then it changes nothing. */
  lemma SaveNeedsEdit(st: AppState, tm: Option<int>, ts: Option<int>, bm: Option<int>, bs: Option<int>)
    requires !st.top.editing
    ensures AfterSave(st, tm, ts, bm, bs) == st
  {
  }

  /**
   * One tick of a running clock ticks the episode zone and then the speaker zone, and asks
   * for the tones of their reported changes in that order, or for none with audio off.
   */
  lemma TickDrivesBoth(st: AppState)
    requires st.clockRunning
    ensures var (st', tones) := AfterTick(st);
      && st'.top == Timer.Ticked(st.top).0 && st'.bot == Timer.Ticked(st.bot).0
      && st'.clockRunning && st'.settings == st.settings
      && tones == (if st.settings.audioEnabled
                   then (if Timer.Ticked(st.top).1.Some? then Feedback.Beeps(Timer.Ticked(st.top).1.value) else [])
                      + (if Timer.Ticked(st.bot).1.Some? then Feedback.Beeps(Timer.Ticked(st.bot).1.value) else [])
                   else [])
  {
    var a, b := Timer.Ticked(st.top).1, Timer.Ticked(st.bot).1;
    assert [a, b][..1] == [a];
    assert [a][..0] == [];
    assert Feedback.Cues([a]) == (if a.Some? then Feedback.Beeps(a.value) else []);
    assert Feedback.Cues([a, b]) == Feedback.Cues([a]) + (if b.Some? then Feedback.Beeps(b.value) else []);
  }

  /** Without a running clock a tick does nothing. */
  lemma TickNeedsClock(st: AppState)
    requires !st.clockRunning
    ensures AfterTick(st) == (st, [])
  {
  }

  /** Muting changes no timer state, only silences the tones. */
  lemma MutedTickSameState(st: AppState)
    requires !st.settings.audioEnabled
    ensures AfterTick(st).1 == []
    ensures AfterTick(st).0
         == AfterTick(st.(settings := st.settings.(audioEnabled := true))).0.(settings := st.settings)
  {
  }

  /**
   * Pausing freezes both zones exactly: no tick applies while paused, and resuming gives back
   * the state before the pause.
   */
  lemma PauseResumeFreezes(st: AppState)
    requires st.clockRunning
    ensures AfterPause(st).top == st.top && AfterPause(st).bot == st.bot
    ensures AfterTick(AfterPause(st)) == (AfterPause(st), [])
    ensures AfterResume(AfterPause(st)) == st
  {
  }

  /** Reset stops the clock and both zones and refills them; both status lines go blank. */
  lemma ResetRestores(st: AppState)
    requires Consistent(st)
    ensures var st' := AfterReset(st);
      && !st'.clockRunning && st'.settingsEnabled
      && !st'.top.running && st'.top.editable && st'.top.stage == Great
      && !st'.bot.running && st'.bot.editable && st'.bot.stage == Great
      && st'.top.remainSec == st'.top.totalSec == st.top.totalSec
      && st'.bot.remainSec == st'.bot.totalSec == st.bot.totalSec
      && st'.top.status == "" && st'.bot.status == ""
  {
  }

  /** Next speaker refills the speaker zone alone; the episode zone and the clock are untouched. */
  lemma NextLeavesEpisode(st: AppState)
    ensures var st' := AfterNext(st);
      && st'.top == st.top && st'.clockRunning == st.clockRunning
      && st'.bot.remainSec == st'.bot.totalSec == st.bot.totalSec && st'.bot.stage == Great
      && st'.bot.running == st.bot.running && st'.bot.editable == st.bot.editable
  {
  }

  /**
   * The pencil opens an edit of both zones only while idle and not already editing, and
   * locks the Settings button.
   */
  lemma PencilOpensBoth(st: AppState)
    requires Consistent(st)
    ensures var st' := AfterPencil(st);
      && (st.top.running || st.top.editing ==> st' == st)
      && (!st.top.running && !st.top.editing ==>
            st'.top.editing && st'.bot.editing && !st'.settingsEnabled && st'.saveCommitsBoth)
  {
  }

  /**
   * The two-zone commit is not atomic: with valid episode entries and unparsable speaker
   * entries, the episode zone takes its new duration while the speaker zone stays open and
   * unchanged, and the Settings button is unlocked all the same.
   */
  lemma OkBothCommitsSeparately(st: AppState, tm: int, ts: int, bs: Option<int>)
    requires st.top.editing && st.bot.editing
    ensures var st' := AfterOkBoth(st, Some(tm), Some(ts), None, bs);
      && !st'.top.editing
      && st'.top.totalSec == Timer.Clamp(tm, 0, 99) * 60 + Timer.Clamp(ts, 0, 59)
      && st'.bot.editing && st'.bot.entriesFlagged && st'.bot.totalSec == st.bot.totalSec
      && st'.settingsEnabled && !st'.saveCommitsBoth
  {
  }

  /** The durations saved at start bring the same durations back on the next launch. */
  lemma StartSavesDurations(st: AppState)
    requires Consistent(st)
    ensures Launched(AfterStart(st).settings).top.totalSec == st.top.totalSec
    ensures Launched(AfterStart(st).settings).bot.totalSec == st.bot.totalSec
    ensures AfterStart(st).settings.audioEnabled == st.settings.audioEnabled
  {
  }

  /** While running, each zone's status line shows its stage; the episode's half-way line in integers. */
  lemma RunningStatusShowsStage(st: AppState)
    requires Consistent(st) && st.top.running
    ensures st.bot.status == Feedback.Status(false, st.bot.stage, 0.0).0
    ensures st.top.stage == Great ==>
      (st.top.status == Feedback.HalfWay
       <==> 2 * (st.top.totalSec - st.top.remainSec) >= st.top.totalSec
            && 20 * (st.top.totalSec - st.top.remainSec) < 11 * st.top.totalSec)
    ensures st.top.stage != Great ==> st.top.status == Feedback.Status(true, st.top.stage, 0.0).0
  {
    Feedback.HalfWayExact(st.top.remainSec, st.top.totalSec);
    Feedback.EpisodeStatus(st.top.stage, st.top.barPct, 0.0);
  }

  // ---------------------------------------------------------------------------------------
  // The application object

  class PodcastTimerApp {
    const top: Timer.TimerZone
    const bot: Timer.TimerZone
    var clockRunning: bool
    var settingsEnabled: bool
    var saveCommitsBoth: bool
    var settings: Settings

    ghost predicate Valid()
      reads this
    {
      top != bot && top.delegatesEdit
    }

    function State(): AppState
      reads this, top, bot
    {
      AppState(top.State(), bot.State(), clockRunning, settingsEnabled, saveCommitsBoth, settings)
    }

    constructor (s: Settings)
      ensures Valid() && fresh(top) && fresh(bot)
      ensures State() == Launched(s)
    {
      top := new Timer.TimerZone(true, EpisodeName, true);
      bot := new Timer.TimerZone(false, SpeakerName, false);
      clockRunning, settingsEnabled, saveCommitsBoth := false, true, false;
      settings := s;
      new;
      top.SetTime(s.topMinutes, s.topSeconds);
      bot.SetTime(s.botMinutes, s.botSeconds);
    }

    method OnStart()
      requires Valid()
      modifies this, top, bot
      ensures State() == AfterStart(old(State()))
    {
      settings := settings.(topMinutes := top.editMin, topSeconds := top.editSec,
                            botMinutes := bot.editMin, botSeconds := bot.editSec);
      top.StartTimer();
      bot.StartTimer();
      settingsEnabled := false;
      if !clockRunning {
        clockRunning := true;
      }
    }

    method OnPause()
      modifies this
      ensures State() == AfterPause(old(State()))
    {
      if clockRunning {
        clockRunning := false;
      }
    }

    method OnResume()
      modifies this
      ensures State() == AfterResume(old(State()))
    {
      clockRunning := true;
    }

    method OnReset()
      requires Valid()
      modifies this, top, bot
      ensures State() == AfterReset(old(State()))
    {
      clockRunning := false;
      top.StopTimer();
      bot.StopTimer();
      Refill(top);
      Refill(bot);
      top.RefreshDisplay();
      bot.RefreshDisplay();
      top.ApplyStage();
      settingsEnabled := true;
    }

    /** The part of `_on_reset` that refills a stopped zone by hand. */
    static method Refill(z: Timer.TimerZone)
      modifies z
      ensures z.State() == old(z.State()).(remainSec := old(z.totalSec), stage := Great, barPct := 0.0)
    {
      z.remainSec := z.totalSec;
      z.stage := Great;
      z.barPct := 0.0;
    }

    method OnNext()
      requires Valid()
      modifies bot
      ensures State() == AfterNext(old(State()))
    {
      bot.ResetSpeaker();
    }

    method OnEditBoth()
      requires Valid()
      modifies this, top, bot
      ensures State() == AfterEditBoth(old(State()))
    {
      top.StartEditLocal();
      bot.StartEditLocal();
      settingsEnabled := false;
      saveCommitsBoth := true;
    }

    /** A click on the episode zone's pencil. */
    method OnPencil()
      requires Valid()
      modifies this, top, bot
      ensures State() == AfterPencil(old(State()))
    {
      var handOff := top.EnterEditMode();
      if handOff {
        OnEditBoth();
      }
    }

    method OnOkBoth(topMin: Option<int>, topSec: Option<int>, botMin: Option<int>, botSec: Option<int>)
      requires Valid()
      modifies this, top, bot
      ensures State() == AfterOkBoth(old(State()), topMin, topSec, botMin, botSec)
    {
      top.CommitEdit(topMin, topSec);
      bot.CommitEdit(botMin, botSec);
      settingsEnabled := true;
      saveCommitsBoth := false;
    }

    /** A click on the episode zone's SAVE button, which is on screen only while that zone edits. */
    method OnSave(topMin: Option<int>, topSec: Option<int>, botMin: Option<int>, botSec: Option<int>)
      requires Valid()
      modifies this, top, bot
      ensures State() == AfterSave(old(State()), topMin, topSec, botMin, botSec)
    {
      if !top.editing {
        return;
      }
      if saveCommitsBoth {
        OnOkBoth(topMin, topSec, botMin, botSec);
      } else {
        top.CommitEdit(topMin, topSec);
      }
    }

    method OnTick() returns (tones: seq<Feedback.Tone>)
      requires Valid()
      modifies top, bot
      ensures (State(), tones) == AfterTick(old(State()))
    {
      if !clockRunning {
        return [];
      }
      var topNew := top.Tick();
      var botNew := bot.Tick();
      tones := [];
      if settings.audioEnabled {
        tones := Feedback.DispatchCues([topNew, botNew]);
      }
    }
  }
}
