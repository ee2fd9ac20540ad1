/**
 * One countdown zone (`TimerZone`): its state, the transitions its methods perform, and what
 * is proved about them. The pure functions below are the specification; the class at the end
 * updates its fields in place, and each method's postcondition ties the new state to the
 * matching function of the old state.
 */
module Timer {
  import opened Wrappers
  import opened Stages
  import Feedback

  /**
   * A zone's state. `barPct` is `_bar_pct`; `status` and `zoneText` are the texts of the
   * status label and the zone label; `entriesFlagged` is the red border put on the edit
   * entries after input that does not parse.
   */
  datatype ZoneState = ZoneState(
    isTop: bool, name: string,
    totalSec: int, remainSec: int, running: bool, editable: bool, stage: Stage,
    editing: bool, entriesFlagged: bool, editMin: int, editSec: int,
    barPct: real, status: string, zoneText: string)

  /** A freshly built zone: 0:00, idle, great; only the episode zone shows "DOING GREAT". */
  function Initial(isTop: bool, name: string): ZoneState
  {
    ZoneState(isTop, name, 0, 0, false, true, Great, false, false, 0, 0, 0.0,
              if isTop then "DOING GREAT" else "", name)
  }

  /** `_apply_stage`: the texts follow the stored stage and fraction. */
  function Applied(z: ZoneState): ZoneState
  {
    var look := Feedback.Describe(z.isTop, z.name, z.stage, z.barPct);
    z.(status := look.status, zoneText := look.zoneText)
  }

  /** `_refresh_display`: recompute the fraction; the episode zone re-applies while great. */
  function Refreshed(z: ZoneState): ZoneState
  {
    var z1 := z.(barPct := ElapsedFraction(z.remainSec, z.totalSec));
    if z1.isTop && z1.stage == Great then Applied(z1) else z1
  }

  /** `set_time`: note that the stage is left as it is. */
  function WithTime(z: ZoneState, m: int, s: int): ZoneState
  {
    Refreshed(z.(editMin := m, editSec := s, totalSec := m * 60 + s, remainSec := m * 60 + s))
  }

  /** `start_timer`. */
  function Started(z: ZoneState): ZoneState
  {
    Applied(EditCancelled(z.(running := true, editable := false)))
  }

  /** `stop_timer`: the remaining time is NOT restored here. */
  function Stopped(z: ZoneState): ZoneState
  {
    z.(running := false, editable := true, stage := Great, barPct := 0.0,
       zoneText := z.name, status := "")
  }

  /** `reset_speaker`. */
  function SpeakerReset(z: ZoneState): ZoneState
  {
    Applied(Refreshed(z.(remainSec := z.totalSec, stage := Great, barPct := 0.0)))
  }

  /** `_check_stage`: report the new stage only when it differs from the stored one. */
  function StageChecked(z: ZoneState): (ZoneState, Option<Stage>)
  {
    var next := StageAt(z.barPct, z.remainSec);
    if next != z.stage then (Applied(z.(stage := next)), Some(next)) else (z, None)
  }

  /** `tick`: refused unless running with time left; otherwise one second less. */
  function Ticked(z: ZoneState): (ZoneState, Option<Stage>)
  {
    if !z.running || z.remainSec <= 0 then (z, None)
    else StageChecked(Refreshed(z.(remainSec := z.remainSec - 1)))
  }

  /** `_start_edit_local`. */
  function EditOpened(z: ZoneState): ZoneState
  {
    if z.editing then z else z.(editing := true)
  }

  /** `_cancel_edit`. */
  function EditCancelled(z: ZoneState): ZoneState
  {
    if !z.editing then z else z.(editing := false, entriesFlagged := false)
  }

  /**
   * `_enter_edit_mode`: refused unless editable and not editing; a zone wired to a
   * coordinated edit (`delegated`) hands the request over instead of opening by itself.
   */
  function EditEntered(z: ZoneState, delegated: bool): (ZoneState, bool)
  {
    if !z.editable || z.editing then (z, false)
    else if delegated then (z, true)
    else (EditOpened(z), false)
  }

  /** `max(lo, min(hi, x))`. */
  function Clamp(x: int, lo: int, hi: int): (r: int)
    requires lo <= hi
    ensures lo <= r <= hi
    ensures lo <= x <= hi ==> r == x
    ensures x < lo ==> r == lo
    ensures x > hi ==> r == hi
  {
    if x < lo then lo else if x > hi then hi else x
  }

  /**
   * `_commit_edit` given the parsed entries; `None` is an entry on which `int()` raised
   * `ValueError`. Minutes are clamped to [0, 99], seconds to [0, 59].
   */
  function EditCommitted(z: ZoneState, m: Option<int>, s: Option<int>): ZoneState
  {
    if !z.editing then z
    else if m.None? || s.None? then z.(entriesFlagged := true)
    else WithTime(EditCancelled(z), Clamp(m.value, 0, 99), Clamp(s.value, 0, 59))
  }

  // ---------------------------------------------------------------------------------------
  // Properties of one zone

  /**
   * The zone invariant kept by the application: remaining time within the duration, the
   * duration equal to the entered minutes and seconds, running exactly when not editable,
   * editing only while editable, an idle zone full and great, the stage and fraction
   * matching the remaining time, and the label texts matching the stage.
   */
  ghost predicate Consistent(z: ZoneState)
  {
    && 0 <= z.remainSec <= z.totalSec
    && z.totalSec == z.editMin * 60 + z.editSec
    && z.running == !z.editable
    && (z.editing ==> z.editable)
    && (z.entriesFlagged ==> z.editing)
    && (z.editable ==> z.stage == Great && z.remainSec == z.totalSec)
    && (z.totalSec > 0 ==> z.stage == Classify(z.remainSec, z.totalSec))
    && z.barPct == ElapsedFraction(z.remainSec, z.totalSec)
    && z.zoneText == Feedback.Describe(z.isTop, z.name, z.stage, z.barPct).zoneText
    && (z.running ==> z.status == Feedback.Describe(z.isTop, z.name, z.stage, z.barPct).status)
  }

  /** A refused tick changes nothing and reports nothing. */
  lemma TickRefused(z: ZoneState)
    requires !z.running || z.remainSec <= 0
    ensures Ticked(z) == (z, None)
  {
  }

  /**
   * An accepted tick lowers the remaining time by exactly one, keeps it within the duration,
   * sets the stage by the integer classifier, and reports the stage exactly when it changed.
   */
  lemma TickStep(z: ZoneState)
    requires z.running && 0 < z.remainSec <= z.totalSec
    ensures var (z', r) := Ticked(z);
      && z'.remainSec == z.remainSec - 1 && 0 <= z'.remainSec <= z'.totalSec
      && z'.totalSec == z.totalSec && z'.running && z'.editable == z.editable
      && z'.editing == z.editing && z'.editMin == z.editMin && z'.editSec == z.editSec
      && z'.stage == Classify(z.remainSec - 1, z.totalSec)
      && (r.Some? <==> z'.stage != z.stage)
      && (r.Some? ==> r.value == z'.stage)
  {
    ClassifyMatchesFraction(z.remainSec - 1, z.totalSec);
  }

  /** A tick keeps the zone invariant. */
  lemma TickKeepsConsistent(z: ZoneState)
    requires Consistent(z)
    ensures Consistent(Ticked(z).0)
  {
    if z.running && z.remainSec > 0 {
      ClassifyMatchesFraction(z.remainSec - 1, z.totalSec);
      var z1 := Refreshed(z.(remainSec := z.remainSec - 1));
      if !(z.isTop && z.stage.Great?) {
        Feedback.LookIgnoresFraction(z.isTop, z.name, z.stage, z.barPct, z1.barPct);
      }
    }
  }

  lemma StartKeepsConsistent(z: ZoneState)
    requires Consistent(z)
    ensures Consistent(Started(z))
  {
  }

  lemma SpeakerResetKeepsConsistent(z: ZoneState)
    requires Consistent(z)
    ensures Consistent(SpeakerReset(z))
  {
  }

  lemma EditKeepsConsistent(z: ZoneState, delegated: bool, m: Option<int>, s: Option<int>)
    requires Consistent(z)
    ensures z.editable ==> Consistent(EditOpened(z))
    ensures Consistent(EditEntered(z, delegated).0)
    ensures Consistent(EditCancelled(z))
    ensures Consistent(EditCommitted(z, m, s))
  {
  }

  /**
   * Committing parsed entries clamps them and sets a full duration of at most 99:59; the
   * stage and the running flags are left untouched, and editing ends.
   */
  lemma CommitValid(z: ZoneState, m: int, s: int)
    requires z.editing
    ensures var z' := EditCommitted(z, Some(m), Some(s));
      && !z'.editing && !z'.entriesFlagged
      && z'.editMin == Clamp(m, 0, 99) && z'.editSec == Clamp(s, 0, 59)
      && z'.totalSec == z'.editMin * 60 + z'.editSec && z'.remainSec == z'.totalSec
      && 0 <= z'.totalSec <= 99 * 60 + 59
      && z'.stage == z.stage && z'.running == z.running && z'.editable == z.editable
      && Feedback.MinSec(z'.remainSec) == (z'.editMin, z'.editSec)
  {
  }

  /** Entries that do not parse only flag the entries: the zone stays in edit mode. */
  lemma CommitInvalid(z: ZoneState, m: Option<int>, s: Option<int>)
    requires z.editing && (m.None? || s.None?)
    ensures EditCommitted(z, m, s) == z.(entriesFlagged := true)
    ensures EditCommitted(z, m, s).editing
    ensures EditCommitted(z, m, s).totalSec == z.totalSec
  {
  }

  /** Editing opens only on an editable zone that is not already editing. */
  lemma EnterEditGuard(z: ZoneState, delegated: bool)
    ensures var (z', handOff) := EditEntered(z, delegated);
      && (z'.editing && !z.editing ==> z.editable && !delegated)
      && (handOff <==> z.editable && !z.editing && delegated)
      && z'.totalSec == z.totalSec && z'.remainSec == z.remainSec
  {
  }

  /** `stop_timer` alone stops and makes editable, but keeps the remaining time. */
  lemma StopKeepsRemaining(z: ZoneState)
    ensures var z' := Stopped(z);
      && !z'.running && z'.editable && z'.stage == Great
      && z'.remainSec == z.remainSec && z'.totalSec == z.totalSec
  {
  }

  /** `reset_speaker` refills and returns to great without touching the run flags. */
  lemma SpeakerResetRefills(z: ZoneState)
    ensures var z' := SpeakerReset(z);
      && z'.remainSec == z'.totalSec == z.totalSec && z'.stage == Great
      && z'.running == z.running && z'.editable == z.editable && z'.editing == z.editing
  {
  }

  // ---------------------------------------------------------------------------------------
  // A run of ticks

  /** `n` ticks in a row: the final state and what each tick returned. */
  function Run(z: ZoneState, n: nat): (r: (ZoneState, seq<Option<Stage>>))
    ensures |r.1| == n
  {
    if n == 0 then (z, [])
    else
      var (z1, out) := Run(z, n - 1);
      var (z2, r) := Ticked(z1);
      (z2, out + [r])
  }

  /** What the tick that takes the remaining time from `remain` to `remain - 1` reports. */
  function Report(remain: int, total: int): Option<Stage>
  {
    var next := Classify(remain - 1, total);
    if next != Classify(remain, total) then Some(next) else None
  }

  /** A running zone whose stage matches its remaining time. */
  ghost predicate Ticking(z: ZoneState)
  {
    z.running && 0 <= z.remainSec <= z.totalSec
    && (z.totalSec > 0 ==> z.stage == Classify(z.remainSec, z.totalSec))
  }

  /**
   * Over `n <= remain` ticks, the k-th tick counts down to `remain - k - 1` and reports a
   * stage exactly when the classifier changes there.
   */
  lemma {:induction false} RunTrace(z: ZoneState, n: nat)
    requires Ticking(z) && n <= z.remainSec
    ensures var (z', out) := Run(z, n);
      && Ticking(z') && z'.remainSec == z.remainSec - n && z'.totalSec == z.totalSec
      && |out| == n
      && forall k :: 0 <= k < n ==> out[k] == Report(z.remainSec - k, z.totalSec)
  {
    if n > 0 {
      RunTrace(z, n - 1);
      var (z1, out) := Run(z, n - 1);
      TickStep(z1);
      var (z2, r) := Ticked(z1);
      assert Run(z, n) == (z2, out + [r]);
      assert r == Report(z.remainSec - (n - 1), z.totalSec);
      forall k | 0 <= k < n
        ensures (out + [r])[k] == Report(z.remainSec - k, z.totalSec)
      {
        if k < n - 1 {
          assert (out + [r])[k] == out[k];
        }
      }
    }
  }

  /**
   * Over a run, each reported stage is strictly later than every stage reported before it,
   * so each of yellow, red and done is reported at most once, in that order, and great never.
   */
  lemma RunReportsInOrder(z: ZoneState, n: nat, i: nat, j: nat)
    requires Ticking(z) && n <= z.remainSec
    requires i < j < n
    requires Run(z, n).1[i].Some? && Run(z, n).1[j].Some?
    ensures Rank(Run(z, n).1[i].value) < Rank(Run(z, n).1[j].value)
    ensures Run(z, n).1[i].value != Great
  {
    RunTrace(z, n);
    var r, t := z.remainSec, z.totalSec;
    ClassifyMonotone(r - j, r - j - 1, t);
    ClassifyMonotone(r - i - 1, r - j, t);
    ClassifyMonotone(r - i, r - i - 1, t);
  }

  /** Whatever a run reports, it is never great: a report is a move to yellow, red or done. */
  lemma RunNeverReportsGreat(z: ZoneState, n: nat, i: nat)
    requires Ticking(z) && n <= z.remainSec && i < n
    requires Run(z, n).1[i].Some?
    ensures Run(z, n).1[i].value != Great
  {
    RunTrace(z, n);
    ClassifyMonotone(z.remainSec - i, z.remainSec - i - 1, z.totalSec);
  }

  /** The stage never moves backwards during a run. */
  lemma RunNeverBackwards(z: ZoneState, n: nat)
    requires Ticking(z) && n <= z.remainSec
    ensures Rank(Run(z, n).0.stage) >= Rank(z.stage)
  {
    RunTrace(z, n);
    if z.totalSec > 0 {
      ClassifyMonotone(z.remainSec, z.remainSec - n, z.totalSec);
    }
  }

  /** Running a started zone all the way down ends in done, reported by the last tick. */
  lemma RunToZero(z: ZoneState)
    requires Ticking(z) && z.remainSec > 0
    ensures Run(z, z.remainSec).0.remainSec == 0
    ensures Run(z, z.remainSec).0.stage == Done
    ensures Run(z, z.remainSec).1[z.remainSec - 1] == Some(Done)
    ensures Ticked(Run(z, z.remainSec).0) == (Run(z, z.remainSec).0, None)
  {
    RunTrace(z, z.remainSec);
  }

  /** A zero-length zone never reaches done: every tick is refused. */
  lemma {:induction false} ZeroLengthStaysGreat(z: ZoneState, n: nat)
    requires z.remainSec == 0 && z.stage == Great
    ensures Run(z, n).0 == z
    ensures forall k :: 0 <= k < n ==> Run(z, n).1[k].None?
  {
    if n > 0 {
      ZeroLengthStaysGreat(z, n - 1);
      var out := Run(z, n - 1).1;
      assert Ticked(z) == (z, None);
      assert Run(z, n) == (z, out + [None]);
      forall k | 0 <= k < n
        ensures (out + [None])[k].None?
      {
        if k < n - 1 {
          assert (out + [None])[k] == out[k];
        }
      }
    }
  }

  /**
   * A 20:00 episode started next reports yellow on tick 900 (elapsed 0.75), red on tick
   * 1080 (0.90) and done on tick 1200, and nothing on any other tick.
   */
  lemma TwentyMinuteRun(z: ZoneState)
    requires Ticking(z) && z.totalSec == 1200 && z.remainSec == 1200
    ensures var out := Run(z, 1200).1;
      && out[899] == Some(Yellow) && out[1079] == Some(Red) && out[1199] == Some(Done)
      && forall k :: 0 <= k < 1200 && k != 899 && k != 1079 && k != 1199 ==> out[k] == None
  {
    RunTrace(z, 1200);
  }

  // ---------------------------------------------------------------------------------------
  // The zone object

  class TimerZone {
    const isTop: bool
    const name: string
    /** Whether `on_edit` is wired, so that an edit request is handed to the application. */
    const delegatesEdit: bool

    var totalSec: int
    var remainSec: int
    var running: bool
    var editable: bool
    var stage: Stage
    var editing: bool
    var entriesFlagged: bool
    var editMin: int
    var editSec: int
    var barPct: real
    var status: string
    var zoneText: string

    function State(): ZoneState
      reads this
    {
      ZoneState(isTop, name, totalSec, remainSec, running, editable, stage,
                editing, entriesFlagged, editMin, editSec, barPct, status, zoneText)
    }

    constructor (isTop: bool, name: string, delegatesEdit: bool)
      ensures State() == Initial(isTop, name) && this.delegatesEdit == delegatesEdit
    {
      this.isTop := isTop;
      this.name := name;
      this.delegatesEdit := delegatesEdit;
      totalSec, remainSec, running, editable := 0, 0, false, true;
      editMin, editSec, stage := 0, 0, Great;
      barPct := 0.0;
      editing, entriesFlagged := false, false;
      status := if isTop then "DOING GREAT" else "";
      zoneText := name;
    }

    method ApplyStage()
      modifies this
      ensures State() == Applied(old(State()))
    {
      var look := Feedback.Describe(isTop, name, stage, barPct);
      status := look.status;
      zoneText := look.zoneText;
    }

    method RefreshDisplay()
      modifies this
      ensures State() == Refreshed(old(State()))
    {
      barPct := if totalSec > 0 then 1.0 - (remainSec as real) / (totalSec as real) else 0.0;
      if isTop && stage == Great {
        ApplyStage();
      }
    }

    method SetTime(m: int, s: int)
      modifies this
      ensures State() == WithTime(old(State()), m, s)
    {
      editMin := m;
      editSec := s;
      totalSec := m * 60 + s;
      remainSec := totalSec;
      RefreshDisplay();
    }

    method StartTimer()
      modifies this
      ensures State() == Started(old(State()))
    {
      running := true;
      editable := false;
      if editing {
        CancelEdit();
      }
      ApplyStage();
    }

    method StopTimer()
      modifies this
      ensures State() == Stopped(old(State()))
    {
      running := false;
      editable := true;
      stage := Great;
      barPct := 0.0;
      zoneText := name;
      status := "";
    }

    method ResetSpeaker()
      modifies this
      ensures State() == SpeakerReset(old(State()))
    {
      remainSec := totalSec;
      stage := Great;
      barPct := 0.0;
      RefreshDisplay();
      ApplyStage();
    }

    method CheckStage() returns (changed: Option<Stage>)
      modifies this
      ensures (State(), changed) == StageChecked(old(State()))
    {
      var pct := barPct;
      var next := if remainSec == 0 then Done
                   else if pct >= RedThreshold then Red
                   else if pct >= YellowThreshold then Yellow
                   else Great;
      if next != stage {
        stage := next;
        ApplyStage();
        return Some(next);
      }
      return None;
    }

    method Tick() returns (changed: Option<Stage>)
      modifies this
      ensures (State(), changed) == Ticked(old(State()))
    {
      if !running || remainSec <= 0 {
        return None;
      }
      remainSec := remainSec - 1;
      RefreshDisplay();
      changed := CheckStage();
    }

    method EnterEditMode() returns (handOff: bool)
      modifies this
      ensures (State(), handOff) == EditEntered(old(State()), delegatesEdit)
    {
      if !editable || editing {
        return false;
      }
      if delegatesEdit {
        return true;
      }
      StartEditLocal();
      return false;
    }

    method StartEditLocal()
      modifies this
      ensures State() == EditOpened(old(State()))
    {
      if editing {
        return;
      }
      editing := true;
    }

    method CommitEdit(m: Option<int>, s: Option<int>)
      modifies this
      ensures State() == EditCommitted(old(State()), m, s)
    {
      if !editing {
        return;
      }
      if m.None? || s.None? {
        entriesFlagged := true;
        return;
      }
      var minutes := Clamp(m.value, 0, 99);
      var seconds := Clamp(s.value, 0, 59);
      CancelEdit();
      SetTime(minutes, seconds);
    }

    method CancelEdit()
      modifies this
      ensures State() == EditCancelled(old(State()))
    {
      if !editing {
        return;
      }
      editing := false;
      entriesFlagged := false;
    }
  }
}
