/**
 * What a timer zone shows and plays for its stage: the mapping of `TimerZone._apply_stage`,
 * the tone requests of `beep_yellow`/`beep_red`/`beep_done`, the mm:ss split of
 * `_refresh_display` and the palette choice of `get_palette`.
 */
module Feedback {
  import opened Wrappers
  import Stages

  /** Keys of the colour palette that the stage mapping uses. */
  datatype PaletteKey = Green | Yellow | Red | Text | TextSub | ZoneBg | BgYellow | BgRed

  /** What `_apply_stage` writes into the zone's widgets. */
  datatype Look = Look(
    background: PaletteKey,
    status: string, statusColor: PaletteKey,
    zoneText: string, zoneColor: PaletteKey,
    digitColor: PaletteKey, colonColor: PaletteKey)

  const TimesUp := "TIME'S UP"
  const HalfWay := "HALF WAY THERE"

  /** `0.50 <= pct < 0.55`: the episode timer's "half way" band. */
  predicate InHalfWayBand(pct: real)
  {
    0.50 <= pct < 0.55
  }

  function Background(s: Stages.Stage): PaletteKey
  {
    if s.Done? || s.Red? then BgRed else if s.Yellow? then BgYellow else ZoneBg
  }

  /** Status text and its colour; `isTop` selects the episode timer's messages. */
  function Status(isTop: bool, s: Stages.Stage, pct: real): (string, PaletteKey)
  {
    if isTop then
      if s.Done? then (TimesUp, Red)
      else if s.Red? then ("FINALIZE THE EPISODE", Red)
      else if s.Yellow? then ("START SUMMARIZING", Yellow)
      else if InHalfWayBand(pct) then (HalfWay, Green)
      else ("", Green)
    else
      match s
      case Great => ("DOING GREAT", Green)
      case Yellow => ("GET TO THE POINT", Yellow)
      case Red => ("WRAP IT UP", Red)
      case Done => (TimesUp, Red)
  }

  function Describe(isTop: bool, name: string, s: Stages.Stage, pct: real): Look
  {
    var (text, color) := Status(isTop, s, pct);
    Look(Background(s), text, color,
         if s.Done? then TimesUp else name,
         if s.Done? then Red else TextSub,
         if s.Done? then Red else Text,
         if s.Done? then Red else TextSub)
  }

  /** The speaker timer's status text names its stage: different stages, different texts. */
  lemma SpeakerStatusNamesStage(s: Stages.Stage, t: Stages.Stage, p: real, q: real)
    ensures Status(false, s, p).0 != ""
    ensures Status(false, s, p).0 == Status(false, t, q).0 <==> s == t
  {
  }

  /**
   * The episode timer's status is blank only while great outside the half-way band, and
   * the fraction matters only while great.
   */
  lemma EpisodeStatus(s: Stages.Stage, p: real, q: real)
    ensures Status(true, s, p).0 == "" <==> s.Great? && !InHalfWayBand(p)
    ensures Status(true, s, p).0 == HalfWay <==> s.Great? && InHalfWayBand(p)
    ensures !s.Great? ==> Status(true, s, p) == Status(true, s, q)
  {
  }

  /** Only the great stage's text depends on the fraction, and only for the episode timer. */
  lemma LookIgnoresFraction(isTop: bool, name: string, s: Stages.Stage, p: real, q: real)
    requires !(isTop && s.Great?)
    ensures Describe(isTop, name, s, p) == Describe(isTop, name, s, q)
  {
  }

  /**
   * Both zones use the same background and label colours for a stage; the zone label reads
   * "TIME'S UP" exactly when done (for a name that is not itself that text).
   */
  lemma ZoneLook(name: string, s: Stages.Stage, p: real, q: real)
    requires name != TimesUp
    ensures Describe(true, name, s, p).background == Describe(false, name, s, q).background
    ensures Describe(true, name, s, p).zoneText == TimesUp <==> s.Done?
    ensures Describe(true, name, s, p).background == BgRed <==> Stages.Rank(s) >= 2
    ensures Describe(false, name, s, p).zoneText == Describe(true, name, s, q).zoneText
  {
  }

  /**
   * The half-way band in integer arithmetic: `0.50 <= pct < 0.55` is
   * `2 * elapsed >= total && 20 * elapsed < 11 * total` (both false for a zero-length timer).
   */
  lemma HalfWayExact(remain: int, total: int)
    ensures InHalfWayBand(Stages.ElapsedFraction(remain, total))
        <==> 2 * (total - remain) >= total && 20 * (total - remain) < 11 * total
  {
    if total > 0 {
      Stages.FractionAtLeast(remain, total, 1, 2);
      Stages.FractionAtLeast(remain, total, 11, 20);
      assert (1 as real) / (2 as real) == 0.50;
      assert (11 as real) / (20 as real) == 0.55;
    }
  }

  // ---------------------------------------------------------------------------------------
  // Tones

  /** A requested tone: frequency in hertz and duration in milliseconds. */
  datatype Tone = Tone(freqHz: nat, durMs: nat)

  /** The tones `_tick` requests for a stage change: `beep_yellow`, `beep_red`, `beep_done`. */
  function Beeps(s: Stages.Stage): seq<Tone>
  {
    match s
    case Yellow => [Tone(660, 180)]
    case Red => [Tone(440, 220)]
    case Done => [Tone(330, 300), Tone(330, 300)]
    case Great => []
  }

  /** The tones for a list of tick results, in order, skipping "no change". */
  function Cues(changes: seq<Option<Stages.Stage>>): seq<Tone>
  {
    if changes == [] then []
    else
      var last := changes[|changes| - 1];
      Cues(changes[..|changes| - 1]) + (if last.Some? then Beeps(last.value) else [])
  }

  /** The loop of `_tick` over `filter(None, [top_new, bot_new])`. */
  method DispatchCues(changes: seq<Option<Stages.Stage>>) returns (tones: seq<Tone>)
    ensures tones == Cues(changes)
  {
    tones := [];
    var i := 0;
    while i < |changes|
      invariant 0 <= i <= |changes|
      invariant tones == Cues(changes[..i])
    {
      assert changes[..i + 1][..i] == changes[..i];
      if changes[i].Some? {
        var stage := changes[i].value;
        if stage == Stages.Yellow {
          tones := tones + [Tone(660, 180)];
        } else if stage == Stages.Red {
          tones := tones + [Tone(440, 220)];
        } else if stage == Stages.Done {
          tones := tones + [Tone(330, 300)];
          tones := tones + [Tone(330, 300)];
        }
      }
      i := i + 1;
    }
    assert changes[..|changes|] == changes;
  }

  /** The tones of two lists of changes are the tones of each, in order. */
  lemma {:induction false} CuesAppend(xs: seq<Option<Stages.Stage>>, ys: seq<Option<Stages.Stage>>)
    ensures Cues(xs + ys) == Cues(xs) + Cues(ys)
    decreases |ys|
  {
    if ys == [] {
      assert xs + ys == xs;
    } else {
      var init := ys[..|ys| - 1];
      assert (xs + ys)[..|xs + ys| - 1] == xs + init;
      CuesAppend(xs, init);
    }
  }

  /** A stage change costs one tone, two for done, none for great. */
  lemma BeepsCount(s: Stages.Stage)
    ensures |Beeps(s)| == if s.Done? then 2 else if s.Great? then 0 else 1
    ensures forall t :: t in Beeps(s) ==> t.durMs >= 180 && t.freqHz >= 330
  {
  }

  /** Without any stage change there is no tone. */
  lemma {:induction false} CuesOfNoChange(changes: seq<Option<Stages.Stage>>)
    requires forall i :: 0 <= i < |changes| ==> changes[i].None?
    ensures Cues(changes) == []
    decreases |changes|
  {
    if changes != [] {
      CuesOfNoChange(changes[..|changes| - 1]);
    }
  }

  // ---------------------------------------------------------------------------------------
  // Display helpers

  /**
   * `m = remain // 60; s = remain % 60`. For a positive divisor Python's floor division and
   * Dafny's Euclidean division agree, also for negative `remain`.
   */
  function MinSec(remain: int): (ms: (int, int))
    ensures ms.0 * 60 + ms.1 == remain && 0 <= ms.1 < 60
  {
    (remain / 60, remain % 60)
  }

  /** A duration entered as minutes and seconds is displayed as those same two numbers. */
  lemma MinSecRoundTrip(m: int, s: int)
    requires 0 <= s < 60
    ensures MinSec(m * 60 + s) == (m, s)
  {
  }

  /** Every duration an edit can produce (at most 99:59) shows at most 99 minutes. */
  lemma MinSecOfEditable(remain: int)
    requires 0 <= remain <= 99 * 60 + 59
    ensures 0 <= MinSec(remain).0 <= 99
  {
  }

  function DigitChar(d: int): char
    requires 0 <= d < 10
  {
    "0123456789"[d]
  }

  /** Decimal digits of a natural number, as `str` writes them. */
  function Decimal(n: nat): string
    decreases n
  {
    if n < 10 then [DigitChar(n)] else Decimal(n / 10) + [DigitChar(n % 10)]
  }

  /** `f"{n:02d}"`: zero-padded to two characters; a sign counts towards the width. */
  function Pad2(n: int): string
  {
    if n < 0 then "-" + Decimal(-n)
    else if n < 10 then "0" + Decimal(n)
    else Decimal(n)
  }

  /** The value of a string of decimal digits, as `int()` reads it. */
  function DigitsValue(s: string): int
  {
    if s == [] then 0
    else
      var c := s[|s| - 1];
      DigitsValue(s[..|s| - 1]) * 10 + (if '0' <= c <= '9' then (c as int) - ('0' as int) else 0)
  }

  lemma {:induction false} DecimalRoundTrip(n: nat)
    ensures DigitsValue(Decimal(n)) == n
    ensures forall i :: 0 <= i < |Decimal(n)| ==> '0' <= Decimal(n)[i] <= '9'
    decreases n
  {
    if n >= 10 {
      DecimalRoundTrip(n / 10);
      var d := Decimal(n);
      assert d[..|d| - 1] == Decimal(n / 10);
    }
  }

  /**
   * The text an edit entry is pre-filled with reads back as the same number, and a value
   * from 0 to 99 is written as exactly two digits.
   */
  lemma Pad2RoundTrip(n: nat)
    ensures DigitsValue(Pad2(n)) == n
    ensures n < 100 ==> |Pad2(n)| == 2 && Pad2(n) == [DigitChar(n / 10), DigitChar(n % 10)]
  {
    DecimalRoundTrip(n);
    if n < 10 {
      var p := Pad2(n);
      assert p[..1] == "0";
      assert DigitsValue("0") == 0;
    } else if n < 100 {
      assert Decimal(n / 10) == [DigitChar(n / 10)];
    }
  }

  // ---------------------------------------------------------------------------------------
  // Palette

  datatype Palette = Dark | Light

  /** `get_palette`: "system" follows the desktop, "light" is light, anything else is dark. */
  function GetPalette(theme: string, sysDark: bool): (p: Palette)
    ensures p == Light <==> theme == "light" || (theme == "system" && !sysDark)
  {
    if theme == "system" then (if sysDark then Dark else Light)
    else if theme == "light" then Light
    else Dark
  }
}
