/**
 * The exercise player: a fixed catalog of guided exercises and one countdown
 * timer. The timer's steps are pure functions over a Timer value; the
 * ExercisePlayer class holds the component's fields and is specified by them.
 */
module MindfulnessExercises {
  import opened Wrappers

  datatype ExerciseType = Breathing | Meditation | Body

  /** A catalog entry; the icon is not modelled. `duration` is in seconds. */
  datatype Exercise = Exercise(
    id: string, title: string, description: string, duration: nat,
    kind: ExerciseType, instructions: seq<string>)

  const Catalog: seq<Exercise> := [
    Exercise("4-7-8-breathing", "4-7-8 Breathing",
      "A calming breath pattern to reduce anxiety and promote relaxation", 240, Breathing,
      ["Sit comfortably with your back straight",
       "Place your tongue against the ridge behind your upper teeth",
       "Exhale completely through your mouth",
       "Inhale through your nose for 4 counts",
       "Hold your breath for 7 counts",
       "Exhale through your mouth for 8 counts",
       "Repeat this cycle 3-4 times"]),
    Exercise("body-scan", "Body Scan Meditation",
      "Progressive relaxation technique to release tension", 600, Body,
      ["Lie down comfortably or sit in a chair",
       "Close your eyes and take three deep breaths",
       "Start by noticing your toes and feet",
       "Slowly move your attention up through your body",
       "Notice each part without trying to change anything",
       "If you find tension, breathe into that area",
       "Continue until you reach the top of your head"]),
    Exercise("loving-kindness", "Loving Kindness Meditation",
      "Cultivate compassion for yourself and others", 480, Meditation,
      ["Sit comfortably and close your eyes",
       "Begin by directing loving thoughts to yourself",
       "Repeat: \"May I be happy, may I be healthy, may I be at peace\"",
       "Visualize someone you care about",
       "Send them the same loving wishes",
       "Extend this to neutral people, then difficult people",
       "Finally, send loving kindness to all beings everywhere"]),
    Exercise("box-breathing", "Box Breathing",
      "Equal count breathing for focus and calm", 300, Breathing,
      ["Sit with your back straight and feet flat on floor",
       "Inhale through your nose for 4 counts",
       "Hold your breath for 4 counts",
       "Exhale through your mouth for 4 counts",
       "Hold empty for 4 counts",
       "Repeat this square pattern",
       "Visualize drawing a box with your breath"])
  ]

  /** `Math.ceil(duration / 60)`, the minutes shown on a catalog card. */
  function DisplayMinutes(duration: nat): (m: nat)
    ensures m * 60 >= duration
    ensures m == 0 || (m - 1) * 60 < duration
  {
    (duration + 59) / 60
  }

  /** Four exercises with distinct ids, the durations 240, 600, 480 and 300
      seconds, seven instructions each, shown as 4, 10, 8 and 5 minutes. */
  lemma CatalogFacts()
    ensures |Catalog| == 4
    ensures forall i, j :: 0 <= i < j < |Catalog| ==> Catalog[i].id != Catalog[j].id
    ensures [Catalog[0].duration, Catalog[1].duration, Catalog[2].duration, Catalog[3].duration]
         == [240, 600, 480, 300]
    ensures forall i :: 0 <= i < |Catalog| ==> |Catalog[i].instructions| == 7 && Catalog[i].duration > 0
    ensures [DisplayMinutes(Catalog[0].duration), DisplayMinutes(Catalog[1].duration),
             DisplayMinutes(Catalog[2].duration), DisplayMinutes(Catalog[3].duration)] == [4, 10, 8, 5]
  {
    assert Catalog[0].id[0] == '4' && Catalog[1].id[0] == 'b' && Catalog[2].id[0] == 'l';
    assert Catalog[3].id[0] == 'b' && Catalog[1].id[1] == 'o' && Catalog[3].id[1] == 'o';
    assert Catalog[1].id[2] == 'd' && Catalog[3].id[2] == 'x';
  }

  /** The type name an exercise carries in the source. */
  function TypeName(kind: ExerciseType): string
  {
    match kind
    case Breathing => "breathing"
    case Meditation => "meditation"
    case Body => "body"
  }

  /** `getTypeColor`: the gradient of an exercise type, grey for any other name. */
  function TypeColor(typeName: string): string
  {
    match typeName
    case "breathing" => "from-blue-500 to-cyan-600"
    case "meditation" => "from-purple-500 to-indigo-600"
    case "body" => "from-green-500 to-emerald-600"
    case _ => "from-gray-500 to-gray-600"
  }

  /** Every exercise type has its own colour, never the grey fallback. */
  lemma TypeColorsDistinct(a: ExerciseType, b: ExerciseType)
    ensures TypeColor(TypeName(a)) != "from-gray-500 to-gray-600"
    ensures a != b ==> TypeColor(TypeName(a)) != TypeColor(TypeName(b))
  {
    assert TypeColor(TypeName(Breathing))[5] == 'b';
    assert TypeColor(TypeName(Meditation))[5] == 'p';
    assert TypeColor(TypeName(Body))[5] == 'g';
    assert TypeColor(TypeName(Body))[7] == 'e';
  }

  // ---------------------------------------------------------------------------
  // formatTime
  // ---------------------------------------------------------------------------

  function DigitChar(d: nat): char
    requires d < 10
  {
    ('0' as int + d) as char
  }

  predicate IsDigits(s: string)
  {
    forall i :: 0 <= i < |s| ==> '0' <= s[i] <= '9'
  }

  /** The number a string of decimal digits denotes. */
  function DigitsValue(s: string): int
  {
    if s == [] then 0 else DigitsValue(s[..|s| - 1]) * 10 + (s[|s| - 1] as int - '0' as int)
  }

  /** `n.toString()` for a non-negative integer. */
  function DecimalString(n: nat): (s: string)
    ensures |s| >= 1 && IsDigits(s)
    ensures n < 10 ==> |s| == 1
    ensures 10 <= n < 100 ==> |s| == 2
  {
    if n < 10 then [DigitChar(n)] else DecimalString(n / 10) + [DigitChar(n % 10)]
  }

  /** The decimal string denotes n and has no leading zero. */
  lemma {:induction false} DecimalStringValue(n: nat)
    ensures DigitsValue(DecimalString(n)) == n
    ensures |DecimalString(n)| == 1 || DecimalString(n)[0] != '0'
  {
    var s := DecimalString(n);
    if n >= 10 {
      DecimalStringValue(n / 10);
      assert s[..|s| - 1] == DecimalString(n / 10);
    }
  }

  /** `s.padStart(width, fill)` */
  function PadStart(s: string, width: nat, fill: char): (r: string)
    ensures |r| == if |s| >= width then |s| else width
    ensures r == Repeat(fill, |r| - |s|) + s
    decreases width - |s|
  {
    if |s| >= width then s else PadStart([fill] + s, width, fill)
  }

  function Repeat(c: char, n: nat): (r: string)
    ensures |r| == n && forall i :: 0 <= i < n ==> r[i] == c
  {
    if n == 0 then [] else [c] + Repeat(c, n - 1)
  }

  /** `formatTime`: minutes, a colon and the seconds padded to two digits. */
  function FormatTime(seconds: nat): string
  {
    DecimalString(seconds / 60) + ":" + PadStart(DecimalString(seconds % 60), 2, '0')
  }

  /** The output is `m:ss` with m = seconds div 60 written in decimal and ss
      the two digits of seconds mod 60. */
  lemma FormatTimeShape(seconds: nat)
    ensures var ss := seconds % 60;
      FormatTime(seconds) == DecimalString(seconds / 60) + [':'] + [DigitChar(ss / 10), DigitChar(ss % 10)]
  {
    var ss := seconds % 60;
    var p := PadStart(DecimalString(ss), 2, '0');
    if ss < 10 {
      assert p == ['0'] + [DigitChar(ss)];
    } else {
      assert DecimalString(ss) == DecimalString(ss / 10) + [DigitChar(ss % 10)];
    }
  }

  /** Reads `m:ss` back: m is any non-empty digit string, ss exactly two digits
      below 60. */
  function ParseTime(t: string): Option<int>
  {
    if |t| >= 4 && t[|t| - 3] == ':' then ParseParts(t[..|t| - 3], t[|t| - 2..]) else None
  }

  function ParseParts(mins: string, secs: string): Option<int>
  {
    if |mins| >= 1 && IsDigits(mins) && IsDigits(secs) && DigitsValue(secs) < 60
    then Some(DigitsValue(mins) * 60 + DigitsValue(secs))
    else None
  }

  /** The two digits of a number below 60 denote it. */
  lemma TwoDigits(ss: nat)
    requires ss < 60
    ensures IsDigits([DigitChar(ss / 10), DigitChar(ss % 10)])
    ensures DigitsValue([DigitChar(ss / 10), DigitChar(ss % 10)]) == ss
  {
    var two := [DigitChar(ss / 10), DigitChar(ss % 10)];
    assert two[..1] == [DigitChar(ss / 10)];
    assert [DigitChar(ss / 10)][..0] == [];
    assert DigitsValue([DigitChar(ss / 10)]) == ss / 10;
  }

  lemma ParseShape(m: string, two: string)
    requires |m| >= 1 && |two| == 2
    ensures ParseTime(m + [':'] + two) == ParseParts(m, two)
  {
    var t := m + [':'] + two;
    assert t[..|t| - 3] == m;
    assert t[|t| - 2..] == two;
  }

  lemma PartsValue(n: nat, ss: nat)
    requires ss < 60
    ensures ParseParts(DecimalString(n), [DigitChar(ss / 10), DigitChar(ss % 10)]) == Some(n * 60 + ss)
  {
    DecimalStringValue(n);
    TwoDigits(ss);
  }

  /** Reading back the `m:ss` shape gives the seconds. */
  lemma ParseFormatted(seconds: nat)
    ensures var ss := seconds % 60;
      ParseTime(DecimalString(seconds / 60) + [':'] + [DigitChar(ss / 10), DigitChar(ss % 10)]) == Some(seconds)
  {
    var ss := seconds % 60;
    ParseShape(DecimalString(seconds / 60), [DigitChar(ss / 10), DigitChar(ss % 10)]);
    PartsValue(seconds / 60, ss);
  }

  /** formatTime loses nothing: reading its output back gives the seconds. */
  lemma FormatTimeRoundTrip(seconds: nat)
    ensures ParseTime(FormatTime(seconds)) == Some(seconds)
  {
    FormatTimeShape(seconds);
    ParseFormatted(seconds);
  }

  lemma FormatTimeExamples()
    ensures FormatTime(240) == "4:00"
    ensures FormatTime(65) == "1:05"
  {
    FormatTimeShape(240);
    FormatTimeShape(65);
  }

  // ---------------------------------------------------------------------------
  // The timer
  // ---------------------------------------------------------------------------

  /** The component's four state variables. */
  datatype Timer = Timer(selected: Option<Exercise>, isActive: bool, timeLeft: int, currentStep: int)

  const InitialTimer := Timer(None, false, 0, 0)

  /** `startExercise` */
  function Start(e: Exercise): Timer
  {
    Timer(Some(e), true, e.duration, 0)
  }

  /** `toggleTimer` */
  function Toggle(t: Timer): Timer
  {
    t.(isActive := !t.isActive)
  }

  /** `resetTimer` */
  function Reset(t: Timer): Timer
  {
    if t.selected.Some? then t.(timeLeft := t.selected.value.duration, isActive := false, currentStep := 0)
    else t
  }

  /** The "Back to Exercises" button: clears the selection only, so a running
      countdown goes on. */
  function Back(t: Timer): Timer
  {
    t.(selected := None)
  }

  /** One step of the effect: a running timer with time left loses one second;
      a running timer at zero stops; anything else is left alone. */
  function TickStep(t: Timer): Timer
  {
    if t.isActive && t.timeLeft > 0 then t.(timeLeft := t.timeLeft - 1)
    else if t.timeLeft == 0 && t.isActive then t.(isActive := false)
    else t
  }

  function Ticks(t: Timer, k: nat): Timer
  {
    if k == 0 then t else TickStep(Ticks(t, k - 1))
  }

  /** What each button changes: start sets all four fields; toggle flips only
      the running flag; back clears only the selection, leaving a running
      countdown running; reset restores the full duration of the selected
      exercise and stops, and does nothing without a selection. */
  lemma OperationEffects(t: Timer, e: Exercise)
    ensures Start(e) == Timer(Some(e), true, e.duration, 0)
    ensures Toggle(t).isActive == !t.isActive
    ensures Toggle(t).selected == t.selected && Toggle(t).timeLeft == t.timeLeft
    ensures Toggle(t).currentStep == t.currentStep
    ensures Back(t).selected == None && Back(t).isActive == t.isActive
    ensures Back(t).timeLeft == t.timeLeft && Back(t).currentStep == t.currentStep
    ensures t.selected.Some? ==> Reset(t) == Timer(t.selected, false, t.selected.value.duration, 0)
    ensures t.selected == None ==> Reset(t) == t
  {
  }

  /** The timer invariant: the time left lies between 0 and the duration of
      the exercise started last (bound); that is the selected exercise's
      duration while one is selected; and the step never leaves 0, since every
      assignment to it writes 0. */
  ghost predicate TimerInv(t: Timer, bound: nat)
  {
    && 0 <= t.timeLeft <= bound
    && t.currentStep == 0
    && (t.selected.Some? ==> t.selected.value.duration == bound)
  }

  lemma InitialTimerInv()
    ensures TimerInv(InitialTimer, 0)
  {
  }

  /** Every operation keeps the invariant; starting sets its bound. */
  lemma OperationsKeepInv(t: Timer, bound: nat, e: Exercise)
    requires TimerInv(t, bound)
    ensures TimerInv(Start(e), e.duration)
    ensures TimerInv(TickStep(t), bound) && TimerInv(Toggle(t), bound)
    ensures TimerInv(Reset(t), bound) && TimerInv(Back(t), bound)
  {
  }

  /** What a tick does, case by case. */
  lemma TickCases(t: Timer)
    ensures t.isActive && t.timeLeft > 0 ==> TickStep(t) == t.(timeLeft := t.timeLeft - 1)
    ensures t.isActive && t.timeLeft == 0 ==> TickStep(t) == t.(isActive := false)
    ensures !t.isActive ==> TickStep(t) == t
    ensures t.timeLeft >= 0 ==> TickStep(t).timeLeft >= 0
  {
  }

  /** After starting e, k <= e.duration ticks leave e.duration - k seconds on
      a still running timer. */
  lemma {:induction false} Countdown(e: Exercise, k: nat)
    requires k <= e.duration
    ensures Ticks(Start(e), k) == Timer(Some(e), true, e.duration - k, 0)
  {
    if k > 0 {
      Countdown(e, k - 1);
    }
  }

  /** A stopped timer stays as it is however many ticks follow. */
  lemma {:induction false} StoppedStaysPut(t: Timer, k: nat)
    requires !t.isActive
    ensures Ticks(t, k) == t
  {
    if k > 0 {
      StoppedStaysPut(t, k - 1);
    }
  }

  lemma {:induction false} TicksAdd(t: Timer, j: nat, k: nat)
    ensures Ticks(Ticks(t, j), k) == Ticks(t, j + k)
  {
    if k > 0 {
      TicksAdd(t, j, k - 1);
    }
  }

  /** After exactly `duration` ticks the time left is 0; the next tick stops
      the timer at 0, and it never goes below 0 however long it runs. */
  lemma CountdownEnds(e: Exercise, extra: nat)
    ensures Ticks(Start(e), e.duration) == Timer(Some(e), true, 0, 0)
    ensures Ticks(Start(e), e.duration + 1 + extra) == Timer(Some(e), false, 0, 0)
  {
    Countdown(e, e.duration);
    var stopped := Timer(Some(e), false, 0, 0);
    assert Ticks(Start(e), e.duration + 1) == stopped;
    StoppedStaysPut(stopped, extra);
    TicksAdd(Start(e), e.duration + 1, extra);
  }

  /** The width of the progress bar, `(duration - timeLeft) / duration`. */
  function Progress(duration: nat, timeLeft: int): (p: real)
    requires duration > 0
    ensures 0 <= timeLeft <= duration ==> 0.0 <= p <= 1.0
    ensures timeLeft == duration ==> p == 0.0
    ensures timeLeft == 0 ==> p == 1.0
  {
    ((duration - timeLeft) as real) / (duration as real)
  }

  /** A tick never moves the progress bar backwards. */
  lemma TickAdvancesProgress(t: Timer)
    requires t.selected.Some? && t.selected.value.duration > 0
    ensures var d := t.selected.value.duration;
      Progress(d, t.timeLeft) <= Progress(d, TickStep(t).timeLeft)
  {
    var d := t.selected.value.duration as real;
    if t.isActive && t.timeLeft > 0 {
      assert (d - (t.timeLeft as real)) / d <= (d - (t.timeLeft as real) + 1.0) / d;
    }
  }

  /**
   * The component's state. `bound` is the duration of the exercise started
   * last; the timer can outlive its selection (see Back).
   */
  class ExercisePlayer {
    var selectedExercise: Option<Exercise>
    var isActive: bool
    var timeLeft: int
    var currentStep: int
    ghost var bound: nat

    function State(): Timer
      reads this
    {
      Timer(selectedExercise, isActive, timeLeft, currentStep)
    }

    ghost predicate Valid()
      reads this
    {
      TimerInv(State(), bound)
    }

    constructor ()
      ensures Valid() && State() == InitialTimer
    {
      selectedExercise, isActive, timeLeft, currentStep := None, false, 0, 0;
      bound := 0;
    }

    method StartExercise(e: Exercise)
      requires Valid()
      modifies this
      ensures Valid() && State() == Start(e) && bound == e.duration
    {
      selectedExercise := Some(e);
      timeLeft := e.duration;
      currentStep := 0;
      isActive := true;
      bound := e.duration;
    }

    method ToggleTimer()
      requires Valid()
      modifies this
      ensures Valid() && State() == Toggle(old(State())) && bound == old(bound)
    {
      isActive := !isActive;
    }

    method ResetTimer()
      requires Valid()
      modifies this
      ensures Valid() && State() == Reset(old(State())) && bound == old(bound)
    {
      if selectedExercise.Some? {
        timeLeft := selectedExercise.value.duration;
        isActive := false;
        currentStep := 0;
      }
    }

    method BackToExercises()
      requires Valid()
      modifies this
      ensures Valid() && State() == Back(old(State())) && bound == old(bound)
    {
      selectedExercise := None;
    }

    /** One firing of the interval, or the effect's immediate stop at zero. */
    method Tick()
      requires Valid()
      modifies this
      ensures Valid() && State() == TickStep(old(State())) && bound == old(bound)
    {
      if isActive && timeLeft > 0 {
        timeLeft := timeLeft - 1;
      } else if timeLeft == 0 && isActive {
        isActive := false;
      }
    }

    /** The progress bar's fraction while an exercise is selected. */
    method ProgressFraction() returns (p: real)
      requires Valid() && selectedExercise.Some? && selectedExercise.value.duration > 0
      ensures 0.0 <= p <= 1.0
      ensures p == Progress(selectedExercise.value.duration, timeLeft)
    {
      p := Progress(selectedExercise.value.duration, timeLeft);
    }
  }
}
