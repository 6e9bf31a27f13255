# Mindful AI — a Dafny model of the wellness companion's logic

Mindful AI is a single-page wellness companion. It has five tabs: a chat, a
daily check-in, guided mindfulness exercises, mood insights and a resource
list. This project models the behaviour behind the first four tabs and the
container that joins them, and proves what that behaviour promises. It leaves
out the rendering.

- `mood_tracker.dfy` (module `MoodTracker`) is the insight aggregator.
  - It computes the average energy, rounded to one decimal and kept as whole
    tenths.
  - It computes the mood trend by comparing the mean ordinal of the last three
    entries with the mean of the up to three entries before them (one, two or
    three, depending on the history's length), against a ±0.3 threshold.
  - It builds the newest-first "recent history" list.
  - Everything in it is a pure function over the read-only history.
- `chat_interface.dfy` (module `ChatInterface`) is the chat.
  - The keyword response engine is an ordered, first-match-wins,
    case-insensitive substring classifier. Its reply names one of the fixed
    texts and carries the mood handed to `onMoodUpdate`. Its reply and mood
    are proved equal, for every message, to those of an independent ordered
    rule table.
  - The message log is the class `ChatLog`. Its send step appends the user's
    message. Its delivery step, the timer callback, appends the bot's reply to
    the text that was sent.
- `mindfulness_exercises.dfy` (module `MindfulnessExercises`) is the exercise
  player.
  - It holds the four-exercise catalog, `formatTime` with a parsing inverse,
    the type colours and the progress fraction.
  - The countdown timer's start, toggle, reset, back and one-second tick are
    functions over a `Timer` value. The class `ExercisePlayer` holds the
    component's four fields and is specified by those functions.
- `daily_check_in.dfy` (module `DailyCheckIn`) is the check-in form, the class
  `CheckInForm`. One mounted form goes from editing to submitted at most once,
  and only with a mood chosen.
- `app.dfy` (module `App`) is the container, the class `AppState`.
  - It holds the append-only mood history fed by check-ins and the current
    mood, which both the check-in and the chat set.
  - It also holds the tab and menu selection and the tab-to-view mapping.
- `wrappers.dfy` (module `Wrappers`) holds the `Option` type.

Arithmetic is exact. The average is an integer number of tenths, with
`Math.round` rounding half up. The trend is decided by cross-multiplied
integers: recent mean R/r against older mean O/o is compared as 10·R·o
against 10·O·r ± 3·r·o. The contracts state both results as the rational
means they stand for.

## Model

| member | source | states |
|---|---|---|
| MoodTracker.SliceIndex | src/components/MoodTracker.tsx:54-55 | a `slice` index counts back from the end when negative and is clamped to 0..length |
| MoodTracker.JsSlice | src/components/MoodTracker.tsx:54-55 | `slice(start, end)` has length max(end' − start', 0) over the normalised indices, and its entry i is entry start' + i of the input |
| MoodTracker.Recent | src/components/MoodTracker.tsx:54 | `slice(-3)`, the recent window; what it holds is stated by `Windows` |
| MoodTracker.Older | src/components/MoodTracker.tsx:55 | `slice(-6, -3)`, the older window; what it holds is stated by `Windows` |
| MoodTracker.Windows | src/components/MoodTracker.tsx:54-55 | recent is the last min(3,n) entries; older is positions max(n−6,0) up to max(n−3,0); the two are adjacent and together form the last min(6,n) entries |
| MoodTracker.EnergySum | src/components/MoodTracker.tsx:39 | the `reduce` total of the energies; bounded by `EnergySumBounds` |
| MoodTracker.AverageEnergyTenths | src/components/MoodTracker.tsx:37-40 | 0 for an empty history; otherwise r is the half-up rounding of 10·sum/n: r − ½ ≤ 10·sum/n < r + ½ |
| MoodTracker.EnergySumBounds | src/components/MoodTracker.tsx:39 | with every energy in 1..10 the total lies between n and 10·n |
| MoodTracker.AverageEnergyInRange | src/components/MoodTracker.tsx:37-40 | a non-empty history with energies in 1..10 averages between 1.0 and 10.0 |
| MoodTracker.AverageEnergyExample | src/components/MoodTracker.tsx:37-41 | energies 2, 8, 5 average to 5.0 |
| MoodTracker.MoodValue | src/components/MoodTracker.tsx:46-52 | excellent=5, good=4, neutral=3, low=2, struggling=1; any other label counts 3; every value lies in 1..5 |
| MoodTracker.OrdinalSum | src/components/MoodTracker.tsx:59-60 | the `reduce` total of a window's ordinals, each looked up by `MoodValue` |
| MoodTracker.Mean | src/components/MoodTracker.tsx:59-60 | a window's total divided by its length, as a real; the trend's contract is stated in these means |
| MoodTracker.CrossMultiplyAbove | src/components/MoodTracker.tsx:62 | R/r > O/o + 0.3 exactly when 10·R·o > 10·O·r + 3·r·o |
| MoodTracker.CrossMultiplyBelow | src/components/MoodTracker.tsx:63 | R/r < O/o − 0.3 exactly when 10·R·o < 10·O·r − 3·r·o |
| MoodTracker.Compare | src/components/MoodTracker.tsx:62-64 | improving exactly when the recent mean exceeds the older mean by more than 0.3; declining exactly when it falls short by more than 0.3 |
| MoodTracker.MoodTrend | src/components/MoodTracker.tsx:43-65 | stable below 4 entries; from 4 on, the recent window has 3 entries and the older 1 to 3; improving, declining and stable each hold exactly when their mean condition does |
| MoodTracker.TrendIgnoresOlderEntries | src/components/MoodTracker.tsx:54-55 | prepending entries to a history of at least 6 leaves the trend unchanged |
| MoodTracker.DecliningExample | src/components/MoodTracker.tsx:62-64 | three excellent days followed by three struggling days is declining |
| MoodTracker.Reverse | src/components/MoodTracker.tsx:134 | `reverse()`: same length, entry i is entry n−1−i of the input |
| MoodTracker.RecentHistory | src/components/MoodTracker.tsx:134 | the list shows min(7,n) entries, newest first: entry i is entry n−1−i of the history |
| ChatInterface.LowerChar | src/components/ChatInterface.tsx:37 | capitals map to their lower case; every other character is kept; no capital remains |
| ChatInterface.Lower | src/components/ChatInterface.tsx:37 | lower-casing keeps the length and maps every character |
| ChatInterface.LowerIdempotent | src/components/ChatInterface.tsx:37 | lower-casing twice is lower-casing once |
| ChatInterface.LowerKeepsLowercase | src/components/ChatInterface.tsx:37 | text without capitals is its own lower case |
| ChatInterface.Includes | src/components/ChatInterface.tsx:40-64 | `includes(word)`, searched from the front; characterised by `IncludesAt` |
| ChatInterface.IncludesAt | src/components/ChatInterface.tsx:40 | `includes(word)` holds exactly when the word occurs at some position |
| ChatInterface.TrimStart | src/components/ChatInterface.tsx:81 | the result is a suffix; everything dropped is whitespace; the result does not start with whitespace |
| ChatInterface.TrimEnd | src/components/ChatInterface.tsx:81 | the result is a prefix; everything dropped is whitespace; the result does not end with whitespace |
| ChatInterface.Trim | src/components/ChatInterface.tsx:81 | `trim()` as `TrimStart` then `TrimEnd`; its emptiness is characterised by `TrimEmptyIffBlank` |
| ChatInterface.TrimEmptyIffBlank | src/components/ChatInterface.tsx:81 | `trim()` is empty exactly when the input is empty or all whitespace |
| ChatInterface.MentionsAnySome | src/components/ChatInterface.tsx:40-64 | an `a \|\| b \|\| c` chain of `includes` holds exactly when one of the words is included |
| ChatInterface.Classify | src/components/ChatInterface.tsx:40-66 | the if-chain of `generateBotResponse`; proved equal to the rule table by `ClassifyIsFirstMatch` |
| ChatInterface.FirstMatch | src/components/ChatInterface.tsx:39-66 | the rule it returns is one of the table's rules, and the text mentions one of its words |
| ChatInterface.FirstMatchWins | src/components/ChatInterface.tsx:39-66 | in an ordered rule table, the rule at position k decides when it matches and no earlier rule does |
| ChatInterface.FirstMatchNone | src/components/ChatInterface.tsx:68-77 | when no rule matches, no rule decides, so the generic pool answers |
| ChatInterface.ClassifyIsFirstMatch | src/components/ChatInterface.tsx:40-66 | the if-chain picks the same branch as first-match over the table stress, sad, positive, tired, mindfulness, help |
| ChatInterface.ReplyText | src/components/ChatInterface.tsx:42-77 | the exact wording of each keyword branch's reply and of the five pool entries |
| ChatInterface.BotResponse | src/components/ChatInterface.tsx:36-78 | a pool reply is the picked entry of the pool |
| ChatInterface.BotResponseIsFirstMatch | src/components/ChatInterface.tsx:36-78 | for every message and pick, the reply and mood are those of the first table rule matching the lower-cased message (stress → stress text and "stressed", sad → sad text and "sad", positive → positive text and "happy", tired → tired text and "tired", mindfulness and help → their texts and no mood), or pool entry `pick` and no mood when no rule matches |
| ChatInterface.StressTermAlwaysWins | src/components/ChatInterface.tsx:40-43 | every message containing "stressed", "anxious" or "worried", in any case, gets the stress reply and signals "stressed", whatever else it contains |
| ChatInterface.ResponseIgnoresCase | src/components/ChatInterface.tsx:37 | messages with the same lower case get the same reply and mood, and a message gets the same reply as its lower case |
| ChatInterface.MoodSignals | src/components/ChatInterface.tsx:41-66 | the mood is "stressed", "sad", "happy" or "tired" exactly for the stress, sad, positive and tired branches; none exactly for mindfulness, help and the default |
| ChatInterface.GenericReplyFromPool | src/components/ChatInterface.tsx:68-77 | exactly the inputs without a keyword get a pool reply, and it is entry `pick` |
| ChatInterface.AnxiousIsStress | src/components/ChatInterface.tsx:40 | "anxious and happy" falls into the stress branch |
| ChatInterface.StressBeatsPositive | src/components/ChatInterface.tsx:40-53 | "Anxious and happy" gets the stress reply and signals "stressed" although it also says "happy" |
| ChatInterface.NoStressTermIn | src/components/ChatInterface.tsx:40 | a seven-letter text starting with neither 'a' nor 'w' (such as "sadness" or "goodbye") contains no stress term |
| ChatInterface.SadnessIsSad | src/components/ChatInterface.tsx:40-48 | "sadness" falls into the sad branch |
| ChatInterface.SubstringSad | src/components/ChatInterface.tsx:45-47 | "sadness" gets the sad reply and signals "sad" |
| ChatInterface.GoodbyeNotSad | src/components/ChatInterface.tsx:45 | "goodbye" contains no sad term |
| ChatInterface.GoodbyeIsPositive | src/components/ChatInterface.tsx:40-53 | "goodbye" falls into the positive branch through "good" |
| ChatInterface.SubstringGood | src/components/ChatInterface.tsx:50-52 | "goodbye" gets the positive reply and signals "happy" |
| ChatInterface.ChatLog.constructor | src/components/ChatInterface.tsx:16-25 | the log is the one greeting message, the input is empty and the bot is not typing |
| ChatInterface.ChatLog.UpdateInput | src/components/ChatInterface.tsx:180 | only the input text changes |
| ChatInterface.ChatLog.Send | src/components/ChatInterface.tsx:80-92 | blank input changes nothing; otherwise one user message with the raw text is appended, the input is cleared, typing is set and a reply to that text is pending |
| ChatInterface.ChatLog.KeyPress | src/components/ChatInterface.tsx:108-113 | Enter without Shift sends: on blank input nothing changes, otherwise the text is appended and queued as by `Send`; any other key changes nothing |
| ChatInterface.ChatLog.AnswerOldest | src/components/ChatInterface.tsx:103-104 | one bot message is appended, the oldest pending text leaves the queue and typing is cleared |
| ChatInterface.ChatLog.DeliverReply | src/components/ChatInterface.tsx:95-105 | one bot message is appended, holding the engine's reply to the text that was sent; the mood returned is that reply's mood; typing is cleared; the invariant (greeting first, one answer per user message or a pending reply) is kept |
| ChatInterface.BlankSendIgnored | src/components/ChatInterface.tsx:81 | sending "   " leaves the log at the greeting, keeps the input and does not start typing |
| MindfulnessExercises.DisplayMinutes | src/components/MindfulnessExercises.tsx:239 | the minutes shown are ⌈duration/60⌉ |
| MindfulnessExercises.CatalogFacts | src/components/MindfulnessExercises.tsx:20-89 | 4 exercises with distinct ids, durations 240/600/480/300, 7 instructions each, shown as 4/10/8/5 minutes |
| MindfulnessExercises.TypeColor | src/components/MindfulnessExercises.tsx:130-137 | `getTypeColor`: one gradient per type name, grey for any other; distinctness is `TypeColorsDistinct` |
| MindfulnessExercises.TypeColorsDistinct | src/components/MindfulnessExercises.tsx:130-137 | each exercise type has its own colour, never the grey fallback |
| MindfulnessExercises.DecimalString | src/components/MindfulnessExercises.tsx:127 | `toString()` of a non-negative integer is a non-empty digit string; one digit below 10, two below 100 |
| MindfulnessExercises.DecimalStringValue | src/components/MindfulnessExercises.tsx:127 | the decimal string denotes n and has no leading zero |
| MindfulnessExercises.PadStart | src/components/MindfulnessExercises.tsx:127 | `padStart(w, c)` is the input preceded by enough copies of c to reach width w |
| MindfulnessExercises.FormatTime | src/components/MindfulnessExercises.tsx:124-128 | `formatTime`; its shape and inverse are `FormatTimeShape` and `FormatTimeRoundTrip` |
| MindfulnessExercises.FormatTimeShape | src/components/MindfulnessExercises.tsx:124-128 | the output is m, a colon, then the two digits of s mod 60, where m is s div 60 in decimal |
| MindfulnessExercises.FormatTimeRoundTrip | src/components/MindfulnessExercises.tsx:124-128 | parsing the `m:ss` output gives back the seconds, so m·60 + ss = s |
| MindfulnessExercises.FormatTimeExamples | src/components/MindfulnessExercises.tsx:124-128 | 240 is "4:00" and 65 is "1:05" |
| MindfulnessExercises.Start | src/components/MindfulnessExercises.tsx:105-110 | `startExercise` over the timer state; its effect is stated by `OperationEffects` |
| MindfulnessExercises.Toggle | src/components/MindfulnessExercises.tsx:112-114 | `toggleTimer` over the timer state; its effect is stated by `OperationEffects` |
| MindfulnessExercises.Reset | src/components/MindfulnessExercises.tsx:116-122 | `resetTimer` over the timer state; its effect is stated by `OperationEffects` |
| MindfulnessExercises.Back | src/components/MindfulnessExercises.tsx:208 | the back button over the timer state; its effect is stated by `OperationEffects` |
| MindfulnessExercises.TickStep | src/components/MindfulnessExercises.tsx:91-103 | one step of the interval effect; its cases are stated by `TickCases` |
| MindfulnessExercises.OperationEffects | src/components/MindfulnessExercises.tsx:105-122 | start sets all four fields; toggle flips only the running flag; back clears only the selection; reset restores the duration and stops, or does nothing without a selection |
| MindfulnessExercises.InitialTimerInv | src/components/MindfulnessExercises.tsx:15-18 | the initial state satisfies the timer invariant |
| MindfulnessExercises.OperationsKeepInv | src/components/MindfulnessExercises.tsx:91-122 | tick, toggle, reset and back keep 0 ≤ timeLeft ≤ duration and the step at 0; start re-establishes it for the new exercise |
| MindfulnessExercises.TickCases | src/components/MindfulnessExercises.tsx:91-103 | running with time left: one second less; running at 0: stops; stopped: unchanged; never negative |
| MindfulnessExercises.Countdown | src/components/MindfulnessExercises.tsx:94-97 | k ≤ duration ticks after start leave duration − k seconds on a running timer |
| MindfulnessExercises.StoppedStaysPut | src/components/MindfulnessExercises.tsx:94-100 | ticks do not change a stopped timer |
| MindfulnessExercises.CountdownEnds | src/components/MindfulnessExercises.tsx:94-99 | after exactly `duration` ticks the time left is 0; the next tick stops the timer, and it stays at 0 from then on |
| MindfulnessExercises.Progress | src/components/MindfulnessExercises.tsx:180 | the progress fraction lies in [0,1] when 0 ≤ timeLeft ≤ duration; it is 0 at the start and 1 at the end |
| MindfulnessExercises.TickAdvancesProgress | src/components/MindfulnessExercises.tsx:180 | a tick never moves the progress bar backwards |
| MindfulnessExercises.ExercisePlayer.constructor | src/components/MindfulnessExercises.tsx:15-18 | nothing is selected, the timer is stopped at 0 with step 0 |
| MindfulnessExercises.ExercisePlayer.StartExercise | src/components/MindfulnessExercises.tsx:105-110 | the new state is `Start(e)` and the invariant's bound becomes e's duration |
| MindfulnessExercises.ExercisePlayer.ToggleTimer | src/components/MindfulnessExercises.tsx:112-114 | the new state is `Toggle` of the old one; the invariant is kept |
| MindfulnessExercises.ExercisePlayer.ResetTimer | src/components/MindfulnessExercises.tsx:116-122 | the new state is `Reset` of the old one; the invariant is kept |
| MindfulnessExercises.ExercisePlayer.BackToExercises | src/components/MindfulnessExercises.tsx:208 | the new state is `Back` of the old one, so a running countdown keeps running |
| MindfulnessExercises.ExercisePlayer.Tick | src/components/MindfulnessExercises.tsx:91-103 | the new state is `TickStep` of the old one; the invariant is kept |
| MindfulnessExercises.ExercisePlayer.ProgressFraction | src/components/MindfulnessExercises.tsx:180 | the bar's fraction is `Progress` of the selection and lies in [0,1] under the invariant |
| DailyCheckIn.CheckInForm.constructor | src/components/DailyCheckIn.tsx:9-12 | mood "", energy 5, notes "", not submitted |
| DailyCheckIn.CheckInForm.SelectMood | src/components/DailyCheckIn.tsx:74 | only the mood changes, and it is one of the five ids |
| DailyCheckIn.CheckInForm.SetEnergy | src/components/DailyCheckIn.tsx:97-102 | only the energy changes, and it stays within 1..10 |
| DailyCheckIn.CheckInForm.SetNotes | src/components/DailyCheckIn.tsx:119-121 | only the notes change |
| DailyCheckIn.CheckInForm.Submit | src/components/DailyCheckIn.tsx:22-33 | without a mood nothing is emitted and nothing changes; with one, (mood, energy, notes) is emitted once and the form becomes submitted; what is emitted is always well-formed |
| DailyCheckIn.GoodWithDefaults | src/components/DailyCheckIn.tsx:9-33 | choosing "good" and submitting emits {mood: "good", energy: 5, notes: ""} |
| DailyCheckIn.SubmitWithoutMood | src/components/DailyCheckIn.tsx:22-23 | submitting without a mood emits nothing and leaves the form open |
| App.RenderTabContent | src/App.tsx:46-61 | `renderTabContent`'s switch with its chat fallback; its properties are `RenderTabContentIsOneToOne` |
| App.RenderTabContentIsOneToOne | src/App.tsx:46-61 | distinct tabs show distinct views; the tracker gets the history; any other id shows the chat |
| App.CheckInMoodsAreRanked | src/components/MoodTracker.tsx:46-52 | every check-in mood has its own ordinal on the tracker's scale (excellent 5 … struggling 1) |
| App.AppState.constructor | src/App.tsx:18-21 | tab "chat", empty history, current mood "", menu closed |
| App.AppState.HandleCheckInComplete | src/App.tsx:23-32 | exactly one entry with the given mood and energy is appended; earlier entries are kept; the notes are dropped; the current mood becomes the submitted mood |
| App.AppState.HandleMoodUpdate | src/App.tsx:34-36 | only the current mood changes; the history is untouched |
| App.AppState.SubmitCheckIn | src/App.tsx:50-51 | a refused submit records nothing; an accepted one appends the form's mood and energy, sets the current mood and marks the form submitted; the form's mood, energy and notes stay as they were |
| App.AppState.DeliverChatReply | src/App.tsx:48-49 | the log gains one bot message holding the engine's reply to the oldest pending text, that text leaves the queue and typing is cleared; a reply that signals a mood makes it the current mood, one without a signal keeps the old one; the history is untouched |
| App.AppState.SelectTab | src/App.tsx:84 | only the active tab changes |
| App.AppState.SelectTabFromMenu | src/App.tsx:114-117 | the tab is set and the menu closes |
| App.AppState.ToggleMenu | src/App.tsx:99 | only the menu flag flips |
| App.AppState.AverageEnergyShown | src/App.tsx:54-55 | the tracker's average for the recorded history lies in [1.0, 10.0] |

## Left out

- Rendering is not modelled: the JSX, CSS classes, icons, emoji, the mood
  colour and emoji tables, the trend icon and scrolling (`scrollToBottom`).
  They are presentation with no state.
- Timing is not modelled.
  - The 1.5-second reply delay and the one-second interval are explicit steps
    (`ChatLog.DeliverReply`, `ExercisePlayer.Tick`).
  - Several replies may be pending, as overlapping sends allow. They are taken
    oldest first. The source makes no promise about their order.
  - The first delivered reply clears the typing flag even while others are
    still pending, as the source does.
- `Math.random` is the `pick` parameter, an index in 0..4.
- `Date`, `toISOString()` and the `Date.now()` message ids are not modelled.
  Dates are opaque strings passed in, and messages carry no id or timestamp.
- Floating point is replaced by exact arithmetic.
  - Both windows hold at most 3 entries, so the difference of means has a
    denominator dividing 6. It can never equal 0.3 exactly, so the exact
    comparison agrees with the float one.
  - `Math.round` at the exact half of a float quotient is taken as exact.
- `toLowerCase` is modelled on ASCII letters only. Full Unicode case mapping
  is not.
- `MoodTracker.MoodValue`: the source looks labels up in an object literal
  with `|| 3`. A label naming an `Object.prototype` member would behave
  differently there. No such label is reachable from the check-in form.
- `ChatInterface.BotResponse` returns which fixed text is sent (`ReplyKind`)
  rather than the text, and `ReplyText` gives its exact wording. The bot
  message appended to the log holds that wording.
- `ChatInterface.ChatLog.DeliverReply`: the reply is computed from the text
  that was sent. This is the observable effect of the stale closure over
  `inputValue`. React's re-render and effect mechanics are otherwise out.
- `currentStep` is written but only ever set to 0 in the source (no code
  advances it). The model keeps it, and the timer invariant records that it
  stays 0.
- `App.AppState.SelectTab` and `App.AppState.SelectTabFromMenu` change only
  the active tab: `AppState` does not own the child components, so their
  lifetimes are not modelled. In the source, switching tabs unmounts the
  component being left. Coming back to the chat starts again at the
  greeting. The check-in form comes back fresh and can be submitted again;
  that is how the history gains more than one entry. The exercise timer is
  discarded and its interval cleared. A chat reply scheduled before the
  switch still calls `onMoodUpdate`, but its message is lost.
  `CheckInForm`'s "submitted at most once" and `ChatLog`'s invariant hold
  per mounted instance.
- The desktop navigation's layout and the menu's rendering are not modelled.
  Only their state changes are.
- `src/components/WellnessResources.tsx` is not part of this model. It is
  static content with no behaviour.
