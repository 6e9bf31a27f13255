/**
 * The top-level container: the active tab, the mobile menu, the append-only
 * mood history fed by check-ins, and the last known mood, which both the
 * check-in form and the chat update.
 */
module App {
  import opened Wrappers
  import MoodTracker
  import DailyCheckIn
  import ChatInterface

  datatype Tab = Chat | CheckIn | Exercises | Tracker | Resources

  /** A tab's `TabType` string. */
  function TabId(t: Tab): string
  {
    match t
    case Chat => "chat"
    case CheckIn => "checkin"
    case Exercises => "exercises"
    case Tracker => "tracker"
    case Resources => "resources"
  }

  /** The component a tab shows; the tracker receives the history. */
  datatype View =
    | ChatView
    | CheckInView
    | ExercisesView
    | TrackerView(history: seq<MoodTracker.MoodEntry>)
    | ResourcesView

  /** `renderTabContent`: a switch over the tab's string id that falls back
      to the chat. */
  function RenderTabContent(activeTab: string, history: seq<MoodTracker.MoodEntry>): View
  {
    match activeTab
    case "chat" => ChatView
    case "checkin" => CheckInView
    case "exercises" => ExercisesView
    case "tracker" => TrackerView(history)
    case "resources" => ResourcesView
    case _ => ChatView
  }

  /** Distinct tabs show distinct views, the tracker shows the history it is
      given, and any other id shows the chat. */
  lemma RenderTabContentIsOneToOne(a: Tab, b: Tab, id: string, h: seq<MoodTracker.MoodEntry>)
    ensures a != b ==> RenderTabContent(TabId(a), h) != RenderTabContent(TabId(b), h)
    ensures RenderTabContent(TabId(Tracker), h) == TrackerView(h)
    ensures (forall t :: TabId(t) != id) ==> RenderTabContent(id, h) == ChatView
  {
    assert TabId(Chat)[0] == 'c' && TabId(Chat)[1] == 'h';
    assert TabId(CheckIn)[0] == 'c' && TabId(CheckIn)[1] == 'h' && TabId(CheckIn)[2] == 'e';
    assert TabId(Chat)[2] == 'a';
    if (forall t :: TabId(t) != id) {
      assert id != TabId(Chat) && id != TabId(CheckIn) && id != TabId(Exercises);
      assert id != TabId(Tracker) && id != TabId(Resources);
    }
  }

  /** Every check-in mood has its own place on the tracker's scale, so no
      recorded check-in falls back to the default ordinal by accident. */
  lemma CheckInMoodsAreRanked()
    ensures forall i :: 0 <= i < |DailyCheckIn.MoodIds| ==>
      MoodTracker.MoodValue(DailyCheckIn.MoodIds[i]) == 5 - i
  {
    assert DailyCheckIn.MoodIds == MoodTracker.MoodScale;
  }

  class AppState {
    var activeTab: Tab
    var moodHistory: seq<MoodTracker.MoodEntry>
    var currentMood: string
    var isMenuOpen: bool

    /** Every recorded entry came from a submitted check-in: its mood is one of
        the five and its energy lies in 1..10. */
    ghost predicate Valid()
      reads this
    {
      forall i :: 0 <= i < |moodHistory| ==>
        moodHistory[i].mood in DailyCheckIn.MoodIds && 1 <= moodHistory[i].energy <= 10
    }

    constructor ()
      ensures Valid()
      ensures activeTab == Chat && moodHistory == [] && currentMood == "" && !isMenuOpen
    {
      activeTab, moodHistory, currentMood, isMenuOpen := Chat, [], "", false;
    }

    /** `handleCheckInComplete`: one entry carrying the submitted mood and
        energy, stamped with `date`, is appended (the notes are dropped), and
        the submitted mood becomes the current mood. */
    method HandleCheckInComplete(data: DailyCheckIn.CheckInData, date: string)
      requires Valid() && DailyCheckIn.IsValidData(data)
      modifies this
      ensures Valid()
      ensures moodHistory == old(moodHistory) + [MoodTracker.MoodEntry(date, data.mood, data.energy)]
      ensures currentMood == data.mood
      ensures activeTab == old(activeTab) && isMenuOpen == old(isMenuOpen)
    {
      moodHistory := moodHistory + [MoodTracker.MoodEntry(date, data.mood, data.energy)];
      currentMood := data.mood;
    }

    /** `handleMoodUpdate`, the chat's mood signal: only the current mood
        changes. */
    method HandleMoodUpdate(mood: string)
      requires Valid()
      modifies this
      ensures Valid()
      ensures currentMood == mood
      ensures moodHistory == old(moodHistory) && activeTab == old(activeTab) && isMenuOpen == old(isMenuOpen)
    {
      currentMood := mood;
    }

    /** The check-in form wired to `handleCheckInComplete`: a submit that emits
        records one entry; one that is refused changes nothing here. */
    method SubmitCheckIn(form: DailyCheckIn.CheckInForm, date: string)
      requires Valid() && form.Valid() && !form.isSubmitted
      modifies this, form
      ensures Valid() && form.Valid()
      ensures form.selectedMood == old(form.selectedMood) && form.energyLevel == old(form.energyLevel)
        && form.notes == old(form.notes)
      ensures old(form.selectedMood) == "" ==>
        moodHistory == old(moodHistory) && currentMood == old(currentMood) && !form.isSubmitted
      ensures old(form.selectedMood) != "" ==>
        moodHistory == old(moodHistory) + [MoodTracker.MoodEntry(date, old(form.selectedMood), old(form.energyLevel))]
        && currentMood == old(form.selectedMood) && form.isSubmitted
      ensures activeTab == old(activeTab) && isMenuOpen == old(isMenuOpen)
    {
      var emitted := form.Submit();
      if emitted.Some? {
        HandleCheckInComplete(emitted.value, date);
      }
    }

    /** A chat reply wired to `onMoodUpdate`: the mood it signals, if any,
        becomes the current mood. */
    method DeliverChatReply(log: ChatInterface.ChatLog, pick: nat)
      requires Valid() && log.Valid() && log.pending != [] && pick < ChatInterface.PoolSize
      modifies this, log
      ensures Valid() && log.Valid()
      ensures var r := ChatInterface.BotResponse(old(log.pending[0]), pick);
        && log.messages == old(log.messages) + [ChatInterface.Message(ChatInterface.Bot, ChatInterface.ReplyText(r.kind))]
        && currentMood == (if r.mood.Some? then r.mood.value else old(currentMood))
      ensures log.pending == old(log.pending[1..]) && !log.isTyping && log.inputValue == old(log.inputValue)
      ensures moodHistory == old(moodHistory) && activeTab == old(activeTab) && isMenuOpen == old(isMenuOpen)
    {
      var mood := log.DeliverReply(pick);
      if mood.Some? {
        HandleMoodUpdate(mood.value);
      }
    }

    /** A desktop navigation button. */
    method SelectTab(t: Tab)
      requires Valid()
      modifies this
      ensures Valid()
      ensures activeTab == t
      ensures moodHistory == old(moodHistory) && currentMood == old(currentMood) && isMenuOpen == old(isMenuOpen)
    {
      activeTab := t;
    }

    /** A mobile menu entry: selects the tab and closes the menu. */
    method SelectTabFromMenu(t: Tab)
      requires Valid()
      modifies this
      ensures Valid()
      ensures activeTab == t && !isMenuOpen
      ensures moodHistory == old(moodHistory) && currentMood == old(currentMood)
    {
      activeTab := t;
      isMenuOpen := false;
    }

    /** The mobile menu button. */
    method ToggleMenu()
      requires Valid()
      modifies this
      ensures Valid()
      ensures isMenuOpen == !old(isMenuOpen)
      ensures activeTab == old(activeTab) && moodHistory == old(moodHistory) && currentMood == old(currentMood)
    {
      isMenuOpen := !isMenuOpen;
    }

    /** The insights view's average energy shown for the recorded history
        lies in [1.0, 10.0] once anything has been recorded. */
    method AverageEnergyShown() returns (tenths: int)
      requires Valid() && |moodHistory| > 0
      ensures 10 <= tenths <= 100
      ensures tenths == MoodTracker.AverageEnergyTenths(moodHistory)
    {
      MoodTracker.AverageEnergyInRange(moodHistory);
      tenths := MoodTracker.AverageEnergyTenths(moodHistory);
    }
  }
}
