/**
 * The daily check-in form: a mood choice, an energy slider and free-text
 * notes. One mounted form is submitted at most once: after submission the
 * component renders only a thank you message, so no control can fire again,
 * and every handler below therefore requires that the form has not been
 * submitted. Leaving the check-in tab and coming back mounts a new form;
 * that lifetime belongs to the container and is not modelled.
 */
module DailyCheckIn {
  import opened Wrappers

  /** The ids of the five mood buttons. */
  const MoodIds: seq<string> := ["excellent", "good", "neutral", "low", "struggling"]

  /** The range of the energy slider. */
  const MinEnergy := 1
  const MaxEnergy := 10

  /** The record handed to `onCheckInComplete`. */
  datatype CheckInData = CheckInData(mood: string, energy: int, notes: string)

  /** What a submitted record always satisfies: one of the five moods and an
      energy on the slider's scale. */
  predicate IsValidData(d: CheckInData)
  {
    d.mood in MoodIds && MinEnergy <= d.energy <= MaxEnergy
  }

  class CheckInForm {
    var selectedMood: string
    var energyLevel: int
    var notes: string
    var isSubmitted: bool

    /** The mood is unset or one of the buttons' ids, and the energy is within
        the slider's range. */
    ghost predicate Valid()
      reads this
    {
      (selectedMood == "" || selectedMood in MoodIds) && MinEnergy <= energyLevel <= MaxEnergy
    }

    constructor ()
      ensures Valid()
      ensures selectedMood == "" && energyLevel == 5 && notes == "" && !isSubmitted
    {
      selectedMood, energyLevel, notes, isSubmitted := "", 5, "", false;
    }

    /** A mood button's `onClick`. */
    method SelectMood(id: string)
      requires Valid() && !isSubmitted && id in MoodIds
      modifies this
      ensures Valid()
      ensures selectedMood == id
      ensures energyLevel == old(energyLevel) && notes == old(notes) && isSubmitted == old(isSubmitted)
    {
      selectedMood := id;
    }

    /** The slider's `onChange`; the range input only yields integers in
        1..10. */
    method SetEnergy(level: int)
      requires Valid() && !isSubmitted && MinEnergy <= level <= MaxEnergy
      modifies this
      ensures Valid()
      ensures energyLevel == level
      ensures selectedMood == old(selectedMood) && notes == old(notes) && isSubmitted == old(isSubmitted)
    {
      energyLevel := level;
    }

    /** The notes box's `onChange`. */
    method SetNotes(text: string)
      requires Valid() && !isSubmitted
      modifies this
      ensures Valid()
      ensures notes == text
      ensures selectedMood == old(selectedMood) && energyLevel == old(energyLevel)
      ensures isSubmitted == old(isSubmitted)
    {
      notes := text;
    }

    /** `handleSubmit`: without a mood nothing is emitted and nothing changes;
        with one, the current mood, energy and notes are emitted once and the
        form becomes submitted. */
    method Submit() returns (emitted: Option<CheckInData>)
      requires Valid() && !isSubmitted
      modifies this
      ensures Valid()
      ensures selectedMood == old(selectedMood) && energyLevel == old(energyLevel) && notes == old(notes)
      ensures old(selectedMood) == "" ==> emitted == None && !isSubmitted
      ensures old(selectedMood) != "" ==>
        emitted == Some(CheckInData(old(selectedMood), old(energyLevel), old(notes))) && isSubmitted
      ensures emitted.Some? ==> IsValidData(emitted.value)
    {
      if selectedMood == "" {
        return None;
      }
      emitted := Some(CheckInData(selectedMood, energyLevel, notes));
      isSubmitted := true;
    }
  }

  /** Choosing "good" and submitting with the defaults emits
      {mood: "good", energy: 5, notes: ""}. */
  method GoodWithDefaults() returns (emitted: Option<CheckInData>)
    ensures emitted == Some(CheckInData("good", 5, ""))
  {
    var form := new CheckInForm();
    form.SelectMood("good");
    emitted := form.Submit();
  }

  /** Submitting before choosing a mood is refused: nothing is emitted and the
      form is still open. */
  method SubmitWithoutMood() returns (emitted: Option<CheckInData>, submitted: bool)
    ensures emitted == None && !submitted
  {
    var form := new CheckInForm();
    form.SetEnergy(8);
    form.SetNotes("busy day");
    emitted := form.Submit();
    submitted := form.isSubmitted;
  }
}
