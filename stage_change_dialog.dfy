/**
 * The confirmation dialog shown before a deal moves to another stage. It
 * suggests a close probability from a fixed table keyed by the target
 * stage's display name, lets the user edit that probability and add a note,
 * and hands both to its `onConfirm` callback; confirming and cancelling both
 * reset the note and probability.
 */
module StageChange {
  import opened Wrappers
  import opened JsText

  /** The literal `stageProbabilities` table, looked up by display name. */
  function StageProbabilities(stage: string): Option<int> {
    match stage
    case "Prospecting" => Some(10)
    case "Qualification" => Some(25)
    case "Proposal Sent" => Some(50)
    case "Negotiation" => Some(75)
    case "Closed Won" => Some(100)
    case "Closed Lost" => Some(0)
    case _ => None
  }

  /** `getSuggestedProbability`: the table entry `|| 50`, so both a missing entry and 0 give 50. */
  function SuggestedProbability(stage: string): (p: int)
    ensures p in {10, 25, 50, 75, 100}
    ensures 0 <= p <= 100
  {
    OrNumber(StageProbabilities(stage), 50)
  }

  /** The suggestion for each stage in the table. */
  lemma SuggestedTable()
    ensures SuggestedProbability("Prospecting") == 10
    ensures SuggestedProbability("Qualification") == 25
    ensures SuggestedProbability("Proposal Sent") == 50
    ensures SuggestedProbability("Negotiation") == 75
    ensures SuggestedProbability("Closed Won") == 100
  {
  }

  /** "Closed Lost" is listed with 0, but `0 || 50` makes its suggestion 50. */
  lemma ClosedLostSuggestsFifty()
    ensures StageProbabilities("Closed Lost") == Some(0)
    ensures SuggestedProbability("Closed Lost") == 50
  {
  }

  /** Any name outside the table, stage ids such as `proposal` included, gets 50. */
  lemma UnknownStageSuggestsFifty(stage: string)
    requires stage !in ["Prospecting", "Qualification", "Proposal Sent", "Negotiation", "Closed Won", "Closed Lost"]
    ensures SuggestedProbability(stage) == 50
  {
  }

  /** The suggestion is 50 exactly for "Proposal Sent", "Closed Lost" and every name outside the table. */
  lemma SuggestsFiftyIff(stage: string)
    ensures SuggestedProbability(stage) == 50 <==>
            stage !in ["Prospecting", "Qualification", "Negotiation", "Closed Won"]
  {
  }

  /** What the dialog reports to its parent. */
  datatype DialogEvent = Confirmed(note: string, probability: int) | Cancelled

  /** The dialog's own state (`note`, `probability`) and the `toStage` prop its effect watches. */
  class StageChangeDialog {
    var note: string
    var probability: int
    var toStage: string

    /** Mounting: the state starts at `''` and 50, then the effect sets the target stage's suggestion. */
    constructor (toStage: string)
      ensures this.toStage == toStage
      ensures note == "" && probability == SuggestedProbability(toStage)
    {
      this.toStage := toStage;
      note := "";
      probability := 50;
      probability := SuggestedProbability(toStage);
    }

    /** A new `toStage` prop: the effect runs only when the value differs from the last one. */
    method SetToStage(stage: string)
      modifies this
      ensures toStage == stage && note == old(note)
      ensures stage != old(toStage) ==> probability == SuggestedProbability(stage)
      ensures stage == old(toStage) ==> probability == old(probability)
    {
      if stage != toStage {
        probability := SuggestedProbability(stage);
      }
      toStage := stage;
    }

    /** Typing in the probability field (`Number(e.target.value)`, a number here). */
    method EditProbability(p: int)
      modifies this
      ensures probability == p && note == old(note) && toStage == old(toStage)
    {
      probability := p;
    }

    /** Typing in the note field. */
    method EditNote(text: string)
      modifies this
      ensures note == text && probability == old(probability) && toStage == old(toStage)
    {
      note := text;
    }

    /** "Move Deal": the current note and probability go to `onConfirm`, then both are reset. */
    method Confirm() returns (event: DialogEvent)
      modifies this
      ensures event == Confirmed(old(note), old(probability))
      ensures note == "" && probability == 50 && toStage == old(toStage)
    {
      event := Confirmed(note, probability);
      note := "";
      probability := 50;
    }

    /** "Cancel": `onCancel` is called, never `onConfirm`, with the same reset. */
    method Cancel() returns (event: DialogEvent)
      modifies this
      ensures event == Cancelled
      ensures note == "" && probability == 50 && toStage == old(toStage)
    {
      event := Cancelled;
      note := "";
      probability := 50;
    }

    /** `onOpenChange`: closing the dialog by any means takes the cancel path. */
    method OpenChange(open: bool) returns (event: DialogEvent)
      modifies this
      ensures event == Cancelled
      ensures note == "" && probability == 50 && toStage == old(toStage)
    {
      event := Cancel();
    }
  }
}
