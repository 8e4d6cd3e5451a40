/** The quest session of components/QuestEngine.tsx: an object holding the
    option the player picked and the feedback shown for it. While the
    feedback is falsy the options are presented; once it is set, further
    picks are ignored, so the first choice is final, and finishing hands the
    picked option to the caller. */
module QuestEngine {
  import opened Types
  import Catalog

  /** JavaScript truthiness of a `string | null`: null and the empty string
      are falsy. */
  predicate Truthy(s: Option<string>)
  {
    s.Some? && s.value != ""
  }

  class Session {
    const quest: Quest
    var selectedOption: Option<nat>
    var feedback: Option<string>

    /** The picked option is one of the quest's buttons, and the feedback is
        set exactly when an option is picked, to that option's text. */
    ghost predicate Valid()
      reads this
    {
      (selectedOption.Some? ==> selectedOption.value < |quest.options|) &&
      (feedback.Some? <==> selectedOption.Some?) &&
      (feedback.Some? ==> feedback.value == quest.options[selectedOption.value].feedback)
    }

    /** The options are on screen (the render tests `!feedback`). */
    predicate Presenting()
      reads this
    {
      !Truthy(feedback)
    }

    constructor (quest: Quest)
      ensures this.quest == quest
      ensures selectedOption == None && feedback == None
      ensures Valid() && Presenting()
    {
      this.quest := quest;
      selectedOption := None;
      feedback := None;
    }

    /** A button press on option `index`. The buttons are generated from the
        quest's options, so `index` is always one of them. */
    method HandleSelect(index: nat)
      requires Valid()
      requires index < |quest.options|
      modifies this
      ensures Valid()
      ensures !old(Presenting()) ==> selectedOption == old(selectedOption) && feedback == old(feedback)
      ensures old(Presenting()) ==>
                selectedOption == Some(index) && feedback == Some(quest.options[index].feedback)
      ensures old(Presenting()) && quest.options[index].feedback != "" ==> !Presenting()
    {
      if Truthy(feedback) {
        return;
      }
      selectedOption := Some(index);
      var choice := quest.options[index];
      feedback := Some(choice.feedback);
    }

    /** The "Back to Map" button: the picked option, if any, is what the
        session commits; without a pick nothing is committed. */
    method HandleFinish() returns (commit: Option<QuestChoice>)
      requires Valid()
      ensures selectedOption.None? ==> commit == None
      ensures selectedOption.Some? ==> commit == Some(quest.options[selectedOption.value])
      ensures commit.Some? ==> commit.value in quest.options
    {
      if selectedOption.Some? {
        commit := Some(quest.options[selectedOption.value]);
      } else {
        commit := None;
      }
    }
  }

  /** On a catalog quest, a second pick after the first changes nothing:
      finishing commits the first pick. */
  method FirstChoiceIsFinal(q: Quest, first: nat, second: nat) returns (commit: Option<QuestChoice>)
    requires q in Catalog.Quests
    requires first < |q.options| && second < |q.options|
    ensures commit == Some(q.options[first])
  {
    Catalog.FeedbackNonEmpty();
    var s := new Session(q);
    s.HandleSelect(first);
    s.HandleSelect(second);
    commit := s.HandleFinish();
  }

  /** A session finished before any pick commits nothing. */
  method FinishWithoutPick(q: Quest) returns (commit: Option<QuestChoice>)
    ensures commit == None
  {
    var s := new Session(q);
    commit := s.HandleFinish();
  }

  /** The guard is JavaScript truthiness: an option whose feedback text is
      empty leaves the session presenting, so a second pick replaces it. No
      catalog option has empty feedback. */
  method EmptyFeedbackAllowsRepick() returns (commit: Option<QuestChoice>)
    ensures commit == Some(QuestChoice("b", "shown", 2, 0, 0, true))
  {
    var silent := QuestChoice("a", "", 1, 0, 0, false);
    var shown := QuestChoice("b", "shown", 2, 0, 0, true);
    var q := Quest("x", "t", Beginner, "d", "s", [silent, shown], Easy, "r", "i");
    var s := new Session(q);
    s.HandleSelect(0);
    s.HandleSelect(1);
    commit := s.HandleFinish();
  }
}
