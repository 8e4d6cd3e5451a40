/** The stateful shell of App.tsx: the current user, the quest whose session
    is open together with that session, whether onboarding is shown, and the
    record saved on the device. Its handlers replace these the way the
    component's setters do; the new profile itself comes from the pure
    functions of `Progression`. */
module Application {
  import opened Types
  import opened Progression
  import Catalog
  import QuestEngine

  class App {
    var user: Option<UserProfile>
    var selectedQuest: Option<Quest>
    var showOnboarding: bool
    /** The record stored under the device's profile key. */
    var stored: Option<UserProfile>
    /** The mounted quest session: it exists exactly while a quest is open,
        is created when the quest is opened and is dropped with it. */
    var session: Option<QuestEngine.Session>

    /** Every profile the app holds is the one it has saved, and the mounted
        session is a well-formed session of the open quest. */
    ghost predicate Valid()
      reads this, if session.Some? then {session.value} else {}
    {
      (user.Some? ==> stored == user) &&
      (selectedQuest.Some? <==> session.Some?) &&
      (session.Some? ==> session.value.quest == selectedQuest.value && session.value.Valid())
    }

    /** The option picked in the mounted session, if one is mounted and has a
        pick. */
    function Pick(): (c: Option<QuestChoice>)
      requires Valid()
      reads this, if session.Some? then {session.value} else {}
      ensures c.Some? ==> session.Some? && c.value in session.value.quest.options
    {
      if session.Some? && session.value.selectedOption.Some? then
        Some(session.value.quest.options[session.value.selectedOption.value])
      else
        None
    }

    /** The app as first rendered, on a device that holds `saved`. */
    constructor (saved: Option<UserProfile>)
      ensures user == None && selectedQuest == None && session == None && !showOnboarding
      ensures stored == saved
      ensures Valid()
    {
      user := None;
      selectedQuest := None;
      session := None;
      showOnboarding := false;
      stored := saved;
    }

    /** The start-up effect: a saved profile becomes the user, otherwise
        onboarding is shown. */
    method LoadSaved()
      requires Valid()
      modifies this
      ensures Valid()
      ensures old(stored).Some? ==> user == old(stored) && showOnboarding == old(showOnboarding)
      ensures old(stored).None? ==> user == None && showOnboarding
      ensures stored == old(stored) && selectedQuest == old(selectedQuest) && session == old(session)
    {
      if stored.Some? {
        user := stored;
      } else {
        showOnboarding := true;
      }
    }

    /** Submitting the onboarding form creates, holds and saves a fresh
        profile and leaves onboarding. */
    method HandleOnboardingSubmit(formName: string, formPersona: PersonaType, formGoal: FinancialGoal)
      requires Valid()
      modifies this
      ensures Valid()
      ensures user == Some(NewProfile(formName, formPersona, formGoal))
      ensures stored == user && !showOnboarding
      ensures selectedQuest == old(selectedQuest) && session == old(session)
    {
      var newUser := NewProfile(formName, formPersona, formGoal);
      user := Some(newUser);
      stored := Some(newUser);
      showOnboarding := false;
    }

    /** Tapping a quest card opens the quest and mounts a new session for it,
        with no pick and no feedback. The session covers the whole screen, so
        the cards cannot be tapped while one is open. */
    method SelectQuest(q: Quest)
      requires Valid()
      modifies this
      ensures Valid()
      ensures selectedQuest == Some(q) && session.Some? && fresh(session.value)
      ensures session.value.quest == q && session.value.selectedOption == None && session.value.feedback == None
      ensures user == old(user) && stored == old(stored) && showOnboarding == old(showOnboarding)
    {
      selectedQuest := Some(q);
      var s := new QuestEngine.Session(q);
      session := Some(s);
    }

    /** A press on option `index` of the mounted session, handled by the
        session itself; the app's own fields do not change. */
    method SelectOption(index: nat)
      requires Valid() && session.Some?
      requires index < |session.value.quest.options|
      modifies session.value
      ensures Valid() && session == old(session)
      ensures !old(session.value.Presenting()) ==>
                session.value.selectedOption == old(session.value.selectedOption) &&
                session.value.feedback == old(session.value.feedback)
      ensures old(session.value.Presenting()) ==>
                session.value.selectedOption == Some(index) &&
                session.value.feedback == Some(session.value.quest.options[index].feedback)
    {
      session.value.HandleSelect(index);
    }

    /** Closing the session (the session's close button) unmounts it with its
        pick: the profile and the saved record stay as they were. */
    method CloseQuest()
      requires Valid()
      modifies this
      ensures Valid()
      ensures selectedQuest == None && session == None
      ensures user == old(user) && stored == old(stored) && showOnboarding == old(showOnboarding)
    {
      selectedQuest := None;
      session := None;
    }

    /** The commit of a finished quest. Without a user or an open quest it
        does nothing; otherwise the new profile is held and saved and the
        session is closed, which unmounts it. */
    method HandleQuestComplete(choice: QuestChoice)
      requires Valid()
      modifies this
      ensures Valid()
      ensures old(user).None? || old(selectedQuest).None? ==>
                user == old(user) && stored == old(stored) &&
                selectedQuest == old(selectedQuest) && session == old(session)
      ensures old(user).Some? && old(selectedQuest).Some? ==>
                user == Some(QuestOutcome(old(user).value, choice, old(selectedQuest).value.id)) &&
                stored == user && selectedQuest == None && session == None
      ensures showOnboarding == old(showOnboarding)
    {
      if user.None? || selectedQuest.None? {
        return;
      }
      var current := user.value;
      var questId := selectedQuest.value.id;

      var updatedQuests := current.completedQuests;
      if questId !in updatedQuests {
        updatedQuests := updatedQuests + [questId];
      }

      var newXp := current.xp + choice.xpReward;
      var newLevel := current.level;
      if newXp > 500 {
        newLevel := FinanceExplorer;
      }
      if newXp > 1000 {
        newLevel := WealthBuilder;
      }

      var updatedUser := current.(
        xp := newXp,
        coins := current.coins + choice.coinReward,
        healthScore := Min(100, Max(0, current.healthScore + choice.healthDelta)),
        completedQuests := updatedQuests,
        level := newLevel);

      user := Some(updatedUser);
      stored := Some(updatedUser);
      selectedQuest := None;
      session := None;
    }

    /** The mounted session's "Back to Map", wired to the commit: the pick of
        the session opened with the current quest, if there is one, is applied
        to the profile and the session is unmounted. */
    method FinishQuest()
      requires Valid()
      modifies this
      ensures Valid()
      ensures old(Pick()).None? || old(user).None? ==>
                user == old(user) && stored == old(stored) &&
                selectedQuest == old(selectedQuest) && session == old(session)
      ensures old(Pick()).Some? && old(user).Some? ==>
                user == Some(QuestOutcome(old(user).value, old(Pick()).value, old(selectedQuest).value.id)) &&
                stored == user && selectedQuest == None && session == None
      ensures showOnboarding == old(showOnboarding)
    {
      if session.None? {
        return;
      }
      var commit := session.value.HandleFinish();
      if commit.Some? {
        HandleQuestComplete(commit.value);
      }
    }
  }

  /** A first launch on an empty device: onboarding, then quest q2 answered
      with its correct option and finished. */
  method FreshUserPlaysQ2(formName: string) returns (p: UserProfile, saved: Option<UserProfile>)
    ensures saved == Some(p)
    ensures p.xp == 60 && p.coins == 130 && p.healthScore == 70
    ensures p.level == BeginnerSaver
    ensures p.completedQuests == ["q2"] && p.badges == []
    ensures p.name == (if formName == "" then GuestName else formName)
  {
    var app := new App(None);
    app.LoadSaved();
    app.HandleOnboardingSubmit(formName, Student, SaveBetter);
    app.SelectQuest(Catalog.Q2);
    app.SelectOption(1);
    app.FinishQuest();
    p := app.user.value;
    saved := app.stored;
  }

  /** A returning user who opens a quest, picks an option and closes the
      session keeps the saved profile exactly as it was. */
  method AbandonedQuestChangesNothing(saved: UserProfile, q: Quest, pick: nat)
    returns (p: Option<UserProfile>, s: Option<UserProfile>)
    requires pick < |q.options|
    ensures p == Some(saved) && s == Some(saved)
  {
    var app := new App(Some(saved));
    app.LoadSaved();
    app.SelectQuest(q);
    app.SelectOption(pick);
    app.CloseQuest();
    p := app.user;
    s := app.stored;
  }

  /** Closing a session drops its pick: after reopening the same quest the
      new session has no pick, so finishing commits nothing and the quest
      stays open. */
  method ReopenedQuestStartsAfresh(saved: UserProfile, q: Quest, pick: nat)
    returns (p: Option<UserProfile>, s: Option<UserProfile>, open: Option<Quest>)
    requires pick < |q.options|
    ensures p == Some(saved) && s == Some(saved) && open == Some(q)
  {
    var app := new App(Some(saved));
    app.LoadSaved();
    app.SelectQuest(q);
    app.SelectOption(pick);
    app.CloseQuest();
    app.SelectQuest(q);
    app.FinishQuest();
    p := app.user;
    s := app.stored;
    open := app.selectedQuest;
  }
}
