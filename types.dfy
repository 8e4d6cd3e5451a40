/** Record shapes shared by the catalog, the progression step and the quest
    session: the user profile, quests and their choices, the daily challenge,
    and the two enumerations chosen at onboarding. */
module Types {

  /** The conventional Some/None datatype, used for the nullable fields of the
      records and for "a saved profile may or may not exist". */
  datatype Option<+T> = None | Some(value: T)

  /** The four onboarding tracks. */
  datatype PersonaType = Student | Woman | Farmer | YoungAdult

  /** The five financial goals offered at onboarding. */
  datatype FinancialGoal = SaveBetter | BudgetSmarter | LearnCredit | StartInvesting | StaySafe

  datatype Category = Beginner | Digital | Advanced

  datatype Difficulty = Easy | Medium | Hard

  /** One answer of a quest, with the deltas it applies to a profile.
      `isCorrect` is display only: the rewards are what take effect. */
  datatype QuestChoice = QuestChoice(
    text: string,
    feedback: string,
    xpReward: int,
    coinReward: int,
    healthDelta: int,
    isCorrect: bool)

  /** A quest of the static catalog. */
  datatype Quest = Quest(
    id: string,
    title: string,
    category: Category,
    description: string,
    scenario: string,
    options: seq<QuestChoice>,
    difficulty: Difficulty,
    rewardInfo: string,
    icon: string)

  /** The daily trivia question. */
  datatype DailyChallenge = DailyChallenge(
    question: string,
    options: seq<string>,
    correctIndex: int,
    explanation: string,
    reward: int)

  /** The persisted profile. Numbers are unbounded integers: with the catalog's
      rewards the app's JavaScript numbers stay exact for any realistic
      number of completions. `lastDailyDate` is nullable and absent on a fresh
      profile, which is modelled as `None`; an absent `hasAnsweredDailyToday`
      reads as false. */
  datatype UserProfile = UserProfile(
    name: string,
    persona: PersonaType,
    goal: FinancialGoal,
    xp: int,
    coins: int,
    level: string,
    healthScore: int,
    badges: seq<string>,
    completedQuests: seq<string>,
    lastDailyDate: Option<string>,
    hasAnsweredDailyToday: bool)

  /** A list without repeated entries: how App.tsx keeps its id lists
      set-like. */
  predicate NoDuplicates<T(==)>(s: seq<T>)
  {
    forall i, j :: 0 <= i < j < |s| ==> s[i] != s[j]
  }
}
