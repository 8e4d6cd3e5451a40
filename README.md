# Bharat Money Quest — progression step and quest session

A Dafny model of the part of Bharat Money Quest that has rules: how the
player's profile is created at onboarding, how finishing a quest turns the
profile and the chosen answer into the next profile (quest list, xp, coins,
clamped health score, level label), the start-up choice between a saved
profile and onboarding, and the two-state quest session that holds the
player's pick until it is committed or abandoned. The static quest catalog
and the daily challenge are Dafny constants, so concrete runs are proved.

Modules, one per source file except App.tsx, which yields two (`Progression`
for its pure quest step and `Application` for its state):

- `Types` (`types.dfy`, types.ts): the records `UserProfile`, `QuestChoice`,
  `Quest`, `DailyChallenge`, the `PersonaType` and `FinancialGoal`
  enumerations, and `Option` for nullable and absent values.
- `Catalog` (`data.dfy`, data.ts): the four quests and the daily challenge,
  and lemmas about them.
- `Progression` (`progression.dfy`, the pure part of App.tsx): the fresh
  profile, the quest step `QuestOutcome` and its pieces, and lemmas about
  single steps and whole runs of steps (`Replay`).
- `QuestEngine` (`quest_engine.dfy`, components/QuestEngine.tsx): the class
  `Session` with `selectedOption` and `feedback`, its guarded `HandleSelect`
  and its `HandleFinish`.
- `Application` (`app.dfy`, the state of App.tsx): the class `App` with
  `user`, `selectedQuest`, the mounted quest `session`, `showOnboarding` and
  the record saved on the device (`stored`), its handlers, and three
  end-to-end runs.

What the code does, stated plainly:

- The level is not recomputed from xp. The code starts from the old label,
  sets "Finance Explorer" above 500 xp and then "Wealth Builder" above 1000
  xp. At 500 xp or less the old label stays. Above 500 it is overwritten,
  so it can drop from "Wealth Builder" to "Finance Explorer" when xp falls.
  From a consistent profile with non-negative rewards xp never falls, so
  the label never goes down (`Progression.OutcomeKeepsConsistent`).
  "Wealth Builder" is the highest label.
- No badge is ever awarded: a quest commit copies `badges` unchanged. A
  fresh profile finishing q2 therefore ends with no badges.
- There is no daily-challenge logic: the daily buttons have no handler,
  there is one challenge and no pool, and nothing resets the daily flag.
  Onboarding does not write `lastDailyDate` or `hasAnsweredDailyToday`.
  The model reads them as `None` and `false`.
- The reveal guard is JavaScript truthiness of the feedback string. An
  option whose feedback is empty would leave the session presenting, so it
  could be re-picked (`QuestEngine.EmptyFeedbackAllowsRepick`). Every
  catalog option has non-empty feedback (`Catalog.FeedbackNonEmpty`), so on
  the catalog the first choice is final.

## Model

| member | source | states |
|---|---|---|
| Progression.NewProfile | App.tsx:29-45 | the onboarding profile: the entered name, or "Guest User" when it is empty; the chosen track and goal; xp 0, coins 100, health 50, "Beginner Saver"; no badges, no completed quests; daily fields unset |
| Progression.AddCompleted | App.tsx:50-53 | the quest id is in the result; the old entries are kept in order as a prefix and only the id can be added; an id already present leaves the list as it is; a repeat-free list stays repeat-free |
| Progression.ClampHealth | App.tsx:64 | the health score always lies in [0,100]; it is the sum when that is in range, 0 below and 100 above |
| Progression.NextLevel | App.tsx:55-58 | more than 1000 xp gives "Wealth Builder", 501..1000 gives "Finance Explorer", otherwise the previous label is kept |
| Progression.QuestOutcome | App.tsx:47-72 | the quest id is added once and only once, old entries kept in order; xp and coins gain the choice's rewards even on a repeat; health clamped to [0,100]; the level rule; name, track, goal, badges and daily fields unchanged |
| Progression.NewProfileConsistent | App.tsx:31-41 | a fresh profile is consistent: non-negative xp and coins, health in range, label matching xp, no repeated quest, no badges |
| Progression.OutcomeKeepsConsistent | App.tsx:55-66 | with non-negative rewards one step keeps a profile consistent, so its level label never goes stale, and xp and coins do not decrease |
| Progression.LevelKeptWhenXpFalls | App.tsx:56-58 | at 500 xp or less the old label is kept: 600 xp "Finance Explorer" losing 200 xp stays "Finance Explorer" at 400 xp |
| Progression.LevelDropsAboveFirstThreshold | App.tsx:56-58 | above 500 xp the label is overwritten: "Wealth Builder" at 1100 xp losing 200 xp becomes "Finance Explorer" at 900 xp |
| Progression.LevelThresholds | App.tsx:56-58 | from "Beginner Saver", 0 and 500 xp keep it, 501 and 1000 give "Finance Explorer", 1001 and 2501 give "Wealth Builder" |
| Progression.HealthClampExamples | App.tsx:64 | 50 with -30 gives 20; 95 with +25 gives 100 |
| Progression.RecompletionKeepsListAddsRewards | App.tsx:50-63 | finishing the same quest twice leaves the list as after the first time but adds both rewards to xp and coins |
| Progression.CatalogNeverDecreases | App.tsx:55-63 | any catalog option applied to any profile leaves xp and coins no lower |
| Progression.FreshProfileTakesQ2 | App.tsx:31-66 | a fresh profile taking q2's correct option has xp 60, coins 130, health 70, "Beginner Saver", completed ["q2"], no badges |
| Progression.ReplaySums | App.tsx:47-72 | over any run of commits, xp and coins gain the sums of the rewards; health ends in range; the old quest list stays a prefix, the final list holds exactly the old ids and those of the run, and a repeat-free list stays repeat-free; name and badges unchanged |
| Progression.ReplayHealthAfterStep | App.tsx:64 | after at least one commit the health score lies in [0,100] |
| Progression.ReplayKeepsConsistent | App.tsx:47-72 | a run with non-negative rewards keeps a consistent profile consistent and never lowers xp or coins |
| Progression.CatalogStep | data.ts:4-125 | a step of a catalog quest has non-negative rewards and one of the ids q1..q4 |
| Progression.BoundedRun | App.tsx:47-72 | from a consistent profile whose completed quests lie in a pool, a run with non-negative rewards whose ids all come from that pool ends consistent, with no fewer coins, and with a repeat-free list no longer than the pool |
| Progression.FreshBoundedRun | App.tsx:29-72 | from the onboarding profile, a run with non-negative rewards naming only q1..q4 ends consistent, with coins at least 100 and a repeat-free list of at most four of those ids |
| Progression.CatalogRunFromFreshProfile | App.tsx:47-72 | any run of catalog quests from onboarding ends consistent, with coins at least 100 and a repeat-free list of at most four catalog ids |
| Catalog.QuestIdsDistinct | data.ts:4-125 | the catalog's ids are exactly q1, q2, q3, q4, pairwise distinct |
| Catalog.OptionCounts | data.ts:11-119 | every quest has two or three options |
| Catalog.ExactlyOneCorrect | data.ts:11-119 | every quest has exactly one option marked correct |
| Catalog.RewardsNonNegative | data.ts:11-119 | every xp and coin reward of the catalog is at least 0 |
| Catalog.CorrectOptionDominates | data.ts:11-119 | in every quest the correct option has the strictly largest xp reward and a positive health delta, and every other option a health delta of at most 0 |
| Catalog.FeedbackNonEmpty | data.ts:11-119 | every option's feedback text is non-empty |
| Catalog.DailyChallengeWellFormed | data.ts:151-157 | the daily challenge has four options, its correct index 1 lies among them, and its reward is 20 |
| QuestEngine.Session.constructor | components/QuestEngine.tsx:13-15 | a new session has no pick and no feedback and is presenting |
| QuestEngine.Session.HandleSelect | components/QuestEngine.tsx:19-31 | while presenting, a pick records the index and that option's feedback; once feedback is non-empty, a pick changes nothing |
| QuestEngine.Session.HandleFinish | components/QuestEngine.tsx:33-37 | commits exactly the picked option, and nothing without a pick |
| QuestEngine.FirstChoiceIsFinal | components/QuestEngine.tsx:19-37 | on a catalog quest, a second pick after the first is ignored and finishing commits the first pick |
| QuestEngine.FinishWithoutPick | components/QuestEngine.tsx:33-37 | finishing a session with no pick commits nothing |
| QuestEngine.EmptyFeedbackAllowsRepick | components/QuestEngine.tsx:20 | an option with empty feedback leaves the guard open, so a later pick replaces it |
| Application.App.constructor | App.tsx:10-13 | no user, no open quest, no onboarding; the device's saved record is whatever it holds |
| Application.App.LoadSaved | App.tsx:20-27 | a saved profile becomes the user; without one onboarding is shown |
| Application.App.HandleOnboardingSubmit | App.tsx:29-45 | the fresh profile is held and saved, and onboarding is left |
| Application.App.SelectQuest | App.tsx:156 | opens the tapped quest, which mounts a new session for it (the render at App.tsx lines 303-305), with no pick and no feedback; the profile is unchanged |
| Application.App.SelectOption | components/QuestEngine.tsx:19-31 | a press in the mounted session is handled by the session's guard; the app keeps the same session and profile |
| Application.App.CloseQuest | App.tsx:303-308 | closes the quest and unmounts its session with its pick; profile and saved record are unchanged |
| Application.App.HandleQuestComplete | App.tsx:47-72 | without a user or open quest nothing changes; otherwise the profile becomes the quest outcome, is saved, and the quest is closed and its session unmounted |
| Application.App.FinishQuest | App.tsx:303-309 | finishing the mounted session applies its pick through the commit to the open quest and unmounts the session; without a mounted session, a pick or a user nothing changes |
| Application.FreshUserPlaysQ2 | App.tsx:20-72 | an empty device, onboarding, q2's correct option, finish: xp 60, coins 130, health 70, "Beginner Saver", ["q2"], no badges, and that profile is saved |
| Application.AbandonedQuestChangesNothing | App.tsx:303-309 | opening a quest, picking and closing leaves the held and saved profile exactly as loaded |
| Application.ReopenedQuestStartsAfresh | App.tsx:303-309 | a pick made before a close is gone after reopening the quest: finishing commits nothing, the profile stays as loaded and the quest stays open |

## Left out

- Rendering, tabs, styling, the header's colour bands, the bottom navigation
  and the onboarding form widgets: presentation only. The form's name,
  track and goal are parameters of `HandleOnboardingSubmit`.
- The device's storage and JSON encoding: the saved record is the `stored`
  field, and loading is assumed to give back the profile that was saved.
  A saved record with missing fields or one that fails to parse is not
  modelled.
- The advisory tip (the network call in services/geminiService.ts, and the
  session's `aiInsight` and `loading` fields): it is asynchronous and never
  affects the profile.
- Application.App.SelectQuest: a quest card cannot be tapped while a session
  is open, because the session covers the whole screen. Were it possible,
  React would keep the mounted session, whereas the model mounts a new one.
- React's batching of state updates: two presses handled before a re-render
  are modelled as sequential.
- Daily-challenge answering, badge awarding, daily rotation and the
  day-boundary reset: the code has none of them.
- The toolkit articles: text without behaviour.
- The arithmetic uses unbounded integers. JavaScript numbers are doubles,
  and with the catalog's rewards every total stays inside the exact integer
  range for any realistic number of completions.
