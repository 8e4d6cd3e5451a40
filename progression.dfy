/** The progression rules of App.tsx as pure functions: the profile that
    onboarding creates, and the step that turns a profile and a chosen quest
    option into the next profile. Lemmas relate the step to the invariants a
    profile keeps, to the catalog, and to whole runs of quest completions. */
module Progression {
  import opened Types
  import Catalog

  const GuestName: string := "Guest User"
  const BeginnerSaver: string := "Beginner Saver"
  const FinanceExplorer: string := "Finance Explorer"
  const WealthBuilder: string := "Wealth Builder"

  /** The profile onboarding creates from the form's name, track and goal:
      an empty name (JavaScript falsy) becomes the guest name; the daily
      fields are not written, so they read as absent and false. */
  function NewProfile(formName: string, persona: PersonaType, goal: FinancialGoal): (p: UserProfile)
    ensures p.name != ""
    ensures formName != "" ==> p.name == formName
    ensures formName == "" ==> p.name == GuestName
    ensures p.persona == persona && p.goal == goal
    ensures p.xp == 0 && p.coins == 100 && p.healthScore == 50
    ensures p.level == BeginnerSaver
    ensures p.badges == [] && p.completedQuests == []
    ensures p.lastDailyDate == None && !p.hasAnsweredDailyToday
  {
    UserProfile(
      if formName != "" then formName else GuestName,
      persona, goal,
      0, 100, BeginnerSaver, 50,
      [], [],
      None, false)
  }

  /** The completed-quest list after finishing quest `id`: the old entries in
      their order, with `id` appended only if it was missing. */
  function AddCompleted(list: seq<string>, id: string): (r: seq<string>)
    ensures id in r
    ensures forall x :: x in r <==> x in list || x == id
    ensures |list| <= |r| <= |list| + 1 && r[..|list|] == list
    ensures id in list ==> r == list
    ensures NoDuplicates(list) ==> NoDuplicates(r)
  {
    if id in list then list else list + [id]
  }

  function Min(a: int, b: int): (m: int)
    ensures m <= a && m <= b && (m == a || m == b)
  {
    if a < b then a else b
  }

  function Max(a: int, b: int): (m: int)
    ensures m >= a && m >= b && (m == a || m == b)
  {
    if a < b then b else a
  }

  /** The health score after adding `delta`, raised to 0 if it fell below
      and lowered to 100 if it rose above. */
  function ClampHealth(health: int, delta: int): (h: int)
    ensures 0 <= h <= 100
    ensures 0 <= health + delta <= 100 ==> h == health + delta
    ensures health + delta < 0 ==> h == 0
    ensures health + delta > 100 ==> h == 100
  {
    Min(100, Max(0, health + delta))
  }

  /** The level label after the xp total became `xp`: the two thresholds are
      tested in turn, each overwriting the previous label, and at 500 xp or
      less the old label stays. Above 500 the label is overwritten whatever
      it was, so it can drop from "Wealth Builder" to "Finance Explorer".
      There is no higher tier. */
  function NextLevel(level: string, xp: int): (l: string)
    ensures xp > 1000 ==> l == WealthBuilder
    ensures 500 < xp <= 1000 ==> l == FinanceExplorer
    ensures xp <= 500 ==> l == level
  {
    var afterFirst := if xp > 500 then FinanceExplorer else level;
    if xp > 1000 then WealthBuilder else afterFirst
  }

  /** The profile after completing quest `questId` with `choice`. */
  function QuestOutcome(p: UserProfile, choice: QuestChoice, questId: string): (r: UserProfile)
    ensures questId in r.completedQuests
    ensures forall x :: x in r.completedQuests <==> x in p.completedQuests || x == questId
    ensures |r.completedQuests| >= |p.completedQuests|
    ensures r.completedQuests[..|p.completedQuests|] == p.completedQuests
    ensures questId in p.completedQuests ==> r.completedQuests == p.completedQuests
    ensures questId !in p.completedQuests ==> r.completedQuests == p.completedQuests + [questId]
    ensures r.xp == p.xp + choice.xpReward
    ensures r.coins == p.coins + choice.coinReward
    ensures 0 <= r.healthScore <= 100
    ensures 0 <= p.healthScore + choice.healthDelta <= 100 ==> r.healthScore == p.healthScore + choice.healthDelta
    ensures p.healthScore + choice.healthDelta < 0 ==> r.healthScore == 0
    ensures p.healthScore + choice.healthDelta > 100 ==> r.healthScore == 100
    ensures r.xp > 1000 ==> r.level == WealthBuilder
    ensures 500 < r.xp <= 1000 ==> r.level == FinanceExplorer
    ensures r.xp <= 500 ==> r.level == p.level
    ensures r.name == p.name && r.persona == p.persona && r.goal == p.goal
    ensures r.badges == p.badges
    ensures r.lastDailyDate == p.lastDailyDate && r.hasAnsweredDailyToday == p.hasAnsweredDailyToday
  {
    var newXp := p.xp + choice.xpReward;
    p.(xp := newXp,
       coins := p.coins + choice.coinReward,
       healthScore := ClampHealth(p.healthScore, choice.healthDelta),
       completedQuests := AddCompleted(p.completedQuests, questId),
       level := NextLevel(p.level, newXp))
  }

  // ---------------------------------------------------------------------
  // Invariants a profile keeps

  /** The label the two thresholds give to an xp total from scratch. */
  function LevelFor(xp: int): (l: string)
    ensures l in {BeginnerSaver, FinanceExplorer, WealthBuilder}
  {
    if xp > 1000 then WealthBuilder else if xp > 500 then FinanceExplorer else BeginnerSaver
  }

  /** What every profile built by onboarding and quest steps from catalog
      content satisfies. */
  predicate Consistent(p: UserProfile)
  {
    p.xp >= 0 && p.coins >= 0 &&
    0 <= p.healthScore <= 100 &&
    p.level == LevelFor(p.xp) &&
    NoDuplicates(p.completedQuests) &&
    p.badges == []
  }

  /** A choice that takes neither xp nor coins away, as every catalog choice. */
  predicate NonNegativeRewards(c: QuestChoice)
  {
    c.xpReward >= 0 && c.coinReward >= 0
  }

  lemma NewProfileConsistent(formName: string, persona: PersonaType, goal: FinancialGoal)
    ensures Consistent(NewProfile(formName, persona, goal))
  {
  }

  /** With non-negative rewards one step keeps a profile consistent, in
      particular its level label is never stale, and xp and coins do not
      decrease. */
  lemma OutcomeKeepsConsistent(p: UserProfile, c: QuestChoice, questId: string)
    requires Consistent(p) && NonNegativeRewards(c)
    ensures Consistent(QuestOutcome(p, c, questId))
    ensures QuestOutcome(p, c, questId).xp >= p.xp
    ensures QuestOutcome(p, c, questId).coins >= p.coins
  {
    var r := QuestOutcome(p, c, questId);
    if r.xp <= 500 {
      assert p.xp <= 500;
    }
  }

  /** At 500 xp or less the label is kept, not recomputed: a Finance
      Explorer at 600 xp who loses 200 keeps the label although 400 xp is
      below the first threshold. The catalog never takes xp away, so only
      choices outside it reach this. */
  lemma LevelKeptWhenXpFalls()
    ensures var p := NewProfile("A", Student, SaveBetter).(xp := 600, level := FinanceExplorer);
            var r := QuestOutcome(p, QuestChoice("t", "f", -200, 0, 0, false), "q1");
            r.xp == 400 && r.level == FinanceExplorer && LevelFor(r.xp) == BeginnerSaver
  {
  }

  /** Above 500 xp the label is overwritten, so it can move down: a Wealth
      Builder at 1100 xp who loses 200 becomes a Finance Explorer at 900 xp. */
  lemma LevelDropsAboveFirstThreshold()
    ensures NextLevel(WealthBuilder, 900) == FinanceExplorer
    ensures var p := NewProfile("A", Student, SaveBetter).(xp := 1100, level := WealthBuilder);
            var r := QuestOutcome(p, QuestChoice("t", "f", -200, 0, 0, false), "q1");
            r.xp == 900 && r.level == FinanceExplorer
  {
  }

  /** The thresholds, tried from a beginner profile at the xp totals on both
      sides of each: only "more than 500" and "more than 1000" change the
      label, and nothing above "Wealth Builder" exists. */
  lemma LevelThresholds()
    ensures NextLevel(BeginnerSaver, 0) == BeginnerSaver
    ensures NextLevel(BeginnerSaver, 500) == BeginnerSaver
    ensures NextLevel(BeginnerSaver, 501) == FinanceExplorer
    ensures NextLevel(BeginnerSaver, 1000) == FinanceExplorer
    ensures NextLevel(BeginnerSaver, 1001) == WealthBuilder
    ensures NextLevel(BeginnerSaver, 2501) == WealthBuilder
  {
  }

  lemma HealthClampExamples()
    ensures ClampHealth(50, -30) == 20
    ensures ClampHealth(95, 25) == 100
  {
  }

  /** Finishing a quest that is already completed leaves the list as it is
      but grants the rewards again. */
  lemma RecompletionKeepsListAddsRewards(p: UserProfile, c1: QuestChoice, c2: QuestChoice, questId: string)
    ensures var once := QuestOutcome(p, c1, questId);
            var twice := QuestOutcome(once, c2, questId);
            twice.completedQuests == once.completedQuests &&
            twice.xp == p.xp + c1.xpReward + c2.xpReward &&
            twice.coins == p.coins + c1.coinReward + c2.coinReward
  {
  }

  /** Every catalog option, applied to any profile, keeps xp and coins from
      decreasing. */
  lemma CatalogNeverDecreases(p: UserProfile, q: Quest, c: QuestChoice)
    requires q in Catalog.Quests && c in q.options
    ensures QuestOutcome(p, c, q.id).xp >= p.xp
    ensures QuestOutcome(p, c, q.id).coins >= p.coins
  {
    Catalog.RewardsNonNegative();
  }

  /** A fresh profile taking the correct option of q2. */
  lemma FreshProfileTakesQ2(formName: string, persona: PersonaType, goal: FinancialGoal)
    ensures var r := QuestOutcome(NewProfile(formName, persona, goal), Catalog.Q2.options[1], Catalog.Q2.id);
            r.xp == 60 && r.coins == 130 && r.healthScore == 70 &&
            r.level == BeginnerSaver && r.completedQuests == ["q2"] && r.badges == []
  {
  }

  // ---------------------------------------------------------------------
  // Runs of quest completions

  /** One finished quest: the option chosen and the id of the quest. */
  datatype Step = Step(choice: QuestChoice, questId: string)

  /** The profile after the steps, in order. */
  function Replay(p: UserProfile, steps: seq<Step>): (r: UserProfile)
    decreases |steps|
  {
    if steps == [] then p
    else Replay(QuestOutcome(p, steps[0].choice, steps[0].questId), steps[1..])
  }

  function StepIds(steps: seq<Step>): (ids: seq<string>)
    ensures |ids| == |steps|
    ensures forall i :: 0 <= i < |steps| ==> ids[i] == steps[i].questId
  {
    if steps == [] then [] else [steps[0].questId] + StepIds(steps[1..])
  }

  function TotalXp(steps: seq<Step>): (total: int)
  {
    if steps == [] then 0 else steps[0].choice.xpReward + TotalXp(steps[1..])
  }

  function TotalCoins(steps: seq<Step>): (total: int)
  {
    if steps == [] then 0 else steps[0].choice.coinReward + TotalCoins(steps[1..])
  }

  /** Each step is an option of a catalog quest, with that quest's id. */
  predicate FromCatalog(steps: seq<Step>)
  {
    forall i :: 0 <= i < |steps| ==>
      exists q :: q in Catalog.Quests && steps[i].questId == q.id && steps[i].choice in q.options
  }

  /** A run adds up the rewards of its steps, always ends with a health score
      in range (once there is a step), and ends with exactly the old
      completed quests as a prefix, holding exactly the old ids and those of
      the run, with no repeats if the old list had none. */
  lemma {:induction false} ReplaySums(p: UserProfile, steps: seq<Step>)
    ensures Replay(p, steps).xp == p.xp + TotalXp(steps)
    ensures Replay(p, steps).coins == p.coins + TotalCoins(steps)
    ensures steps != [] ==> 0 <= Replay(p, steps).healthScore <= 100
    ensures |Replay(p, steps).completedQuests| >= |p.completedQuests|
    ensures Replay(p, steps).completedQuests[..|p.completedQuests|] == p.completedQuests
    ensures forall x :: x in Replay(p, steps).completedQuests <==> x in p.completedQuests || x in StepIds(steps)
    ensures NoDuplicates(p.completedQuests) ==> NoDuplicates(Replay(p, steps).completedQuests)
    ensures Replay(p, steps).name == p.name && Replay(p, steps).badges == p.badges
    decreases |steps|
  {
    if steps != [] {
      var next := QuestOutcome(p, steps[0].choice, steps[0].questId);
      ReplaySums(next, steps[1..]);
      assert StepIds(steps) == [steps[0].questId] + StepIds(steps[1..]);
      var r := Replay(p, steps);
      assert r.completedQuests[..|next.completedQuests|] == next.completedQuests;
      assert r.completedQuests[..|p.completedQuests|]
          == next.completedQuests[..|p.completedQuests|];
      if |steps| > 1 {
        ReplayHealthAfterStep(next, steps[1..]);
      }
    }
  }

  /** Once a step has been taken the health score stays in range. */
  lemma {:induction false} ReplayHealthAfterStep(p: UserProfile, steps: seq<Step>)
    requires steps != []
    ensures 0 <= Replay(p, steps).healthScore <= 100
    decreases |steps|
  {
    var next := QuestOutcome(p, steps[0].choice, steps[0].questId);
    if |steps| > 1 {
      ReplayHealthAfterStep(next, steps[1..]);
    }
  }

  /** A run whose rewards never take anything away keeps a consistent
      profile consistent and never lowers xp or coins. */
  lemma {:induction false} ReplayKeepsConsistent(p: UserProfile, steps: seq<Step>)
    requires Consistent(p)
    requires forall i :: 0 <= i < |steps| ==> NonNegativeRewards(steps[i].choice)
    ensures Consistent(Replay(p, steps))
    ensures Replay(p, steps).xp >= p.xp && Replay(p, steps).coins >= p.coins
    decreases |steps|
  {
    if steps != [] {
      var next := QuestOutcome(p, steps[0].choice, steps[0].questId);
      OutcomeKeepsConsistent(p, steps[0].choice, steps[0].questId);
      assert forall i :: 0 <= i < |steps[1..]| ==> NonNegativeRewards(steps[1..][i].choice) by {
        forall i | 0 <= i < |steps[1..]| ensures NonNegativeRewards(steps[1..][i].choice) {
          assert steps[1..][i] == steps[i + 1];
        }
      }
      ReplayKeepsConsistent(next, steps[1..]);
    }
  }

  /** A list without repeats whose entries all come from `pool` is no longer
      than `pool` has distinct entries. */
  lemma {:induction false} DistinctWithin(s: seq<string>, pool: set<string>)
    requires NoDuplicates(s)
    requires forall x :: x in s ==> x in pool
    ensures |s| <= |pool|
  {
    if s != [] {
      var rest := s[1..];
      assert NoDuplicates(rest) by {
        forall i, j | 0 <= i < j < |rest| ensures rest[i] != rest[j] {
          assert rest[i] == s[i + 1] && rest[j] == s[j + 1];
        }
      }
      forall x | x in rest ensures x in pool - {s[0]} {
        var k :| 0 <= k < |rest| && rest[k] == x;
        assert s[k + 1] == x;
      }
      DistinctWithin(rest, pool - {s[0]});
    }
  }

  /** A step of a catalog quest takes nothing away and names one of the
      four catalog ids. */
  lemma CatalogStep(s: Step)
    requires exists q :: q in Catalog.Quests && s.questId == q.id && s.choice in q.options
    ensures NonNegativeRewards(s.choice)
    ensures s.questId in {"q1", "q2", "q3", "q4"}
  {
    var q :| q in Catalog.Quests && s.questId == q.id && s.choice in q.options;
    Catalog.RewardsNonNegative();
  }

  /** Every step of a catalog run takes nothing away. */
  lemma CatalogRunNonNegative(steps: seq<Step>)
    requires FromCatalog(steps)
    ensures forall i :: 0 <= i < |steps| ==> NonNegativeRewards(steps[i].choice)
  {
    forall i | 0 <= i < |steps| ensures NonNegativeRewards(steps[i].choice) {
      CatalogStep(steps[i]);
    }
  }

  /** Every quest id a catalog run names is one of the four catalog ids. */
  lemma CatalogRunIds(steps: seq<Step>)
    requires FromCatalog(steps)
    ensures forall x :: x in StepIds(steps) ==> x in {"q1", "q2", "q3", "q4"}
  {
    forall x | x in StepIds(steps) ensures x in {"q1", "q2", "q3", "q4"} {
      var i :| 0 <= i < |steps| && StepIds(steps)[i] == x;
      CatalogStep(steps[i]);
    }
  }

  /** From a consistent profile whose completed quests lie in `pool`, a run
      with non-negative rewards whose quest ids all come from `pool` ends
      consistent, with no fewer coins, and with a list of at most as many ids
      as `pool` has. */
  lemma BoundedRun(p: UserProfile, steps: seq<Step>, pool: set<string>)
    requires Consistent(p)
    requires forall i :: 0 <= i < |steps| ==> NonNegativeRewards(steps[i].choice)
    requires forall x :: x in p.completedQuests ==> x in pool
    requires forall x :: x in StepIds(steps) ==> x in pool
    ensures Consistent(Replay(p, steps)) && Replay(p, steps).coins >= p.coins
    ensures forall x :: x in Replay(p, steps).completedQuests ==> x in pool
    ensures |Replay(p, steps).completedQuests| <= |pool|
  {
    ReplayKeepsConsistent(p, steps);
    ReplaySums(p, steps);
    var r := Replay(p, steps);
    assert NoDuplicates(r.completedQuests);
    DistinctWithin(r.completedQuests, pool);
  }

  /** A run with non-negative rewards whose ids come from the four catalog
      ids, started from a fresh profile, ends consistent, with at least the
      starting 100 coins, and with at most four distinct ids. */
  lemma FreshBoundedRun(formName: string, persona: PersonaType, goal: FinancialGoal, steps: seq<Step>)
    requires forall i :: 0 <= i < |steps| ==> NonNegativeRewards(steps[i].choice)
    requires forall x :: x in StepIds(steps) ==> x in {"q1", "q2", "q3", "q4"}
    ensures var r := Replay(NewProfile(formName, persona, goal), steps);
            Consistent(r) && r.coins >= 100 &&
            (forall x :: x in r.completedQuests ==> x in {"q1", "q2", "q3", "q4"}) &&
            |r.completedQuests| <= 4
  {
    NewProfileConsistent(formName, persona, goal);
    CatalogPoolSize();
    BoundedRun(NewProfile(formName, persona, goal), steps, {"q1", "q2", "q3", "q4"});
  }

  /** Any run of catalog quests from a fresh profile ends consistent, with xp
      and coins no lower than where the profile started, and with a
      repeat-free quest list of at most four catalog ids. */
  lemma CatalogRunFromFreshProfile(formName: string, persona: PersonaType, goal: FinancialGoal, steps: seq<Step>)
    requires FromCatalog(steps)
    ensures var r := Replay(NewProfile(formName, persona, goal), steps);
            Consistent(r) && r.coins >= 100 &&
            (forall x :: x in r.completedQuests ==> x in {"q1", "q2", "q3", "q4"}) &&
            |r.completedQuests| <= 4
  {
    CatalogRunNonNegative(steps);
    CatalogRunIds(steps);
    FreshBoundedRun(formName, persona, goal, steps);
  }

  /** The four catalog ids are distinct strings. */
  lemma CatalogPoolSize()
    ensures |{"q1", "q2", "q3", "q4"}| == 4
  {
  }
}
