/** The static content catalog: four quests and the daily challenge, written
    out as constants so that concrete runs of the progression step can be
    proved, together with the facts about them that the rest of the model
    relies on. The toolkit articles have no behaviour and are not here. */
module Catalog {
  import opened Types

  const Q1: Quest := Quest(
    "q1",
    "Monthly Budget Basics",
    Beginner,
    "Master the 50-30-20 rule for your first salary.",
    "You just received your first salary of ₹30,000. Your rent and bills are ₹15,000. You really want to buy a new pair of shoes for ₹5,000.",
    [ QuestChoice(
        "Buy the shoes immediately to celebrate!",
        "Celebrating is good, but spending 16% of your salary on shoes before saving can lead to a debt trap.",
        5, 0, -10, false),
      QuestChoice(
        "Save ₹6,000 first, then see if you can afford the shoes.",
        "Excellent! The \"Pay Yourself First\" rule (saving 20% first) is the foundation of wealth.",
        50, 20, 15, true),
      QuestChoice(
        "Put the shoes on a Credit Card EMI.",
        "EMI for lifestyle items adds interest costs. It is better to save and buy.",
        10, 5, -5, false) ],
    Easy,
    "50 XP • 20 Coins",
    "🧾")

  const Q2: Quest := Quest(
    "q2",
    "The UPI Scam Shield",
    Digital,
    "Learn to identify fraudulent payment requests.",
    "You receive a WhatsApp message from \"KBC Rewards\" saying you won ₹25 Lakhs. They send a UPI QR code and ask you to scan it and enter your PIN to \"receive\" the prize.",
    [ QuestChoice(
        "Scan it immediately! It is a huge prize.",
        "DANGER! Scanned QR codes are for PAYING, not receiving. You would have lost your money!",
        0, 0, -30, false),
      QuestChoice(
        "Report the number and delete the message.",
        "Brilliant! Real prizes never require you to enter a UPI PIN to receive money. Stay safe!",
        60, 30, 20, true) ],
    Medium,
    "60 XP • 30 Coins",
    "🛡")

  const Q3: Quest := Quest(
    "q3",
    "Emergency Fund Mission",
    Beginner,
    "Prepare for the unexpected rainy day.",
    "Your laptop suddenly breaks down and repairs cost ₹10,000. You have ₹15,000 in your savings account.",
    [ QuestChoice(
        "Use your savings to fix it and start rebuilding.",
        "Good use of savings, but this is why an Emergency Fund of 3-6 months of expenses is vital!",
        40, 10, 10, true),
      QuestChoice(
        "Take an instant high-interest personal loan.",
        "Bad idea! Small loans for repairs often have predatory interest rates. Use your buffer instead.",
        5, 0, -15, false) ],
    Easy,
    "40 XP • 10 Coins",
    "🚨")

  const Q4: Quest := Quest(
    "q4",
    "SIP Investing Adventure",
    Advanced,
    "Understand the power of compounding.",
    "You have ₹2,000 extra every month. You are deciding between keeping it in a zero-interest locker or starting a Mutual Fund SIP.",
    [ QuestChoice(
        "Keep it in the locker for safety.",
        "While safe, inflation will reduce the value of your money over time.",
        10, 5, 0, false),
      QuestChoice(
        "Start an Equity SIP for long-term goals.",
        "Great choice! Compounding works best over long periods. You are on your way to becoming a Wealth Builder!",
        80, 50, 25, true) ],
    Hard,
    "80 XP • 50 Coins",
    "📈")

  /** The quest map, in display order. */
  const Quests: seq<Quest> := [Q1, Q2, Q3, Q4]

  /** The single daily challenge (there is no pool and no rotation). */
  const Daily: DailyChallenge := DailyChallenge(
    "What is the maximum amount covered by deposit insurance (DICGC) per bank account in India?",
    ["₹1 Lakh", "₹5 Lakhs", "₹10 Lakhs", "Unlimited"],
    1,
    "Since 2020, the DICGC covers up to ₹5 Lakhs per depositor, per bank, including principal and interest.",
    20)

  /** The ids of a list of quests, in order. */
  function Ids(qs: seq<Quest>): (ids: seq<string>)
    ensures |ids| == |qs|
    ensures forall i :: 0 <= i < |qs| ==> ids[i] == qs[i].id
  {
    if qs == [] then [] else [qs[0].id] + Ids(qs[1..])
  }

  /** `k` is the one and only option of `opts` marked correct. */
  predicate IsTheCorrectOption(opts: seq<QuestChoice>, k: int)
  {
    0 <= k < |opts| && opts[k].isCorrect &&
    forall j :: 0 <= j < |opts| && opts[j].isCorrect ==> j == k
  }

  /** The correct option pays strictly the most xp and heals; every other
      option does not heal. */
  predicate CorrectDominates(opts: seq<QuestChoice>)
  {
    forall k, j :: 0 <= k < |opts| && 0 <= j < |opts| && opts[k].isCorrect && !opts[j].isCorrect ==>
      opts[j].xpReward < opts[k].xpReward && opts[k].healthDelta > 0 && opts[j].healthDelta <= 0
  }

  /** The catalog holds exactly the four quests q1..q4, ids pairwise distinct. */
  lemma QuestIdsDistinct()
    ensures Ids(Quests) == ["q1", "q2", "q3", "q4"]
    ensures NoDuplicates(Ids(Quests))
  {
  }

  /** Every quest offers two or three options. */
  lemma OptionCounts()
    ensures forall q :: q in Quests ==> 2 <= |q.options| <= 3
  {
  }

  /** Every quest marks exactly one option correct. */
  lemma ExactlyOneCorrect()
    ensures forall q :: q in Quests ==> exists k :: IsTheCorrectOption(q.options, k)
  {
    assert IsTheCorrectOption(Q1.options, 1);
    assert IsTheCorrectOption(Q2.options, 1);
    assert IsTheCorrectOption(Q3.options, 0);
    assert IsTheCorrectOption(Q4.options, 1);
  }

  /** No option of the catalog takes xp or coins away. */
  lemma RewardsNonNegative()
    ensures forall q, c :: q in Quests && c in q.options ==> c.xpReward >= 0 && c.coinReward >= 0
  {
  }

  /** In every quest the correct option has the strictly largest xp reward
      and a positive health delta, and the incorrect ones a non-positive one. */
  lemma CorrectOptionDominates()
    ensures forall q :: q in Quests ==> CorrectDominates(q.options)
  {
  }

  /** Every option carries a non-empty feedback text, so revealing it makes
      the session's feedback truthy. */
  lemma FeedbackNonEmpty()
    ensures forall q, c :: q in Quests && c in q.options ==> c.feedback != ""
  {
  }

  /** The daily challenge's correct answer is the second of its four options
      and it is worth 20. */
  lemma DailyChallengeWellFormed()
    ensures |Daily.options| == 4
    ensures Daily.correctIndex == 1 && 0 <= Daily.correctIndex < |Daily.options|
    ensures Daily.reward == 20
  {
  }
}
