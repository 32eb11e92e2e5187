/** The static wellness content: the crisis hotline table, the coping strategies keyed
    by mood, the mood boosters, the daily affirmations and the mindfulness exercises,
    with the lookups and the pickers the page calls. Nothing here has state. */
module MentalHealth {
  import opened Text

  /** The crisis hotlines in their display order (a Python dict keeps insertion order),
      as (service, contact) pairs. */
  const CrisisResources: seq<(string, string)> := [
    ("National Suicide Prevention Lifeline", "1-800-273-8255"),
    ("Crisis Text Line", "Text HOME to 741741"),
    ("SAMHSA's National Helpline", "1-800-662-4357"),
    ("National Alliance on Mental Illness", "1-800-950-6264"),
    ("Emergency", "911")
  ]

  /** Five services, no service listed twice, and every one has a contact. */
  lemma CrisisResourcesWellFormed()
    ensures |CrisisResources| == 5
    ensures forall i, j :: 0 <= i < j < |CrisisResources| ==> CrisisResources[i].0 != CrisisResources[j].0
    ensures forall i :: 0 <= i < |CrisisResources| ==> |CrisisResources[i].1| > 0
  {
  }

  const AnxietyStrategies: seq<string> := [
    "Try the 4-7-8 breathing technique",
    "Ground yourself using the 5-4-3-2-1 method",
    "Progressive muscle relaxation",
    "Take a short walk if possible",
    "Write down your worries"
  ]

  const DepressionStrategies: seq<string> := [
    "Set a small, achievable goal for today",
    "Try to get some sunlight",
    "Reach out to one person",
    "Do one act of self-care",
    "Write down three things you're grateful for"
  ]

  const StressStrategies: seq<string> := [
    "Take a 5-minute meditation break",
    "Listen to calming music",
    "Try some gentle stretching",
    "Write in your journal",
    "Take a break from screens"
  ]

  const CopingStrategies: map<string, seq<string>> := map[
    "anxiety" := AnxietyStrategies,
    "depression" := DepressionStrategies,
    "stress" := StressStrategies
  ]

  const MoodBoosters: seq<string> := [
    "You're stronger than you know",
    "Take it one moment at a time",
    "Your feelings are valid",
    "You don't have to face this alone",
    "Small steps lead to big changes"
  ]

  const DailyAffirmations: seq<string> := [
    "I am worthy of love and respect",
    "I choose to be confident and self-assured",
    "I am in charge of my own happiness",
    "I am becoming stronger every day",
    "I deserve peace and happiness",
    "I am capable of handling challenges",
    "My potential is limitless",
    "I choose to be positive today",
    "I trust in my journey",
    "I am enough just as I am"
  ]

  datatype Exercise = Exercise(name: string, duration: string, instructions: string)

  const MindfulnessExercises: seq<Exercise> := [
    Exercise("Body Scan", "5 minutes",
      "Start from your toes and slowly move your attention up through your body, noticing any sensations without judgment."),
    Exercise("Mindful Breathing", "3 minutes",
      "Focus on your breath. Notice the sensation of air moving in and out of your body."),
    Exercise("5-4-3-2-1 Grounding", "2 minutes",
      "Name 5 things you can see, 4 you can touch, 3 you can hear, 2 you can smell, and 1 you can taste.")
  ]

  /** The strategies for a mood, looked up under the mood's lower-case form; any mood
      the table does not know gets the stress strategies. */
  function GetCopingStrategies(mood: string): (r: seq<string>)
    ensures r == AnxietyStrategies || r == DepressionStrategies || r == StressStrategies
    ensures |r| == 5
    ensures Lower(mood) == "anxiety" ==> r == AnxietyStrategies
    ensures Lower(mood) == "depression" ==> r == DepressionStrategies
    ensures Lower(mood) != "anxiety" && Lower(mood) != "depression" ==> r == StressStrategies
  {
    var key := Lower(mood);
    if key in CopingStrategies then CopingStrategies[key] else CopingStrategies["stress"]
  }

  /** The lookup ignores case: a mood and its lower-case form get the same strategies. */
  lemma CopingStrategiesIgnoreCase(mood: string)
    ensures GetCopingStrategies(mood) == GetCopingStrategies(Lower(mood))
  {
  }

  /** Randomness is the index `choice` that random.choice would draw; only membership
      of the result is promised. */
  function RandomAffirmation(choice: nat): (a: string)
    ensures a in DailyAffirmations
  {
    DailyAffirmations[choice % |DailyAffirmations|]
  }

  function RandomMoodBooster(choice: nat): (b: string)
    ensures b in MoodBoosters
  {
    MoodBoosters[choice % |MoodBoosters|]
  }

  function MindfulnessExercise(choice: nat): (e: Exercise)
    ensures e in MindfulnessExercises
  {
    MindfulnessExercises[choice % |MindfulnessExercises|]
  }

  /** The fixed instructions put in front of every user message. The triple-quoted
      literal keeps the four-space indentation of its continuation lines. */
  const BasePrompt: string :=
    "You are a compassionate mental health support assistant. \n"
    + "    Your role is to provide empathetic, supportive responses while:\n"
    + "    1. Actively listening and validating feelings\n"
    + "    2. Offering practical coping strategies when appropriate\n"
    + "    3. Encouraging professional help when needed\n"
    + "    4. Maintaining boundaries and ethical guidelines\n"
    + "    5. Using a warm, understanding tone\n"
    + "    \n"
    + "    Remember to:\n"
    + "    - Validate emotions without judgment\n"
    + "    - Focus on empowerment and hope\n"
    + "    - Provide actionable suggestions\n"
    + "    - Be clear about your role as a supportive AI, not a replacement for professional help\n"
    + "    "

  const UserMessageLabel: string := "\n\nUser message: "

  /** Everything before the user's text. */
  const PromptPrefix: string := BasePrompt + UserMessageLabel

  function GenerateMentalHealthPrompt(userInput: string): (p: string)
    ensures BasePrompt <= PromptPrefix <= p
    ensures |p| == |PromptPrefix| + |userInput|
    ensures p[|PromptPrefix|..] == userInput
  {
    BasePrompt + UserMessageLabel + userInput
  }

  /** The prefix and the user's text fix the prompt: any string that starts with the
      prefix and continues with `userInput` is the generated prompt. */
  lemma PromptDetermined(userInput: string, p: string)
    requires PromptPrefix <= p && p[|PromptPrefix|..] == userInput
    ensures p == GenerateMentalHealthPrompt(userInput)
  {
    assert p == p[..|PromptPrefix|] + p[|PromptPrefix|..];
  }

  /** Recovers the user's text from a generated prompt. */
  function PromptUserMessage(p: string): (u: string)
    requires |PromptPrefix| <= |p|
    ensures |u| == |p| - |PromptPrefix|
  {
    p[|PromptPrefix|..]
  }

  /** Building a prompt and taking the user's text back out is the identity, so two
      different messages never produce the same prompt. */
  lemma PromptRoundTrip(u: string, v: string)
    ensures PromptUserMessage(GenerateMentalHealthPrompt(u)) == u
    ensures GenerateMentalHealthPrompt(u) == GenerateMentalHealthPrompt(v) ==> u == v
  {
  }
}
