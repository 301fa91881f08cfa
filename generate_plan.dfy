/**
 * The plan route: it builds a prompt from the form's answers, sends it to a
 * text-generation service, strips code fences from the reply and parses it;
 * on any failure it answers with a fixed fallback plan.
 */

/** The prompt built from the form's answers. */
module PlanPrompt {
  import opened Text
  import opened Types

  /** The fixed lines of the prompt template. */
  const Opening := "You are an expert fitness coach and nutritionist. "
    + "Create a highly personalized and detailed "
    + "fitness plan based on the following user data:\n"
  const AskHeading := "Create a comprehensive plan with:\n"
  const AskWorkout := "1. A 7-day workout plan with specific exercises, "
    + "sets, reps, and rest periods\n"
  const AskDiet := "2. A detailed daily diet plan with breakfast, "
    + "lunch, dinner, and snacks (with approximate calories)\n"
  const AskTips := "3. 5 personalized tips for success\n"
  const AskQuote := "4. A motivational quote\n"
  const AskJson := "IMPORTANT: Respond ONLY with valid JSON in this "
    + "EXACT format (no markdown, no code blocks, "
    + "just pure JSON):\n"
  const SchemaHead := "{\n  \"userData\": {\n"
  const SchemaTail := "  },\n"
    + "  \"workoutPlan\": [\n"
    + "    {\n"
    + "      \"day\": \"Monday\",\n"
    + "      \"exercises\": [\n"
    + "        {\"name\": \"Exercise name\", \"sets\": \"3\", "
    + "\"reps\": \"10-12\", \"rest\": \"60 seconds\"}\n"
    + "      ]\n"
    + "    }\n"
    + "  ],\n"
    + "  \"dietPlan\": [\n"
    + "    {\n"
    + "      \"meal\": \"Breakfast\",\n"
    + "      \"items\": [\"Item 1\", \"Item 2\"],\n"
    + "      \"calories\": \"400\"\n"
    + "    }\n"
    + "  ],\n"
    + "  \"tips\": [\"Tip 1\", \"Tip 2\", \"Tip 3\", "
    + "\"Tip 4\", \"Tip 5\"],\n"
    + "  \"motivation\": \"Your motivational quote here\"\n"
    + "}"

  /** The answers block of the prompt, one labelled line per answer. */
  function ProfileLines(u: UserFormData): seq<string>
  {
    [ "Name: " + u.name + "\n",
      "Age: " + u.age + "\n",
      "Gender: " + u.gender + "\n",
      "Height: " + u.height + "cm\n",
      "Weight: " + u.weight + "kg\n",
      "Fitness Goal: " + u.fitnessGoal + "\n",
      "Fitness Level: " + u.fitnessLevel + "\n",
      "Workout Location: " + u.workoutLocation + "\n",
      "Dietary Preference: " + u.dietaryPreference + "\n",
      "Medical History: " + OrElse(u.medicalHistory, "None") + "\n",
      "Stress Level: " + OrElse(u.stressLevel, "Moderate") + "\n" ]
  }

  /** The block that lists what the plan must contain. */
  const RequestLines := ["\n", AskHeading, AskWorkout, AskDiet, AskTips, AskQuote, "\n"]

  /** The block that demands JSON and shows the expected reply, with name and goal filled in. */
  function FormatLines(u: UserFormData): seq<string>
  {
    [ AskJson,
      SchemaHead,
      "    \"name\": \"" + u.name + "\",\n",
      "    \"fitnessGoal\": \"" + u.fitnessGoal + "\"\n",
      SchemaTail ]
  }

  /** The prompt's four blocks, in order. */
  function PromptBlocks(u: UserFormData): seq<string>
  {
    [ Opening + "\n",
      Join(ProfileLines(u), ""),
      Join(RequestLines, ""),
      Join(FormatLines(u), "") ]
  }

  /** The prompt sent to the text-generation service. */
  function Prompt(u: UserFormData): string
  {
    Join(PromptBlocks(u), "")
  }

  /** A line of block `b` appears in the prompt. */
  lemma BlockLineInPrompt(u: UserFormData, b: nat, lines: seq<string>, k: nat)
    requires b < 4 && PromptBlocks(u)[b] == Join(lines, "") && k < |lines|
    ensures Contains(Prompt(u), lines[k])
  {
    JoinContains(PromptBlocks(u), "", b);
    JoinContains(lines, "", k);
    ContainsTransitive(Prompt(u), Join(lines, ""), lines[k]);
  }

  /** Every answer line appears in the prompt. */
  lemma ProfileLineInPrompt(u: UserFormData, k: nat)
    requires k < |ProfileLines(u)|
    ensures Contains(Prompt(u), ProfileLines(u)[k])
  {
    BlockLineInPrompt(u, 1, ProfileLines(u), k);
  }

  /** The personal answers appear in the prompt, each on its own labelled line. */
  lemma PromptStatesPerson(u: UserFormData)
    ensures Contains(Prompt(u), "Name: " + u.name + "\n")
    ensures Contains(Prompt(u), "Age: " + u.age + "\n")
    ensures Contains(Prompt(u), "Gender: " + u.gender + "\n")
  {
    ProfileLineInPrompt(u, 0);
    ProfileLineInPrompt(u, 1);
    ProfileLineInPrompt(u, 2);
  }

  /** Height and weight appear with their units. */
  lemma PromptStatesBody(u: UserFormData)
    ensures Contains(Prompt(u), "Height: " + u.height + "cm\n")
    ensures Contains(Prompt(u), "Weight: " + u.weight + "kg\n")
  {
    ProfileLineInPrompt(u, 3);
    ProfileLineInPrompt(u, 4);
  }

  /** The goal, level, location and diet answers appear on labelled lines. */
  lemma PromptStatesPreferences(u: UserFormData)
    ensures Contains(Prompt(u), "Fitness Goal: " + u.fitnessGoal + "\n")
    ensures Contains(Prompt(u), "Fitness Level: " + u.fitnessLevel + "\n")
    ensures Contains(Prompt(u), "Workout Location: " + u.workoutLocation + "\n")
    ensures Contains(Prompt(u), "Dietary Preference: " + u.dietaryPreference + "\n")
  {
    ProfileLineInPrompt(u, 5);
    ProfileLineInPrompt(u, 6);
    ProfileLineInPrompt(u, 7);
    ProfileLineInPrompt(u, 8);
  }

  /** An empty medical history reads "None" and an empty stress level "Moderate"; others appear verbatim. */
  lemma PromptDefaults(u: UserFormData)
    ensures Contains(Prompt(u), "Medical History: " + (if u.medicalHistory == "" then "None" else u.medicalHistory) + "\n")
    ensures Contains(Prompt(u), "Stress Level: " + (if u.stressLevel == "" then "Moderate" else u.stressLevel) + "\n")
  {
    ProfileLineInPrompt(u, 9);
    ProfileLineInPrompt(u, 10);
  }

  /** The prompt asks for the four parts of a plan. */
  lemma PromptRequestsParts(u: UserFormData)
    ensures Contains(Prompt(u), AskWorkout) && Contains(Prompt(u), AskDiet)
    ensures Contains(Prompt(u), AskTips) && Contains(Prompt(u), AskQuote)
  {
    BlockLineInPrompt(u, 2, RequestLines, 2);
    BlockLineInPrompt(u, 2, RequestLines, 3);
    BlockLineInPrompt(u, 2, RequestLines, 4);
    BlockLineInPrompt(u, 2, RequestLines, 5);
  }

  /** The example reply in the prompt carries the user's name and goal. */
  lemma PromptEmbedsIdentity(u: UserFormData)
    ensures Contains(Prompt(u), AskJson)
    ensures Contains(Prompt(u), "    \"name\": \"" + u.name + "\",\n")
    ensures Contains(Prompt(u), "    \"fitnessGoal\": \"" + u.fitnessGoal + "\"\n")
  {
    BlockLineInPrompt(u, 3, FormatLines(u), 0);
    BlockLineInPrompt(u, 3, FormatLines(u), 2);
    BlockLineInPrompt(u, 3, FormatLines(u), 3);
  }
}

/** The cleanup applied to the service's reply before it is parsed. */
module PlanReply {
  import opened Text

  /**
   * One global regular-expression replace of `marker` followed by an optional
   * newline: occurrences are found left to right, never overlapping, and the
   * text between them is kept.
   */
  function StripMarker(s: string, marker: string): (r: string)
    requires marker != ""
    ensures |r| <= |s|
    decreases |s|
  {
    if s == [] then []
    else if marker <= s then
      var rest := s[|marker|..];
      if rest != [] && rest[0] == '\n' then StripMarker(rest[1..], marker) else StripMarker(rest, marker)
    else [s[0]] + StripMarker(s[1..], marker)
  }

  /** The cleanup of the reply: "```json" fences, then bare "```" fences, then `trim`. */
  function CleanReply(text: string): (r: string)
    ensures IsTrimmed(r)
    ensures |r| <= |text|
  {
    Trim(StripMarker(StripMarker(text, "```json"), "```"))
  }

  predicate NoBackticks(s: string)
  {
    forall i :: 0 <= i < |s| ==> s[i] != '`'
  }

  /** Text without backticks passes through a fence-marker replace unchanged. */
  lemma {:induction false} StripMarkerKeepsPlainText(x: string, t: string, marker: string)
    requires marker != "" && marker[0] == '`' && NoBackticks(x)
    ensures StripMarker(x + t, marker) == x + StripMarker(t, marker)
    decreases |x|
  {
    if x != [] {
      assert (x + t)[0] == x[0];
      assert (x + t)[1..] == x[1..] + t;
      StripMarkerKeepsPlainText(x[1..], t, marker);
      AppendAssoc([x[0]], x[1..], StripMarker(t, marker));
      assert [x[0]] + x[1..] == x;
    } else {
      assert x + t == t;
    }
  }

  /** A reply without backticks is only trimmed. */
  lemma NoFencesOnlyTrimmed(text: string)
    requires NoBackticks(text)
    ensures CleanReply(text) == Trim(text)
  {
    StripMarkerKeepsPlainText(text, "", "```json");
    StripMarkerKeepsPlainText(text, "", "```");
    assert text + "" == text;
  }

  /** The "```json" pass removes the opening fence and the newline after it. */
  lemma StripOpeningFence(x: string)
    requires NoBackticks(x)
    ensures StripMarker("```json\n" + x + "\n```", "```json") == x + "\n```"
  {
    var fenced := "```json\n" + x + "\n```";
    assert "```json" <= fenced;
    assert fenced[7..] == "\n" + x + "\n```";
    assert fenced[8..] == x + "\n```";
    StripMarkerKeepsPlainText(x, "\n```", "```json");
    assert StripMarker("\n```", "```json") == "\n```";
  }

  /** The bare "```" pass removes the closing fence and leaves the newline before it. */
  lemma StripClosingFence(x: string)
    requires NoBackticks(x)
    ensures StripMarker(x + "\n```", "```") == x + "\n"
  {
    StripMarkerKeepsPlainText(x, "\n```", "```");
    assert StripMarker("\n```", "```") == "\n";
  }

  /** A fenced reply loses its fences: cleaning "```json\n" + x + "\n```" gives back x. */
  lemma FenceRoundTrip(x: string)
    requires NoBackticks(x) && IsTrimmed(x)
    ensures CleanReply("```json\n" + x + "\n```") == x
  {
    StripOpeningFence(x);
    StripClosingFence(x);
    TrimDropsTrailingNewline(x);
  }
}

/** The plan answered when anything goes wrong. */
module PlanFallback {
  import opened Wrappers
  import opened Text
  import opened Types

  /** The plan returned when generation or parsing fails. */
  function FallbackPlan(): (p: FitnessPlan)
    ensures |p.workoutPlan| == 7 && |p.dietPlan| == 6 && |p.tips| == 5 && p.motivation != ""
    ensures p.userData == UserData("User", "General Fitness")
    ensures forall i :: 0 <= i < |p.workoutPlan| ==> IsCompleteDay(p.workoutPlan[i])
    ensures forall i :: 0 <= i < |p.dietPlan| ==> IsCompleteMeal(p.dietPlan[i])
  {
    FitnessPlan(
      UserData("User", "General Fitness"),
      FallbackWorkout(),
      FallbackDiet(),
      FallbackTips(),
      "The only bad workout is the one " + "that didn't happen. Keep pushing! \U{1F4AA}")
  }

  /** The fallback week: seven labelled days, every exercise with sets, reps and rest. */
  function FallbackWorkout(): (days: seq<WorkoutDay>)
    ensures |days| == 7 && forall i :: 0 <= i < |days| ==> IsCompleteDay(days[i])
  {
    [ WorkoutDay("Monday - Upper Body", [
        Exercise("Push-ups", "3", "10-15", Some("60 seconds")),
        Exercise("Dumbbell Rows", "3", "12", Some("60 seconds")),
        Exercise("Shoulder Press", "3", "10", Some("60 seconds"))]),
      WorkoutDay("Tuesday - Lower Body", [
        Exercise("Squats", "4", "12", Some("90 seconds")),
        Exercise("Lunges", "3", "10 each leg", Some("60 seconds")),
        Exercise("Calf Raises", "3", "15", Some("45 seconds"))]),
      WorkoutDay("Wednesday - Cardio & Core", [
        Exercise("Running", "1", "20 minutes", Some("N/A")),
        Exercise("Plank", "3", "45 seconds", Some("30 seconds")),
        Exercise("Bicycle Crunches", "3", "20", Some("30 seconds"))]),
      WorkoutDay("Thursday - Rest or Active Recovery", [
        Exercise("Walking", "1", "30 minutes", Some("N/A")),
        Exercise("Stretching", "1", "15 minutes", Some("N/A"))]),
      WorkoutDay("Friday - Full Body", [
        Exercise("Burpees", "3", "10", Some("60 seconds")),
        Exercise("Deadlifts", "3", "10", Some("90 seconds")),
        Exercise("Pull-ups", "3", "8", Some("60 seconds"))]),
      WorkoutDay("Saturday - HIIT", [
        Exercise("Jump Squats", "4", "15", Some("30 seconds")),
        Exercise("Mountain Climbers", "4", "20", Some("30 seconds")),
        Exercise("High Knees", "4", "30 seconds", Some("30 seconds"))]),
      WorkoutDay("Sunday - Rest", [
        Exercise("Light Yoga", "1", "20 minutes", Some("N/A")),
        Exercise("Meditation", "1", "10 minutes", Some("N/A"))]) ]
  }

  /** The fallback day of eating: six meals, each with items and a calorie estimate. */
  function FallbackDiet(): (meals: seq<DietMeal>)
    ensures |meals| == 6 && forall i :: 0 <= i < |meals| ==> IsCompleteMeal(meals[i])
  {
    [ DietMeal("Breakfast", ["Oatmeal with berries", "2 eggs", "Green tea"], Some("450")),
      DietMeal("Mid-Morning Snack", ["Greek yogurt", "Handful of almonds"], Some("200")),
      DietMeal("Lunch", ["Grilled chicken breast", "Brown rice", "Mixed vegetables", "Salad"], Some("550")),
      DietMeal("Afternoon Snack", ["Apple with peanut butter", "Protein shake"], Some("250")),
      DietMeal("Dinner", ["Baked salmon", "Quinoa", "Steamed broccoli", "Sweet potato"], Some("600")),
      DietMeal("Evening Snack (Optional)", ["Cottage cheese", "Cucumber slices"], Some("150")) ]
  }

  /** The five fallback tips. */
  function FallbackTips(): (tips: seq<string>)
    ensures |tips| == 5
  {
    [ "Stay hydrated - drink at least " + "8 glasses of water daily",
      "Get 7-8 hours of quality sleep " + "every night",
      "Track your progress with photos " + "and measurements",
      "Focus on form over weight " + "to prevent injuries",
      "Be consistent - results take " + "time and dedication" ]
  }

  /** A labelled day with at least one exercise, every exercise filled in. */
  predicate IsCompleteDay(d: WorkoutDay)
  {
    d.day != "" && |d.exercises| > 0 && forall j :: 0 <= j < |d.exercises| ==> IsComplete(d.exercises[j])
  }

  /** A labelled meal with at least one item and a calorie estimate. */
  predicate IsCompleteMeal(m: DietMeal)
  {
    m.meal != "" && |m.items| > 0 && Truthy(m.calories)
  }

  /** Every field of the exercise, rest included, is filled in. */
  predicate IsComplete(e: Exercise)
  {
    e.name != "" && e.sets != "" && e.reps != "" && Truthy(e.rest)
  }
}

/** The route handler itself. */
module GeneratePlan {
  import opened Wrappers
  import opened Types
  import opened PlanPrompt
  import opened PlanReply
  import opened PlanFallback

  /** The route's answer: always status 200 with a plan. */
  datatype PlanResponse = PlanResponse(status: nat, plan: FitnessPlan)

  /**
   * The route handler.  `body` is the parsed request body: None when it is not
   * JSON, or when it is the JSON `null`, on which reading `userData.name` while
   * building the prompt throws into the same catch block; `generate` stands for the text-generation service (None when the call
   * throws); `parse` for `JSON.parse` (None when it throws).  Every outcome,
   * failures included, is answered with status 200.
   */
  function PlanRoute(
    body: Option<UserFormData>,
    generate: string -> Option<string>,
    parse: string -> Option<FitnessPlan>): (r: PlanResponse)
    ensures r.status == 200
  {
    match body
    case None => PlanResponse(200, FallbackPlan())
    case Some(u) =>
      match generate(Prompt(u))
      case None => PlanResponse(200, FallbackPlan())
      case Some(text) =>
        match parse(CleanReply(text))
        case None => PlanResponse(200, FallbackPlan())
        case Some(plan) => PlanResponse(200, plan)
  }

  /** A body that is not JSON, or is `null`, is answered with the fallback plan. */
  lemma UnreadableBodyFallsBack(generate: string -> Option<string>, parse: string -> Option<FitnessPlan>)
    ensures PlanRoute(None, generate, parse).plan == FallbackPlan()
  {
  }

  /** A failed call to the text-generation service is answered with the fallback plan. */
  lemma FailedGenerationFallsBack(u: UserFormData, generate: string -> Option<string>, parse: string -> Option<FitnessPlan>)
    requires generate(Prompt(u)).None?
    ensures PlanRoute(Some(u), generate, parse).plan == FallbackPlan()
  {
  }

  /** A reply that does not parse once cleaned is answered with the fallback plan. */
  lemma UnparsableReplyFallsBack(u: UserFormData, generate: string -> Option<string>, parse: string -> Option<FitnessPlan>)
    requires generate(Prompt(u)).Some?
    requires parse(CleanReply(generate(Prompt(u)).value)).None?
    ensures PlanRoute(Some(u), generate, parse).plan == FallbackPlan()
  {
  }

  /** A reply that parses once cleaned is answered as it stands, whatever it holds. */
  lemma ParsedReplyReturned(u: UserFormData, generate: string -> Option<string>, parse: string -> Option<FitnessPlan>, plan: FitnessPlan)
    requires generate(Prompt(u)).Some?
    requires parse(CleanReply(generate(Prompt(u)).value)) == Some(plan)
    ensures PlanRoute(Some(u), generate, parse).plan == plan
  {
  }
}
