/**
 * The speech route: it flattens a workout or diet sequence into one narration
 * string and submits it to a speech-synthesis service.  The narration is built
 * by appending to a mutable string inside bounded index loops; `Narration`
 * specifies the finished string and `BuildNarration` is the loop that builds it.
 */
module TextToSpeech {
  import opened Wrappers
  import opened Text
  import opened Types

  /** The `data` member of the request body, as the route can observe it. */
  datatype SpeechData =
    | Missing                          // absent, null or another falsy value
    | NotArray(firstMissing: bool)     // present but `Array.isArray` is false; `firstMissing` when
                                       // its `length` is positive but it has no element 0
    | Days(days: seq<WorkoutDay>)      // an array of workout days
    | Meals(meals: seq<DietMeal>)      // an array of diet meals

  /** The parsed request body `{ type, data }`. */
  datatype SpeechRequest = SpeechRequest(kind: string, data: SpeechData)

  /** The request sent to the speech-synthesis service. */
  datatype SynthesisRequest = SynthesisRequest(
    url: string, apiKey: string, text: string, modelId: string,
    stability: real, similarityBoost: real)

  datatype SpeechResponse =
    | Audio(contentType: string, contentLength: string, audio: seq<bv8>)
    | Failed(status: nat, error: string)

  const WorkoutOpening := "Here is your personalized workout plan. "
  const WorkoutClosing := "Keep pushing towards your goals!"
  const DietOpening := "Here is your personalized nutrition plan. "
  const DietClosing := "Eat healthy and stay hydrated!"
  const WorkoutFallback :=
    "Here is your personalized workout plan for the week. Follow each exercise with proper form and recommended rest periods."
  const DietFallback :=
    "Here is your personalized nutrition plan. Make sure to eat balanced meals throughout the day."
  const SpeechUrl := "https://api.elevenlabs.io/v1/text-to-speech/21m00Tcm4TlvDq8ikWAM"
  const SpeechError := "Failed to generate speech."

  /** How many days, exercises per day and items per meal are read out. */
  const NarratedDays := 3
  const NarratedExercises := 3
  const ListedItems := 3

  function Min(a: int, b: int): int
  {
    if a < b then a else b
  }

  /**
   * The diagnostic logging throws: `data` passes `data && data.length > 0` but
   * `data[0]` is undefined (an object such as `{"length": 1}`), so
   * `JSON.stringify(data[0])` gives undefined and `.substring` is called on it.
   * Arrays parsed from JSON have every element up to their length, and a
   * non-empty string has a first character, so only such an object does this.
   */
  predicate LoggingThrows(data: SpeechData)
  {
    data.NotArray? && data.firstMissing
  }

  /** `data && Array.isArray(data) && data.length > 0` */
  predicate IsNonEmptyArray(data: SpeechData)
  {
    (data.Days? && |data.days| > 0) || (data.Meals? && |data.meals| > 0)
  }

  /** The elements of the array read as workout days: a meal has no `day` label. */
  function AsDays(data: SpeechData): seq<WorkoutDay>
    requires data.Days? || data.Meals?
  {
    if data.Days? then data.days else seq(|data.meals|, _ => WorkoutDay("", []))
  }

  /** The elements of the array read as diet meals: a day has no `meal` label. */
  function AsMeals(data: SpeechData): seq<DietMeal>
    requires data.Days? || data.Meals?
  {
    if data.Meals? then data.meals else seq(|data.days|, _ => DietMeal("", [], None))
  }

  /** What one exercise adds: nothing when it has no name; missing counts read as 3 sets of 10. */
  function ExercisePhrase(ex: Exercise): string
  {
    if ex.name == "" then ""
    else ex.name + ", " + OrElse(ex.sets, "3") + " sets of " + OrElse(ex.reps, "10") + " reps. "
  }

  /** What one day adds: its label and its first three exercises, or nothing without a label. */
  function DayPhrase(d: WorkoutDay): string
  {
    if d.day == "" then ""
    else d.day + ". " + Concat(d.exercises[..Min(NarratedExercises, |d.exercises|)], ExercisePhrase)
  }

  /** The first three items joined by ", ", then a count of the rest. */
  function ItemsPhrase(items: seq<string>): string
  {
    if |items| == 0 then ""
    else Join(items[..Min(ListedItems, |items|)], ", ") + RemainderPhrase(items)
  }

  /** The count of the items not read out, when there are any. */
  function RemainderPhrase(items: seq<string>): string
  {
    if |items| > ListedItems then ", and " + Decimal(|items| - ListedItems) + " more items" else ""
  }

  function CaloriesPhrase(calories: Option<string>): string
  {
    if Truthy(calories) then ", approximately " + calories.value + " calories" else ""
  }

  /** What one meal adds: nothing without a label. */
  function MealPhrase(m: DietMeal): string
  {
    if m.meal == "" then ""
    else "For " + m.meal + ", have " + ItemsPhrase(m.items) + CaloriesPhrase(m.calories) + ". "
  }

  /** The narration the route speaks for a request body. */
  function Narration(req: SpeechRequest): (r: string)
    ensures req.kind == "workout" && IsNonEmptyArray(req.data) ==>
      WorkoutOpening <= r && EndsWith(r, WorkoutClosing)
    ensures req.kind == "diet" && IsNonEmptyArray(req.data) ==>
      DietOpening <= r && EndsWith(r, DietClosing)
    ensures !IsNonEmptyArray(req.data) || (req.kind != "workout" && req.kind != "diet") ==>
      r == if req.kind == "workout" then WorkoutFallback else DietFallback
  {
    if req.kind == "workout" && IsNonEmptyArray(req.data) then
      var days := AsDays(req.data);
      var body := WorkoutOpening + Concat(days[..Min(NarratedDays, |days|)], DayPhrase);
      assert (body + WorkoutClosing)[|body|..] == WorkoutClosing;
      body + WorkoutClosing
    else if req.kind == "diet" && IsNonEmptyArray(req.data) then
      var body := DietOpening + Concat(AsMeals(req.data), MealPhrase);
      assert (body + DietClosing)[|body|..] == DietClosing;
      body + DietClosing
    else if req.kind == "workout" then WorkoutFallback
    else DietFallback
  }

  /** Builds the narration the way the route does: appending to `text` inside index loops. */
  method BuildNarration(req: SpeechRequest) returns (text: string)
    ensures text == Narration(req)
  {
    if req.kind == "workout" && IsNonEmptyArray(req.data) {
      var data := AsDays(req.data);
      text := WorkoutOpening;
      var i := 0;
      while i < Min(NarratedDays, |data|)
        invariant 0 <= i <= Min(NarratedDays, |data|)
        invariant text == WorkoutOpening + Concat(data[..i], DayPhrase)
      {
        ConcatSnoc(data, DayPhrase, i);
        AppendAssoc(WorkoutOpening, Concat(data[..i], DayPhrase), DayPhrase(data[i]));
        text := AppendDay(text, data[i]);
        i := i + 1;
      }
      text := text + WorkoutClosing;
    } else if req.kind == "diet" && IsNonEmptyArray(req.data) {
      var data := AsMeals(req.data);
      text := DietOpening;
      var i := 0;
      while i < |data|
        invariant 0 <= i <= |data|
        invariant text == DietOpening + Concat(data[..i], MealPhrase)
      {
        ConcatSnoc(data, MealPhrase, i);
        AppendAssoc(DietOpening, Concat(data[..i], MealPhrase), MealPhrase(data[i]));
        text := AppendMeal(text, data[i]);
        i := i + 1;
      }
      assert data[..i] == data;
      text := text + DietClosing;
    } else {
      text := if req.kind == "workout" then WorkoutFallback else DietFallback;
    }
  }

  /** One pass of the day loop: the label, then the named ones among the day's first three exercises. */
  method AppendDay(text: string, day: WorkoutDay) returns (out: string)
    ensures out == text + DayPhrase(day)
  {
    out := text;
    if day.day != "" {
      out := out + (day.day + ". ");
      ghost var head := out;
      var exercises := day.exercises;
      var j := 0;
      while j < Min(NarratedExercises, |exercises|)
        invariant 0 <= j <= Min(NarratedExercises, |exercises|)
        invariant out == head + Concat(exercises[..j], ExercisePhrase)
      {
        var ex := exercises[j];
        ConcatSnoc(exercises, ExercisePhrase, j);
        AppendAssoc(head, Concat(exercises[..j], ExercisePhrase), ExercisePhrase(ex));
        if ex.name != "" {
          out := out + (ex.name + ", " + OrElse(ex.sets, "3") + " sets of " + OrElse(ex.reps, "10") + " reps. ");
        }
        j := j + 1;
      }
      AppendAssoc(text, day.day + ". ", Concat(exercises[..j], ExercisePhrase));
    }
  }

  /** One pass of the meal loop: label, up to three items and a remainder count, calories. */
  method AppendMeal(text: string, meal: DietMeal) returns (out: string)
    ensures out == text + MealPhrase(meal)
  {
    out := text;
    if meal.meal != "" {
      out := out + ("For " + meal.meal + ", have ");
      ghost var head := out;
      if |meal.items| > 0 {
        var items := meal.items[..Min(ListedItems, |meal.items|)];
        out := out + Join(items, ", ");
        if |meal.items| > ListedItems {
          AppendAssoc(head, Join(items, ", "), RemainderPhrase(meal.items));
          out := out + (", and " + Decimal(|meal.items| - ListedItems) + " more items");
        }
      }
      assert out == head + ItemsPhrase(meal.items);
      ghost var listed := out;
      if Truthy(meal.calories) {
        out := out + (", approximately " + meal.calories.value + " calories");
      }
      assert out == listed + CaloriesPhrase(meal.calories);
      out := out + ". ";
      AppendAssoc(text, "For " + meal.meal + ", have ", ItemsPhrase(meal.items));
      AppendAssoc(text, "For " + meal.meal + ", have " + ItemsPhrase(meal.items), CaloriesPhrase(meal.calories));
      AppendAssoc(text, "For " + meal.meal + ", have " + ItemsPhrase(meal.items) + CaloriesPhrase(meal.calories), ". ");
    }
  }

  /** With three or more days, exactly the first three are read out, in order. */
  lemma WorkoutReadsFirstThreeDays(days: seq<WorkoutDay>)
    requires |days| >= NarratedDays
    ensures Narration(SpeechRequest("workout", Days(days)))
         == WorkoutOpening + (DayPhrase(days[0]) + DayPhrase(days[1]) + DayPhrase(days[2])) + WorkoutClosing
  {
    var first := days[..3];
    ConcatSnoc(first, DayPhrase, 0);
    ConcatSnoc(first, DayPhrase, 1);
    ConcatSnoc(first, DayPhrase, 2);
    assert first[..0] == [] && first[..3] == first;
    assert "" + DayPhrase(days[0]) == DayPhrase(days[0]);
  }

  /** The workout narration depends only on the days it reads: later days, however many, change nothing. */
  lemma LaterDaysIgnored(days: seq<WorkoutDay>, other: seq<WorkoutDay>)
    requires |days| > 0 && |other| > 0
    requires days[..Min(NarratedDays, |days|)] == other[..Min(NarratedDays, |other|)]
    ensures Narration(SpeechRequest("workout", Days(days))) == Narration(SpeechRequest("workout", Days(other)))
  {
  }

  /** With three or more exercises, a labelled day reads exactly its first three. */
  lemma DayReadsFirstThreeExercises(d: WorkoutDay)
    requires d.day != "" && |d.exercises| >= NarratedExercises
    ensures DayPhrase(d)
         == d.day + ". " + (ExercisePhrase(d.exercises[0]) + ExercisePhrase(d.exercises[1]) + ExercisePhrase(d.exercises[2]))
  {
    var first := d.exercises[..3];
    ConcatSnoc(first, ExercisePhrase, 0);
    ConcatSnoc(first, ExercisePhrase, 1);
    ConcatSnoc(first, ExercisePhrase, 2);
    assert first[..0] == [] && first[..3] == first;
    assert "" + ExercisePhrase(first[0]) == ExercisePhrase(first[0]);
  }

  /** A day's phrase depends only on its label and the exercises it reads. */
  lemma LaterExercisesIgnored(d: WorkoutDay, e: WorkoutDay)
    requires d.day == e.day
    requires d.exercises[..Min(NarratedExercises, |d.exercises|)] == e.exercises[..Min(NarratedExercises, |e.exercises|)]
    ensures DayPhrase(d) == DayPhrase(e)
  {
  }

  /** A day without a label is skipped whole, exercises included: dropping it leaves the text unchanged. */
  lemma UnlabelledDaySkipped(days: seq<WorkoutDay>, i: nat)
    requires i < |days| && days[i].day == ""
    ensures Concat(days, DayPhrase) == Concat(days[..i] + days[i + 1..], DayPhrase)
  {
    ConcatSkipsSilent(days, DayPhrase, i);
  }

  /** An exercise without a name is skipped: dropping it leaves the text unchanged. */
  lemma NamelessExerciseSkipped(exercises: seq<Exercise>, i: nat)
    requires i < |exercises| && exercises[i].name == ""
    ensures Concat(exercises, ExercisePhrase) == Concat(exercises[..i] + exercises[i + 1..], ExercisePhrase)
  {
    ConcatSkipsSilent(exercises, ExercisePhrase, i);
  }

  /** A named exercise reads "<name>, <sets> sets of <reps> reps. "; missing counts read as 3 and 10. */
  lemma ExercisePhraseForm(ex: Exercise)
    ensures ex.name != "" && ex.sets != "" && ex.reps != "" ==>
      ExercisePhrase(ex) == ex.name + ", " + ex.sets + " sets of " + ex.reps + " reps. "
    ensures ExercisePhrase(ex.(sets := "")) == ExercisePhrase(ex.(sets := "3"))
    ensures ExercisePhrase(ex.(reps := "")) == ExercisePhrase(ex.(reps := "10"))
  {
  }

  /** A workout request whose array holds meals (no `day` labels) reads only the opening and closing. */
  lemma WorkoutOfMealsSaysNothing(meals: seq<DietMeal>)
    requires |meals| > 0
    ensures Narration(SpeechRequest("workout", Meals(meals))) == WorkoutOpening + WorkoutClosing
  {
    var read := AsDays(Meals(meals))[..Min(NarratedDays, |meals|)];
    UnlabelledDaysSilent(read);
    assert Narration(SpeechRequest("workout", Meals(meals))) == WorkoutOpening + Concat(read, DayPhrase) + WorkoutClosing;
  }

  /** A diet request whose array holds workout days (no `meal` labels) reads only the opening and closing. */
  lemma DietOfDaysSaysNothing(days: seq<WorkoutDay>)
    requires |days| > 0
    ensures Narration(SpeechRequest("diet", Days(days))) == DietOpening + DietClosing
  {
    var meals := AsMeals(Days(days));
    UnlabelledMealsSilent(meals);
    assert Narration(SpeechRequest("diet", Days(days))) == DietOpening + Concat(meals, MealPhrase) + DietClosing;
  }

  /** Days without labels say nothing. */
  lemma UnlabelledDaysSilent(days: seq<WorkoutDay>)
    requires forall i :: 0 <= i < |days| ==> days[i].day == ""
    ensures Concat(days, DayPhrase) == ""
  {
    ConcatAllSilent(days, DayPhrase);
  }

  /** Meals without labels say nothing. */
  lemma UnlabelledMealsSilent(meals: seq<DietMeal>)
    requires forall i :: 0 <= i < |meals| ==> meals[i].meal == ""
    ensures Concat(meals, MealPhrase) == ""
  {
    ConcatAllSilent(meals, MealPhrase);
  }

  /** Diet narration has no cap: every meal's phrase is read out. */
  lemma DietReadsEveryMeal(meals: seq<DietMeal>, i: nat)
    requires i < |meals|
    ensures Contains(Narration(SpeechRequest("diet", Meals(meals))), MealPhrase(meals[i]))
  {
    var body := Concat(meals, MealPhrase);
    ConcatContains(meals, MealPhrase, i);
    ContainsMiddle(DietOpening, body, DietClosing);
    ContainsTransitive(DietOpening + body + DietClosing, body, MealPhrase(meals[i]));
  }

  /** Up to three items are read joined by ", ", with nothing after them. */
  lemma FewItemsJoined(items: seq<string>)
    requires 0 < |items| <= ListedItems
    ensures ItemsPhrase(items) == Join(items, ", ")
  {
    assert items[..Min(ListedItems, |items|)] == items;
    assert Join(items, ", ") + "" == Join(items, ", ");
  }

  /** Beyond three items, the first three are read and then the count of the others. */
  lemma ManyItemsCounted(items: seq<string>)
    requires |items| > ListedItems
    ensures ItemsPhrase(items) == Join(items[..3], ", ") + (", and " + Decimal(|items| - 3) + " more items")
    ensures DecimalValue(Decimal(|items| - 3)) == |items| - 3
  {
    assert Min(ListedItems, |items|) == 3;
    assert RemainderPhrase(items) == ", and " + Decimal(|items| - 3) + " more items";
    DecimalRoundTrip(|items| - 3);
  }

  /** Each of the first three items is named in the meal's item phrase. */
  lemma FirstItemsNamed(items: seq<string>, i: nat)
    requires i < |items| && i < ListedItems
    ensures Contains(ItemsPhrase(items), items[i])
  {
    var listed := items[..Min(ListedItems, |items|)];
    var joined := Join(listed, ", ");
    var rest := RemainderPhrase(items);
    assert listed[i] == items[i];
    JoinContains(listed, ", ", i);
    assert ItemsPhrase(items) == joined + rest;
    ContainsMiddle("", joined, rest);
    assert "" + joined + rest == joined + rest;
    ContainsTransitive(joined + rest, joined, items[i]);
  }

  /** A meal of five items reads three of them and "2 more items". */
  lemma FiveItemsExample(a: string, b: string, c: string, d: string, e: string)
    ensures ItemsPhrase([a, b, c, d, e]) == a + ", " + b + ", " + c + ", and 2 more items"
  {
    var items := [a, b, c, d, e];
    ManyItemsCounted(items);
    assert items[..3] == [a, b, c];
    assert Join([a, b, c], ", ") == a + ", " + b + ", " + c by {
      assert [a, b, c][..2] == [a, b] && [a, b][..1] == [a];
      assert Join([a], ", ") == a;
      assert Join([a, b], ", ") == a + ", " + b;
    }
    assert Decimal(2) == "2";
  }

  /** The call made to the speech service: the narration, unchanged, with the fixed voice and settings. */
  function SynthesisCall(text: string, apiKey: string): SynthesisRequest
  {
    SynthesisRequest(SpeechUrl, apiKey, text, "eleven_monolingual_v1", 0.5, 0.75)
  }

  /**
   * The route handler.  `body` is the outcome of parsing the raw request text: a
   * text that is not JSON, or the JSON `null` (on which `Object.keys` throws),
   * is a failure.  `synthesize` stands for the speech service: the audio bytes,
   * or None when the call fails or answers with a non-success status.
   */
  method Post(body: Result<SpeechRequest>, apiKey: string, synthesize: SynthesisRequest -> Option<seq<bv8>>)
    returns (resp: SpeechResponse)
    ensures body.Failure? ==> resp == Failed(500, SpeechError)
    ensures body.Success? && LoggingThrows(body.value.data) ==> resp == Failed(500, SpeechError)
    ensures body.Success? && !LoggingThrows(body.value.data) ==>
      var reply := synthesize(SynthesisCall(Narration(body.value), apiKey));
      && (reply.Some? ==> resp == Audio("audio/mpeg", Decimal(|reply.value|), reply.value))
      && (reply.None? ==> resp == Failed(500, SpeechError))
  {
    if body.Failure? || LoggingThrows(body.value.data) {
      return Failed(500, SpeechError);
    }
    var text := BuildNarration(body.value);
    var reply := synthesize(SynthesisCall(text, apiKey));
    if reply.None? {
      return Failed(500, SpeechError);
    }
    resp := Audio("audio/mpeg", Decimal(|reply.value|), reply.value);
  }
}
