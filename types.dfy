/**
 * The records exchanged between the form, the routes and the plan view.
 * Required string fields stay `string`; a field the upstream JSON left out is
 * represented by "" (both are falsy in the narration and prompt code).
 * Optional fields (`rest?`, `calories?`) are `Option<string>`.
 */
module Types {
  import opened Wrappers

  /** The fitness form's answers; every field is free text. */
  datatype UserFormData = UserFormData(
    name: string,
    age: string,
    gender: string,
    height: string,
    weight: string,
    fitnessGoal: string,
    fitnessLevel: string,
    workoutLocation: string,
    dietaryPreference: string,
    medicalHistory: string,
    stressLevel: string)

  datatype Exercise = Exercise(name: string, sets: string, reps: string, rest: Option<string>)

  datatype WorkoutDay = WorkoutDay(day: string, exercises: seq<Exercise>)

  datatype DietMeal = DietMeal(meal: string, items: seq<string>, calories: Option<string>)

  datatype UserData = UserData(name: string, fitnessGoal: string)

  datatype FitnessPlan = FitnessPlan(
    userData: UserData,
    workoutPlan: seq<WorkoutDay>,
    dietPlan: seq<DietMeal>,
    tips: seq<string>,
    motivation: string)
}
