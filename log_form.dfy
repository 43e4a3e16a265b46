/** The earlier page for logging a meal or a workout. It keeps the same form
    state, handlers and submit handler as `LogView`, whose class models them;
    what it adds is the submit button's own disabled expression, the menus of
    meal types, workout types and intensity levels, and the lookup of the
    selected intensity and workout type for their descriptions. */
module LogForm {
  import opened Wrappers
  import opened Strings
  import opened LogView

  /** The submit button's `disabled`, written out field by field. */
  predicate SubmitDisabled(isSubmitting: bool, kind: LogKind, st: FormState) {
    || isSubmitting
    || Trim(st.notes) == ""
    || st.calories == ""
    || (kind == Meal && (st.mealType == "" || Trim(st.foods) == ""))
    || (kind != Meal && st.workoutType == "")
  }

  /** The button is enabled exactly when no submit is under way and the form
      passes the validity check of `LogView`. */
  lemma SubmitDisabledIffInvalid(isSubmitting: bool, kind: LogKind, st: FormState)
    ensures SubmitDisabled(isSubmitting, kind, st) <==> isSubmitting || !IsFormValid(kind, st)
  {
  }

  /** A menu entry: the value stored in the form and its shown title. */
  datatype Choice = Choice(value: string, title: string)

  /** An intensity level with its colour and description. */
  datatype IntensityLevel = IntensityLevel(value: string, title: string, color: string, description: string)

  /** `MEAL_TYPES`, without the icons. */
  const MealTypes: seq<Choice> := [
    Choice("breakfast", "Desayuno"), Choice("lunch", "Almuerzo"), Choice("dinner", "Cena"),
    Choice("snack", "Snack"), Choice("merienda", "Merienda")]

  /** `WORKOUT_TYPES`, without the icons and colours. */
  const WorkoutTypes: seq<Choice> := [
    Choice("cardio", "Cardio"), Choice("strength", "Fuerza"), Choice("hiit", "HIIT"),
    Choice("yoga", "Yoga"), Choice("pilates", "Pilates"), Choice("swimming", "Nataci\U{00F3}n"),
    Choice("other", "Otro")]

  /** `INTENSITY_LEVELS`. */
  const IntensityLevels: seq<IntensityLevel> := [
    IntensityLevel("low", "Baja", "#4ecdc4", "Ejercicio ligero, conversaci\U{00F3}n f\U{00E1}cil"),
    IntensityLevel("moderate", "Moderada", "#feca57", "Ejercicio moderado, algo de esfuerzo"),
    IntensityLevel("high", "Alta", "#ff6b6b", "Ejercicio intenso, mucho esfuerzo")]

  /** `Array.prototype.find`: the first element satisfying p, or None. */
  function Find<T>(s: seq<T>, p: T -> bool): (r: Option<T>)
    ensures r.Some? ==> exists i :: 0 <= i < |s| && s[i] == r.value && p(s[i]) &&
                          forall j :: 0 <= j < i ==> !p(s[j])
    ensures r.None? <==> forall i :: 0 <= i < |s| ==> !p(s[i])
    decreases |s|
  {
    if |s| == 0 then None
    else if p(s[0]) then Some(s[0])
    else
      var r := Find(s[1..], p);
      FindShift(s, p, r);
      r
  }

  lemma FindShift<T>(s: seq<T>, p: T -> bool, r: Option<T>)
    requires |s| > 0 && !p(s[0])
    requires r.Some? ==> exists i :: 0 <= i < |s[1..]| && s[1..][i] == r.value && p(s[1..][i]) &&
                           forall j :: 0 <= j < i ==> !p(s[1..][j])
    ensures r.Some? ==> exists i :: 0 <= i < |s| && s[i] == r.value && p(s[i]) &&
                          forall j :: 0 <= j < i ==> !p(s[j])
  {
    if r.Some? {
      var i :| 0 <= i < |s[1..]| && s[1..][i] == r.value && p(s[1..][i]) &&
               forall j :: 0 <= j < i ==> !p(s[1..][j]);
      assert s[i + 1] == r.value;
      forall j | 0 <= j < i + 1 ensures !p(s[j]) {
        if j > 0 { assert s[j] == s[1..][j - 1]; }
      }
    }
  }

  function HasIntensity(value: string): IntensityLevel -> bool {
    (l: IntensityLevel) => l.value == value
  }

  function HasValue(value: string): Choice -> bool {
    (c: Choice) => c.value == value
  }

  /** `selectedIntensity`: the level whose value is the form's intensity. */
  function SelectedIntensity(st: FormState): Option<IntensityLevel> {
    Find(IntensityLevels, HasIntensity(st.intensity))
  }

  /** `selectedWorkoutType`: the workout type whose value is the form's. */
  function SelectedWorkoutType(st: FormState): Option<Choice> {
    Find(WorkoutTypes, HasValue(st.workoutType))
  }

  /** The three levels have distinct values. */
  lemma IntensityValuesDistinct()
    ensures forall i, j :: 0 <= i < j < |IntensityLevels| ==> IntensityLevels[i].value != IntensityLevels[j].value
  {
  }

  /** The selected intensity is the level of the form's intensity, when one
      has it, and no level otherwise; a fresh form shows the moderate level. */
  lemma SelectedIntensityMeaning(st: FormState)
    ensures SelectedIntensity(st).Some? <==> exists i :: 0 <= i < |IntensityLevels| && IntensityLevels[i].value == st.intensity
    ensures SelectedIntensity(st).Some? ==> SelectedIntensity(st).value in IntensityLevels &&
                                            SelectedIntensity(st).value.value == st.intensity
    ensures SelectedIntensity(InitialForm) == Some(IntensityLevels[1])
  {
    var r := SelectedIntensity(st);
    if r.Some? {
      var i :| 0 <= i < |IntensityLevels| && IntensityLevels[i] == r.value && HasIntensity(st.intensity)(IntensityLevels[i]);
    } else {
      forall i | 0 <= i < |IntensityLevels| ensures IntensityLevels[i].value != st.intensity {
        assert !HasIntensity(st.intensity)(IntensityLevels[i]);
      }
    }
    var first := IntensityLevels[0];
    assert !HasIntensity(InitialForm.intensity)(first);
    assert IntensityLevels[1..][0] == IntensityLevels[1];
  }

  /** The selected workout type is the menu entry of the form's workout type,
      and none before one is chosen. */
  lemma SelectedWorkoutTypeMeaning(st: FormState)
    ensures SelectedWorkoutType(st).Some? ==> SelectedWorkoutType(st).value in WorkoutTypes &&
                                              SelectedWorkoutType(st).value.value == st.workoutType
    ensures SelectedWorkoutType(st).None? <==> forall i :: 0 <= i < |WorkoutTypes| ==> WorkoutTypes[i].value != st.workoutType
    ensures SelectedWorkoutType(InitialForm).None?
  {
    var r := SelectedWorkoutType(st);
    if r.Some? {
      var i :| 0 <= i < |WorkoutTypes| && WorkoutTypes[i] == r.value && HasValue(st.workoutType)(WorkoutTypes[i]);
    } else {
      forall i | 0 <= i < |WorkoutTypes| ensures WorkoutTypes[i].value != st.workoutType {
        assert !HasValue(st.workoutType)(WorkoutTypes[i]);
      }
    }
    forall i | 0 <= i < |WorkoutTypes| ensures !HasValue("")(WorkoutTypes[i]) {
      assert WorkoutTypes[i].value != "";
    }
  }

  /** Picking any entry of the meal or workout menu fills in the type field,
      so with notes, calories and (for a meal) foods the form can be sent. */
  lemma MenuChoiceFillsTypeField(st: FormState, i: nat)
    requires Trim(st.notes) != "" && st.calories != ""
    ensures i < |MealTypes| && Trim(st.foods) != "" ==>
              !SubmitDisabled(false, Meal, WithText(st, MealType, MealTypes[i].value))
    ensures i < |WorkoutTypes| ==> !SubmitDisabled(false, Workout, WithText(st, WorkoutType, WorkoutTypes[i].value))
  {
  }
}
