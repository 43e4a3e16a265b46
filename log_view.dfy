/** The page for logging a meal or a workout: the form's state, the check
    that enables its submit button, the handlers that edit one field at a
    time, and the fields the submit handler adds to what the browser
    collected before handing it to `createLog`. */
module LogView {
  import opened Wrappers
  import opened Strings
  import opened Forms
  import LogActions

  /** The `logType` the page is opened with. */
  datatype LogKind = Meal | Workout

  function KindName(k: LogKind): string {
    match k
    case Meal => "meal"
    case Workout => "workout"
  }

  /** The `formData` state of the page. */
  datatype FormState = FormState(notes: string, calories: string, mealType: string, foods: string,
                                 workoutType: string, duration: int, intensity: string)

  /** The text fields, which the input and select handlers set. */
  datatype TextField = Notes | Calories | MealType | Foods | WorkoutType | Intensity

  function Text(st: FormState, f: TextField): string {
    match f
    case Notes => st.notes
    case Calories => st.calories
    case MealType => st.mealType
    case Foods => st.foods
    case WorkoutType => st.workoutType
    case Intensity => st.intensity
  }

  /** `{ ...prev, [field]: value }` for a text field: that field is replaced
      and every other field keeps its value. */
  function WithText(st: FormState, f: TextField, value: string): (r: FormState)
    ensures Text(r, f) == value
    ensures forall g: TextField :: g != f ==> Text(r, g) == Text(st, g)
    ensures r.duration == st.duration
  {
    match f
    case Notes => st.(notes := value)
    case Calories => st.(calories := value)
    case MealType => st.(mealType := value)
    case Foods => st.(foods := value)
    case WorkoutType => st.(workoutType := value)
    case Intensity => st.(intensity := value)
  }

  /** The state a page starts in. */
  const InitialForm := FormState("", "", "", "", "", 30, "moderate")

  /** `isFormValid`: notes that are not blank and calories, then for a meal a
      meal type and foods that are not blank, for a workout a workout type. */
  predicate IsFormValid(kind: LogKind, st: FormState) {
    Trim(st.notes) != "" && st.calories != "" &&
    (if kind == Meal then st.mealType != "" && Trim(st.foods) != "" else st.workoutType != "")
  }

  /** A fresh page starts empty, apart from a 30-minute moderate workout, and
      cannot be submitted until notes and calories are typed in. */
  lemma InitialFormIsBlank(kind: LogKind)
    ensures forall f: TextField :: f != Intensity ==> Text(InitialForm, f) == ""
    ensures Text(InitialForm, Intensity) == "moderate" && InitialForm.duration == 30
    ensures !IsFormValid(kind, InitialForm)
  {
    forall f: TextField | f != Intensity ensures Text(InitialForm, f) == "" {
      match f {
        case Notes => assert InitialForm.notes == "";
        case Calories => assert InitialForm.calories == "";
        case MealType => assert InitialForm.mealType == "";
        case Foods => assert InitialForm.foods == "";
        case WorkoutType => assert InitialForm.workoutType == "";
      }
    }
    assert Trim("") == "";
  }

  /** Filling in the fields a log type needs makes the form valid, and
      clearing any one of them makes it invalid again. */
  lemma ValidityNeedsEachField(kind: LogKind, st: FormState, f: TextField)
    requires IsFormValid(kind, st)
    requires f == Notes || f == Calories || (kind == Meal && (f == MealType || f == Foods)) || (kind == Workout && f == WorkoutType)
    ensures !IsFormValid(kind, WithText(st, f, ""))
  {
    assert Trim("") == "";
  }

  /** The entries `handleSubmit` appends, in the order it appends them. */
  function Extras(st: FormState): (r: Entries)
    ensures |r| == 5
    ensures forall i :: 0 <= i < |r| ==> r[i].0 in {"mealType", "foods", "workoutType", "duration", "intensity"}
  {
    [("mealType", st.mealType), ("foods", st.foods), ("workoutType", st.workoutType),
     ("duration", IntString(st.duration)), ("intensity", st.intensity)]
  }

  /** What `get` finds among the appended entries. */
  lemma ExtrasCarryState(st: FormState)
    ensures FormGet(Extras(st), "mealType") == Some(st.mealType)
    ensures FormGet(Extras(st), "foods") == Some(st.foods)
    ensures FormGet(Extras(st), "workoutType") == Some(st.workoutType)
    ensures FormGet(Extras(st), "duration") == Some(IntString(st.duration))
    ensures FormGet(Extras(st), "intensity") == Some(st.intensity)
  {
    var e4 := [("intensity", st.intensity)];
    var e3 := [("duration", IntString(st.duration))] + e4;
    var e2 := [("workoutType", st.workoutType)] + e3;
    var e1 := [("foods", st.foods)] + e2;
    assert Extras(st) == [("mealType", st.mealType)] + e1;
    var m, f, w, d, i := "mealType", "foods", "workoutType", "duration", "intensity";
    assert m[0] == 'm' && f[0] == 'f' && w[0] == 'w' && d[0] == 'd' && i[0] == 'i';
    GetFirst(e4, i);
    GetFirst(e3, d); GetPast(e3, i);
    GetFirst(e2, w); GetPast(e2, d); GetPast(e2, i);
    GetFirst(e1, f); GetPast(e1, w); GetPast(e1, d); GetPast(e1, i);
    GetFirst(Extras(st), m); GetPast(Extras(st), f); GetPast(Extras(st), w); GetPast(Extras(st), d); GetPast(Extras(st), i);
  }

  lemma GetFirst(form: Entries, name: string)
    requires |form| > 0 && form[0].0 == name
    ensures FormGet(form, name) == Some(form[0].1)
  {
  }

  lemma GetPast(form: Entries, name: string)
    requires |form| > 0 && |form[0].0| > 0 && |name| > 0 && form[0].0[0] != name[0]
    ensures FormGet(form, name) == FormGet(form[1..], name)
  {
  }

  /** Nothing else is appended. */
  lemma ExtrasAddNothingElse(st: FormState, name: string)
    requires name !in {"mealType", "foods", "workoutType", "duration", "intensity"}
    ensures FormGet(Extras(st), name) == None
  {
  }

  /** The value a named control contributes, when the form has one of that
      name: a controlled input carries the state's value. */
  predicate Controlled(collected: Entries, name: string, value: string) {
    FormGet(collected, name).None? || FormGet(collected, name) == Some(value)
  }

  /** The entries the browser collected from the page's form: the hidden
      `logType`, the notes and calories inputs, and possibly the meal controls,
      each holding the state's value. */
  predicate CarriesState(kind: LogKind, st: FormState, collected: Entries) {
    && FormGet(collected, "logType") == Some(KindName(kind))
    && FormGet(collected, "notes") == Some(st.notes)
    && FormGet(collected, "calories") == Some(st.calories)
    && Controlled(collected, "mealType", st.mealType)
    && Controlled(collected, "foods", st.foods)
    && FormGet(collected, "workoutType").None?
    && FormGet(collected, "duration").None?
    && FormGet(collected, "intensity").None?
  }

  /** What `createLog` reads back from the submitted form is the page's state. */
  lemma SentFormCarriesState(kind: LogKind, st: FormState, collected: Entries)
    requires CarriesState(kind, st, collected)
    ensures var sent := collected + Extras(st);
      && LogActions.LogType(sent) == Some(KindName(kind))
      && FormGet(sent, "notes") == Some(st.notes)
      && FormGet(sent, "calories") == Some(st.calories)
      && FormGet(sent, "mealType") == Some(st.mealType)
      && FormGet(sent, "foods") == Some(st.foods)
      && FormGet(sent, "workoutType") == Some(st.workoutType)
      && FormGet(sent, "duration") == Some(IntString(st.duration))
      && FormGet(sent, "intensity") == Some(st.intensity)
  {
    ExtrasCarryState(st);
    ExtrasAddNothingElse(st, "logType");
    ExtrasAddNothingElse(st, "notes");
    ExtrasAddNothingElse(st, "calories");
    FormGetAppend(collected, Extras(st), "logType");
    FormGetAppend(collected, Extras(st), "notes");
    FormGetAppend(collected, Extras(st), "calories");
    FormGetAppend(collected, Extras(st), "mealType");
    FormGetAppend(collected, Extras(st), "foods");
    FormGetAppend(collected, Extras(st), "workoutType");
    FormGetAppend(collected, Extras(st), "duration");
    FormGetAppend(collected, Extras(st), "intensity");
  }

  /** The server's presence checks of a form that holds the page's values. */
  lemma PresenceOfValues(st: FormState, sent: Entries)
    requires FormGet(sent, "notes") == Some(st.notes) && FormGet(sent, "calories") == Some(st.calories)
    requires FormGet(sent, "mealType") == Some(st.mealType) && FormGet(sent, "foods") == Some(st.foods)
    requires FormGet(sent, "workoutType") == Some(st.workoutType)
    requires FormGet(sent, "duration") == Some(IntString(st.duration))
    requires FormGet(sent, "intensity") == Some(st.intensity)
    ensures LogActions.BasicFieldsPresent(sent) <==> Trim(st.notes) != "" && st.calories != ""
    ensures LogActions.MealFieldsPresent(sent) <==> st.mealType != "" && Trim(st.foods) != ""
    ensures LogActions.WorkoutFieldsPresent(sent) <==> st.workoutType != "" && st.intensity != ""
  {
    assert IntString(st.duration) != "";
  }

  /** The page's check and the server's presence checks agree on a meal: the
      form is valid exactly when `createLog` finds its basic and meal fields. */
  lemma MealCheckMatchesServer(st: FormState, collected: Entries)
    requires CarriesState(Meal, st, collected)
    ensures IsFormValid(Meal, st) <==>
      LogActions.BasicFieldsPresent(collected + Extras(st)) && LogActions.MealFieldsPresent(collected + Extras(st))
  {
    SentFormCarriesState(Meal, st, collected);
    PresenceOfValues(st, collected + Extras(st));
  }

  /** The page's check and the server's presence checks agree on a workout
      with an intensity: the form is valid exactly when `createLog` finds its
      basic and workout fields. */
  lemma WorkoutCheckMatchesServer(st: FormState, collected: Entries)
    requires CarriesState(Workout, st, collected)
    ensures IsFormValid(Workout, st) && st.intensity != "" <==>
      LogActions.BasicFieldsPresent(collected + Extras(st)) && LogActions.WorkoutFieldsPresent(collected + Extras(st))
  {
    SentFormCarriesState(Workout, st, collected);
    PresenceOfValues(st, collected + Extras(st));
  }

  /** A duration the slider can give passes the server's duration check. */
  lemma SliderDurationIsValid(kind: LogKind, st: FormState, collected: Entries)
    requires CarriesState(kind, st, collected)
    requires st.duration >= 1
    ensures LogActions.DurationValid(collected + Extras(st))
  {
    SentFormCarriesState(kind, st, collected);
    IntRoundTrip(st.duration);
    assert LogActions.ParsedField(collected + Extras(st), "duration") == Some(st.duration);
  }

  /** A form the page lets through, with calories that read as a number of at
      least zero and, for a workout, an intensity and a positive duration,
      passes every check of `createLog`. */
  lemma ValidFormIsAccepted(kind: LogKind, st: FormState, collected: Entries)
    requires CarriesState(kind, st, collected)
    requires IsFormValid(kind, st)
    requires ParseInt(st.calories).Some? && ParseInt(st.calories).value >= 0
    requires kind == Workout ==> st.intensity != "" && st.duration >= 1
    ensures LogActions.LogFormError(collected + Extras(st)).None?
  {
    var sent := collected + Extras(st);
    if kind == Meal {
      MealCheckMatchesServer(st, collected);
    } else {
      WorkoutCheckMatchesServer(st, collected);
    }
    SentFormCarriesState(kind, st, collected);
    assert LogActions.ParsedField(sent, "calories") == ParseInt(st.calories);
    assert LogActions.CaloriesValid(sent);
    if kind == Workout {
      SliderDurationIsValid(kind, st, collected);
    }
  }

  /** One mounted page. */
  class LogPage {
    const kind: LogKind
    var formData: FormState
    var isSubmitting: bool

    constructor (kind: LogKind)
      ensures this.kind == kind && formData == InitialForm && !isSubmitting
    {
      this.kind := kind;
      formData := InitialForm;
      isSubmitting := false;
    }

    /** `handleInputChange(field)` and `handleSelectChange(field)` called with a value. */
    method SetText(f: TextField, value: string)
      modifies this
      ensures formData == WithText(old(formData), f, value)
      ensures isSubmitting == old(isSubmitting)
    {
      match f {
        case Notes => formData := formData.(notes := value);
        case Calories => formData := formData.(calories := value);
        case MealType => formData := formData.(mealType := value);
        case Foods => formData := formData.(foods := value);
        case WorkoutType => formData := formData.(workoutType := value);
        case Intensity => formData := formData.(intensity := value);
      }
    }

    /** `handleSliderChange('duration')` called with a value. */
    method SetDuration(value: int)
      modifies this
      ensures formData == old(formData).(duration := value)
      ensures isSubmitting == old(isSubmitting)
    {
      formData := formData.(duration := value);
    }

    /** The part of `handleSubmit` before the `await`: the page is marked as
        submitting and the five extra fields are appended to the collected form,
        which `buffer.entries` then holds as `createLog` receives it. */
    method StartSubmit(buffer: FormBuffer)
      modifies this, buffer
      ensures buffer.entries == old(buffer.entries) + Extras(old(formData))
      ensures isSubmitting && formData == old(formData)
    {
      isSubmitting := true;
      buffer.Append("mealType", formData.mealType);
      buffer.Append("foods", formData.foods);
      buffer.Append("workoutType", formData.workoutType);
      buffer.Append("duration", IntString(formData.duration));
      buffer.Append("intensity", formData.intensity);
    }

    /** The part after the `await`, when `createLog` returns. */
    method FinishSubmit()
      modifies this
      ensures !isSubmitting && formData == old(formData)
    {
      isSubmitting := false;
    }
  }
}
