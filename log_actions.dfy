/** The server actions behind logging a meal or a workout: validating and
    storing a log (`createLog`), listing a user's logs (`getUserLogs`) and
    the calorie statistics over them (`getUserStats`). */
module LogActions {
  import opened Wrappers
  import opened Strings
  import opened Seqs
  import opened Json
  import opened Store
  import opened Forms
  import opened Auth

  const MsgBasic := "Todos los campos b\U{00E1}sicos son requeridos."
  const MsgMeal := "El tipo de comida y la descripci\U{00F3}n de alimentos son requeridos."
  const MsgWorkout := "El tipo de entrenamiento, duraci\U{00F3}n e intensidad son requeridos."
  const MsgCalories := "Las calor\U{00ED}as deben ser un n\U{00FA}mero positivo."
  const MsgDuration := "La duraci\U{00F3}n debe ser un n\U{00FA}mero positivo."
  /** What `logType.toUpperCase()` throws when the form carries no `logType`. */
  const MsgNoLogType := "Cannot read properties of null (reading 'toUpperCase')"

  function LogType(form: Entries): Option<string> {
    FormGet(form, "logType")
  }

  /** Notes and calories are there: the check every log type goes through first. */
  predicate BasicFieldsPresent(form: Entries) {
    FilledIn(FormGet(form, "notes")) && Truthy(FormGet(form, "calories"))
  }

  predicate MealFieldsPresent(form: Entries) {
    Truthy(FormGet(form, "mealType")) && FilledIn(FormGet(form, "foods"))
  }

  predicate WorkoutFieldsPresent(form: Entries) {
    Truthy(FormGet(form, "workoutType")) && Truthy(FormGet(form, "duration")) && Truthy(FormGet(form, "intensity"))
  }

  /** `parseInt` of a field, None for NaN and for a missing field. */
  function ParsedField(form: Entries, name: string): Option<int> {
    match FormGet(form, name)
    case None => None
    case Some(s) => ParseInt(s)
  }

  predicate CaloriesValid(form: Entries) {
    ParsedField(form, "calories").Some? && ParsedField(form, "calories").value >= 0
  }

  predicate DurationValid(form: Entries) {
    ParsedField(form, "duration").Some? && ParsedField(form, "duration").value >= 1
  }

  /** The message of the first check of `createLog` that fails, or None. */
  function LogFormError(form: Entries): (r: Option<string>)
    ensures r == Some(MsgBasic) <==> !BasicFieldsPresent(form)
    ensures r == Some(MsgMeal) <==>
              BasicFieldsPresent(form) && LogType(form) == Some("meal") && !MealFieldsPresent(form)
    ensures r == Some(MsgWorkout) <==>
              BasicFieldsPresent(form) && LogType(form) == Some("workout") && !WorkoutFieldsPresent(form)
    ensures r == Some(MsgCalories) <==>
              && BasicFieldsPresent(form)
              && (LogType(form) == Some("meal") ==> MealFieldsPresent(form))
              && (LogType(form) == Some("workout") ==> WorkoutFieldsPresent(form))
              && !CaloriesValid(form)
    ensures r == Some(MsgDuration) <==>
              && BasicFieldsPresent(form) && LogType(form) == Some("workout") && WorkoutFieldsPresent(form)
              && CaloriesValid(form) && !DurationValid(form)
    ensures r.None? <==>
              BasicFieldsPresent(form) && CaloriesValid(form)
              && (LogType(form) == Some("meal") ==> MealFieldsPresent(form))
              && (LogType(form) == Some("workout") ==> WorkoutFieldsPresent(form) && DurationValid(form))
  {
    var logType := LogType(form);
    if !BasicFieldsPresent(form) then Some(MsgBasic)
    else if logType == Some("meal") && !MealFieldsPresent(form) then Some(MsgMeal)
    else if logType == Some("workout") && !WorkoutFieldsPresent(form) then Some(MsgWorkout)
    else if !CaloriesValid(form) then Some(MsgCalories)
    else if logType == Some("workout") && !DurationValid(form) then Some(MsgDuration)
    else None
  }

  /** A form field as a JSON member value: its text, or null when it is absent. */
  function FieldValue(form: Entries, name: string): Scalar {
    match FormGet(form, name)
    case None => Null
    case Some(s) => Str(s)
  }

  /** `durationStr ? parseInt(durationStr) : null`, as `JSON.stringify` writes it
      (NaN becomes null). */
  function DurationValue(form: Entries): Scalar {
    if !Truthy(FormGet(form, "duration")) then Null
    else match ParsedField(form, "duration")
      case None => Null
      case Some(d) => Num(d)
  }

  /** The object stored as JSON text in `notes`: the user's notes, then the
      meal fields for a meal and the workout fields for any other type. */
  function StructuredData(form: Entries): (v: Value)
    ensures v.Obj? && |v.fields| >= 3 && v.fields[0] == ("userNotes", FieldValue(form, "notes"))
    ensures LogType(form) == Some("meal") ==>
              v.fields == [("userNotes", FieldValue(form, "notes")),
                           ("mealType", FieldValue(form, "mealType")), ("foods", FieldValue(form, "foods"))]
    ensures LogType(form) != Some("meal") ==>
              v.fields == [("userNotes", FieldValue(form, "notes")), ("workoutType", FieldValue(form, "workoutType")),
                           ("duration", DurationValue(form)), ("intensity", FieldValue(form, "intensity"))]
  {
    var specific :=
      if LogType(form) == Some("meal") then
        [("mealType", FieldValue(form, "mealType")), ("foods", FieldValue(form, "foods"))]
      else
        [("workoutType", FieldValue(form, "workoutType")), ("duration", DurationValue(form)),
         ("intensity", FieldValue(form, "intensity"))];
    Obj([("userNotes", FieldValue(form, "notes"))] + specific)
  }

  /** `${Date.now()}-${Math.random().toString(36).slice(2)}`, the random part given. */
  function LogId(now: int, random: string): string {
    IntString(now) + "-" + random
  }

  /** The item `createLog` asks the store to create. */
  function LogItem(userId: string, logType: string, form: Entries, now: int, random: string, calories: int): (it: Item)
    ensures it.pk == UserKey(userId) && it.sk == "LOG#" + LogId(now, random)
    ensures it.userId == Some(userId) && it.kind == Some(Upper(logType)) && it.timestamp == Some(now)
    ensures it.calories == Some(calories) && it.notes == Some(Stringify(StructuredData(form)))
  {
    NewItem(UserKey(userId), "LOG#" + LogId(now, random), userId, Upper(logType), now)
      .(timestamp := Some(now), notes := Some(Stringify(StructuredData(form))), calories := Some(calories))
  }

  /** Where `createLog` sends the browser: to sign up, back to the form with a
      success message, or back with an error message (the query string's
      percent-encoding is not modelled). */
  datatype LogOutcome = SignUp | Saved(logType: Option<string>) | Failed(logType: Option<string>, message: string)

  /** The item sent to the store, if any, and where the browser goes. */
  datatype CreateResult = CreateResult(write: Option<Item>, outcome: LogOutcome)

  /** `createLog(formData)` at time `now` (ms), with the random part of the id,
      the store's reply to the create call and the user the session yields. */
  function CreateLog(user: Option<User>, form: Entries, now: int, random: string, reply: Reply): (r: CreateResult)
    ensures user.None? ==> r == CreateResult(None, SignUp)
    ensures r.write.Some? <==> user.Some? && LogFormError(form).None? && LogType(form).Some?
    ensures user.Some? && LogFormError(form).Some? ==>
              r == CreateResult(None, Failed(LogType(form), LogFormError(form).value))
    ensures user.Some? && LogFormError(form).None? && LogType(form).None? ==>
              r == CreateResult(None, Failed(None, MsgNoLogType))
    ensures r.write.Some? ==>
              && r.write.value.pk == UserKey(user.value.userId)
              && r.write.value.sk == "LOG#" + LogId(now, random)
              && r.write.value.kind == Some(Upper(LogType(form).value))
              && r.write.value.calories == ParsedField(form, "calories")
              && r.write.value.calories.value >= 0
              && r.write.value.notes == Some(Stringify(StructuredData(form)))
              && r.outcome == (if reply.Threw? then Failed(LogType(form), reply.message) else Saved(LogType(form)))
  {
    match user
    case None => CreateResult(None, SignUp)
    case Some(u) =>
      var logType := LogType(form);
      match LogFormError(form)
      case Some(msg) => CreateResult(None, Failed(logType, msg))
      case None =>
        match logType
        case None => CreateResult(None, Failed(None, MsgNoLogType))
        case Some(t) =>
          var item := LogItem(u.userId, t, form, now, random, ParsedField(form, "calories").value);
          match reply
          case Threw(m) => CreateResult(Some(item), Failed(logType, m))
          case _ => CreateResult(Some(item), Saved(logType))
  }

  /** The sort key of `new Date(log.timestamp).getTime()`. */
  function TimeKey(it: Item): int {
    it.timestamp.GetOr(0)
  }

  predicate IsUserLog(it: Item, userId: string) {
    it.pk == UserKey(userId) && StartsWith(it.sk, "LOG#")
  }

  /** `getUserLogs()`: the user's `LOG#` items, newest first; [] without a
      user or when the list call throws. */
  function GetUserLogs(user: Option<User>, table: seq<Item>, listThrows: bool): (r: seq<Item>)
    ensures user.None? || listThrows ==> r == []
    ensures forall i :: 0 <= i < |r| ==> IsUserLog(r[i], user.value.userId) && r[i] in table
    ensures user.Some? && !listThrows ==>
              multiset(r) == multiset(ListWhere(table, UserKey(user.value.userId), BeginsWith("LOG#")))
    ensures SortedBy(r, TimeKey, true)
  {
    if user.None? || listThrows then []
    else
      var listed := ListWhere(table, UserKey(user.value.userId), BeginsWith("LOG#"));
      var r := SortBy(listed, TimeKey, true);
      forall i | 0 <= i < |r| ensures IsUserLog(r[i], user.value.userId) && r[i] in table {
        assert r[i] in multiset(listed);
      }
      r
  }

  /** A log stored by `createLog` is among the logs `getUserLogs` returns afterwards. */
  lemma CreatedLogIsListed(user: User, form: Entries, now: int, random: string, reply: Reply, table: seq<Item>)
    requires CreateLog(Some(user), form, now, random, reply).write.Some?
    ensures var it := CreateLog(Some(user), form, now, random, reply).write.value;
            it in GetUserLogs(Some(user), table + [it], false)
  {
    var it := CreateLog(Some(user), form, now, random, reply).write.value;
    var t := table + [it];
    assert t[|table|] == it;
    var listed := ListWhere(t, UserKey(user.userId), BeginsWith("LOG#"));
    assert it in listed;
    assert it in multiset(GetUserLogs(Some(user), t, false));
  }

  /** `log.calories || 0` */
  function CaloriesOf(it: Item): int {
    it.calories.GetOr(0)
  }

  predicate IsMeal(it: Item) {
    it.kind == Some("MEAL")
  }

  predicate IsWorkout(it: Item) {
    it.kind == Some("WORKOUT")
  }

  /** The figures `getUserStats` reports for a list of logs. */
  datatype Figures = Figures(meals: nat, workouts: nat, caloriesConsumed: int, caloriesBurned: int)

  datatype Stats = Stats(total: Figures, calorieBalance: int, thisWeek: Figures)

  function FiguresOf(logs: seq<Item>): Figures {
    var meals := Filter(logs, IsMeal);
    var workouts := Filter(logs, IsWorkout);
    Figures(|meals|, |workouts|, Sum(meals, CaloriesOf), Sum(workouts, CaloriesOf))
  }

  const DayMs := 86_400_000

  /** Day of the week of a local instant, Sunday = 0 (1 January 1970 was a Thursday). */
  function DayOfWeek(t: int): (d: int)
    ensures 0 <= d < 7
  {
    (t / DayMs + 4) % 7
  }

  /** `today.setDate(today.getDate() - today.getDay())` as written: the same
      time of day, on the most recent Sunday. This is the start `getUserStats` uses. */
  function StartOfWeekAsWritten(now: int): (s: int)
    ensures s <= now < s + 7 * DayMs
    ensures s % DayMs == now % DayMs && DayOfWeek(s) == 0
  {
    var d := DayOfWeek(now);
    var s := now - d * DayMs;
    assert s / DayMs == now / DayMs - d && s % DayMs == now % DayMs by {
      assert s == (now / DayMs - d) * DayMs + now % DayMs;
    }
    s
  }

  /** Midnight at the start of the most recent Sunday: the start of the week
      as it is evidently meant, and the corrected counterpart of
      `StartOfWeekAsWritten`. */
  function StartOfWeek(now: int): (s: int)
    ensures s <= now < s + 7 * DayMs
    ensures s % DayMs == 0 && DayOfWeek(s) == 0
  {
    (now / DayMs - DayOfWeek(now)) * DayMs
  }

  /** Every instant between the start of the week and now counts as this week. */
  lemma StartOfWeekCoversWeek(now: int, t: int)
    requires StartOfWeek(now) <= t <= now
    ensures t / DayMs - DayOfWeek(t) == now / DayMs - DayOfWeek(now)
  {
    var s := StartOfWeek(now);
    var k := now / DayMs - DayOfWeek(now);
    assert s == k * DayMs;
    var dt := t / DayMs;
    assert k <= dt <= now / DayMs;
    assert (k + 4) % 7 == 0 by {
      assert (now / DayMs + 4) % 7 == DayOfWeek(now);
    }
    assert DayOfWeek(t) == dt - k by {
      assert 0 <= dt - k < 7;
    }
  }

  /** `new Date(log.timestamp!) >= startOfWeek`; a missing timestamp reads
      as null, and `new Date(null)` is the epoch. */
  predicate InWeek(it: Item, start: int) {
    it.timestamp.GetOr(0) >= start
  }

  function WeekLogs(logs: seq<Item>, start: int): seq<Item> {
    Filter(logs, it => InWeek(it, start))
  }

  /** The statistics for a list of logs, with the week starting at `start`. */
  function UserStats(logs: seq<Item>, start: int): (st: Stats)
    ensures st.total == FiguresOf(logs)
    ensures st.calorieBalance == st.total.caloriesConsumed - st.total.caloriesBurned
    ensures st.thisWeek == FiguresOf(WeekLogs(logs, start))
  {
    var total := FiguresOf(logs);
    Stats(total, total.caloriesConsumed - total.caloriesBurned, FiguresOf(WeekLogs(logs, start)))
  }

  /** `getUserStats()` at time `now`, with the week start as the code computes it. */
  function GetUserStats(user: Option<User>, table: seq<Item>, listThrows: bool, now: int): (st: Stats)
    ensures user.None? || listThrows ==> st == Stats(Figures(0, 0, 0, 0), 0, Figures(0, 0, 0, 0))
    ensures user.Some? && !listThrows ==>
              st.total == FiguresOf(ListWhere(table, UserKey(user.value.userId), BeginsWith("LOG#")))
    ensures st.calorieBalance == st.total.caloriesConsumed - st.total.caloriesBurned
    ensures st.thisWeek == FiguresOf(WeekLogs(GetUserLogs(user, table, listThrows), StartOfWeekAsWritten(now)))
  {
    var logs := GetUserLogs(user, table, listThrows);
    var st := UserStats(logs, StartOfWeekAsWritten(now));
    if user.Some? && !listThrows then
      SameFigures(logs, ListWhere(table, UserKey(user.value.userId), BeginsWith("LOG#")));
      st
    else
      st
  }

  /** The figures do not depend on the order of the logs. */
  lemma SameFigures(xs: seq<Item>, ys: seq<Item>)
    requires multiset(xs) == multiset(ys)
    ensures FiguresOf(xs) == FiguresOf(ys)
  {
    FilterPermutation(xs, ys, IsMeal);
    FilterPermutation(xs, ys, IsWorkout);
    SumPermutation(Filter(xs, IsMeal), Filter(ys, IsMeal), CaloriesOf);
    SumPermutation(Filter(xs, IsWorkout), Filter(ys, IsWorkout), CaloriesOf);
    assert |Filter(xs, IsMeal)| == |multiset(Filter(xs, IsMeal))|;
    assert |Filter(ys, IsMeal)| == |multiset(Filter(ys, IsMeal))|;
    assert |Filter(xs, IsWorkout)| == |multiset(Filter(xs, IsWorkout))|;
    assert |Filter(ys, IsWorkout)| == |multiset(Filter(ys, IsWorkout))|;
  }

  /** The week as written starts no earlier than midnight that Sunday, so it
      never holds more meals or workouts than the week that starts at midnight. */
  lemma WrittenWeekWithinIntended(logs: seq<Item>, now: int)
    ensures UserStats(logs, StartOfWeekAsWritten(now)).thisWeek.meals <= UserStats(logs, StartOfWeek(now)).thisWeek.meals
    ensures UserStats(logs, StartOfWeekAsWritten(now)).thisWeek.workouts <= UserStats(logs, StartOfWeek(now)).thisWeek.workouts
  {
    var late := (it: Item) => InWeek(it, StartOfWeekAsWritten(now));
    var early := (it: Item) => InWeek(it, StartOfWeek(now));
    assert StartOfWeek(now) <= StartOfWeekAsWritten(now);
    FilterCommutes(logs, late, IsMeal);
    FilterCommutes(logs, late, IsWorkout);
    FilterCommutes(logs, early, IsMeal);
    FilterCommutes(logs, early, IsWorkout);
    FilterStricter(Filter(logs, IsMeal), late, early);
    FilterStricter(Filter(logs, IsWorkout), late, early);
  }

  /** This week's counts never exceed the totals, nor, when no log carries
      negative calories, do this week's calorie sums. */
  lemma WeekWithinTotal(logs: seq<Item>, start: int)
    ensures UserStats(logs, start).thisWeek.meals <= UserStats(logs, start).total.meals
    ensures UserStats(logs, start).thisWeek.workouts <= UserStats(logs, start).total.workouts
    ensures (forall i :: 0 <= i < |logs| ==> CaloriesOf(logs[i]) >= 0) ==>
              && 0 <= UserStats(logs, start).thisWeek.caloriesConsumed <= UserStats(logs, start).total.caloriesConsumed
              && 0 <= UserStats(logs, start).thisWeek.caloriesBurned <= UserStats(logs, start).total.caloriesBurned
  {
    var inWeek := it => InWeek(it, start);
    FilterCommutes(logs, inWeek, IsMeal);
    FilterCommutes(logs, inWeek, IsWorkout);
    var meals := Filter(logs, IsMeal);
    var workouts := Filter(logs, IsWorkout);
    if forall i :: 0 <= i < |logs| ==> CaloriesOf(logs[i]) >= 0 {
      forall i | 0 <= i < |meals| ensures CaloriesOf(meals[i]) >= 0 {
        var j :| 0 <= j < |logs| && logs[j] == meals[i];
      }
      forall i | 0 <= i < |workouts| ensures CaloriesOf(workouts[i]) >= 0 {
        var j :| 0 <= j < |logs| && logs[j] == workouts[i];
      }
      SumFilterBound(meals, inWeek, CaloriesOf);
      SumFilterBound(workouts, inWeek, CaloriesOf);
    }
  }

  /** A new meal adds one meal and its calories to the totals, and nothing to the workouts. */
  lemma {:induction false} AddingMealLog(it: Item, logs: seq<Item>, start: int)
    requires IsMeal(it)
    ensures UserStats([it] + logs, start).total ==
              UserStats(logs, start).total.(meals := UserStats(logs, start).total.meals + 1,
                                          caloriesConsumed := UserStats(logs, start).total.caloriesConsumed + CaloriesOf(it))
  {
    assert ([it] + logs)[1..] == logs;
  }

  /** On a Sunday at noon, a log written that morning falls outside the week as
      the code computes it, and inside the week that starts at midnight. */
  lemma SundayMorningLogMissed()
    ensures var now := 3 * DayMs + 12 * 3_600_000;
            var log := NewItem(UserKey("u"), "LOG#1", "u", "MEAL", 3 * DayMs + 9 * 3_600_000)
                         .(timestamp := Some(3 * DayMs + 9 * 3_600_000));
            && DayOfWeek(now) == 0
            && !InWeek(log, StartOfWeekAsWritten(now))
            && InWeek(log, StartOfWeek(now))
  {
  }
}
