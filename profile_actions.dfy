/** The server actions behind the profile page: reading the profile item
    (`getUserProfile`) and validating and saving the profile form
    (`updateUserProfile`), which creates the item or updates it. */
module ProfileActions {
  import opened Wrappers
  import opened Strings
  import opened Json
  import opened Store
  import opened Forms
  import opened Auth

  const MsgName := "El nombre es requerido."
  const MsgMissing := "Edad, altura y peso son requeridos."
  const MsgAge := "La edad debe estar entre 10 y 120 a\U{00F1}os."
  const MsgHeight := "La altura debe estar entre 100 y 250 cm."
  const MsgWeight := "El peso debe estar entre 30 y 300 kg."
  const MsgGoals := "Los objetivos de fitness son requeridos."

  /** The sort key of the one profile item of a user. */
  const ProfileKey := "PROFILE"

  /** `getUserProfile()`: the profile item, or null without a user, without an
      item, or when the read throws. */
  function GetUserProfile(user: Option<User>, table: seq<Item>, getThrows: bool): (r: Option<Item>)
    ensures r.Some? <==> user.Some? && !getThrows && Lookup(table, UserKey(user.value.userId), ProfileKey).Some?
    ensures r.Some? ==> r.value in table && r.value.pk == UserKey(user.value.userId) && r.value.sk == ProfileKey
  {
    if user.None? || getThrows then None
    else Lookup(table, UserKey(user.value.userId), ProfileKey)
  }

  /** `parseInt` of a field, None for NaN and for a missing field. */
  function Parsed(form: Entries, name: string): Option<int> {
    match FormGet(form, name)
    case None => None
    case Some(s) => ParseInt(s)
  }

  /** The parsed field is a number in [lo, hi]. */
  predicate InRange(form: Entries, name: string, lo: int, hi: int) {
    Parsed(form, name).Some? && lo <= Parsed(form, name).value <= hi
  }

  predicate NumbersPresent(form: Entries) {
    Truthy(FormGet(form, "age")) && Truthy(FormGet(form, "height")) && Truthy(FormGet(form, "weight"))
  }

  /** The message of the first check of `updateUserProfile` that fails, or None:
      name, presence of the numbers, age, height, weight, goals, in that order. */
  function ProfileFormError(form: Entries): (r: Option<string>)
    ensures !FilledIn(FormGet(form, "name")) <==> r == Some(MsgName)
    ensures r == Some(MsgMissing) <==> FilledIn(FormGet(form, "name")) && !NumbersPresent(form)
    ensures r == Some(MsgAge) <==>
              FilledIn(FormGet(form, "name")) && NumbersPresent(form) && !InRange(form, "age", 10, 120)
    ensures r == Some(MsgHeight) <==>
              FilledIn(FormGet(form, "name")) && NumbersPresent(form) && InRange(form, "age", 10, 120)
              && !InRange(form, "height", 100, 250)
    ensures r == Some(MsgWeight) <==>
              FilledIn(FormGet(form, "name")) && NumbersPresent(form) && InRange(form, "age", 10, 120)
              && InRange(form, "height", 100, 250) && !InRange(form, "weight", 30, 300)
    ensures r == Some(MsgGoals) <==>
              FilledIn(FormGet(form, "name")) && NumbersPresent(form) && InRange(form, "age", 10, 120)
              && InRange(form, "height", 100, 250) && InRange(form, "weight", 30, 300)
              && !FilledIn(FormGet(form, "fitnessGoals"))
    ensures r.None? <==>
              FilledIn(FormGet(form, "name")) && NumbersPresent(form) && InRange(form, "age", 10, 120)
              && InRange(form, "height", 100, 250) && InRange(form, "weight", 30, 300)
              && FilledIn(FormGet(form, "fitnessGoals"))
  {
    if !FilledIn(FormGet(form, "name")) then Some(MsgName)
    else if !NumbersPresent(form) then Some(MsgMissing)
    else if !InRange(form, "age", 10, 120) then Some(MsgAge)
    else if !InRange(form, "height", 100, 250) then Some(MsgHeight)
    else if !InRange(form, "weight", 30, 300) then Some(MsgWeight)
    else if !FilledIn(FormGet(form, "fitnessGoals")) then Some(MsgGoals)
    else None
  }

  /** `v || fallback` for a form field. */
  function OrDefault(v: Option<string>, fallback: string): (r: string)
    ensures Truthy(v) ==> r == v.value
    ensures !Truthy(v) ==> r == fallback
  {
    if Truthy(v) then v.value else fallback
  }

  /** The object stored as JSON text in the profile's `notes`; `updatedIso` is
      the ISO text of the current time. */
  function ProfileNotes(form: Entries, updatedIso: string): Value
    requires FilledIn(FormGet(form, "name"))
  {
    Obj([("name", Str(Trim(FormGet(form, "name").value))),
         ("activityLevel", Str(OrDefault(FormGet(form, "activityLevel"), "moderate"))),
         ("gender", Str(OrDefault(FormGet(form, "gender"), "not_specified"))),
         ("updatedAt", Str(updatedIso))])
  }

  /** Parsed back, the notes give the trimmed name, the activity level or
      "moderate", the gender or "not_specified", and the time of the update. */
  lemma ProfileNotesReadBack(form: Entries, updatedIso: string, parse: string -> Option<Value>)
    requires FilledIn(FormGet(form, "name")) && ParsesStringified(parse)
    ensures var v := parse(Stringify(ProfileNotes(form, updatedIso)));
            && v.Some?
            && GetString(v.value, "name") == Some(Trim(FormGet(form, "name").value))
            && GetString(v.value, "activityLevel") == Some(OrDefault(FormGet(form, "activityLevel"), "moderate"))
            && GetString(v.value, "gender") == Some(OrDefault(FormGet(form, "gender"), "not_specified"))
            && GetString(v.value, "updatedAt") == Some(updatedIso)
  {
    assert |"name"| == 4 && |"activityLevel"| == 13 && |"gender"| == 6 && |"updatedAt"| == 9;
    StringsReadBack("name", "activityLevel", "gender", "updatedAt", Trim(FormGet(form, "name").value),
                    OrDefault(FormGet(form, "activityLevel"), "moderate"),
                    OrDefault(FormGet(form, "gender"), "not_specified"), updatedIso, parse);
  }

  /** A stringified object of four string members with distinct names parses
      back to an object in which each name gives its string. */
  lemma StringsReadBack(n0: string, n1: string, n2: string, n3: string, s0: string, s1: string, s2: string, s3: string,
                        parse: string -> Option<Value>)
    requires n0 != n1 && n0 != n2 && n0 != n3 && n1 != n2 && n1 != n3 && n2 != n3
    requires ParsesStringified(parse)
    ensures var v := parse(Stringify(Obj([(n0, Str(s0)), (n1, Str(s1)), (n2, Str(s2)), (n3, Str(s3))])));
            && v.Some?
            && GetString(v.value, n0) == Some(s0) && GetString(v.value, n1) == Some(s1)
            && GetString(v.value, n2) == Some(s2) && GetString(v.value, n3) == Some(s3)
  {
    var fs := [(n0, Str(s0)), (n1, Str(s1)), (n2, Str(s2)), (n3, Str(s3))];
    assert parse(Stringify(Obj(fs))) == Some(Obj(fs));
    FourFields(n0, n1, n2, n3, Str(s0), Str(s1), Str(s2), Str(s3));
  }

  /** Each member of a four-member object with distinct names reads back. */
  lemma FourFields(n0: string, n1: string, n2: string, n3: string, x0: Scalar, x1: Scalar, x2: Scalar, x3: Scalar)
    requires n0 != n1 && n0 != n2 && n0 != n3 && n1 != n2 && n1 != n3 && n2 != n3
    ensures var v := Obj([(n0, x0), (n1, x1), (n2, x2), (n3, x3)]);
            Get(v, n0) == Some(x0) && Get(v, n1) == Some(x1) && Get(v, n2) == Some(x2) && Get(v, n3) == Some(x3)
  {
    var fs := [(n0, x0), (n1, x1), (n2, x2), (n3, x3)];
    var f3, f2, f1 := fs[..3], fs[..2], fs[..1];
    assert fs[..|fs| - 1] == f3 && f3[..|f3| - 1] == f2 && f2[..|f2| - 1] == f1;
    assert LastField(f1, n0) == Some(x0);
    assert LastField(f2, n0) == Some(x0) && LastField(f2, n1) == Some(x1);
    assert LastField(f3, n0) == Some(x0) && LastField(f3, n1) == Some(x1) && LastField(f3, n2) == Some(x2);
  }

  /** The profile item `updateUserProfile` writes for a valid form. */
  function ProfileItem(user: User, form: Entries, now: int, updatedIso: string): (it: Item)
    requires ProfileFormError(form).None?
    ensures it.pk == UserKey(user.userId) && it.sk == ProfileKey && it.kind == Some("PROFILE")
    ensures it.age == Parsed(form, "age") && it.height == Parsed(form, "height") && it.weight == Parsed(form, "weight")
    ensures it.fitnessGoals == FormGet(form, "fitnessGoals")
    ensures it.email == Some(OrDefault(user.loginId, ""))
    ensures it.notes == Some(Stringify(ProfileNotes(form, updatedIso)))
  {
    NewItem(UserKey(user.userId), ProfileKey, user.userId, "PROFILE", now)
      .(email := Some(OrDefault(user.loginId, "")),
        age := Parsed(form, "age"), height := Parsed(form, "height"), weight := Parsed(form, "weight"),
        fitnessGoals := FormGet(form, "fitnessGoals"),
        notes := Some(Stringify(ProfileNotes(form, updatedIso))))
  }

  /** Where `updateUserProfile` sends the browser. */
  datatype ProfileOutcome = SignUp | Saved | Failed(message: string)

  /** The writes sent to the store, in order, and where the browser goes. */
  datatype UpdateResult = UpdateResult(writes: seq<Write>, outcome: ProfileOutcome)

  /** `updateUserProfile(formData)`: `getThrows` says whether reading the
      existing profile throws, `reply` is the store's reply to the write. */
  function UpdateUserProfile(user: Option<User>, form: Entries, table: seq<Item>, getThrows: bool,
                             now: int, updatedIso: string, reply: Reply): (r: UpdateResult)
    ensures user.None? ==> r == UpdateResult([], SignUp)
    ensures user.Some? && ProfileFormError(form).Some? ==>
              r == UpdateResult([], Failed(ProfileFormError(form).value))
    ensures |r.writes| <= 1
    ensures |r.writes| == 1 <==> user.Some? && ProfileFormError(form).None?
    ensures user.Some? && ProfileFormError(form).None? ==>
              && |r.writes| == 1 && !r.writes[0].Delete?
              && r.writes[0].item == ProfileItem(user.value, form, now, updatedIso)
    ensures |r.writes| == 1 ==>
              && (r.writes[0].Update? <==> GetUserProfile(user, table, getThrows).Some?)
              && (r.writes[0].Create? <==> GetUserProfile(user, table, getThrows).None?)
              && r.outcome == if reply.Threw? then Failed(reply.message) else Saved
  {
    match user
    case None => UpdateResult([], SignUp)
    case Some(u) =>
      match ProfileFormError(form)
      case Some(msg) => UpdateResult([], Failed(msg))
      case None =>
        var item := ProfileItem(u, form, now, updatedIso);
        var w := if GetUserProfile(user, table, getThrows).Some? then Update(item) else Create(item);
        UpdateResult([w], if reply.Threw? then Failed(reply.message) else Saved)
  }

  /** After a successful save, reading the profile gives back the age, height,
      weight and goals of the form. */
  lemma SavedProfileReadsBack(user: User, form: Entries, table: seq<Item>, now: int, updatedIso: string)
    requires ProfileFormError(form).None?
    ensures var r := UpdateUserProfile(Some(user), form, table, false, now, updatedIso, Done);
            var p := GetUserProfile(Some(user), Apply(table, r.writes[0], Done), false);
            && p.Some?
            && p.value.age == Parsed(form, "age") && p.value.height == Parsed(form, "height")
            && p.value.weight == Parsed(form, "weight") && p.value.fitnessGoals == FormGet(form, "fitnessGoals")
            && p.value.notes == Some(Stringify(ProfileNotes(form, updatedIso)))
  {
    var r := UpdateUserProfile(Some(user), form, table, false, now, updatedIso, Done);
    WriteThenLookup(table, r.writes[0]);
  }
}
