/** The browser's `FormData`: a list of name/value entries in the order they
    were added, read back with `get`. */
module Forms {
  import opened Wrappers
  import opened Strings

  type Entries = seq<(string, string)>

  /** `formData.get(name)`: the first value added under `name`, or null. */
  function FormGet(form: Entries, name: string): (r: Option<string>)
    ensures r.None? <==> forall i :: 0 <= i < |form| ==> form[i].0 != name
    ensures r.Some? ==> exists i :: 0 <= i < |form| && form[i] == (name, r.value) &&
                          forall j :: 0 <= j < i ==> form[j].0 != name
  {
    if |form| == 0 then None
    else if form[0].0 == name then Some(form[0].1)
    else
      var r := FormGet(form[1..], name);
      FirstEntryShift(form, name, r);
      r
  }

  lemma FirstEntryShift(form: Entries, name: string, r: Option<string>)
    requires |form| > 0 && form[0].0 != name
    requires r.Some? ==> exists i :: 0 <= i < |form[1..]| && form[1..][i] == (name, r.value) &&
                           forall j :: 0 <= j < i ==> form[1..][j].0 != name
    ensures r.Some? ==> exists i :: 0 <= i < |form| && form[i] == (name, r.value) &&
                          forall j :: 0 <= j < i ==> form[j].0 != name
  {
    if r.Some? {
      var i :| 0 <= i < |form[1..]| && form[1..][i] == (name, r.value) &&
               forall j :: 0 <= j < i ==> form[1..][j].0 != name;
      assert form[i + 1] == (name, r.value);
      assert forall j :: 0 <= j < i + 1 ==> form[j].0 != name by {
        forall j | 0 <= j < i + 1 ensures form[j].0 != name {
          if j > 0 { assert form[j] == form[1..][j - 1]; }
        }
      }
    }
  }

  /** Appending entries never changes what `get` returns for a name already present. */
  lemma {:induction false} FormGetAppend(form: Entries, more: Entries, name: string)
    ensures FormGet(form + more, name) == if FormGet(form, name).Some? then FormGet(form, name) else FormGet(more, name)
    decreases |form|
  {
    if |form| > 0 {
      assert (form + more)[0] == form[0];
      assert (form + more)[1..] == form[1..] + more;
      FormGetAppend(form[1..], more, name);
    } else {
      assert form + more == more;
    }
  }

  /** JavaScript truthiness of a value that is a string or null: neither null nor "". */
  predicate Truthy(v: Option<string>) {
    v.Some? && v.value != ""
  }

  /** `v?.trim()` is truthy: v is present and not blank. */
  predicate FilledIn(v: Option<string>) {
    v.Some? && Trim(v.value) != ""
  }

  /** A `FormData` object built on the client: the entries the browser
      collected from the form's named controls, then whatever the handler appends. */
  class FormBuffer {
    var entries: Entries

    constructor (collected: Entries)
      ensures entries == collected
    {
      entries := collected;
    }

    /** `formData.append(name, value)` */
    method Append(name: string, value: string)
      modifies this
      ensures entries == old(entries) + [(name, value)]
    {
      entries := entries + [(name, value)];
    }
  }
}
