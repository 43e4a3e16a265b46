/** The translation hook: a dotted key looked up in the current language's
    translation tree, the key itself while loading or when nothing is found,
    and `{{name}}` placeholders filled in from the parameters. */
module Translation {
  import opened Wrappers
  import opened Strings
  import opened LanguageContext

  /** A translation file: texts, and sections of named members. */
  datatype Node = Text(text: string) | Section(members: seq<(string, Node)>)

  /** `section[key]`: the last member of that name, as `JSON.parse` keeps the
      last of duplicate keys; None is `undefined`. */
  function Member(members: seq<(string, Node)>, key: string): (r: Option<Node>)
    ensures r.Some? ==> exists i :: 0 <= i < |members| && members[i] == (key, r.value)
    ensures r.None? <==> forall i :: 0 <= i < |members| ==> members[i].0 != key
    decreases |members|
  {
    if |members| == 0 then None
    else if members[|members| - 1].0 == key then Some(members[|members| - 1].1)
    else Member(members[..|members| - 1], key)
  }

  /** One step of the `reduce` in `getNestedValue`: null stays null, an empty
      text is falsy and gives null, a member of a section is looked up, and a
      member of a non-empty text is taken as missing. */
  function Step(current: Option<Node>, key: string): Option<Node> {
    match current
    case None => None
    case Some(Text(_)) => None
    case Some(Section(ms)) => Member(ms, key)
  }

  /** The `reduce` over the path segments, from the first. */
  function Walk(current: Option<Node>, path: seq<string>): Option<Node>
    decreases |path|
  {
    if |path| == 0 then current else Walk(Step(current, path[0]), path[1..])
  }

  /** `getNestedValue(obj, path)`: the path split on '.' and walked from obj. */
  function GetNestedValue(obj: Node, path: string): Option<Node> {
    Walk(Some(obj), Split(path, '.'))
  }

  /** Walking a path walks its first part, then the rest from there. */
  lemma {:induction false} WalkAppend(current: Option<Node>, a: seq<string>, b: seq<string>)
    ensures Walk(current, a + b) == Walk(Walk(current, a), b)
    decreases |a|
  {
    if |a| > 0 {
      assert (a + b)[0] == a[0];
      assert (a + b)[1..] == a[1..] + b;
      WalkAppend(Step(current, a[0]), a[1..], b);
    } else {
      assert a + b == b;
    }
  }

  /** Once null, the walk stays null. */
  lemma {:induction false} WalkFromNull(path: seq<string>)
    ensures Walk(None, path) == None
    decreases |path|
  {
    if |path| > 0 {
      WalkFromNull(path[1..]);
    }
  }

  /** A segment missing from the section the walk has reached makes the whole lookup null. */
  lemma MissingSegmentYieldsNull(obj: Node, path: seq<string>, i: nat, members: seq<(string, Node)>)
    requires i < |path|
    requires Walk(Some(obj), path[..i]) == Some(Section(members))
    requires Member(members, path[i]) == None
    ensures Walk(Some(obj), path) == None
  {
    assert path == path[..i] + path[i..];
    WalkAppend(Some(obj), path[..i], path[i..]);
    assert path[i..][1..] == path[i + 1..];
    WalkFromNull(path[i + 1..]);
  }

  /** A dotted key is the path of its segments. */
  lemma DottedKeyFollowsPath(obj: Node, path: seq<string>)
    requires |path| > 0
    requires forall i :: 0 <= i < |path| ==> '.' !in path[i]
    ensures GetNestedValue(obj, Join(path, ".")) == Walk(Some(obj), path)
  {
    SplitJoin(path, '.');
  }

  /** A parameter value: `String(value)` of a string or an integer. */
  datatype ParamValue = Chars(s: string) | Number(n: int)

  function ParamText(v: ParamValue): string {
    match v
    case Chars(s) => s
    case Number(n) => IntString(n)
  }

  /** The text a parameter replaces. */
  function Placeholder(name: string): (r: string)
    ensures |r| == |name| + 4
  {
    "{{" + name + "}}"
  }

  /** The interpolation `reduce`: each parameter in turn replaces every
      occurrence of its placeholder in the text so far. */
  function Interpolate(text: string, params: seq<(string, ParamValue)>): string
    decreases |params|
  {
    if |params| == 0 then text
    else Interpolate(ReplaceAll(text, Placeholder(params[0].0), ParamText(params[0].1)), params[1..])
  }

  /** A text without any of the parameters' placeholders comes out unchanged. */
  lemma {:induction false} InterpolateWithoutPlaceholders(text: string, params: seq<(string, ParamValue)>)
    requires forall i :: 0 <= i < |params| ==> !Includes(text, Placeholder(params[i].0))
    ensures Interpolate(text, params) == text
    decreases |params|
  {
    if |params| > 0 {
      ReplaceAllAbsent(text, Placeholder(params[0].0), ParamText(params[0].1));
      InterpolateWithoutPlaceholders(text, params[1..]);
    }
  }

  /** A placeholder that occurs once in the text is replaced by the parameter's value. */
  lemma SubstitutesPlaceholder(before: string, name: string, after: string, v: ParamValue)
    requires forall k: nat :: k < |before| ==> !OccursAt(before + Placeholder(name) + after, Placeholder(name), k)
    requires !Includes(after, Placeholder(name))
    ensures Interpolate(before + Placeholder(name) + after, [(name, v)]) == before + ParamText(v) + after
  {
    var pat := Placeholder(name);
    var s := before + pat + after;
    assert s[|before|..|before| + |pat|] == pat;
    IndexOfIsLeast(s, pat, |before|);
    assert s[..|before|] == before;
    assert s[|before| + |pat|..] == after;
    ReplaceAllAbsent(after, pat, ParamText(v));
  }

  /** What `t` gives back: a text, the section object itself when the key names
      a section, or the `TypeError` of calling `replace` on that object. */
  datatype Translated = Rendered(text: string) | Subtree(node: Node) | Thrown

  /** `t(key, params)` in a language, with `translations` the loaded files. */
  function T(translations: Language -> Node, language: Language, isLoading: bool,
             key: string, params: Option<seq<(string, ParamValue)>>): Translated
  {
    if isLoading then Rendered(key)
    else
      match GetNestedValue(translations(language), key)
      case None => Rendered(key)
      case Some(Text(s)) =>
        if s == "" then Rendered(key)
        else if params.None? then Rendered(s)
        else Rendered(Interpolate(s, params.value))
      case Some(Section(ms)) =>
        if params.None? || |params.value| == 0 then Subtree(Section(ms)) else Thrown
  }

  /** The key comes back while loading and when the key names no non-empty text. */
  lemma KeyWhenLoadingOrMissing(translations: Language -> Node, language: Language, isLoading: bool,
                                key: string, params: Option<seq<(string, ParamValue)>>)
    ensures isLoading ==> T(translations, language, isLoading, key, params) == Rendered(key)
    ensures GetNestedValue(translations(language), key) in {None, Some(Text(""))} ==>
      T(translations, language, isLoading, key, params) == Rendered(key)
  {
  }

  /** A dotted key naming a non-empty text translates to that text without
      parameters, and to the text with its placeholders filled in with them. */
  lemma TranslatesPath(translations: Language -> Node, language: Language, path: seq<string>, text: string,
                       params: Option<seq<(string, ParamValue)>>)
    requires |path| > 0
    requires forall i :: 0 <= i < |path| ==> '.' !in path[i]
    requires Walk(Some(translations(language)), path) == Some(Text(text)) && text != ""
    ensures params.None? ==> T(translations, language, false, Join(path, "."), params) == Rendered(text)
    ensures params.Some? ==> T(translations, language, false, Join(path, "."), params) == Rendered(Interpolate(text, params.value))
  {
    DottedKeyFollowsPath(translations(language), path);
  }

  datatype LanguageOption = LanguageOption(code: Language, name: string, flag: string)

  /** `availableLanguages`: Spanish first, then English. */
  function AvailableLanguages(): (r: seq<LanguageOption>)
    ensures |r| == 2 && r[0].code == Es && r[1].code == En
  {
    [LanguageOption(Es, "Espa\U{00F1}ol", "\U{1F1F2}\U{1F1FD}"),
     LanguageOption(En, "English", "\U{1F1FA}\U{1F1F8}")]
  }

  /** Every language is offered exactly once. */
  lemma EveryLanguageOfferedOnce(l: Language)
    ensures exists i :: 0 <= i < |AvailableLanguages()| && AvailableLanguages()[i].code == l
    ensures forall i, j :: 0 <= i < j < |AvailableLanguages()| ==> AvailableLanguages()[i].code != AvailableLanguages()[j].code
  {
    if l == Es {
      assert AvailableLanguages()[0].code == l;
    } else {
      assert AvailableLanguages()[1].code == l;
    }
  }
}
