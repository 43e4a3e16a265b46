/** The JSON values the application writes into the `notes` attribute and
    reads back: flat objects of strings, integers and nulls. `JSON.stringify`
    is written out; `JSON.parse` is a parameter of the code that calls it. */
module Json {
  import opened Wrappers
  import opened Strings

  datatype Scalar = Null | Num(n: int) | Str(s: string)

  /** What `JSON.parse` may return, as far as the application looks into it:
      a scalar, a flat object, or anything else (arrays, booleans, nesting). */
  datatype Value = Scalar(scalar: Scalar) | Obj(fields: seq<(string, Scalar)>) | Other

  /** The hexadecimal digit for 0 <= d < 16, lower case as `JSON.stringify` writes it. */
  function HexDigit(d: nat): char
    requires d < 16
  {
    if d < 10 then ('0' as int + d) as char else ('a' as int + d - 10) as char
  }

  /** One character of a JSON string literal, escaped as `JSON.stringify` escapes it. */
  function EscapeChar(c: char): (r: string)
    ensures |r| >= 1
    ensures c != '"' && c != '\\' && c >= ' ' ==> r == [c]
  {
    if c == '"' then "\\\""
    else if c == '\\' then "\\\\"
    else if c == '\U{0008}' then "\\b"
    else if c == '\U{000C}' then "\\f"
    else if c == '\n' then "\\n"
    else if c == '\r' then "\\r"
    else if c == '\t' then "\\t"
    else if c < ' ' then "\\u00" + [HexDigit(c as int / 16), HexDigit(c as int % 16)]
    else [c]
  }

  function EscapeAll(s: string): string {
    if |s| == 0 then "" else EscapeChar(s[0]) + EscapeAll(s[1..])
  }

  /** `JSON.stringify(s)` for a string s: the escaped text between double quotes. */
  function Quote(s: string): (r: string)
    ensures |r| >= 2 && r[0] == '"' && r[|r| - 1] == '"'
  {
    "\"" + EscapeAll(s) + "\""
  }

  function StringifyScalar(x: Scalar): string {
    match x
    case Null => "null"
    case Num(n) => IntString(n)
    case Str(s) => Quote(s)
  }

  function StringifyFields(fs: seq<(string, Scalar)>): string {
    if |fs| == 0 then ""
    else
      var member := Quote(fs[0].0) + ":" + StringifyScalar(fs[0].1);
      if |fs| == 1 then member else member + "," + StringifyFields(fs[1..])
  }

  /** `JSON.stringify(v)` without indentation. */
  function Stringify(v: Value): string {
    match v
    case Scalar(x) => StringifyScalar(x)
    case Obj(fs) => "{" + StringifyFields(fs) + "}"
    case Other => "null"
  }

  /** `v[name]`: the value of the last member called `name`, as the object
      `JSON.parse` builds keeps the last of duplicate keys; None is `undefined`. */
  function Get(v: Value, name: string): (r: Option<Scalar>)
    ensures r.Some? ==> v.Obj? && exists i :: 0 <= i < |v.fields| && v.fields[i] == (name, r.value)
    ensures v.Obj? && (exists i :: 0 <= i < |v.fields| && v.fields[i].0 == name) ==> r.Some?
  {
    if v.Obj? then LastField(v.fields, name) else None
  }

  function LastField(fs: seq<(string, Scalar)>, name: string): (r: Option<Scalar>)
    ensures r.Some? ==> exists i :: 0 <= i < |fs| && fs[i] == (name, r.value)
    ensures r.None? <==> forall i :: 0 <= i < |fs| ==> fs[i].0 != name
  {
    if |fs| == 0 then None
    else if fs[|fs| - 1].0 == name then Some(fs[|fs| - 1].1)
    else LastField(fs[..|fs| - 1], name)
  }

  /** A string-valued member of a parsed object, or None when it is missing or not a string. */
  function GetString(v: Value, name: string): Option<string> {
    match Get(v, name)
    case Some(Str(s)) => Some(s)
    case _ => None
  }

  /** `JSON.parse` as the application relies on it: whatever it returns for the
      text of a flat object is that object. */
  ghost predicate ParsesStringified(parse: string -> Option<Value>) {
    forall fs: seq<(string, Scalar)> :: parse(Stringify(Obj(fs))) == Some(Obj(fs))
  }
}
