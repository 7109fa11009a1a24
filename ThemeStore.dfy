/** The `useLocalStorage` hook of src/App.jsx: a value kept in memory and
    mirrored, as JSON text, under one key of the browser's local storage.
    Reads fall back to the initial value; a failed write still updates memory. */
module ThemeStore {
  import opened Js

  /** The JSON values `JSON.parse` can hand back for the stored text, as far as
      this model distinguishes them (numbers, arrays and objects are left out). */
  datatype Json = JString(s: string) | JBool(b: bool) | JNull

  /** The storage key the shell uses. */
  const ThemeKey: string := "theme"

  /** The shell's initial theme, `'dark'`. */
  const Dark: Json := JString("dark")
  const Light: Json := JString("light")

  /** What `String(v)` gives when a theme value is written into an attribute or a class name. */
  function JsString(v: Json): (r: string) {
    match v
    case JString(s) => s
    case JBool(b) => if b then "true" else "false"
    case JNull => "null"
  }

  /** The body of a JSON string literal: `"` and `\` are escaped with a backslash. */
  function Escape(s: string): (r: string)
    ensures |r| >= |s|
  {
    if s == [] then []
    else (if s[0] == '"' || s[0] == '\\' then ['\\', s[0]] else [s[0]]) + Escape(s[1..])
  }

  /** Reads back the body of a JSON string literal; `None` on a bare quote or a bad escape. */
  function Unescape(body: string): (r: Option<string>)
    decreases |body|
  {
    if body == [] then Some([])
    else if body[0] == '"' then None
    else if body[0] == '\\' then
      if |body| >= 2 && (body[1] == '"' || body[1] == '\\') then
        match Unescape(body[2..])
        case None => None
        case Some(rest) => Some([body[1]] + rest)
      else None
    else
      match Unescape(body[1..])
      case None => None
      case Some(rest) => Some([body[0]] + rest)
  }

  /** `JSON.stringify(v)`. */
  function Stringify(v: Json): (r: string) {
    match v
    case JString(s) => "\"" + Escape(s) + "\""
    case JBool(b) => if b then "true" else "false"
    case JNull => "null"
  }

  /** `JSON.parse(text)`: `None` stands for the `SyntaxError` it throws. */
  function Parse(text: string): (r: Option<Json>) {
    if text == "true" then Some(JBool(true))
    else if text == "false" then Some(JBool(false))
    else if text == "null" then Some(JNull)
    else if |text| >= 2 && text[0] == '"' && text[|text| - 1] == '"' then
      match Unescape(text[1..|text| - 1])
      case None => None
      case Some(s) => Some(JString(s))
    else None
  }

  lemma {:induction false} UnescapeEscape(s: string)
    ensures Unescape(Escape(s)) == Some(s)
  {
    if s != [] {
      UnescapeEscape(s[1..]);
      var e := Escape(s);
      if s[0] == '"' || s[0] == '\\' {
        assert e == ['\\', s[0]] + Escape(s[1..]);
        assert e[2..] == Escape(s[1..]);
        assert [s[0]] + s[1..] == s;
      } else {
        assert e == [s[0]] + Escape(s[1..]);
        assert e[1..] == Escape(s[1..]);
        assert [s[0]] + s[1..] == s;
      }
    }
  }

  /** Parsing what was stringified gives the value back. */
  lemma ParseStringify(v: Json)
    ensures Parse(Stringify(v)) == Some(v)
  {
    if v.JString? {
      var t := Stringify(v);
      UnescapeEscape(v.s);
      assert t[1..|t| - 1] == Escape(v.s);
    }
  }

  /** The text `"undefined"` is not JSON. */
  lemma ParseUndefined()
    ensures Parse("undefined") == None
  {
    assert "undefined"[0] != '"';
  }

  /** The initial read of `useLocalStorage(key, initial)`: `item` is what
      `getItem` returned (`None` for null), `hasWindow` whether a window exists
      and `getThrows` whether `getItem` threw. */
  function ReadStored(item: Option<string>, hasWindow: bool, getThrows: bool, initial: Json): (r: Json)
    ensures !hasWindow || getThrows || !Truthy(item) ==> r == initial
    ensures hasWindow && !getThrows && Truthy(item) && Parse(item.value).None? ==> r == initial
    ensures hasWindow && !getThrows && Truthy(item) && Parse(item.value).Some? ==> r == Parse(item.value).value
  {
    if !hasWindow || getThrows || !Truthy(item) then initial
    else
      match Parse(item.value)
      case None => initial
      case Some(v) => v
  }

  /** What a caller hands to the hook's `setValue`: a value, or an updater
      function (React's `setState` applies the updater to the previous value). */
  datatype SetArg = Value(v: Json) | Updater(f: Json -> Json)

  /** The value `setStoredValue(arg)` leaves in memory. */
  function NextValue(arg: SetArg, prev: Json): (r: Json) {
    match arg
    case Value(v) => v
    case Updater(f) => f(prev)
  }

  /** The text `setItem(key, JSON.stringify(arg))` stores: `JSON.stringify` of a
      function is `undefined`, which `setItem` turns into the text `"undefined"`. */
  function WrittenText(arg: SetArg): (r: string) {
    match arg
    case Value(v) => Stringify(v)
    case Updater(_) => "undefined"
  }

  /** Writing a plain value and reading it back in a fresh session gives the value. */
  lemma WriteValueThenRead(v: Json, initial: Json)
    ensures ReadStored(Some(WrittenText(Value(v))), true, false, initial) == v
  {
    ParseStringify(v);
  }

  /** Writing an updater and reading back gives the initial value, whatever the updater. */
  lemma WriteUpdaterThenRead(f: Json -> Json, initial: Json)
    ensures ReadStored(Some(WrittenText(Updater(f))), true, false, initial) == initial
  {
    ParseUndefined();
  }
}
