/** The few JavaScript value rules the site's components lean on: `undefined`
    as an absent option, truthiness of strings, the `a || b` default, the
    `startsWith` test, lower-casing and the `\s` character class. */
module Js {

  /** `None` is JavaScript's `undefined` (a prop or key that was not given). */
  datatype Option<+T> = None | Some(value: T)

  /** A string-valued prop is truthy when it is given and not the empty string. */
  predicate Truthy(x: Option<string>) {
    x.Some? && x.value != ""
  }

  /** `x || fallback` for a string-valued prop. */
  function OrElse(x: Option<string>, fallback: string): (r: string)
    ensures Truthy(x) ==> r == x.value
    ensures !Truthy(x) ==> r == fallback
  {
    if Truthy(x) then x.value else fallback
  }

  /** A destructuring default (`{ p = d }`): applies only when the prop is undefined. */
  function Default<T>(x: Option<T>, d: T): (r: T)
    ensures x.None? ==> r == d
    ensures x.Some? ==> r == x.value
  {
    match x
    case None => d
    case Some(v) => v
  }

  /** `s.startsWith(p)`. */
  predicate StartsWith(s: string, p: string) {
    |p| <= |s| && s[..|p|] == p
  }

  predicate IsUpperAscii(c: char) {
    'A' <= c <= 'Z'
  }

  function LowerChar(c: char): (r: char)
    ensures !IsUpperAscii(r)
    ensures !IsUpperAscii(c) ==> r == c
    ensures IsUpperAscii(c) ==> r as int == c as int + 32
  {
    if IsUpperAscii(c) then (c as int + 32) as char else c
  }

  /** `s.toLowerCase()`, restricted to the ASCII letters. */
  function ToLower(s: string): (r: string)
    ensures |r| == |s|
    ensures forall i :: 0 <= i < |s| ==> r[i] == LowerChar(s[i])
  {
    if s == [] then [] else [LowerChar(s[0])] + ToLower(s[1..])
  }

  /** Lower-casing twice is lower-casing once. */
  lemma {:induction false} ToLowerIdempotent(s: string)
    ensures ToLower(ToLower(s)) == ToLower(s)
  {
    if s != [] {
      ToLowerIdempotent(s[1..]);
    }
  }

  /** The characters JavaScript's regular-expression class `\s` matches. */
  predicate IsSpace(c: char) {
    || c == ' ' || c == '\t' || c == '\n' || c == '\r'
    || c == '\U{000B}' || c == '\U{000C}' || c == '\U{00A0}' || c == '\U{1680}'
    || ('\U{2000}' <= c <= '\U{200A}')
    || c == '\U{2028}' || c == '\U{2029}' || c == '\U{202F}' || c == '\U{205F}'
    || c == '\U{3000}' || c == '\U{FEFF}'
  }

  /** React's rule for `useEffect`: an effect runs after a commit when a dependency
      differs (by `Object.is`) from its value at the effect's previous run, and
      always on mount (`None`). */
  predicate EffectRuns<D(==)>(last: Option<D>, now: D) {
    last != Some(now)
  }
}
