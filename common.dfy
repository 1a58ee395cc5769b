/** Small value types and string helpers shared by the conversation model and the
    car screen: an optional value (Kotlin's nullable types), ASCII case mapping
    (Kotlin's `uppercase()` / `lowercase()` restricted to ASCII) and `joinToString`. */
module Common {

  /** A Kotlin nullable value: `None` is `null`. */
  datatype Option<T> = None | Some(value: T) {
    /** Kotlin's `?:` (elvis) operator. */
    function GetOr(default: T): T {
      if Some? then value else default
    }
  }

  /** The zero- or one-element sequence holding a nullable value, as `?.let { add(it) }` builds it. */
  function Present<T>(o: Option<T>): seq<T> {
    if o.Some? then [o.value] else []
  }

  /** Kotlin's `ifEmpty { null }` on a string. */
  function NullIfEmpty(s: string): Option<string> {
    if s == "" then None else Some(s)
  }

  function UpperChar(c: char): char {
    if 'a' <= c <= 'z' then (c as int - 32) as char else c
  }

  function LowerChar(c: char): char {
    if 'A' <= c <= 'Z' then (c as int + 32) as char else c
  }

  /** `String.uppercase()`, on the ASCII letters. */
  function Upper(s: string): (r: string)
    ensures |r| == |s|
    ensures forall i :: 0 <= i < |s| ==> r[i] == UpperChar(s[i])
  {
    if s == [] then [] else [UpperChar(s[0])] + Upper(s[1..])
  }

  /** `String.lowercase()`, on the ASCII letters. */
  function Lower(s: string): (r: string)
    ensures |r| == |s|
    ensures forall i :: 0 <= i < |s| ==> r[i] == LowerChar(s[i])
  {
    if s == [] then [] else [LowerChar(s[0])] + Lower(s[1..])
  }

  /** Lower-casing twice is lower-casing once, so a table keyed on lower-case
      commands treats every spelling of a command alike. */
  lemma LowerIdempotent(s: string)
    ensures Lower(Lower(s)) == Lower(s)
  {
    assert forall i :: 0 <= i < |s| ==> LowerChar(LowerChar(s[i])) == LowerChar(s[i]);
  }

  /** `replaceFirstChar { it.uppercase() }`. */
  function CapitalizeFirst(s: string): string {
    if s == "" then "" else [UpperChar(s[0])] + s[1..]
  }

  /** `joinToString(sep)`: the parts in order, with `sep` between neighbours. */
  function Join(sep: string, parts: seq<string>): string
    decreases |parts|
  {
    if |parts| == 0 then ""
    else if |parts| == 1 then parts[0]
    else Join(sep, parts[..|parts| - 1]) + sep + parts[|parts| - 1]
  }
}
