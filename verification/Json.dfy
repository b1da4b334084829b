/**
 JSON values as the broker's contracts see them, and the text helpers shared by the flow language.

 A number is represented by the text `String(x)` prints for it. Two numbers with the same text are the
 same number to every function modelled here (`0` and `-0` are therefore one value).
 */
module Json {
  import opened Wrappers

  predicate IsDigitText(s: string) {
    && s != ""
    && ('0' <= s[0] <= '9' || s[0] == '-')
    && (forall c <- s :: '0' <= c <= '9' || c == '-' || c == '+' || c == '.' || c == 'e')
  }

  predicate IsNumberText(s: string) {
    IsDigitText(s) || s == "NaN" || s == "Infinity" || s == "-Infinity"
  }

  type NumberText = s: string | IsNumberText(s) witness "0"

  datatype Json =
    | Null
    | Bool(b: bool)
    | Number(text: NumberText)
    | Str(s: string)
    | Arr(items: seq<Json>)
    | Obj(fields: map<string, Json>)

  type Fields = map<string, Json>

  /** The outcome of JavaScript's `Number(x)`. */
  datatype JsNumber = NaN | Infinite(negative: bool) | Finite(r: real)

  function Field(fields: Fields, key: string): Option<Json> {
    if key in fields then Some(fields[key]) else None
  }

  /** Strings stand for themselves, numbers and booleans for their printed form, all else for nothing. */
  function ValueText(value: Option<Json>): string {
    match value
    case Some(Str(s)) => s
    case Some(Number(text)) => text
    case Some(Bool(b)) => if b then "true" else "false"
    case _ => ""
  }

  /** ECMAScript white space and line terminators, the set used both by `trim` and by `\s`. */
  predicate IsSpace(c: char) {
    || '\U{0009}' <= c <= '\U{000D}'
    || c == ' ' || c == '\U{00A0}' || c == '\U{1680}'
    || '\U{2000}' <= c <= '\U{200A}'
    || c == '\U{2028}' || c == '\U{2029}' || c == '\U{202F}' || c == '\U{205F}' || c == '\U{3000}' || c == '\U{FEFF}'
  }

  function TrimStart(s: string): string {
    if s != [] && IsSpace(s[0]) then TrimStart(s[1..]) else s
  }

  function TrimEnd(s: string): string {
    if s != [] && IsSpace(s[|s| - 1]) then TrimEnd(s[..|s| - 1]) else s
  }

  function Trim(s: string): string {
    TrimEnd(TrimStart(s))
  }

  /** `s.slice(0, n)`. */
  function Take(s: string, n: nat): (r: string)
    ensures |r| <= n
  {
    if |s| <= n then s else s[..n]
  }

  function Split(s: string, separator: char): (parts: seq<string>)
    ensures |parts| > 0
  {
    if s == [] then [""]
    else
      var rest := Split(s[1..], separator);
      if s[0] == separator then [""] + rest else [[s[0]] + rest[0]] + rest[1..]
  }

  function Join(parts: seq<string>, separator: string): string {
    if parts == [] then ""
    else if |parts| == 1 then parts[0]
    else parts[0] + separator + Join(parts[1..], separator)
  }

  /** `.filter(Boolean)` on strings. */
  function NonEmpty(parts: seq<string>): seq<string> {
    if parts == [] then []
    else (if parts[0] == "" then [] else [parts[0]]) + NonEmpty(parts[1..])
  }
}
