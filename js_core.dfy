/** JavaScript values, request outcomes and the string helpers (`trim`, `\s`,
    `a || b`) that the session store and the screens rely on. */
module JsCore {

  datatype Option<+T> = None | Some(value: T)

  /** A JavaScript primitive as it appears in a server payload or a stored record. */
  datatype Value = Undefined | Null | Bool(b: bool) | Num(n: int) | Str(s: string)

  /** A flat JavaScript object. A key whose value would be `undefined` is left
      out, so `Get` of it still reads `undefined`. */
  type Record = map<string, Value>

  /** A record that holds no `undefined` value, as every object literal built by `Put` is. */
  ghost predicate WellFormed(r: Record) {
    forall k :: k in r ==> r[k] != Undefined
  }

  /** The property read `r.k`. */
  function Get(r: Record, k: string): Value {
    if k in r then r[k] else Undefined
  }

  /** The object-literal entry `{..., k: v}`: afterwards `r.k` reads `v` and every other key reads as before. */
  function Put(r: Record, k: string, v: Value): (r': Record)
    ensures Get(r', k) == v
    ensures forall j :: j != k ==> Get(r', j) == Get(r, j)
    ensures WellFormed(r) ==> WellFormed(r')
  {
    if v == Undefined then r - {k} else r[k := v]
  }

  /** JavaScript truthiness (`if (v)`, `!v`, `filter(Boolean)`). */
  predicate Truthy(v: Value) {
    match v
    case Undefined => false
    case Null => false
    case Bool(b) => b
    case Num(n) => n != 0
    case Str(s) => s != ""
  }

  /** A string that is neither null nor empty, the truthy case of `string | null`. */
  predicate Present(s: Option<string>) {
    s.Some? && s.value != ""
  }

  /** `message || fallback`, the way every handler picks the text of a failure:
      the server's message when it is a non-empty string, otherwise the fixed fallback. */
  function OrElse(message: Option<string>, fallback: string): (r: string)
    ensures Present(message) ==> r == message.value
    ensures !Present(message) ==> r == fallback
    ensures fallback != "" ==> r != ""
  {
    if Present(message) then message.value else fallback
  }

  /** The outcome of a network or device call, passed in as a parameter:
      the payload, or a failure carrying the server's message if it sent one. */
  datatype Reply<+T> = Ok(data: T) | Failed(message: Option<string>)

  /** How an async store action settles: it resolves with a value or throws an `Error(message)`. */
  datatype Outcome<+T> = Resolved(value: T) | Thrown(message: string)

  /** The status string of a device permission request that lets the app go on. */
  const Granted := "granted"

  /** A device position in degrees. */
  datatype Coords = Coords(latitude: real, longitude: real)

  /** ECMAScript WhiteSpace and LineTerminator code points: what `String.prototype.trim`
      strips and what the regular-expression class `\s` matches. */
  predicate IsSpace(c: char) {
    || c == '\t' || c == '\n' || c == '\U{000B}' || c == '\U{000C}' || c == '\r'
    || c == ' ' || c == '\U{00A0}' || c == '\U{1680}'
    || ('\U{2000}' <= c <= '\U{200A}')
    || c == '\U{2028}' || c == '\U{2029}' || c == '\U{202F}' || c == '\U{205F}'
    || c == '\U{3000}' || c == '\U{FEFF}'
  }

  /** Leading whitespace removed. */
  function TrimStart(s: string): (r: string)
    ensures |r| <= |s|
  {
    if s != [] && IsSpace(s[0]) then TrimStart(s[1..]) else s
  }

  /** `TrimStart` gives a suffix of `s` that does not start with whitespace, and
      everything it cut off was whitespace. */
  lemma {:induction false} TrimStartCutsSpace(s: string)
    ensures var r := TrimStart(s);
      && r == s[|s| - |r|..]
      && (r != [] ==> !IsSpace(r[0]))
      && forall i :: 0 <= i < |s| - |r| ==> IsSpace(s[i])
  {
    if s != [] && IsSpace(s[0]) {
      TrimStartCutsSpace(s[1..]);
      assert forall i :: 1 <= i < |s| ==> s[i] == s[1..][i - 1];
    }
  }

  /** Trailing whitespace removed. */
  function TrimEnd(s: string): (r: string)
    ensures |r| <= |s|
  {
    if s != [] && IsSpace(s[|s| - 1]) then TrimEnd(s[..|s| - 1]) else s
  }

  /** `TrimEnd` gives a prefix of `s` that does not end with whitespace, and
      everything it cut off was whitespace. */
  lemma {:induction false} TrimEndCutsSpace(s: string)
    ensures var r := TrimEnd(s);
      && r == s[..|r|]
      && (r != [] ==> !IsSpace(r[|r| - 1]))
      && forall i :: |r| <= i < |s| ==> IsSpace(s[i])
  {
    if s != [] && IsSpace(s[|s| - 1]) {
      TrimEndCutsSpace(s[..|s| - 1]);
    }
  }

  /** `s.trim()`. */
  function Trim(s: string): string {
    TrimEnd(TrimStart(s))
  }

  /** `!s.trim()`: the string is empty once trimmed. */
  predicate Blank(s: string) {
    Trim(s) == ""
  }

  /** A string is blank exactly when every character of it is whitespace. */
  lemma BlankIffAllSpace(s: string)
    ensures Blank(s) <==> forall i :: 0 <= i < |s| ==> IsSpace(s[i])
  {
    var head := TrimStart(s);
    TrimStartCutsSpace(s);
    TrimEndCutsSpace(head);
    if !Blank(s) {
      var r := Trim(s);
      assert r != [] && r == head[..|r|];
      assert !IsSpace(s[|s| - |head|]);
    }
  }
}
