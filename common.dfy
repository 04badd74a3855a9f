/** JavaScript built-ins and form plumbing that the three evaluators share:
    the number a text field parses to, `Math.round`, `toFixed(1)`,
    `String.prototype.trim`, the required-field test and the per-field
    error map. */
module FormCommon {

  datatype Option<+T> = None | Some(value: T)

  /** The severity tiers of the battery and server evaluators, named as the
      strings the pages display. */
  datatype Status = GOOD | WARNING | CRITICAL

  /** What `Number(text)` yields. The string grammar is left abstract: a text
      field carries the number it parses to beside its text. */
  datatype JsNumber = Finite(value: real) | NaN | Infinity(negative: bool)

  /** A controlled text input: the string held in component state and the
      number `Number` reads from it. */
  datatype TextField = TextField(text: string, number: JsNumber)

  /** The initial state of every text input: the empty string, which
      `Number` reads as 0. */
  const EmptyField := TextField("", Finite(0.0))

  /** `parseNumber`: the value when it is finite, 0 for NaN and both
      infinities, so every later quantity is an ordinary real. */
  function ParseNumber(n: JsNumber): (r: real)
    ensures n.Finite? ==> r == n.value
    ensures !n.Finite? ==> r == 0.0
  {
    match n
    case Finite(v) => v
    case NaN => 0.0
    case Infinity(_) => 0.0
  }

  /** `Math.round`: the nearest integer, a half rounded up towards +infinity. */
  function Round(x: real): (r: int)
    ensures r as real - 0.5 <= x < r as real + 0.5
  {
    (x + 0.5).Floor
  }

  /** `Number(x.toFixed(1))` on exact reals: a whole number of tenths, the
      nearest one to x, a tie rounded away from zero (toFixed rounds the
      magnitude and then restores the sign). */
  function ToFixedOne(x: real): (r: real)
    ensures (10.0 * r).Floor as real == 10.0 * r
    ensures x >= 0.0 ==> x - 0.05 < r <= x + 0.05
    ensures x < 0.0 ==> x - 0.05 <= r < x + 0.05
  {
    var tenths := if x >= 0.0 then Round(10.0 * x) else -Round(-10.0 * x);
    assert 10.0 * (tenths as real / 10.0) == tenths as real;
    assert (tenths as real).Floor == tenths;
    tenths as real / 10.0
  }

  /** `whole > 0 ? (part / whole) * 100 : 0`, the percentage both the
      battery form (state of health) and the smartphone page (used storage)
      compute: part as a share of a positive whole, and 0 when the whole is
      not positive. */
  function Percent(part: real, whole: real): (p: real)
    ensures whole > 0.0 ==> p * whole == 100.0 * part
    ensures whole <= 0.0 ==> p == 0.0
    ensures whole > 0.0 && 0.0 <= part <= whole ==> 0.0 <= p <= 100.0
  {
    if whole > 0.0 then (part / whole) * 100.0 else 0.0
  }

  /** The ECMAScript WhiteSpace and LineTerminator code points: exactly what
      `String.prototype.trim` strips from both ends. */
  predicate IsJsWhitespace(c: char)
  {
    || c == '\t' || c == '\n' || c == '\U{B}' || c == '\U{C}' || c == '\r'
    || c == ' ' || c == '\U{A0}' || c == '\U{1680}'
    || ('\U{2000}' <= c <= '\U{200A}')
    || c == '\U{2028}' || c == '\U{2029}' || c == '\U{202F}' || c == '\U{205F}'
    || c == '\U{3000}' || c == '\U{FEFF}'
  }

  /** `String.prototype.trim`: whitespace stripped from both ends, one code
      unit at a time. What is left starts and ends with a non-whitespace
      character, and nothing is left exactly when s is all whitespace. */
  function Trim(s: string): (r: string)
    ensures |r| <= |s|
    ensures r != [] ==> !IsJsWhitespace(r[0]) && !IsJsWhitespace(r[|r| - 1])
    ensures r == [] <==> forall i :: 0 <= i < |s| ==> IsJsWhitespace(s[i])
    decreases |s|
  {
    if s == [] then s
    else if IsJsWhitespace(s[0]) then Trim(s[1..])
    else if IsJsWhitespace(s[|s| - 1]) then Trim(s[..|s| - 1])
    else s
  }

  /** The presence test `!value || value.toString().trim() === ""` that both
      forms apply to each raw text before any parsing: a field is missing
      exactly when it holds nothing but whitespace. */
  function IsMissing(s: string): (missing: bool)
    ensures missing <==> forall i :: 0 <= i < |s| ==> IsJsWhitespace(s[i])
  {
    s == [] || Trim(s) == []
  }

  /** The error-map update of every onChange handler: copy the map and
      `delete` one key. That key is gone; every other entry is kept as it was. */
  function WithoutKey<K, V>(errors: map<K, V>, key: K): (r: map<K, V>)
    ensures key !in r
    ensures r.Keys == errors.Keys - {key}
    ensures forall k :: k in r ==> r[k] == errors[k]
  {
    errors - {key}
  }

  /** The elements of s appear in strictly increasing rank. */
  ghost predicate StrictlyIncreasing<T>(s: seq<T>, rank: T -> int)
  {
    forall i, j :: 0 <= i < j < |s| ==> rank(s[i]) < rank(s[j])
  }

  /** Two lists, each in strictly increasing rank, that hold the same
      elements are the same list: an ordering by rank together with the set
      of members determines a message list completely. */
  lemma {:induction false} SortedUnique<T>(a: seq<T>, b: seq<T>, rank: T -> int)
    requires StrictlyIncreasing(a, rank) && StrictlyIncreasing(b, rank)
    requires forall x :: x in a <==> x in b
    ensures a == b
    decreases |a|
  {
    // a list with a first element shares it with the other list
    assert a != [] ==> a[0] in b;
    assert b != [] ==> b[0] in a;
    if a != [] && b != [] {
      SameFirst(a, b, rank);
      TailMembersIncluded(a, b, rank);
      TailMembersIncluded(b, a, rank);
      SortedUnique(a[1..], b[1..], rank);
      assert a == [a[0]] + a[1..];
      assert b == [b[0]] + b[1..];
    }
  }

  /** Two non-empty lists in strictly increasing rank with the same members
      start with the same element: the one of least rank. */
  lemma SameFirst<T>(a: seq<T>, b: seq<T>, rank: T -> int)
    requires a != [] && b != []
    requires StrictlyIncreasing(a, rank) && StrictlyIncreasing(b, rank)
    requires forall x :: x in a <==> x in b
    ensures a[0] == b[0]
  {
    assert b[0] in a;
    var k :| 0 <= k < |a| && a[k] == b[0];
    assert a[0] in b;
    var m :| 0 <= m < |b| && b[m] == a[0];
    assert rank(a[0]) <= rank(a[k]) == rank(b[0]) <= rank(b[m]) == rank(a[0]);
    assert k == 0;
  }

  /** With equal first elements and the same members, every later element
      of a is a later element of b, since it outranks the shared first one. */
  lemma TailMembersIncluded<T>(a: seq<T>, b: seq<T>, rank: T -> int)
    requires a != [] && b != [] && a[0] == b[0]
    requires StrictlyIncreasing(a, rank)
    requires forall x :: x in a <==> x in b
    ensures forall x :: x in a[1..] ==> x in b[1..]
  {
    forall x | x in a[1..]
      ensures x in b[1..]
    {
      var i :| 0 <= i < |a[1..]| && a[1..][i] == x;
      assert rank(a[0]) < rank(a[i + 1]);
      assert x in b;
      var j :| 0 <= j < |b| && b[j] == x;
      assert j != 0;
      assert b[1..][j - 1] == x;
    }
  }
}
