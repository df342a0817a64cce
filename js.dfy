/** The few JavaScript built-ins the pages rely on, given exact meanings:
    `null`/`undefined` as Option, `Math.round`, `Math.max`, `Math.min` on
    exact reals, and `String.prototype.trim`. */
module Js {

  /** A value that may be absent (`null` or `undefined` in the pages). */
  datatype Option<+T> = None | Some(value: T)

  /** `Math.round` rounds half-way cases towards positive infinity. */
  function Round(x: real): (r: int)
    ensures x - 0.5 < r as real <= x + 0.5
  {
    (x + 0.5).Floor
  }

  /** On a whole number `Math.round` is the identity. */
  lemma RoundOfInt(n: int)
    ensures Round(n as real) == n
  {
  }

  /** `Math.round` never reverses an order. */
  lemma RoundMonotone(a: real, b: real)
    requires a <= b
    ensures Round(a) <= Round(b)
  {
  }

  /** `Math.round(t / a)` for whole numbers, the form the pages use for an average. */
  lemma RoundQuotient(t: int, a: int)
    requires a > 0
    ensures Round(t as real / a as real) == (2 * t + a) / (2 * a)
  {
    var q := (2 * t + a) / (2 * a);
    var m := (2 * t + a) % (2 * a);
    var c := (2 * a) as real;
    var y := t as real / a as real + 0.5;
    assert c * y == (2 * t + a) as real;
    assert 2 * t + a == 2 * a * q + m && 0 <= m < 2 * a;
    assert c * (q as real) <= c * y;
    assert c * y < c * ((q + 1) as real);
    ScaleDown(c, q as real, y);
    ScaleDownStrict(c, y, (q + 1) as real);
  }

  lemma ScaleDown(c: real, u: real, v: real)
    requires c > 0.0 && c * u <= c * v
    ensures u <= v
  {
  }

  lemma ScaleDownStrict(c: real, u: real, v: real)
    requires c > 0.0 && c * u < c * v
    ensures u < v
  {
  }

  function MaxR(a: real, b: real): (r: real)
    ensures r >= a && r >= b && (r == a || r == b)
  {
    if a >= b then a else b
  }

  function MinR(a: real, b: real): (r: real)
    ensures r <= a && r <= b && (r == a || r == b)
  {
    if a <= b then a else b
  }

  function MaxI(a: int, b: int): (r: int)
    ensures r >= a && r >= b && (r == a || r == b)
  {
    if a >= b then a else b
  }

  function MinI(a: int, b: int): (r: int)
    ensures r <= a && r <= b && (r == a || r == b)
  {
    if a <= b then a else b
  }

  /** A direction of a key map counts as held when any of its three `e.key`
      values is down (an arrow key and the letter in both cases). */
  predicate Held(keys: set<string>, a: string, b: string, c: string)
  {
    a in keys || b in keys || c in keys
  }

  /** The characters `trim` removes: ECMAScript WhiteSpace and LineTerminator. */
  predicate IsSpace(c: char)
  {
    c == '\t' || c == '\n' || c == '\U{B}' || c == '\U{C}' || c == '\r' || c == ' '
    || c == '\U{A0}' || c == '\U{1680}' || ('\U{2000}' <= c <= '\U{200A}')
    || c == '\U{2028}' || c == '\U{2029}' || c == '\U{202F}' || c == '\U{205F}'
    || c == '\U{3000}' || c == '\U{FEFF}'
  }

  function TrimStart(s: string): (r: string)
    ensures |r| <= |s| && r == s[|s| - |r|..]
    ensures r != [] ==> !IsSpace(r[0])
    ensures forall i :: 0 <= i < |s| - |r| ==> IsSpace(s[i])
  {
    if s != [] && IsSpace(s[0]) then TrimStart(s[1..]) else s
  }

  function TrimEnd(s: string): (r: string)
    ensures |r| <= |s| && r == s[..|r|]
    ensures r != [] ==> !IsSpace(r[|r| - 1])
    ensures forall i :: |r| <= i < |s| ==> IsSpace(s[i])
  {
    if s != [] && IsSpace(s[|s| - 1]) then TrimEnd(s[..|s| - 1]) else s
  }

  /** `String.prototype.trim`. */
  function Trim(s: string): string
  {
    TrimEnd(TrimStart(s))
  }

  /** A text trims to the empty string exactly when every character is white space. */
  lemma TrimEmptyIffBlank(s: string)
    ensures Trim(s) == "" <==> forall i :: 0 <= i < |s| ==> IsSpace(s[i])
  {
    var t := TrimStart(s);
    if Trim(s) == "" {
      forall i | 0 <= i < |s| ensures IsSpace(s[i]) {
        if i < |s| - |t| {
        } else {
          assert t[i - (|s| - |t|)] == s[i];
        }
      }
    } else {
      var r := Trim(s);
      assert !IsSpace(r[0]);
      assert r[0] == t[0] == s[|s| - |t|];
    }
  }
}
