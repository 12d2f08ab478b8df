/**
 The few JavaScript value semantics the session plugin relies on: truthiness
 (`!x`, `x || d`), strict comparison with `true`, the `length` of a value and
 `String.prototype.indexOf`.
 */
module JsValues {

  /** A slot that may be missing; `None` stands for `undefined` (and `null`). */
  datatype Option<+T> = None | Some(value: T)

  /** A JavaScript value as far as the plugin inspects it. Numbers are modelled
      by their integer value; `Obj` is a plain object without a `length`. */
  datatype JsValue = Undefined | Null | Bool(b: bool) | Num(n: int) | Str(s: string) | Obj

  /** ECMAScript ToBoolean: the test behind `if (x)`, `!x` and `x || d`. */
  predicate Truthy(v: JsValue) {
    match v
    case Undefined => false
    case Null => false
    case Bool(b) => b
    case Num(n) => n != 0
    case Str(s) => s != ""
    case Obj => true
  }

  /** Truthiness of an optional string: present and not the empty string. */
  predicate Present(o: Option<string>) {
    o.Some? && o.value != ""
  }

  /** The number of UTF-16 code units of `s`: characters outside the Basic
      Multilingual Plane take two (a surrogate pair). */
  function Utf16Length(s: string): (n: nat)
    ensures |s| <= n <= 2 * |s|
    ensures n == |s| <==> forall i :: 0 <= i < |s| ==> (s[i] as int) < 0x1_0000
  {
    if s == [] then 0
    else (if (s[0] as int) < 0x1_0000 then 1 else 2) + Utf16Length(s[1..])
  }

  /** `v.length`: the UTF-16 length for strings, `undefined` (None) for everything else. */
  function Length(v: JsValue): Option<nat> {
    if v.Str? then Some(Utf16Length(v.s)) else None
  }

  /** `p` occurs in `s` starting at index `j`. */
  predicate OccursAt(s: string, p: string, j: nat) {
    j + |p| <= |s| && s[j..j + |p|] == p
  }

  /** The first index at or after `i` where `p` occurs in `s`, or -1. Unlike
      JavaScript's `indexOf` with a position argument, a start past the end is
      not clamped; the plugin only searches from 0. */
  function IndexOfFrom(s: string, p: string, i: nat): (r: int)
    decreases |s| - i
    ensures r == -1 || (i <= r && OccursAt(s, p, r))
    ensures r != -1 ==> forall j: nat :: i <= j < r ==> !OccursAt(s, p, j)
    ensures r == -1 ==> forall j: nat :: i <= j ==> !OccursAt(s, p, j)
  {
    if i + |p| > |s| then -1
    else if s[i..i + |p|] == p then i
    else IndexOfFrom(s, p, i + 1)
  }

  /** The first index where `p` occurs in `s`, or -1, counted in characters.
      JavaScript's `s.indexOf(p)` counts UTF-16 code units instead; the two
      agree on whether the result is 0, which is all the plugin tests. */
  function IndexOf(s: string, p: string): (r: int)
    ensures r == -1 || (0 <= r && OccursAt(s, p, r))
    ensures r != -1 ==> forall j: nat :: j < r ==> !OccursAt(s, p, j)
    ensures r == -1 ==> forall j: nat :: !OccursAt(s, p, j)
  {
    IndexOfFrom(s, p, 0)
  }

  /** `s.indexOf(p) === 0` is exactly "`p` is a prefix of `s`". */
  lemma IndexOfZeroIffPrefix(s: string, p: string)
    ensures IndexOf(s, p) == 0 <==> p <= s
  {
    if p <= s {
      assert OccursAt(s, p, 0);
    }
    if IndexOf(s, p) == 0 {
      assert s[..|p|] == p;
    }
  }
}
