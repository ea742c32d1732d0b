/** Option and Result, the failure-carrying wrappers used throughout. */
module Wrappers {
  datatype Option<+T> = None | Some(value: T)

  datatype Result<+T, +E> = Success(value: T) | Failure(error: E)
}

/**
 * The slice of JavaScript's value semantics that the proxy and its page
 * rely on: JSON-shaped values plus `undefined`, property access through
 * optional chaining (`v?.name`, `v?.[n]`), nullish coalescing (`a ?? b`),
 * truthiness (`!v`) and `String.prototype.trim`.
 */
module JsValues {
  import opened Wrappers

  newtype byte = x: int | 0 <= x < 256

  /** A JavaScript value as it appears in parsed JSON bodies and SDK responses. */
  datatype Value =
    | Undefined
    | Null
    | Bool(b: bool)
    | Num(n: real)
    | Str(s: string)
    | Arr(elems: seq<Value>)
    | Obj(fields: map<string, Value>)

  /** One step of an optional chain: `?.name` or `?.[n]`. */
  datatype Step = Field(name: string) | Index(n: nat)

  type Path = seq<Step>

  /** `v == null`, the test that both `?.` and `??` make. */
  predicate Nullish(v: Value) {
    v.Undefined? || v.Null?
  }

  /** `!v`: the falsy values (NaN and -0 have no counterpart among reals). */
  predicate Falsy(v: Value) {
    match v
    case Undefined => true
    case Null => true
    case Bool(b) => !b
    case Num(n) => n == 0.0
    case Str(s) => s == ""
    case _ => false
  }

  /**
   * `a ?? b`: falls through only on null and undefined. The result is one
   * of the operands, and it is nullish only when both are.
   */
  function Coalesce(a: Value, b: Value): (r: Value)
    ensures Nullish(a) ==> r == b
    ensures !Nullish(a) ==> r == a
    ensures r == a || r == b
    ensures Nullish(r) <==> Nullish(a) && Nullish(b)
  {
    if Nullish(a) then b else a
  }

  /** `a ?? b ?? c` parses as `(a ?? b) ?? c`; grouping the other way gives the same value. */
  lemma CoalesceAssociates(a: Value, b: Value, c: Value)
    ensures Coalesce(Coalesce(a, b), c) == Coalesce(a, Coalesce(b, c))
  {
  }

  function DigitChar(d: nat): char
    requires d < 10
  {
    "0123456789"[d]
  }

  /** The property key `String(n)` under which `o[n]` looks up an object. */
  function DecimalKey(n: nat): string
    decreases n
  {
    if n < 10 then [DigitChar(n)] else DecimalKey(n / 10) + [DigitChar(n % 10)]
  }

  /**
   * `v?.name` or `v?.[n]`. Own properties of objects, array and string
   * elements and `length` are modelled; other members inherited from a
   * prototype (methods such as `map`) are not values of this model.
   */
  function Member(v: Value, step: Step): (r: Value)
    ensures Nullish(v) ==> r == Undefined
    ensures !Nullish(r) ==> v.Obj? || v.Arr? || v.Str?
  {
    match step
    case Field(name) =>
      (match v
       case Obj(m) => if name in m then m[name] else Undefined
       case Arr(s) => if name == "length" then Num(|s| as real) else Undefined
       case Str(s) => if name == "length" then Num(|s| as real) else Undefined
       case _ => Undefined)
    case Index(n) =>
      (match v
       case Arr(s) => if n < |s| then s[n] else Undefined
       case Str(s) => if n < |s| then Str([s[n]]) else Undefined
       case Obj(m) => var key := DecimalKey(n); if key in m then m[key] else Undefined
       case _ => Undefined)
  }

  /** `v?.p0?.p1 ... ?.pk`: once a link is nullish the whole chain is undefined. */
  function Probe(v: Value, path: Path): (r: Value)
    ensures Nullish(v) && |path| > 0 ==> r == Undefined
    decreases |path|
  {
    if |path| == 0 then v else Probe(Member(v, path[0]), path[1..])
  }

  lemma {:induction false} ProbeAppend(v: Value, p: Path, q: Path)
    ensures Probe(v, p + q) == Probe(Probe(v, p), q)
    decreases |p|
  {
    if |p| == 0 {
      assert p + q == q;
    } else {
      assert (p + q)[0] == p[0];
      assert (p + q)[1..] == p[1..] + q;
      ProbeAppend(Member(v, p[0]), p[1..], q);
    }
  }

  // ---------------------------------------------------------------------
  // String.prototype.trim
  // ---------------------------------------------------------------------

  /** ECMAScript LineTerminator code points. */
  predicate IsLineTerminator(c: char) {
    c == '\n' || c == '\r' || c == '\U{2028}' || c == '\U{2029}'
  }

  /** ECMAScript WhiteSpace (including the Zs category) or LineTerminator: what `trim` strips. */
  predicate IsWhiteSpace(c: char) {
    || c == '\t' || c == '\U{000B}' || c == '\U{000C}' || c == ' '
    || c == '\U{00A0}' || c == '\U{FEFF}' || c == '\U{1680}'
    || ('\U{2000}' <= c <= '\U{200A}')
    || c == '\U{202F}' || c == '\U{205F}' || c == '\U{3000}'
    || IsLineTerminator(c)
  }

  /** Drops leading white space: the result is the suffix after the longest white-space prefix. */
  function TrimStart(s: string): (r: string)
    ensures |r| <= |s| && r == s[|s| - |r|..]
    ensures r == [] || !IsWhiteSpace(r[0])
    ensures forall i | 0 <= i < |s| - |r| :: IsWhiteSpace(s[i])
    decreases |s|
  {
    if |s| > 0 && IsWhiteSpace(s[0]) then TrimStart(s[1..]) else s
  }

  /** Drops trailing white space: the result is the prefix before the longest white-space suffix. */
  function TrimEnd(s: string): (r: string)
    ensures |r| <= |s| && r == s[..|r|]
    ensures r == [] || !IsWhiteSpace(r[|r| - 1])
    ensures forall i | |r| <= i < |s| :: IsWhiteSpace(s[i])
    decreases |s|
  {
    if |s| > 0 && IsWhiteSpace(s[|s| - 1]) then TrimEnd(s[..|s| - 1]) else s
  }

  /**
   * `s.trim()`: the slice left after dropping white space at both ends;
   * everything dropped is white space, and what is kept is empty or starts
   * and ends with a character that is not.
   */
  function Trim(s: string): (r: string)
    ensures r == [] || (!IsWhiteSpace(r[0]) && !IsWhiteSpace(r[|r| - 1]))
    ensures exists i, j | 0 <= i <= j <= |s| ::
              && r == s[i..j]
              && (forall k | 0 <= k < i :: IsWhiteSpace(s[k]))
              && (forall k | j <= k < |s| :: IsWhiteSpace(s[k]))
  {
    var t := TrimStart(s);
    var r := TrimEnd(t);
    SliceBetweenBlanks(s, t, r);
    r
  }

  /**
   * A prefix `r` of a suffix `t` of `s`, where `s` is white space before `t`
   * and `t` is white space behind `r`, is a slice of `s` with only white
   * space outside it.
   */
  lemma SliceBetweenBlanks(s: string, t: string, r: string)
    requires |t| <= |s| && t == s[|s| - |t|..]
    requires forall k | 0 <= k < |s| - |t| :: IsWhiteSpace(s[k])
    requires |r| <= |t| && r == t[..|r|]
    requires forall k | |r| <= k < |t| :: IsWhiteSpace(t[k])
    ensures exists i, j | 0 <= i <= j <= |s| ::
              && r == s[i..j]
              && (forall k | 0 <= k < i :: IsWhiteSpace(s[k]))
              && (forall k | j <= k < |s| :: IsWhiteSpace(s[k]))
  {
    var i := |s| - |t|;
    var j := i + |r|;
    assert r == s[i..j];
    forall k | j <= k < |s|
      ensures IsWhiteSpace(s[k])
    {
      assert s[k] == t[k - i];
    }
  }

  /** `s.trim() === ''` exactly when every character of `s` is white space. */
  lemma TrimEmptyIffBlank(s: string)
    ensures Trim(s) == [] <==> forall i | 0 <= i < |s| :: IsWhiteSpace(s[i])
  {
  }
}
