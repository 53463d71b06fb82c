/** The slice of JavaScript's value semantics that the services rely on:
    JSON-like values, truthiness, `typeof`, property reads and `String.prototype.trim`. */
module Js {
  import opened Wrappers

  /** A JavaScript number as the code observes it. Finite numbers are exact reals here
      (IEEE rounding is not modelled); NaN and the infinities are kept apart because the
      code tests `Number.isFinite` and truthiness. */
  datatype Number = Finite(r: real) | NaN | Infinity(negative: bool)

  datatype Value =
    | Undefined
    | Null
    | Bool(b: bool)
    | Num(n: Number)
    | Str(s: string)
    | Obj(fields: map<string, Value>)
    | Arr(elems: seq<Value>)

  /** JavaScript truthiness: `undefined`, `null`, `false`, `0`, `NaN` and `""` are falsy. */
  predicate Truthy(v: Value)
  {
    match v
    case Undefined => false
    case Null => false
    case Bool(b) => b
    case Num(n) => (n.Finite? && n.r != 0.0) || n.Infinity?
    case Str(s) => s != ""
    case Obj(_) => true
    case Arr(_) => true
  }

  /** The `typeof` operator (note `typeof null === 'object'`). */
  function TypeOf(v: Value): (t: string)
    ensures t == "object" <==> (v.Null? || v.Obj? || v.Arr?)
    ensures t == "string" <==> v.Str?
  {
    match v
    case Undefined => "undefined"
    case Null => "object"
    case Bool(_) => "boolean"
    case Num(_) => "number"
    case Str(_) => "string"
    case Obj(_) => "object"
    case Arr(_) => "object"
  }

  /** `x || fallback`. */
  function OrElse(x: Value, fallback: Value): (r: Value)
    ensures Truthy(x) ==> r == x
    ensures !Truthy(x) ==> r == fallback
  {
    if Truthy(x) then x else fallback
  }

  /** `Number.isInteger` (which is false for NaN and the infinities). */
  predicate IsInteger(n: Number)
  {
    n.Finite? && n.r.Floor as real == n.r
  }

  /** The property read `v[key]`. `None` is the TypeError thrown when `v` is `null` or
      `undefined`; any other value without an own field `key` reads as `undefined`. */
  function Property(v: Value, key: string): (r: Option<Value>)
    ensures r.None? <==> (v.Undefined? || v.Null?)
    ensures v.Obj? && key in v.fields ==> r == Some(v.fields[key])
  {
    match v
    case Undefined => None
    case Null => None
    case Obj(m) => Some(if key in m then m[key] else Undefined)
    case _ => Some(Undefined)
  }

  /** The own field `key` of an object, `undefined` when it has none. */
  function Field(m: map<string, Value>, key: string): Value
  {
    if key in m then m[key] else Undefined
  }

  /** ECMAScript WhiteSpace and LineTerminator code points: the set that both
      `String.prototype.trim` and the regular expression class `\s` remove. */
  predicate IsWhitespace(c: char)
  {
    var n := c as int;
    n == 0x09 || n == 0x0A || n == 0x0B || n == 0x0C || n == 0x0D || n == 0x20 ||
    n == 0xA0 || n == 0x1680 || (0x2000 <= n <= 0x200A) || n == 0x2028 || n == 0x2029 ||
    n == 0x202F || n == 0x205F || n == 0x3000 || n == 0xFEFF
  }

  /** How many whitespace characters `s` starts with. */
  function LeadingWhitespace(s: string): (n: nat)
    ensures n <= |s|
  {
    if s != [] && IsWhitespace(s[0]) then 1 + LeadingWhitespace(s[1..]) else 0
  }

  /** How many whitespace characters `s` ends with. */
  function TrailingWhitespace(s: string): (n: nat)
    ensures n <= |s|
  {
    if s != [] && IsWhitespace(s[|s| - 1]) then 1 + TrailingWhitespace(s[..|s| - 1]) else 0
  }

  /** The leading run is all whitespace and stops at the first other character. */
  lemma {:induction false} LeadingWhitespaceMeaning(s: string)
    ensures forall i :: 0 <= i < LeadingWhitespace(s) ==> IsWhitespace(s[i])
    ensures LeadingWhitespace(s) < |s| ==> !IsWhitespace(s[LeadingWhitespace(s)])
    decreases |s|
  {
    if s != [] && IsWhitespace(s[0]) {
      LeadingWhitespaceMeaning(s[1..]);
      forall i | 0 <= i < LeadingWhitespace(s) ensures IsWhitespace(s[i]) {
        if i > 0 { assert s[i] == s[1..][i - 1]; }
      }
    }
  }

  /** The trailing run is all whitespace and stops at the last other character. */
  lemma {:induction false} TrailingWhitespaceMeaning(s: string)
    ensures forall i :: |s| - TrailingWhitespace(s) <= i < |s| ==> IsWhitespace(s[i])
    ensures TrailingWhitespace(s) < |s| ==> !IsWhitespace(s[|s| - 1 - TrailingWhitespace(s)])
    decreases |s|
  {
    if s != [] && IsWhitespace(s[|s| - 1]) {
      var front := s[..|s| - 1];
      TrailingWhitespaceMeaning(front);
      forall i | |s| - TrailingWhitespace(s) <= i < |s| ensures IsWhitespace(s[i]) {
        if i < |s| - 1 { assert s[i] == front[i]; }
      }
      if TrailingWhitespace(s) < |s| {
        assert s[|s| - 1 - TrailingWhitespace(s)] == front[|front| - 1 - TrailingWhitespace(front)];
      }
    }
  }

  /** `String.prototype.trim`: the slice of `s` between its leading and trailing
      whitespace. */
  function Trim(s: string): string
  {
    var t := s[LeadingWhitespace(s)..];
    t[..|t| - TrailingWhitespace(t)]
  }

  /** The trimmed string is the slice of `s` that starts after its leading whitespace. */
  lemma TrimIsSlice(s: string)
    ensures var r := Trim(s); var k := LeadingWhitespace(s);
      k + |r| <= |s| && r == s[k..k + |r|] && k + |r| + TrailingWhitespace(s[k..]) == |s|
  {
  }

  /** Everything trimming cuts off is whitespace. */
  lemma TrimCutsWhitespace(s: string)
    ensures var r := Trim(s); var k := LeadingWhitespace(s);
      forall i :: 0 <= i < |s| && !(k <= i < k + |r|) ==> IsWhitespace(s[i])
  {
    var k := LeadingWhitespace(s);
    var t := s[k..];
    var r := Trim(s);
    TrimIsSlice(s);
    LeadingWhitespaceMeaning(s);
    TrailingWhitespaceMeaning(t);
    forall i | 0 <= i < |s| && !(k <= i < k + |r|) ensures IsWhitespace(s[i]) {
      if i >= k { assert s[i] == t[i - k]; }
    }
  }

  /** The trimmed string neither starts nor ends with whitespace. */
  lemma TrimEnds(s: string)
    ensures var r := Trim(s); r != [] ==> !IsWhitespace(r[0]) && !IsWhitespace(r[|r| - 1])
  {
    var k := LeadingWhitespace(s);
    var t := s[k..];
    var m := TrailingWhitespace(t);
    var r := Trim(s);
    TrimIsSlice(s);
    LeadingWhitespaceMeaning(s);
    TrailingWhitespaceMeaning(t);
    if r != [] {
      assert r[0] == t[0] == s[k];
      assert r[|r| - 1] == t[|t| - 1 - m];
    }
  }

  /** The trimmed string is the slice of `s` after its leading whitespace that neither
      starts nor ends with whitespace, and everything cut off is whitespace. */
  lemma TrimSlice(s: string)
    ensures var r := Trim(s); var k := LeadingWhitespace(s);
      k + |r| <= |s| && r == s[k..k + |r|] &&
      (forall i :: 0 <= i < |s| && !(k <= i < k + |r|) ==> IsWhitespace(s[i])) &&
      (r != [] ==> !IsWhitespace(r[0]) && !IsWhitespace(r[|r| - 1]))
  {
    TrimIsSlice(s);
    TrimCutsWhitespace(s);
    TrimEnds(s);
  }

  /** A string without outer whitespace is its own trim. */
  lemma TrimPlain(s: string)
    requires s == [] || (!IsWhitespace(s[0]) && !IsWhitespace(s[|s| - 1]))
    ensures Trim(s) == s
  {
    if s != [] {
      assert LeadingWhitespace(s) == 0;
      assert s[0..] == s;
      assert TrailingWhitespace(s) == 0;
    }
  }

  /** Trimming removes whitespace from both ends only: the result is a slice of `s` that
      neither starts nor ends with whitespace, everything cut off is whitespace, it is
      empty exactly when `s` is all whitespace, and a string without outer whitespace is
      its own trim. */
  lemma TrimMeaning(s: string)
    ensures var r := Trim(s); var k := LeadingWhitespace(s);
      k + |r| <= |s| && r == s[k..k + |r|] &&
      (forall i :: 0 <= i < |s| && !(k <= i < k + |r|) ==> IsWhitespace(s[i])) &&
      (r != [] ==> !IsWhitespace(r[0]) && !IsWhitespace(r[|r| - 1]))
    ensures Trim(s) == [] <==> forall i :: 0 <= i < |s| ==> IsWhitespace(s[i])
    ensures (s == [] || (!IsWhitespace(s[0]) && !IsWhitespace(s[|s| - 1]))) ==> Trim(s) == s
  {
    TrimSlice(s);
    var r := Trim(s);
    var k := LeadingWhitespace(s);
    if r != [] {
      assert r[0] == s[k];
    }
    if s == [] || (!IsWhitespace(s[0]) && !IsWhitespace(s[|s| - 1])) {
      TrimPlain(s);
    }
  }

  /** Trimming twice is the same as trimming once. */
  lemma TrimIdempotent(s: string)
    ensures Trim(Trim(s)) == Trim(s)
  {
    TrimMeaning(s);
    TrimMeaning(Trim(s));
  }

  /** The decimal digits of a natural number, as a template literal prints it. */
  function DecimalString(n: nat): (r: string)
    ensures r != []
    ensures forall i :: 0 <= i < |r| ==> '0' <= r[i] <= '9'
  {
    var d := ['0' + (n % 10) as char];
    if n < 10 then d else DecimalString(n / 10) + d
  }
}
