/**
 * The slice of JavaScript's runtime semantics the application relies on:
 * JSON-shaped values, object records with spread, truthiness, `||`,
 * property access, string conversion, `split`, `join`, `startsWith` and
 * relational comparison of strings. The parts of the runtime that are not
 * needed in detail (date parsing and formatting, number formatting,
 * `parseFloat`) are bundled as the parameters of a `Platform`.
 */
module Js {
  import opened Common

  /** A JavaScript value as it appears in a JSON document (plus `undefined`). */
  datatype Value =
    | Undefined
    | Null
    | Bool(b: bool)
    | Num(n: real)
    | Str(s: string)
    | Arr(elems: seq<Value>)
    | Obj(fields: map<string, Value>)

  /** A plain JavaScript object: its own enumerable properties. */
  type Record = map<string, Value>

  /** `r.k`: a missing property reads as `undefined`. */
  function Field(r: Record, k: string): Value {
    if k in r then r[k] else Undefined
  }

  /** JavaScript truthiness (`NaN` is not a value of this model). */
  predicate Truthy(v: Value) {
    match v
    case Undefined => false
    case Null => false
    case Bool(b) => b
    case Num(n) => n != 0.0
    case Str(s) => s != ""
    case Arr(_) => true
    case Obj(_) => true
  }

  /** `a || b` returns `a` when it is truthy and `b` otherwise. */
  function Or(a: Value, b: Value): Value {
    if Truthy(a) then a else b
  }

  /**
   * `v.k` on an arbitrary value: `None` stands for the TypeError thrown when
   * `v` is `null` or `undefined`; a primitive has no own property `k` here.
   */
  function Prop(v: Value, k: string): (r: Option<Value>)
    ensures r.None? <==> v.Undefined? || v.Null?
    ensures v.Obj? ==> r == Some(Field(v.fields, k))
  {
    match v
    case Undefined => None
    case Null => None
    case Obj(m) => Some(Field(m, k))
    case _ => Some(Undefined)
  }

  /** The keys `{...v}` copies into an object literal. */
  function Spread(v: Value): Record {
    if v.Obj? then v.fields else map[]
  }

  /**
   * The pieces of the host runtime the application calls but whose
   * internals are not modelled. Instants are integer milliseconds since the
   * epoch; `parseInstant` is `new Date(text)`, with `None` for an Invalid
   * Date; `formatInstant` is `toISOString`; `numberText` is `String(n)`;
   * `parseNumber` is `parseFloat`.
   */
  datatype Platform = Platform(
    parseInstant: string -> Option<int>,
    formatInstant: int -> string,
    numberText: real -> string,
    parseNumber: string -> real)

  /**
   * Reading back a formatted instant yields the same instant, and a
   * formatted instant is never the empty string.
   */
  ghost predicate Coherent(p: Platform) {
    forall t: int :: p.parseInstant(p.formatInstant(t)) == Some(t) && p.formatInstant(t) != ""
  }

  /** `d < now` between a possibly invalid date and an instant. */
  predicate Before(d: Option<int>, now: int) {
    d.Some? && d.value < now
  }

  /** `d > now` with the same Invalid Date semantics. */
  predicate After(d: Option<int>, now: int) {
    d.Some? && d.value > now
  }

  /** `String(v)`, the conversion template literals and `+` apply. */
  function Text(p: Platform, v: Value): string {
    match v
    case Undefined => "undefined"
    case Null => "null"
    case Bool(b) => if b then "true" else "false"
    case Num(n) => p.numberText(n)
    case Str(s) => s
    case Arr(vs) =>
      JoinStrings(seq(|vs|, i requires 0 <= i < |vs| =>
        if vs[i].Undefined? || vs[i].Null? then "" else Text(p, vs[i])), ",")
    case Obj(_) => "[object Object]"
  }

  /** How `Array.prototype.join` renders one element. */
  function JoinPart(p: Platform, v: Value): string {
    if v.Undefined? || v.Null? then "" else Text(p, v)
  }

  /** `[v0, v1, ...].join(sep)`. */
  function Join(p: Platform, vs: seq<Value>, sep: string): string {
    JoinStrings(seq(|vs|, i requires 0 <= i < |vs| => JoinPart(p, vs[i])), sep)
  }

  /** Strings joined with a separator between neighbours. */
  function JoinStrings(ss: seq<string>, sep: string): string {
    if |ss| == 0 then ""
    else if |ss| == 1 then ss[0]
    else ss[0] + sep + JoinStrings(ss[1..], sep)
  }

  /** The index of the first occurrence of `c` in `s`, if any. */
  function IndexOfChar(s: string, c: char): (r: Option<nat>)
    ensures r.Some? ==> r.value < |s| && s[r.value] == c && c !in s[..r.value]
    ensures r.None? <==> c !in s
  {
    if |s| == 0 then None
    else if s[0] == c then Some(0)
    else
      var rest := IndexOfChar(s[1..], c);
      assert s[1..][..if rest.Some? then rest.value else 0] == s[1..1 + if rest.Some? then rest.value else 0];
      if rest.Some? then Some(rest.value + 1) else None
  }

  /** `s.split(c)` for a one-character separator. */
  function Split(s: string, c: char): (r: seq<string>)
    ensures |r| > 0
    decreases |s|
  {
    match IndexOfChar(s, c)
    case None => [s]
    case Some(i) => [s[..i]] + Split(s[i + 1..], c)
  }

  /** `s.split('T')[0]`: the date part of an ISO-8601 instant. */
  function DatePart(s: string): string {
    Split(s, 'T')[0]
  }

  /** `s.startsWith(prefix)`. */
  predicate StartsWith(s: string, prefix: string) {
    |prefix| <= |s| && s[..|prefix|] == prefix
  }

  /** JavaScript's `a < b` on strings: lexicographic by character. */
  predicate LexLess(a: string, b: string)
    decreases |a|
  {
    if |a| == 0 then |b| != 0
    else if |b| == 0 then false
    else if a[0] != b[0] then a[0] < b[0]
    else LexLess(a[1..], b[1..])
  }

  /** `a <= b` on strings. */
  predicate LexLe(a: string, b: string) {
    a == b || LexLess(a, b)
  }

  lemma {:induction false} LexLessIrreflexive(a: string)
    ensures !LexLess(a, a)
    decreases |a|
  {
    if |a| > 0 {
      LexLessIrreflexive(a[1..]);
    }
  }

  lemma {:induction false} LexLessTransitive(a: string, b: string, c: string)
    requires LexLess(a, b) && LexLess(b, c)
    ensures LexLess(a, c)
    decreases |a|
  {
    if |a| > 0 && a[0] == b[0] && b[0] == c[0] {
      LexLessTransitive(a[1..], b[1..], c[1..]);
    }
  }

  lemma {:induction false} LexLessTotal(a: string, b: string)
    ensures a == b || LexLess(a, b) || LexLess(b, a)
    decreases |a|
  {
    if |a| > 0 && |b| > 0 && a[0] == b[0] {
      LexLessTotal(a[1..], b[1..]);
      if a[1..] == b[1..] {
        assert a == [a[0]] + a[1..] && b == [b[0]] + b[1..];
      }
    }
  }

  /** `<=` on strings is a total order. */
  lemma LexLeTotalOrder()
    ensures forall a, b :: LexLe(a, b) || LexLe(b, a)
    ensures forall a, b, c :: LexLe(a, b) && LexLe(b, c) ==> LexLe(a, c)
    ensures forall a, b :: LexLe(a, b) && LexLe(b, a) ==> a == b
  {
    forall a, b ensures LexLe(a, b) || LexLe(b, a) {
      LexLessTotal(a, b);
    }
    forall a, b, c | LexLe(a, b) && LexLe(b, c) ensures LexLe(a, c) {
      if a != b && b != c {
        LexLessTransitive(a, b, c);
      }
    }
    forall a, b | LexLe(a, b) && LexLe(b, a) ensures a == b {
      if a != b {
        LexLessTransitive(a, b, a);
        LexLessIrreflexive(a);
      }
    }
  }

  /** Joining the pieces of a split restores the string. */
  lemma {:induction false} JoinSplit(s: string, c: char)
    ensures JoinStrings(Split(s, c), [c]) == s
    decreases |s|
  {
    match IndexOfChar(s, c)
    case None =>
    case Some(i) =>
      JoinSplit(s[i + 1..], c);
      assert s == s[..i] + [c] + s[i + 1..];
  }

  /** Splitting a join of separator-free pieces gives the pieces back. */
  lemma {:induction false} SplitJoin(ss: seq<string>, c: char)
    requires |ss| > 0
    requires forall k :: 0 <= k < |ss| ==> c !in ss[k]
    ensures Split(JoinStrings(ss, [c]), c) == ss
    decreases |ss|
  {
    if |ss| == 1 {
      assert IndexOfChar(ss[0], c).None?;
    } else {
      var rest := JoinStrings(ss[1..], [c]);
      var s := ss[0] + [c] + rest;
      assert JoinStrings(ss, [c]) == s;
      var i := |ss[0]|;
      assert s[i] == c;
      assert s[..i] == ss[0];
      assert c !in s[..i];
      assert IndexOfChar(s, c) == Some(i);
      assert s[i + 1..] == rest;
      SplitJoin(ss[1..], c);
    }
  }

  /** The date part is the text before the first 'T', or all of it. */
  lemma DatePartSpec(s: string)
    ensures 'T' !in DatePart(s)
    ensures StartsWith(s, DatePart(s))
    ensures 'T' !in s ==> DatePart(s) == s
    ensures 'T' in s ==> s[|DatePart(s)|] == 'T'
  {
  }

  /** The date part of `d + "T" + t` is `d` when `d` itself has no 'T'. */
  lemma DatePartOfInstant(d: string, t: string)
    requires 'T' !in d
    ensures DatePart(d + "T" + t) == d
  {
    var s := d + "T" + t;
    assert s[|d|] == 'T';
    assert s[..|d|] == d;
    assert IndexOfChar(s, 'T') == Some(|d|);
  }
}
