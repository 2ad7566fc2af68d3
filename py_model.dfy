/** Python values, outcomes and the string primitives that the three core files
    rely on (str.isspace, str.strip, str.find, `in`, slicing, int()). Character
    classes follow Python's definitions restricted to ASCII. */
module PyModel {

  datatype Option<T> = None | Some(value: T)

  /** How a call into the source ends: it returns a value, it raises an
      exception, or it never returns (a loop or a recursion that makes no progress). */
  datatype Outcome<T> = Returns(value: T) | Raises | Diverges

  /** A hashable dictionary key. Python's `True == 1` and `False == 0` hash alike,
      so a boolean key is stored as the integer it equals. */
  datatype Key = KStr(s: string) | KInt(i: int) | KNum(text: string) | KNil

  /** The values the Lua-table parsers build. A float is kept as its source text. */
  datatype Value =
    | Str(s: string)
    | Int(i: int)
    | Num(text: string)
    | Bool(b: bool)
    | Nil
    | Dict(entries: map<Key, Value>)
    | List(items: seq<Value>)

  /** The dictionary key a value becomes; tables are unhashable (TypeError). */
  function KeyOf(v: Value): (k: Option<Key>)
    ensures k.None? <==> (v.Dict? || v.List?)
    ensures v.Str? ==> k == Some(KStr(v.s))
    ensures v.Bool? ==> k == Some(KInt(if v.b then 1 else 0))
  {
    match v
    case Str(s) => Some(KStr(s))
    case Int(i) => Some(KInt(i))
    case Num(t) => Some(KNum(t))
    case Bool(b) => Some(KInt(if b then 1 else 0))
    case Nil => Some(KNil)
    case Dict(_) => None
    case List(_) => None
  }

  /** Python truthiness. A float text is false when all its digits are zero
      (exact for the digit-and-dot texts the tokenizer produces). */
  predicate Truthy(v: Value) {
    match v
    case Str(s) => s != ""
    case Int(i) => i != 0
    case Num(t) => exists k :: 0 <= k < |t| && IsDigit(t[k]) && t[k] != '0'
    case Bool(b) => b
    case Nil => false
    case Dict(m) => |m| != 0
    case List(l) => |l| != 0
  }

  // ---------------------------------------------------------------- characters

  /** str.isspace on ASCII: tab, newline, vertical tab, form feed, carriage
      return, the four separator controls 0x1c-0x1f and space. */
  predicate IsSpace(c: char) {
    9 <= c as int <= 13 || 28 <= c as int <= 32
  }

  predicate IsDigit(c: char) { '0' <= c <= '9' }

  predicate IsAlpha(c: char) { 'a' <= c <= 'z' || 'A' <= c <= 'Z' }

  predicate IsAlnum(c: char) { IsDigit(c) || IsAlpha(c) }

  function UpperChar(c: char): char {
    if 'a' <= c <= 'z' then (c as int - 32) as char else c
  }

  function LowerChar(c: char): char {
    if 'A' <= c <= 'Z' then (c as int + 32) as char else c
  }

  function Upper(s: string): (r: string)
    ensures |r| == |s| && forall k :: 0 <= k < |s| ==> r[k] == UpperChar(s[k])
  {
    seq(|s|, k requires 0 <= k < |s| => UpperChar(s[k]))
  }

  function Lower(s: string): (r: string)
    ensures |r| == |s|
  {
    seq(|s|, k requires 0 <= k < |s| => LowerChar(s[k]))
  }

  // ---------------------------------------------------------------- strings

  predicate StartsWith(s: string, p: string) {
    |p| <= |s| && s[..|p|] == p
  }

  predicate EndsWith(s: string, p: string) {
    |p| <= |s| && s[|s| - |p|..] == p
  }

  /** Python slicing s[a:b] for non-negative bounds: both are clamped to len(s). */
  function Slice(s: string, a: nat, b: nat): (r: string)
    ensures a <= b <= |s| ==> r == s[a..b]
    ensures b <= a || |s| <= a ==> r == ""
  {
    var hi := if b < |s| then b else |s|;
    if a < hi then s[a..hi] else ""
  }

  /** `sub` occurs in `s` at index `i`. */
  predicate OccursAt(s: string, sub: string, i: nat) {
    i + |sub| <= |s| && s[i..i + |sub|] == sub
  }

  /** s.find(sub, start): the first index at or after `start` where `sub` occurs. */
  function Find(s: string, sub: string, start: nat): (r: Option<nat>)
    decreases |s| - start
    ensures r.Some? ==> start <= r.value && OccursAt(s, sub, r.value)
    ensures r.Some? ==> forall k :: start <= k < r.value ==> !OccursAt(s, sub, k)
    ensures r.None? ==> forall k :: start <= k ==> !OccursAt(s, sub, k)
  {
    if start + |sub| > |s| then None
    else if s[start..start + |sub|] == sub then Some(start)
    else Find(s, sub, start + 1)
  }

  /** s.find(c, start) for a one-character needle. */
  function FindChar(s: string, c: char, start: nat): (r: Option<nat>)
    decreases |s| - start
    ensures r.Some? ==> start <= r.value < |s| && s[r.value] == c
    ensures r.Some? ==> forall k :: start <= k < r.value ==> s[k] != c
    ensures r.None? ==> forall k :: start <= k < |s| ==> s[k] != c
  {
    if start >= |s| then None
    else if s[start] == c then Some(start)
    else FindChar(s, c, start + 1)
  }

  /** `sub in s`. */
  predicate Contains(s: string, sub: string) {
    Find(s, sub, 0).Some?
  }

  /** str.lstrip() with no argument. */
  function LStrip(s: string): (r: string)
  {
    if s != [] && IsSpace(s[0]) then LStrip(s[1..]) else s
  }

  /** str.rstrip() with no argument. */
  function RStrip(s: string): (r: string)
  {
    if s != [] && IsSpace(s[|s| - 1]) then RStrip(s[..|s| - 1]) else s
  }

  /** str.strip() with no argument. */
  function Strip(s: string): (r: string)
  {
    RStrip(LStrip(s))
  }

  predicate AllDigits(s: string) {
    forall k :: 0 <= k < |s| ==> IsDigit(s[k])
  }

  /** int() of a string of decimal digits. */
  function DigitsValue(s: string): nat
    requires AllDigits(s)
  {
    if s == [] then 0 else DigitsValue(s[..|s| - 1]) * 10 + (s[|s| - 1] as int - '0' as int)
  }

  /** The number of occurrences of `c` in `s`. */
  function Count(s: string, c: char): (n: nat)
    ensures n <= |s|
  {
    if s == [] then 0 else Count(s[..|s| - 1], c) + (if s[|s| - 1] == c then 1 else 0)
  }

  lemma {:induction false} CountAppend(a: string, b: string, c: char)
    ensures Count(a + b, c) == Count(a, c) + Count(b, c)
  {
    if b != [] {
      assert (a + b)[..|a + b| - 1] == a + b[..|b| - 1];
      CountAppend(a, b[..|b| - 1], c);
    } else {
      assert a + b == a;
    }
  }

  lemma {:induction false} CountAbsent(s: string, c: char)
    requires c !in s
    ensures Count(s, c) == 0
  {
    if s != [] {
      assert forall x :: x in s[..|s| - 1] ==> x in s;
      CountAbsent(s[..|s| - 1], c);
    }
  }

  /** A needle whose first character does not occur in `s` is not found. */
  lemma {:induction false} FindAbsentFirst(s: string, sub: string, start: nat)
    requires |sub| > 0 && forall k :: start <= k < |s| ==> s[k] != sub[0]
    decreases |s| - start
    ensures Find(s, sub, start).None?
  {
    if start + |sub| <= |s| {
      assert s[start..start + |sub|][0] == s[start];
      FindAbsentFirst(s, sub, start + 1);
    }
  }

  /** A needle that occurs at `i`, with no earlier index holding its first
      character, is found at `i`. */
  lemma {:induction false} FindAt(s: string, sub: string, start: nat, i: nat)
    requires start <= i && OccursAt(s, sub, i) && |sub| > 0
    requires forall k :: start <= k < i ==> s[k] != sub[0]
    decreases i - start
    ensures Find(s, sub, start) == Some(i)
  {
    if start < i {
      assert s[start..start + |sub|][0] == s[start];
      FindAt(s, sub, start + 1, i);
    }
  }
}
