/** The second Lua-table parser, _robust_lua_to_dict (ramses_patches.py). It
    works on the text directly: parse_value and parse_table take an index and
    return a (value, index) pair. Entries without a key are stored under the
    integer keys 1, 2, 3, ... in order.

    The functions below are its specification. A table is read as a sequence of
    items (one per pass of the table loop) that Assemble turns into the dict.
    A pass of the loop that leaves the index where it was repeats itself for
    ever, since its outcome depends only on the text and the index: the model
    reports that as Diverges. The methods follow the source's loops and are
    proved equal to the specification. */
module RobustParser {
  import opened PyModel

  /** The (value, index) pair that parse_value and parse_table return. */
  datatype Scanned = Scanned(v: Value, end: nat)

  /** What one pass of the table loop stores: `result[key] = val`, or
      `result[implicit_idx] = val`. */
  datatype Item = Named(key: Key, v: Value) | Positional(v: Value)

  datatype Step = Step(item: Item, next: nat) | StepRaised | StepDiverged

  /** The table loop from some index on: the items it stores and the index
      parse_table returns, or how it fails. */
  datatype Loop = Done(items: seq<Item>, end: nat) | LoopRaised | LoopDiverged

  // ---------------------------------------------------------------- scanning

  /** `while idx < len(s) and s[idx].isspace(): idx += 1` */
  function SkipSpace(s: string, i: nat): (j: nat)
    decreases |s| - i
    ensures i <= j && (i <= |s| ==> j <= |s|) && (i > |s| ==> j == i)
    ensures forall k :: i <= k < j ==> IsSpace(s[k])
    ensures j < |s| ==> !IsSpace(s[j])
  {
    if i < |s| && IsSpace(s[i]) then SkipSpace(s, i + 1) else i
  }

  predicate IsSeparator(c: char) {
    IsSpace(c) || c == ','
  }

  /** The skip of whitespace and commas after each entry. */
  function SkipSeparators(s: string, i: nat): (j: nat)
    decreases |s| - i
    ensures i <= j && (i <= |s| ==> j <= |s|) && (i > |s| ==> j == i)
    ensures forall k :: i <= k < j ==> IsSeparator(s[k])
    ensures j < |s| ==> !IsSeparator(s[j])
  {
    if i < |s| && IsSeparator(s[i]) then SkipSeparators(s, i + 1) else i
  }

  /** The characters that end a bare scalar. */
  predicate IsStop(c: char) {
    c == ',' || c == '}' || c == '='
  }

  /** Where the scan of a bare scalar that starts at `i` stops. */
  function ScalarEnd(s: string, i: nat): (j: nat)
    requires i <= |s|
    decreases |s| - i
    ensures i <= j <= |s|
    ensures forall k :: i <= k < j ==> !IsStop(s[k])
    ensures j < |s| ==> IsStop(s[j])
  {
    if i < |s| && !IsStop(s[i]) then ScalarEnd(s, i + 1) else i
  }

  /** The index of the quote `q` that closes a string whose body starts at or
      before `e`: the first `q` at or after `e` that does not follow a
      backslash, or the end of the text when an escaped quote is the last
      character. None when some search finds no quote at all. */
  function QuoteClose(s: string, q: char, e: nat): (r: Option<nat>)
    requires 1 <= e <= |s|
    decreases |s| - e
    ensures r.Some? ==> e <= r.value <= |s|
    ensures r.Some? && r.value < |s| ==> s[r.value] == q && s[r.value - 1] != '\\'
    ensures r.None? ==> s[|s| - 1] != q
  {
    if e == |s| then Some(e)
    else
      match FindChar(s, q, e)
      case None => None
      case Some(f) => if s[f - 1] != '\\' then Some(f) else QuoteClose(s, q, f + 1)
  }

  /** Every quote that the search passes over follows a backslash. */
  lemma {:induction false} QuoteCloseIsFirst(s: string, q: char, e: nat, k: nat)
    requires 1 <= e <= |s| && QuoteClose(s, q, e).Some?
    requires e <= k < QuoteClose(s, q, e).value && s[k] == q
    decreases |s| - e
    ensures s[k - 1] == '\\'
  {
    var f := FindChar(s, q, e).value;
    if k != f {
      QuoteCloseIsFirst(s, q, f + 1, k);
    }
  }

  // ---------------------------------------------------------------- scalars

  /** A group of decimal digits as int() and float() accept it: digits, with
      single underscores between digits. */
  predicate IsDigitPart(t: string) {
    |t| > 0 && IsDigit(t[0]) && IsDigit(t[|t| - 1])
    && (forall k :: 0 <= k < |t| ==> IsDigit(t[k]) || t[k] == '_')
    && (forall j, k :: 0 <= j < |t| && 0 <= k < |t| && k == j + 1 && t[j] == '_' ==> IsDigit(t[k]))
  }

  /** The digits of a digit group. */
  function Digits(t: string): (r: string)
    requires forall k :: 0 <= k < |t| ==> IsDigit(t[k]) || t[k] == '_'
  {
    if t == [] then []
    else (if t[0] == '_' then [] else [t[0]]) + Digits(t[1..])
  }

  /** The digits of a digit group are all digits. */
  lemma {:induction false} DigitsAreDigits(t: string)
    requires forall k :: 0 <= k < |t| ==> IsDigit(t[k]) || t[k] == '_'
    ensures AllDigits(Digits(t))
  {
    if t != [] {
      DigitsAreDigits(t[1..]);
    }
  }

  /** The text after an optional leading sign. */
  function Unsigned(t: string): (u: string) {
    if |t| > 0 && (t[0] == '+' || t[0] == '-') then t[1..] else t
  }

  /** What follows the optional sign is a suffix of the text, at most one
      character shorter. */
  lemma UnsignedSuffix(t: string)
    ensures var u := Unsigned(t); |t| - 1 <= |u| <= |t| && t[|t| - |u|..] == u
  { }

  /** int(t) on a stripped ASCII text, or None where it raises ValueError. */
  function IntText(t: string): (r: Option<int>) {
    var u := Unsigned(t);
    if !IsDigitPart(u) then None
    else
      DigitsAreDigits(u);
      var n: int := DigitsValue(Digits(u));
      Some(if |t| > 0 && t[0] == '-' then -n else n)
  }

  /** The index of the first `e` or `E` at or after `i`, or the end. */
  function ExponentStart(u: string, i: nat): (j: nat)
    requires i <= |u|
    decreases |u| - i
    ensures i <= j <= |u|
  {
    if i == |u| || u[i] == 'e' || u[i] == 'E' then i else ExponentStart(u, i + 1)
  }

  /** The exponent search stops at the first `e` or `E`. */
  lemma {:induction false} ExponentStartIsFirst(u: string, i: nat)
    requires i <= |u|
    decreases |u| - i
    ensures var j := ExponentStart(u, i);
      (forall k :: i <= k < j ==> u[k] != 'e' && u[k] != 'E') && (j < |u| ==> u[j] == 'e' || u[j] == 'E')
  {
    if i < |u| && u[i] != 'e' && u[i] != 'E' {
      ExponentStartIsFirst(u, i + 1);
    }
  }

  /** int() accepts only an optional sign followed by a digit group. */
  lemma IntTextShape(t: string)
    ensures IntText(t).Some? <==> IsDigitPart(Unsigned(t))
  { }

  /** `e` or `E`, an optional sign and a digit group. */
  predicate IsExponent(x: string) {
    |x| >= 2 && (x[0] == 'e' || x[0] == 'E') && IsDigitPart(Unsigned(x[1..]))
  }

  /** Digits, a dot and optional digits, or a dot and digits. */
  predicate IsMantissa(m: string) {
    match FindChar(m, '.', 0)
    case None => false
    case Some(d) =>
      var a := m[..d];
      var b := m[d + 1..];
      (IsDigitPart(a) && (b == "" || IsDigitPart(b))) || (a == "" && IsDigitPart(b))
  }

  /** float(t) succeeds on a stripped ASCII text that contains a dot. (The
      dot rules out inf and nan, which float() also accepts.) */
  predicate IsFloatText(t: string) {
    var u := Unsigned(t);
    var e := ExponentStart(u, 0);
    IsMantissa(u[..e]) && (e == |u| || IsExponent(u[e..]))
  }

  /** The value of a stripped bare scalar: true, false and nil; a float where
      the text has a dot, an int otherwise; the text itself where that
      conversion raises ValueError. A float is kept as its text. */
  function Scalar(text: string): (v: Value)
    ensures !v.Dict? && !v.List?
  {
    if text == "true" then Bool(true)
    else if text == "false" then Bool(false)
    else if text == "nil" then Nil
    else if '.' in text then (if IsFloatText(text) then Num(text) else Str(text))
    else
      match IntText(text)
      case Some(n) => Int(n)
      case None => Str(text)
  }

  /** What a bare scalar becomes: true, false and nil are the literals; a text
      with a dot is a float exactly when float() accepts it; a text without one
      is an int exactly when int() accepts it; anything else stays text. */
  lemma ScalarMeaning(text: string)
    ensures Scalar(text) == Bool(true) <==> text == "true"
    ensures Scalar(text) == Bool(false) <==> text == "false"
    ensures Scalar(text) == Nil <==> text == "nil"
    ensures Scalar(text).Num? <==> text !in {"true", "false", "nil"} && '.' in text && IsFloatText(text)
    ensures Scalar(text).Num? ==> Scalar(text).text == text
    ensures Scalar(text).Int? <==> text !in {"true", "false", "nil"} && '.' !in text && IntText(text).Some?
    ensures Scalar(text).Int? ==> Scalar(text).i == IntText(text).value
    ensures Scalar(text).Str? ==> Scalar(text).s == text
  { }

  // ---------------------------------------------------------------- the dict

  /** The number of positional items. */
  function Positionals(items: seq<Item>): nat
    ensures Positionals(items) <= |items|
  {
    if items == [] then 0
    else Positionals(items[..|items| - 1]) + (if items[|items| - 1].Positional? then 1 else 0)
  }

  /** The key item `p` is stored under: its own key, or the value of
      implicit_idx at that point (one more than the positional items before it). */
  function Slot(items: seq<Item>, p: nat): Key
    requires p < |items|
  {
    match items[p]
    case Named(k, _) => k
    case Positional(_) => KInt(Positionals(items[..p]) + 1)
  }

  /** The dict that the stored items build, each assignment in turn. */
  function Assemble(items: seq<Item>): map<Key, Value> {
    if items == [] then map[]
    else Assemble(items[..|items| - 1])[Slot(items, |items| - 1) := items[|items| - 1].v]
  }

  function Cons(it: Item, r: Loop): Loop {
    match r
    case Done(items, end) => Done([it] + items, end)
    case LoopRaised => LoopRaised
    case LoopDiverged => LoopDiverged
  }

  function Concat(its: seq<Item>, r: Loop): Loop {
    match r
    case Done(items, end) => Done(its + items, end)
    case LoopRaised => LoopRaised
    case LoopDiverged => LoopDiverged
  }

  // ---------------------------------------------------------------- the parser

  /** parse_value(s, idx). */
  function ValueAt(s: string, idx: nat): (r: Outcome<Scanned>)
    requires idx <= |s| + 1
    decreases |s| + 1 - idx, 2
    ensures r.Returns? ==> idx <= r.value.end <= |s| + 1
  {
    var i := SkipSpace(s, idx);
    if i >= |s| then Returns(Scanned(Nil, i))
    else if s[i] == '"' || s[i] == '\'' then
      match QuoteClose(s, s[i], i + 1)
      case None => Returns(Scanned(Nil, i))
      case Some(end) => Returns(Scanned(Str(s[i + 1..end]), end + 1))
    else if s[i] == '{' then TableAt(s, i)
    else
      var end := ScalarEnd(s, i);
      Returns(Scanned(Scalar(Strip(s[i..end])), end))
  }

  /** parse_table(s, idx), where s[idx] is the `{`. */
  function TableAt(s: string, idx: nat): (r: Outcome<Scanned>)
    requires idx < |s|
    decreases |s| + 1 - idx, 1
    ensures r.Returns? ==> idx < r.value.end <= |s| + 1 && r.value.v.Dict?
  {
    match EntriesFrom(s, idx + 1)
    case Done(items, end) => Returns(Scanned(Dict(Assemble(items)), end))
    case LoopRaised => Raises
    case LoopDiverged => Diverges
  }

  /** The table loop, from the top of a pass at `idx` on. It returns at the
      closing `}` (or once whitespace runs to the end) with the index after
      it, or with `idx` itself once `idx` has reached the end. */
  function EntriesFrom(s: string, idx: nat): (r: Loop)
    requires idx <= |s| + 1
    decreases |s| + 1 - idx, 6
    ensures r.Done? ==> idx <= r.end <= |s| + 1
    ensures r.Done? ==> r.end >= |s| || (0 < r.end && s[r.end - 1] == '}')
  {
    if idx >= |s| then Done([], idx)
    else
      var i := SkipSpace(s, idx);
      if i >= |s| || s[i] == '}' then Done([], i + 1)
      else
        match EntryAt(s, i)
        case StepRaised => LoopRaised
        case StepDiverged => LoopDiverged
        case Step(item, next) =>
          var j := SkipSeparators(s, next);
          if j == idx then LoopDiverged
          else Cons(item, EntriesFrom(s, j))
  }

  /** One pass of the table loop at `i` (after the whitespace, before a `}`):
      a bracketed key `[...]` followed by `=`, or else an entry read as a
      value. The bracket contents are parsed as a value even when no `=`
      follows. */
  function EntryAt(s: string, i: nat): (r: Step)
    requires i < |s|
    decreases |s| + 1 - i, 5
    ensures r.Step? ==> i <= r.next <= |s| + 1
  {
    if s[i] == '[' && FindChar(s, ']', i).Some? then
      var eb := FindChar(s, ']', i).value;
      BracketEntry(s, i, eb, ValueAt(s[i + 1..eb], 0))
    else PlainEntry(s, i)
  }

  /** A bracketed entry whose contents `s[i + 1..eb]` parsed to `key`: an
      assignment when `=` follows the `]`, otherwise the entry is re-read
      from `[` as a value. */
  function BracketEntry(s: string, i: nat, eb: nat, key: Outcome<Scanned>): (r: Step)
    requires i < eb < |s|
    decreases |s| + 1 - i, 4
    ensures r.Step? ==> i <= r.next <= |s| + 1
  {
    match key
    case Raises => StepRaised
    case Diverges => StepDiverged
    case Returns(k) =>
      var assign := SkipSpace(s, eb + 1);
      if assign < |s| && s[assign] == '=' then Assign(s, k.v, assign + 1)
      else PlainEntry(s, i)
  }

  /** The `if not is_explicit` branch: a value, which is a key when `=` follows. */
  function PlainEntry(s: string, i: nat): (r: Step)
    requires i < |s|
    decreases |s| + 1 - i, 3
    ensures r.Step? ==> i <= r.next <= |s| + 1
  {
    ValueEntry(s, i, ValueAt(s, i))
  }

  /** The value-or-key branch once the value at `i` has been parsed to `parsed`. */
  function ValueEntry(s: string, i: nat, parsed: Outcome<Scanned>): (r: Step)
    requires i < |s| && (parsed.Returns? ==> i <= parsed.value.end <= |s| + 1)
    decreases |s| + 1 - i, 2
    ensures r.Step? ==> i <= r.next <= |s| + 1
  {
    match parsed
    case Raises => StepRaised
    case Diverges => StepDiverged
    case Returns(sc) =>
      var check := SkipSpace(s, sc.end);
      if check < |s| && s[check] == '=' then Assign(s, sc.v, check + 1)
      else Step(Positional(sc.v), sc.end)
  }

  /** The `if is_explicit` branch: the value after `=` stored under `key`. A
      table as a key is unhashable: `result[key] = val` raises TypeError. */
  function Assign(s: string, key: Value, at: nat): (r: Step)
    requires at <= |s|
    decreases |s| + 1 - at, 3
    ensures r.Step? ==> at <= r.next <= |s| + 1
  {
    match ValueAt(s, at)
    case Raises => StepRaised
    case Diverges => StepDiverged
    case Returns(sc) =>
      match KeyOf(key)
      case None => StepRaised
      case Some(k) => Step(Named(k, sc.v), sc.end)
  }

  /** _robust_lua_to_dict. */
  function RobustLuaTable(lua: string): (r: Outcome<Value>)
    ensures r.Returns? ==> r.value.Dict?
  {
    var t := Strip(lua);
    if !(StartsWith(t, "{") && EndsWith(t, "}")) then Returns(Dict(map[]))
    else
      match TableAt(t, 0)
      case Returns(sc) => Returns(sc.v)
      case Raises => Raises
      case Diverges => Diverges
  }

  // ---------------------------------------------------------------- helper lemmas

  lemma ConcatSnoc(its: seq<Item>, it: Item, r: Loop)
    ensures Concat(its, Cons(it, r)) == Concat(its + [it], r)
  {
    if r.Done? {
      assert its + ([it] + r.items) == (its + [it]) + r.items;
    }
  }

  /** A pass of the table loop that meets `}` or the end of the text. */
  lemma EntriesClose(s: string, top: nat, i: nat)
    requires top < |s| && i == SkipSpace(s, top) && (i >= |s| || s[i] == '}')
    ensures EntriesFrom(s, top) == Done([], i + 1)
  { }

  /** A pass of the table loop that reads an entry at `i`. */
  lemma EntriesPass(s: string, top: nat, i: nat, step: Step)
    requires top < |s| && i == SkipSpace(s, top) && i < |s| && s[i] != '}'
    requires step == EntryAt(s, i)
    ensures step.StepRaised? ==> EntriesFrom(s, top) == LoopRaised
    ensures step.StepDiverged? ==> EntriesFrom(s, top) == LoopDiverged
    ensures step.Step? ==> var j := SkipSeparators(s, step.next);
      EntriesFrom(s, top) == if j == top then LoopDiverged else Cons(step.item, EntriesFrom(s, j))
  { }

  lemma AssembleSnoc(items: seq<Item>, it: Item)
    ensures Positionals(items + [it]) == Positionals(items) + (if it.Positional? then 1 else 0)
    ensures Assemble(items + [it]) == Assemble(items)[(if it.Named? then it.key else KInt(Positionals(items) + 1)) := it.v]
  {
    assert (items + [it])[..|items|] == items;
  }

  // ---------------------------------------------------------------- properties

  lemma SlotOfPrefix(items: seq<Item>, n: nat, p: nat)
    requires p < n <= |items|
    ensures Slot(items[..n], p) == Slot(items, p)
  {
    assert items[..n][..p] == items[..p];
  }

  /** implicit_idx only grows along the table. */
  lemma {:induction false} PositionalsGrow(items: seq<Item>, p: nat, q: nat)
    requires p <= q <= |items|
    decreases q - p
    ensures Positionals(items[..p]) + (if p < q && items[p].Positional? then 1 else 0) <= Positionals(items[..q])
  {
    if p < q {
      assert items[..p + 1][..p] == items[..p];
      PositionalsGrow(items, p + 1, q);
    }
  }

  /** Positional items get strictly increasing integer keys, in order. */
  lemma PositionalSlotsIncrease(items: seq<Item>, p: nat, q: nat)
    requires p < q < |items| && items[p].Positional? && items[q].Positional?
    ensures Slot(items, p).i < Slot(items, q).i
  {
    PositionalsGrow(items, p, q);
  }

  /** The dict holds exactly the keys that the items were stored under. */
  lemma {:induction false} AssembleKeys(items: seq<Item>)
    ensures Assemble(items).Keys == set p | 0 <= p < |items| :: Slot(items, p)
  {
    if items != [] {
      var n := |items| - 1;
      AssembleKeys(items[..n]);
      forall p | 0 <= p < n {
        SlotOfPrefix(items, n, p);
      }
    }
  }

  /** A key holds the value of the last item stored under it. */
  lemma {:induction false} LastWriteWins(items: seq<Item>, p: nat)
    requires p < |items|
    requires forall q :: p < q < |items| ==> Slot(items, q) != Slot(items, p)
    ensures Slot(items, p) in Assemble(items) && Assemble(items)[Slot(items, p)] == items[p].v
  {
    var n := |items| - 1;
    if p < n {
      forall q | p < q < n
        ensures Slot(items[..n], q) != Slot(items[..n], p)
      {
        SlotOfPrefix(items, n, q);
        SlotOfPrefix(items, n, p);
      }
      LastWriteWins(items[..n], p);
      SlotOfPrefix(items, n, p);
    }
  }

  /** The keys the positional items are stored under. */
  function PositionalSlots(items: seq<Item>): set<Key> {
    set p | 0 <= p < |items| && items[p].Positional? :: Slot(items, p)
  }

  /** The integer keys 1, 2, ..., n. */
  function IntKeys(n: nat): set<Key> {
    set m | 1 <= m <= n :: KInt(m)
  }

  lemma PositionalSlotsLast(items: seq<Item>)
    requires items != []
    ensures var n := |items| - 1;
      PositionalSlots(items) == PositionalSlots(items[..n]) + (if items[n].Positional? then {Slot(items, n)} else {})
  {
    var n := |items| - 1;
    forall p | 0 <= p < n {
      SlotOfPrefix(items, n, p);
    }
  }

  lemma IntKeysNext(n: nat)
    ensures IntKeys(n + 1) == IntKeys(n) + {KInt(n + 1)}
  {
    assert KInt(n + 1) in IntKeys(n + 1);
  }

  /** The positional items take exactly the keys 1, 2, ..., n. */
  lemma {:induction false} PositionalSlotsConsecutive(items: seq<Item>)
    ensures PositionalSlots(items) == IntKeys(Positionals(items))
  {
    if items != [] {
      var n := |items| - 1;
      PositionalSlotsConsecutive(items[..n]);
      PositionalSlotsLast(items);
      if items[n].Positional? {
        IntKeysNext(Positionals(items[..n]));
      }
    }
  }

  /** A table with no keyed entries is the dict {1: v1, 2: v2, ...}. */
  lemma OnlyPositional(items: seq<Item>)
    requires forall p :: 0 <= p < |items| ==> items[p].Positional?
    ensures Assemble(items).Keys == IntKeys(|items|)
    ensures forall m :: 1 <= m <= |items| ==> Assemble(items)[KInt(m)] == items[m - 1].v
  {
    OnlyPositionalKeys(items);
    forall m | 1 <= m <= |items|
      ensures Assemble(items)[KInt(m)] == items[m - 1].v
    {
      OnlyPositionalValue(items, m - 1);
    }
  }

  lemma OnlyPositionalKeys(items: seq<Item>)
    requires forall p :: 0 <= p < |items| ==> items[p].Positional?
    ensures Assemble(items).Keys == IntKeys(|items|)
  {
    OnlyPositionalSlots(items);
    AssembleKeys(items);
    PositionalSlotsConsecutive(items);
    assert PositionalSlots(items) == set p | 0 <= p < |items| :: Slot(items, p);
  }

  lemma OnlyPositionalValue(items: seq<Item>, p: nat)
    requires forall p :: 0 <= p < |items| ==> items[p].Positional?
    requires p < |items|
    ensures KInt(p + 1) in Assemble(items) && Assemble(items)[KInt(p + 1)] == items[p].v
  {
    OnlyPositionalSlots(items);
    LastWriteWins(items, p);
  }

  lemma {:induction false} OnlyPositionalSlots(items: seq<Item>)
    requires forall p :: 0 <= p < |items| ==> items[p].Positional?
    ensures Positionals(items) == |items|
    ensures forall p :: 0 <= p < |items| ==> Slot(items, p) == KInt(p + 1)
  {
    if items != [] {
      var n := |items| - 1;
      OnlyPositionalSlots(items[..n]);
      forall p | 0 <= p < |items|
        ensures Slot(items, p) == KInt(p + 1)
      {
        if p < n {
          SlotOfPrefix(items, n, p);
        }
      }
    }
  }

  /** An unterminated string at the start of a pass leaves the index where it
      was, so the table loop never ends. */
  lemma UnterminatedStringDiverges(s: string, idx: nat)
    requires idx < |s|
    requires SkipSpace(s, idx) < |s|
    requires var i := SkipSpace(s, idx);
      (s[i] == '"' || s[i] == '\'') && QuoteClose(s, s[i], i + 1).None?
    ensures EntriesFrom(s, idx) == LoopDiverged
  {
    var i := SkipSpace(s, idx);
    assert SkipSpace(s, i) == i;
    assert ValueAt(s, i) == Returns(Scanned(Nil, i));
    assert ValueEntry(s, i, ValueAt(s, i)) == Step(Positional(Nil), i);
    assert EntryAt(s, i) == Step(Positional(Nil), i);
    assert SkipSeparators(s, i) == i;
    if i != idx {
      assert EntriesFrom(s, i) == LoopDiverged;
    }
  }

  /** The input is read only when its stripped text is braced; the result is
      always a dict. */
  lemma UnbracedIsEmpty(lua: string)
    ensures !(StartsWith(Strip(lua), "{") && EndsWith(Strip(lua), "}")) ==> RobustLuaTable(lua) == Returns(Dict(map[]))
    ensures RobustLuaTable(lua).Returns? ==> RobustLuaTable(lua).value.Dict?
  { }

  /** A bracket that `=` does not follow is discarded: the pass re-reads the
      text from `[` as a value. */
  lemma BracketWithoutAssignIsValue(s: string, i: nat, eb: nat)
    requires i < |s| && s[i] == '[' && FindChar(s, ']', i) == Some(eb)
    requires ValueAt(s[i + 1..eb], 0).Returns?
    requires !(SkipSpace(s, eb + 1) < |s| && s[SkipSpace(s, eb + 1)] == '=')
    ensures EntryAt(s, i) == PlainEntry(s, i)
  {
    var key := ValueAt(s[i + 1..eb], 0);
    assert EntryAt(s, i) == BracketEntry(s, i, eb, key);
  }

  /** A value that `=` follows is a key: the pass stores the value after the
      `=` under it. */
  lemma EqualsMakesKey(s: string, i: nat, sc: Scanned)
    requires i < |s| && !(s[i] == '[' && FindChar(s, ']', i).Some?)
    requires ValueAt(s, i) == Returns(sc)
    requires SkipSpace(s, sc.end) < |s| && s[SkipSpace(s, sc.end)] == '='
    ensures EntryAt(s, i) == Assign(s, sc.v, SkipSpace(s, sc.end) + 1)
  {
    assert EntryAt(s, i) == ValueEntry(s, i, ValueAt(s, i));
  }

  /** A bracket that `=` follows is a key: its contents' value is the key of
      the value after the `=`. */
  lemma BracketEqualsMakesKey(s: string, i: nat, eb: nat, k: Scanned)
    requires i < |s| && s[i] == '[' && FindChar(s, ']', i) == Some(eb)
    requires ValueAt(s[i + 1..eb], 0) == Returns(k)
    requires SkipSpace(s, eb + 1) < |s| && s[SkipSpace(s, eb + 1)] == '='
    ensures EntryAt(s, i) == Assign(s, k.v, SkipSpace(s, eb + 1) + 1)
  {
    assert EntryAt(s, i) == BracketEntry(s, i, eb, Returns(k));
  }

  /** A table used as a key is unhashable: once the value after `=` has been
      read, storing it raises TypeError. */
  lemma TableKeyRaises(s: string, key: Value, at: nat)
    requires at <= |s| && (key.Dict? || key.List?)
    ensures Assign(s, key, at) == if ValueAt(s, at).Diverges? then StepDiverged else StepRaised
  { }

  /** Bracket contents are parsed as values: `[1]` gives the integer 1, */
  lemma BracketIntegerKey()
    ensures ValueAt("1", 0) == Returns(Scanned(Int(1), 1))
  {
    var s := "1";
    assert s[0] == '1' && |s| == 1;
    assert SkipSpace(s, 0) == 0;
    assert ScalarEnd(s, 1) == 1;
    assert ScalarEnd(s, 0) == 1;
    assert s[0..1] == s;
    assert LStrip(s) == s && RStrip(s) == s;
    assert IsDigitPart(s) && Digits(s) == s;
    assert DigitsValue(s) == 1;
    assert IntText(s) == Some(1);
  }

  /** and `["K"]` or `['K']` the string K. */
  lemma BracketQuotedKey(q: char)
    requires q == '"' || q == '\''
    ensures ValueAt([q, 'K', q], 0) == Returns(Scanned(Str("K"), 3))
  {
    var s := [q, 'K', q];
    assert SkipSpace(s, 0) == 0;
    assert FindChar(s, q, 2) == Some(2);
    assert FindChar(s, q, 1) == Some(2);
    assert QuoteClose(s, q, 1) == Some(2);
    assert s[1..2] == "K";
  }

  // ---------------------------------------------------------------- the methods

  method SkipWhitespace(s: string, start: nat) returns (j: nat)
    ensures j == SkipSpace(s, start)
  {
    j := start;
    while j < |s| && IsSpace(s[j])
      invariant start <= j && SkipSpace(s, j) == SkipSpace(s, start)
      decreases |s| - j
    {
      j := j + 1;
    }
  }

  method SkipCommas(s: string, start: nat) returns (j: nat)
    ensures j == SkipSeparators(s, start)
  {
    j := start;
    while j < |s| && (IsSpace(s[j]) || s[j] == ',')
      invariant start <= j && SkipSeparators(s, j) == SkipSeparators(s, start)
      decreases |s| - j
    {
      j := j + 1;
    }
  }

  method ScanScalar(s: string, start: nat) returns (j: nat)
    requires start <= |s|
    ensures j == ScalarEnd(s, start)
  {
    j := start;
    while j < |s| && !IsStop(s[j])
      invariant start <= j <= |s| && ScalarEnd(s, j) == ScalarEnd(s, start)
      decreases |s| - j
    {
      j := j + 1;
    }
  }

  /** The string scan of parse_value: repeated s.find(char, end) until the
      quote found does not follow a backslash. */
  method FindClosingQuote(s: string, q: char, start: nat) returns (r: Option<nat>)
    requires 1 <= start <= |s|
    ensures r == QuoteClose(s, q, start)
  {
    var end := start;
    while end < |s|
      invariant start <= end <= |s|
      invariant QuoteClose(s, q, end) == QuoteClose(s, q, start)
      decreases |s| - end
    {
      var found := FindChar(s, q, end);
      if found.None? {
        return None;
      }
      if s[found.value - 1] != '\\' {
        return Some(found.value);
      }
      end := found.value + 1;
    }
    return Some(end);
  }

  /** parse_value. */
  method ParseValue(s: string, start: nat) returns (r: Outcome<Scanned>)
    requires start <= |s| + 1
    decreases |s| + 1 - start, 2
    ensures r == ValueAt(s, start)
  {
    var idx := SkipWhitespace(s, start);
    if idx >= |s| {
      return Returns(Scanned(Nil, idx));
    }
    var c := s[idx];
    if c == '"' || c == '\'' {
      var end := FindClosingQuote(s, c, idx + 1);
      if end.None? {
        // `return None, idx`: the index does not move past the quote
        return Returns(Scanned(Nil, idx));
      }
      return Returns(Scanned(Str(s[idx + 1..end.value]), end.value + 1));
    } else if c == '{' {
      r := ParseTable(s, idx);
    } else {
      var end := ScanScalar(s, idx);
      r := Returns(Scanned(Scalar(Strip(s[idx..end])), end));
    }
  }

  /** One pass of parse_table's loop body from the key detection to the
      assignment: a bracketed key followed by `=`, or else PlainEntry. */
  method ParseEntry(s: string, i: nat) returns (r: Step)
    requires i < |s|
    decreases |s| + 1 - i, 5
    ensures r == EntryAt(s, i)
  {
    if s[i] == '[' {
      var endBracket := FindChar(s, ']', i);
      if endBracket.Some? {
        var key := ParseValue(s[i + 1..endBracket.value], 0);
        r := ParseBracketEntry(s, i, endBracket.value, key);
        return;
      }
    }
    r := ParsePlainEntry(s, i);
  }

  /** The rest of a bracketed entry once its contents have been parsed. */
  method ParseBracketEntry(s: string, i: nat, eb: nat, key: Outcome<Scanned>) returns (r: Step)
    requires i < eb < |s|
    decreases |s| + 1 - i, 4
    ensures r == BracketEntry(s, i, eb, key)
  {
    if key.Raises? {
      return StepRaised;
    } else if key.Diverges? {
      return StepDiverged;
    }
    var assign := SkipWhitespace(s, eb + 1);
    if assign < |s| && s[assign] == '=' {
      r := StoreAssignment(s, key.value.v, assign + 1);
    } else {
      r := ParsePlainEntry(s, i);
    }
  }

  /** The `if not is_explicit` branch: a value, which is a key when `=` follows. */
  method ParsePlainEntry(s: string, i: nat) returns (r: Step)
    requires i < |s|
    decreases |s| + 1 - i, 3
    ensures r == PlainEntry(s, i)
  {
    var parsed := ParseValue(s, i);
    if parsed.Raises? {
      return StepRaised;
    } else if parsed.Diverges? {
      return StepDiverged;
    }
    var check := SkipWhitespace(s, parsed.value.end);
    if check < |s| && s[check] == '=' {
      r := StoreAssignment(s, parsed.value.v, check + 1);
    } else {
      r := Step(Positional(parsed.value.v), parsed.value.end);
    }
  }

  /** The `if is_explicit` branch: parse the value, then `result[key] = val`. */
  method StoreAssignment(s: string, key: Value, at: nat) returns (r: Step)
    requires at <= |s|
    decreases |s| + 1 - at, 3
    ensures r == Assign(s, key, at)
  {
    var stored := ParseValue(s, at);
    if stored.Raises? {
      return StepRaised;
    } else if stored.Diverges? {
      return StepDiverged;
    }
    var k := KeyOf(key);
    if k.None? {
      // result[key] = val with an unhashable key
      return StepRaised;
    }
    return Step(Named(k.value, stored.value.v), stored.value.end);
  }

  /** parse_table, where s[start] is the `{`. */
  method ParseTable(s: string, start: nat) returns (r: Outcome<Scanned>)
    requires start < |s|
    decreases |s| + 1 - start, 1
    ensures r == TableAt(s, start)
  {
    var end, result := TableLoop(s, start);
    match end
    case Returns(e) => return Returns(Scanned(Dict(result), e));
    case Raises => return Raises;
    case Diverges => return Diverges;
  }

  /** The loop of parse_table that fills `result` and counts `implicit_idx`:
      it ends, raises or repeats for ever as EntriesFrom says, and on ending
      `result` holds the stored items. */
  method TableLoop(s: string, start: nat) returns (end: Outcome<nat>, result: map<Key, Value>)
    requires start < |s|
    decreases |s| + 1 - start, 0
    ensures end.Returns? <==> EntriesFrom(s, start + 1).Done?
    ensures end.Raises? <==> EntriesFrom(s, start + 1).LoopRaised?
    ensures end.Returns? ==>
      end.value == EntriesFrom(s, start + 1).end && result == Assemble(EntriesFrom(s, start + 1).items)
  {
    var idx := start + 1;
    result := map[];
    var implicitIdx := 1;
    ghost var items: seq<Item> := [];
    while idx < |s|
      invariant start + 1 <= idx <= |s| + 1
      invariant result == Assemble(items) && implicitIdx == Positionals(items) + 1
      invariant EntriesFrom(s, start + 1) == Concat(items, EntriesFrom(s, idx))
      decreases |s| + 1 - idx
    {
      var top := idx;
      idx := SkipWhitespace(s, idx);
      if idx >= |s| || s[idx] == '}' {
        EntriesClose(s, top, idx);
        assert items + [] == items;
        return Returns(idx + 1), result;
      }
      var step := ParseEntry(s, idx);
      EntriesPass(s, top, idx, step);
      if step.StepRaised? {
        return Raises, result;
      } else if step.StepDiverged? {
        return Diverges, result;
      }
      var item := step.item;
      if item.Named? {
        result := result[item.key := item.v];
      } else {
        result := result[KInt(implicitIdx) := item.v];
        implicitIdx := implicitIdx + 1;
      }
      idx := SkipCommas(s, step.next);
      if idx == top {
        // the next pass would start where this one did and repeat it for ever
        return Diverges, result;
      }
      AssembleSnoc(items, item);
      ConcatSnoc(items, item, EntriesFrom(s, idx));
      items := items + [item];
    }
    assert EntriesFrom(s, idx) == Done([], idx);
    assert items + [] == items;
    return Returns(idx), result;
  }

  /** _robust_lua_to_dict. */
  method RobustLuaToDict(lua: string) returns (r: Outcome<Value>)
    ensures r == RobustLuaTable(lua)
  {
    var t := Strip(lua);
    if !(StartsWith(t, "{") && EndsWith(t, "}")) {
      return Returns(Dict(map[]));
    }
    var res := ParseTable(t, 0);
    match res
    case Returns(sc) => return Returns(sc.v);
    case Raises => return Raises;
    case Diverges => return Diverges;
  }
}
