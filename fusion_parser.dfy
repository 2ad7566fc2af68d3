/** The recursive-descent parser inside FusionConfig._lua_to_dict
    (fusion_config.py): parse_value and parse_table over the token list, with a
    cursor that next_tok advances and peek reads.

    The functions below are its specification: a table is read as a sequence
    of entries (`Key = Val` or an implicit value), and the entries are then
    assembled into a dict or a list the way parse_table does when it returns.
    Class `Cursor` is the imperative parser itself and is proved against them. */
module FusionParser {
  import opened PyModel
  import opened FusionTokenizer

  /** One entry of a table as parse_table's loop reads it. */
  datatype Entry = Keyed(key: Key, v: Value) | Implicit(v: Value)

  /** The entries of a table up to its `}` (closed) or to the end of the
      tokens (not closed), and the index after them; or a raised exception. */
  datatype TableScan = TableScan(entries: seq<Entry>, closed: bool, end: nat) | ScanRaised

  /** A parsed value and the index of the next token; or a raised exception. */
  datatype Parsed = Parsed(v: Value, end: nat) | ParseRaised

  predicate IsOp(t: Token, c: char) {
    t.kind == OP && t.val == Str([c])
  }

  /** "Consume comma if present". */
  function SkipComma(toks: seq<Token>, e: nat): (r: nat)
    requires e <= |toks|
    ensures e <= r <= |toks|
  {
    if e < |toks| && IsOp(toks[e], ',') then e + 1 else e
  }

  /** The unwrapping that parse_value and parse_table apply to `Name { … }`:
      `FuID { v, … }` gives v, `Number { Value = v }` gives v, and any other
      name (Input, Clip, …) keeps the table. */
  function Unwrap(name: Value, table: Value): Value {
    if name == Str("FuID") then
      (if table.List? && |table.items| > 0 then table.items[0] else table)
    else if name == Str("Number") then
      (if table.Dict? && KStr("Value") in table.entries then table.entries[KStr("Value")] else table)
    else table
  }

  function Cons(e: Entry, r: TableScan): TableScan {
    match r
    case TableScan(es, c, end) => TableScan([e] + es, c, end)
    case ScanRaised => ScanRaised
  }

  function Concat(es: seq<Entry>, r: TableScan): TableScan {
    match r
    case TableScan(rest, c, end) => TableScan(es + rest, c, end)
    case ScanRaised => ScanRaised
  }

  /** The dict parse_table fills: each `Key = Val` in turn, a later key overwriting. */
  function KeyedMap(es: seq<Entry>): map<Key, Value> {
    if es == [] then map[]
    else
      var m := KeyedMap(es[..|es| - 1]);
      match es[|es| - 1]
      case Keyed(k, v) => m[k := v]
      case Implicit(_) => m
  }

  /** The list parse_table fills: the implicit values in order. */
  function ImplicitValues(es: seq<Entry>): seq<Value> {
    if es == [] then []
    else
      var l := ImplicitValues(es[..|es| - 1]);
      match es[|es| - 1]
      case Keyed(_, _) => l
      case Implicit(v) => l + [v]
  }

  /** What parse_table returns: at `}`, the list if only implicit entries were
      read and the dict otherwise; when the tokens run out, the dict. */
  function Assemble(es: seq<Entry>, closed: bool): Value {
    var d := KeyedMap(es);
    var l := ImplicitValues(es);
    if closed && |l| != 0 && |d| == 0 then List(l) else Dict(d)
  }

  /** One entry of parse_table's loop and the cursor after it (and after
      its comma); or a raised exception. */
  datatype Step = Step(e: Entry, next: nat) | StepRaised

  /** parse_value with the cursor at `pos`. */
  function ParsedValue(toks: seq<Token>, pos: nat): (r: Parsed)
    requires pos <= |toks|
    decreases |toks| - pos, 3
    ensures r.Parsed? ==> pos <= r.end <= |toks|
    ensures r.Parsed? && pos < |toks| ==> pos < r.end
  {
    if pos == |toks| then Parsed(Nil, pos)
    else if IsOp(toks[pos], '{') then ParsedTable(toks, pos)
    else if toks[pos].kind == ID && pos + 1 < |toks| && IsOp(toks[pos + 1], '{') then
      match ParsedTable(toks, pos + 1)
      case Parsed(table, e) => Parsed(Unwrap(toks[pos].val, table), e)
      case ParseRaised => ParseRaised
    else Parsed(toks[pos].val, pos + 1)
  }

  /** parse_table with the cursor on its `{`. */
  function ParsedTable(toks: seq<Token>, pos: nat): (r: Parsed)
    requires pos < |toks|
    decreases |toks| - pos, 2
    ensures r.Parsed? ==> pos < r.end <= |toks|
  {
    match TableEntries(toks, pos + 1)
    case TableScan(es, closed, e) => Parsed(Assemble(es, closed), e)
    case ScanRaised => ParseRaised
  }

  /** The entries of parse_table's loop from the cursor at `p` on. */
  function TableEntries(toks: seq<Token>, p: nat): (r: TableScan)
    requires p <= |toks|
    decreases |toks| - p, 1
    ensures r.TableScan? ==> p <= r.end <= |toks|
  {
    if p == |toks| then TableScan([], false, p)
    else if IsOp(toks[p], '}') then TableScan([], true, p + 1)
    else
      match EntryAt(toks, p)
      case StepRaised => ScanRaised
      case Step(e, next) => Cons(e, TableEntries(toks, next))
  }

  /** One pass of parse_table's loop with the cursor at `p`, not on `}`. */
  function EntryAt(toks: seq<Token>, p: nat): (r: Step)
    requires p < |toks|
    decreases |toks| - p, 0
    ensures r.Step? ==> p < r.next <= |toks|
  {
    var first := toks[p];
    if p + 1 < |toks| && IsOp(toks[p + 1], '=') then
      match ParsedValue(toks, p + 2)
      case ParseRaised => StepRaised
      case Parsed(v, e) =>
        match KeyOf(first.val)
        case None => StepRaised
        case Some(k) => Step(Keyed(k, v), SkipComma(toks, e))
    else if first.kind == ID && p + 1 == |toks| then
      // `peek()[0]` with peek() None: TypeError
      StepRaised
    else if first.kind == ID && IsOp(toks[p + 1], '{') then
      match ParsedTable(toks, p + 1)
      case ParseRaised => StepRaised
      case Parsed(table, e) => Step(Implicit(Unwrap(first.val, table)), SkipComma(toks, e))
    else
      Step(Implicit(first.val), SkipComma(toks, p + 1))
  }

  /** _lua_to_dict: tokenize, then parse one value from the first token. */
  function LuaToDict(s: string): Outcome<Value> {
    match TokenizeFrom(s, 0)
    case Stuck(_) => Diverges
    case Tokens(toks) =>
      match ParsedValue(toks, 0)
      case Parsed(v, _) => Returns(v)
      case ParseRaised => Raises
  }

  lemma ConcatCons(es: seq<Entry>, e: Entry, r: TableScan)
    ensures Concat(es, Cons(e, r)) == Concat(es + [e], r)
  {
    if r.TableScan? {
      assert es + ([e] + r.entries) == (es + [e]) + r.entries;
    }
  }

  lemma KeyedMapSnoc(es: seq<Entry>, e: Entry)
    ensures KeyedMap(es + [e]) == (if e.Keyed? then KeyedMap(es)[e.key := e.v] else KeyedMap(es))
    ensures ImplicitValues(es + [e]) == (if e.Implicit? then ImplicitValues(es) + [e.v] else ImplicitValues(es))
  {
    assert (es + [e])[..|es|] == es;
  }

  predicate HasKeyed(es: seq<Entry>) {
    exists i :: 0 <= i < |es| && es[i].Keyed?
  }

  predicate HasImplicit(es: seq<Entry>) {
    exists i :: 0 <= i < |es| && es[i].Implicit?
  }

  /** The dict is empty exactly when no `Key = Val` entry was read, and the
      list is empty exactly when no implicit entry was read. */
  lemma {:induction false} EmptyIffAbsent(es: seq<Entry>)
    ensures |KeyedMap(es)| == 0 <==> !HasKeyed(es)
    ensures |ImplicitValues(es)| == 0 <==> !HasImplicit(es)
  {
    if es != [] {
      var init := es[..|es| - 1];
      EmptyIffAbsent(init);
      if HasKeyed(init) {
        var i :| 0 <= i < |init| && init[i].Keyed?;
        assert es[i].Keyed?;
      }
      if HasImplicit(init) {
        var i :| 0 <= i < |init| && init[i].Implicit?;
        assert es[i].Implicit?;
      }
      if HasKeyed(es) && !es[|es| - 1].Keyed? {
        var i :| 0 <= i < |es| && es[i].Keyed?;
        assert init[i].Keyed?;
      }
      if HasImplicit(es) && !es[|es| - 1].Implicit? {
        var i :| 0 <= i < |es| && es[i].Implicit?;
        assert init[i].Implicit?;
      }
      if es[|es| - 1].Keyed? {
        assert es[|es| - 1].key in KeyedMap(es);
      }
    }
  }

  /** parse_table returns a list exactly when the table was closed by `}`, held
      at least one implicit entry and no `Key = Val` entry; otherwise the dict
      of its keyed entries, with every implicit entry dropped. */
  lemma AssembleShape(es: seq<Entry>, closed: bool)
    ensures Assemble(es, closed).List? <==> closed && HasImplicit(es) && !HasKeyed(es)
    ensures Assemble(es, closed).List? ==> Assemble(es, closed).items == ImplicitValues(es)
    ensures Assemble(es, closed).Dict? ==> Assemble(es, closed).entries == KeyedMap(es)
  {
    EmptyIffAbsent(es);
  }

  predicate NamesKey(e: Entry, k: Key) {
    e.Keyed? && e.key == k
  }

  /** A key is in the dict exactly when some `Key = Val` entry named it. */
  lemma {:induction false} KeyedMapHas(es: seq<Entry>, k: Key)
    ensures k in KeyedMap(es) <==> exists i :: 0 <= i < |es| && NamesKey(es[i], k)
  {
    if es != [] {
      var init := es[..|es| - 1];
      KeyedMapHas(init, k);
      if k in KeyedMap(init) {
        var i :| 0 <= i < |init| && NamesKey(init[i], k);
        assert NamesKey(es[i], k);
      }
      if exists i :: 0 <= i < |es| && NamesKey(es[i], k) {
        var i :| 0 <= i < |es| && NamesKey(es[i], k);
        if i < |init| {
          assert NamesKey(init[i], k);
        }
      }
    }
  }

  /** A key holds the value of the last `Key = Val` entry that named it. */
  lemma {:induction false} KeyedMapLastWins(es: seq<Entry>, k: Key, i: nat)
    requires i < |es| && NamesKey(es[i], k)
    requires forall j :: i < j < |es| ==> !NamesKey(es[j], k)
    ensures k in KeyedMap(es) && KeyedMap(es)[k] == es[i].v
  {
    if i < |es| - 1 {
      var init := es[..|es| - 1];
      KeyedMapLastWins(init, k, i);
      assert !NamesKey(es[|es| - 1], k);
    }
  }

  /** A bare word followed by anything but `=`, `{` or `,` is an implicit
      entry of its table, so the words of a `-- comment` become list items. */
  lemma BareWordIsImplicit(toks: seq<Token>, p: nat)
    requires p + 1 < |toks| && toks[p].kind == ID
    requires !IsOp(toks[p + 1], '=') && !IsOp(toks[p + 1], '{') && !IsOp(toks[p + 1], ',')
    ensures TableEntries(toks, p) == Cons(Implicit(toks[p].val), TableEntries(toks, p + 1))
  {
  }

  /** `{}` is an empty dict. */
  lemma EmptyTableIsEmptyDict(toks: seq<Token>, pos: nat)
    requires pos + 2 <= |toks| && IsOp(toks[pos], '{') && IsOp(toks[pos + 1], '}')
    ensures ParsedValue(toks, pos) == Parsed(Dict(map[]), pos + 2)
  {
    assert TableEntries(toks, pos + 1) == TableScan([], true, pos + 2);
  }

  /** `{ t }` for a scalar token t: a closed table whose one entry is implicit. */
  lemma {:induction false} SingletonTable(toks: seq<Token>, pos: nat, t: Token)
    requires pos + 3 <= |toks| && IsOp(toks[pos], '{') && toks[pos + 1] == t && IsOp(toks[pos + 2], '}')
    requires t.kind != OP
    ensures ParsedTable(toks, pos) == Parsed(List([t.val]), pos + 3)
  {
    assert EntryAt(toks, pos + 1) == Step(Implicit(t.val), pos + 2);
    assert TableEntries(toks, pos + 2) == TableScan([], true, pos + 3);
    assert TableEntries(toks, pos + 1) == TableScan([Implicit(t.val)], true, pos + 3);
    assert KeyedMap([Implicit(t.val)]) == map[];
    assert ImplicitValues([Implicit(t.val)]) == [t.val];
  }

  /** `{ Value = t }` for a scalar token t: a dict with the one key "Value". */
  lemma {:induction false} ValueTable(toks: seq<Token>, pos: nat, t: Token)
    requires pos + 5 <= |toks| && IsOp(toks[pos], '{') && toks[pos + 1] == Token(ID, Str("Value"))
    requires IsOp(toks[pos + 2], '=') && toks[pos + 3] == t && IsOp(toks[pos + 4], '}')
    requires t.kind != OP
    ensures ParsedTable(toks, pos) == Parsed(Dict(map[KStr("Value") := t.val]), pos + 5)
  {
    assert ParsedValue(toks, pos + 3) == Parsed(t.val, pos + 4);
    var e := Keyed(KStr("Value"), t.val);
    assert EntryAt(toks, pos + 1) == Step(e, pos + 4);
    assert TableEntries(toks, pos + 4) == TableScan([], true, pos + 5);
    assert TableEntries(toks, pos + 1) == TableScan([e], true, pos + 5);
    assert KeyedMap([e]) == map[KStr("Value") := t.val] by {
      assert [e][..0] == [];
    }
    assert ImplicitValues([e]) == [] by {
      assert [e][..0] == [];
    }
  }

  /** `FuID { t }` unwraps to t's value, as a value after `=`. */
  lemma FuIDUnwraps(toks: seq<Token>, pos: nat, t: Token)
    requires pos + 4 <= |toks| && toks[pos] == Token(ID, Str("FuID"))
    requires IsOp(toks[pos + 1], '{') && toks[pos + 2] == t && IsOp(toks[pos + 3], '}')
    requires t.kind != OP
    ensures ParsedValue(toks, pos) == Parsed(t.val, pos + 4)
  {
    SingletonTable(toks, pos + 1, t);
  }

  /** `FuID { t }` unwraps to t's value as an implicit entry too. */
  lemma FuIDUnwrapsAsEntry(toks: seq<Token>, pos: nat, t: Token)
    requires pos + 4 <= |toks| && toks[pos] == Token(ID, Str("FuID"))
    requires IsOp(toks[pos + 1], '{') && toks[pos + 2] == t && IsOp(toks[pos + 3], '}')
    requires t.kind != OP
    ensures EntryAt(toks, pos) == Step(Implicit(t.val), SkipComma(toks, pos + 4))
  {
    SingletonTable(toks, pos + 1, t);
  }

  /** `Number { Value = t }` unwraps to t's value. */
  lemma NumberUnwraps(toks: seq<Token>, pos: nat, t: Token)
    requires pos + 6 <= |toks| && toks[pos] == Token(ID, Str("Number"))
    requires IsOp(toks[pos + 1], '{') && toks[pos + 2] == Token(ID, Str("Value"))
    requires IsOp(toks[pos + 3], '=') && toks[pos + 4] == t && IsOp(toks[pos + 5], '}')
    requires t.kind != OP
    ensures ParsedValue(toks, pos) == Parsed(t.val, pos + 6)
    ensures EntryAt(toks, pos) == Step(Implicit(t.val), SkipComma(toks, pos + 6))
  {
    ValueTable(toks, pos + 1, t);
  }

  /** `Input { Value = t }` is kept as the dict {"Value": t}. */
  lemma InputIsKept(toks: seq<Token>, pos: nat, t: Token)
    requires pos + 6 <= |toks| && toks[pos] == Token(ID, Str("Input"))
    requires IsOp(toks[pos + 1], '{') && toks[pos + 2] == Token(ID, Str("Value"))
    requires IsOp(toks[pos + 3], '=') && toks[pos + 4] == t && IsOp(toks[pos + 5], '}')
    requires t.kind != OP
    ensures ParsedValue(toks, pos) == Parsed(Dict(map[KStr("Value") := t.val]), pos + 6)
    ensures EntryAt(toks, pos) == Step(Implicit(Dict(map[KStr("Value") := t.val])), SkipComma(toks, pos + 6))
  {
    ValueTable(toks, pos + 1, t);
  }

  /** Whether an outcome of the imperative parser, with the cursor left at
      `pos`, is the one the specification gives. */
  predicate Agrees(r: Outcome<Value>, pos: nat, spec: Parsed) {
    match spec
    case Parsed(v, e) => r == Returns(v) && pos == e
    case ParseRaised => r == Raises
  }

  /** The parser's state: the token list and the cursor (`current_token`),
      which next_tok advances and peek reads. */
  class Cursor {
    const toks: seq<Token>
    var pos: nat

    constructor (toks: seq<Token>)
      ensures this.toks == toks && pos == 0
    {
      this.toks := toks;
      pos := 0;
    }

    /** peek(): the current token, None past the end. */
    function Peek(): (t: Option<Token>)
      reads this
      ensures t.Some? <==> pos < |toks|
      ensures t.Some? ==> t.value == toks[pos]
    {
      if pos < |toks| then Some(toks[pos]) else None
    }

    /** next_tok(): return the current token and advance. */
    method Next() returns (t: Option<Token>)
      requires pos <= |toks|
      modifies this
      ensures t == old(Peek())
      ensures pos == if old(pos) < |toks| then old(pos) + 1 else old(pos)
    {
      t := Peek();
      if pos < |toks| {
        pos := pos + 1;
      }
    }

    /** parse_value(). */
    method ParseValue() returns (r: Outcome<Value>)
      requires pos <= |toks|
      modifies this
      decreases |toks| - pos, 3
      ensures pos <= |toks|
      ensures Agrees(r, pos, ParsedValue(toks, old(pos)))
    {
      var tok := Peek();
      if tok.None? {
        return Returns(Nil);
      }
      if IsOp(tok.value, '{') {
        r := ParseTable();
        return;
      }
      var consumed := Next();
      var after := Peek();
      if tok.value.kind == ID && after.Some? && IsOp(after.value, '{') {
        var table := ParseTable();
        if table.Raises? {
          return Raises;
        }
        return Returns(Unwrap(tok.value.val, table.value));
      }
      return Returns(tok.value.val);
    }

    /** parse_table(), with the cursor on the table's `{`. */
    method ParseTable() returns (r: Outcome<Value>)
      requires pos < |toks|
      modifies this
      decreases |toks| - pos, 2
      ensures pos <= |toks|
      ensures Agrees(r, pos, ParsedTable(toks, old(pos)))
    {
      var consumed := Next();
      var dataDict: map<Key, Value> := map[];
      var dataList: seq<Value> := [];
      ghost var es: seq<Entry> := [];
      ghost var start := pos;
      while Peek().Some?
        invariant start <= pos <= |toks|
        invariant dataDict == KeyedMap(es) && dataList == ImplicitValues(es)
        invariant TableEntries(toks, start) == Concat(es, TableEntries(toks, pos))
        decreases |toks| - pos
      {
        if IsOp(Peek().value, '}') {
          assert TableEntries(toks, pos) == TableScan([], true, pos + 1);
          assert es + [] == es;
          consumed := Next();
          if |dataList| != 0 && |dataDict| == 0 {
            return Returns(List(dataList));
          }
          return Returns(Dict(dataDict));
        }
        var entry := ReadEntry();
        if entry.Raises? {
          return Raises;
        }
        match entry.value {
          case Keyed(k, v) => dataDict := dataDict[k := v];
          case Implicit(v) => dataList := dataList + [v];
        }
        ConcatCons(es, entry.value, TableEntries(toks, pos));
        KeyedMapSnoc(es, entry.value);
        es := es + [entry.value];
      }
      assert es + [] == es;
      return Returns(Dict(dataDict));
    }

    /** The body of parse_table's loop when the current token is not `}`:
        `Key = Val` or an implicit value, then an optional comma. */
    method ReadEntry() returns (r: Outcome<Entry>)
      requires pos < |toks| && !IsOp(toks[pos], '}')
      modifies this
      decreases |toks| - pos, 1
      ensures pos <= |toks|
      ensures match EntryAt(toks, old(pos))
        case Step(e, next) => r == Returns(e) && pos == next
        case StepRaised => r == Raises
    {
      var first := Next();
      var next := Peek();
      if next.Some? && IsOp(next.value, '=') {
        var consumed := Next();
        var v := ParseValue();
        if v.Raises? {
          return Raises;
        }
        var key := KeyOf(first.value.val);
        if key.None? {
          return Raises;
        }
        r := Returns(Keyed(key.value, v.value));
      } else {
        if first.value.kind == ID && next.None? {
          return Raises;
        }
        if first.value.kind == ID && IsOp(next.value, '{') {
          var table := ParseTable();
          if table.Raises? {
            return Raises;
          }
          r := Returns(Implicit(Unwrap(first.value.val, table.value)));
        } else {
          r := Returns(Implicit(first.value.val));
        }
      }
      var comma := Peek();
      if comma.Some? && IsOp(comma.value, ',') {
        var consumed := Next();
      }
    }
  }

  /** _lua_to_dict, as the source runs it. */
  method RunLuaToDict(s: string) returns (r: Outcome<Value>)
    ensures r == LuaToDict(s)
  {
    var tokens := Tokenize(s);
    if tokens.Stuck? {
      return Diverges;
    }
    var cursor := new Cursor(tokens.toks);
    r := cursor.ParseValue();
  }
}
