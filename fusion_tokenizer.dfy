/** The tokenizer inside FusionConfig._lua_to_dict (fusion_config.py). It walks
    the text once and emits OP, STR, KEY, BOOL, NUM and ID tokens. Its last
    branch, the identifier scan, can consume no character at all; the source
    then appends an empty ID token and repeats the same step forever. The model
    reports that case as `Stuck(i)`. */
module FusionTokenizer {
  import opened PyModel

  datatype Kind = OP | STR | KEY | BOOL | NUM | ID

  /** A token is a (type, value) pair, as in the source. */
  datatype Token = Token(kind: Kind, val: Value)

  datatype Tokenized = Tokens(toks: seq<Token>) | Stuck(at: nat)

  /** The identifier scan accepts alphanumerics and `._-`. */
  predicate IsWordChar(c: char) {
    IsAlnum(c) || c == '.' || c == '_' || c == '-'
  }

  predicate IsOpChar(c: char) {
    c == '{' || c == '}' || c == '=' || c == ','
  }

  /** Where a string literal whose body starts at `j` ends: at the next `"`
      not skipped by a backslash, or at the end of the text. */
  function StringEnd(s: string, j: nat): (e: nat)
    decreases |s| - j
    ensures j <= |s| ==> j <= e <= |s|
    ensures j > |s| ==> e == j
    ensures e < |s| ==> s[e] == '"'
  {
    if j >= |s| || s[j] == '"' then j
    else if s[j] == '\\' && j + 1 < |s| then StringEnd(s, j + 2)
    else StringEnd(s, j + 1)
  }

  /** Every `"` the string scan passes over directly follows a backslash:
      the scan stops at the first quote that the backslash skip leaves. */
  lemma {:induction false} StringEndIsFirst(s: string, j: nat, k: nat)
    requires j <= |s| && j <= k < StringEnd(s, j) && s[k] == '"'
    ensures k > j && s[k - 1] == '\\'
    decreases |s| - j
  {
    if s[j] == '\\' && j + 1 < |s| {
      if k >= j + 2 {
        StringEndIsFirst(s, j + 2, k);
      }
    } else if k > j {
      StringEndIsFirst(s, j + 1, k);
    }
  }

  /** Where the identifier scan that starts at `j` stops. */
  function WordEnd(s: string, j: nat): (e: nat)
    decreases |s| - j
    ensures j <= |s| ==> j <= e <= |s|
    ensures j > |s| ==> e == j
    ensures forall k :: j <= k < e ==> IsWordChar(s[k])
    ensures e < |s| ==> !IsWordChar(s[e])
  {
    if j >= |s| || !IsWordChar(s[j]) then j else WordEnd(s, j + 1)
  }

  /** w.replace('.', '', 1) */
  function DropFirstDot(w: string): (r: string)
    ensures |r| == |w| || |r| == |w| - 1
    ensures forall k :: 0 <= k < |r| ==> r[k] in w
    ensures '.' !in w ==> r == w
  {
    if w == [] then []
    else if w[0] == '.' then w[1..]
    else [w[0]] + DropFirstDot(w[1..])
  }

  /** `val.replace('.','',1).isdigit()`: digits with at most one dot. */
  predicate IsNumeral(w: string) {
    var d := DropFirstDot(w);
    d != [] && AllDigits(d)
  }

  /** The token a scanned word becomes: a boolean, a number, or an identifier. */
  function WordToken(w: string): Token {
    if w == "true" then Token(BOOL, Bool(true))
    else if w == "false" then Token(BOOL, Bool(false))
    else if IsNumeral(w) then
      (if '.' in w then Token(NUM, Num(w)) else Token(NUM, Int(DigitsValue(w))))
    else Token(ID, Str(w))
  }

  /** `inner[1:-1]` when the stripped bracket contents start and end with a quote. */
  function Unquote(inner: string): string {
    if StartsWith(inner, "\"") && EndsWith(inner, "\"") then Slice(inner, 1, |inner| - 1)
    else inner
  }

  /** No branch of the tokenizer consumes the character at `i`: it is not
      whitespace, an operator, a quote, a `[` with a later `]`, or a word character. */
  predicate Blocked(s: string, i: nat)
    requires i < |s|
  {
    var c := s[i];
    !IsSpace(c) && !IsOpChar(c) && c != '"'
    && !(c == '[' && FindChar(s, ']', i).Some?)
    && !IsWordChar(c)
  }

  /** One pass of the tokenizer's loop body at index `i`: the token it appends
      (none for whitespace) and the next index. */
  function ScanToken(s: string, i: nat): (r: (Option<Token>, nat))
    requires i < |s|
    ensures i <= r.1 <= |s| + 1
  {
    var c := s[i];
    if IsSpace(c) then (None, i + 1)
    else if IsOpChar(c) then (Some(Token(OP, Str([c]))), i + 1)
    else if c == '"' then
      var j := StringEnd(s, i + 1);
      (Some(Token(STR, Str(s[i + 1..j]))), j + 1)
    else if c == '[' && FindChar(s, ']', i).Some? then
      var j := FindChar(s, ']', i).value;
      (Some(Token(KEY, Str(Unquote(Strip(s[i + 1..j]))))), j + 1)
    else
      var j := WordEnd(s, i);
      (Some(WordToken(s[i..j])), j)
  }

  /** One pass stays at index `i` exactly when no branch consumes the
      character there, and it then appends an empty ID. */
  lemma ScanStallsIffBlocked(s: string, i: nat)
    requires i < |s|
    ensures ScanToken(s, i).1 == i <==> Blocked(s, i)
    ensures ScanToken(s, i).1 == i ==> ScanToken(s, i).0 == Some(Token(ID, Str("")))
  {
    if Blocked(s, i) {
      assert WordEnd(s, i) == i;
      assert s[i..i] == "";
    }
  }

  /** Prepends already emitted tokens to the outcome of the rest of the scan. */
  function Prefixed(ts: seq<Token>, r: Tokenized): Tokenized {
    match r
    case Tokens(rest) => Tokens(ts + rest)
    case Stuck(k) => Stuck(k)
  }

  /** The tokenizer from index `i` on. */
  function TokenizeFrom(s: string, i: nat): Tokenized
    requires i <= |s| + 1
    decreases |s| + 1 - i
  {
    if i >= |s| then Tokens([])
    else
      var (t, j) := ScanToken(s, i);
      if j == i then Stuck(i)
      else Prefixed(if t.Some? then [t.value] else [], TokenizeFrom(s, j))
  }

  lemma PrefixedAssoc(a: seq<Token>, b: seq<Token>, r: Tokenized)
    ensures Prefixed(a, Prefixed(b, r)) == Prefixed(a + b, r)
  {
    if r.Tokens? {
      assert a + (b + r.toks) == (a + b) + r.toks;
    }
  }

  /** The string-literal scan of the tokenizer (`while j < n and s[j] != '"'`). */
  method ScanString(s: string, start: nat) returns (e: nat)
    requires start <= |s|
    ensures e == StringEnd(s, start)
  {
    e := start;
    while e < |s| && s[e] != '"'
      invariant start <= e <= |s|
      invariant StringEnd(s, e) == StringEnd(s, start)
      decreases |s| - e
    {
      if s[e] == '\\' && e + 1 < |s| {
        e := e + 2;
      } else {
        e := e + 1;
      }
    }
  }

  /** The identifier scan of the tokenizer. */
  method ScanWord(s: string, start: nat) returns (e: nat)
    requires start <= |s|
    ensures e == WordEnd(s, start)
  {
    e := start;
    while e < |s| && IsWordChar(s[e])
      invariant start <= e <= |s|
      invariant WordEnd(s, e) == WordEnd(s, start)
      decreases |s| - e
    {
      e := e + 1;
    }
  }

  /** One pass of the tokenizer's loop body, with its string and identifier
      scans: the token it appends and the index it moves to. */
  method ScanStep(s: string, i: nat) returns (t: Option<Token>, j: nat)
    requires i < |s|
    ensures (t, j) == ScanToken(s, i)
  {
    var c := s[i];
    if IsSpace(c) {
      t, j := None, i + 1;
    } else if IsOpChar(c) {
      t, j := Some(Token(OP, Str([c]))), i + 1;
    } else if c == '"' {
      var e := ScanString(s, i + 1);
      t, j := Some(Token(STR, Str(s[i + 1..e]))), e + 1;
    } else if c == '[' && FindChar(s, ']', i).Some? {
      var close := FindChar(s, ']', i).value;
      var inner := Strip(s[i + 1..close]);
      t, j := Some(Token(KEY, Str(Unquote(inner)))), close + 1;
    } else {
      var e := ScanWord(s, i);
      t, j := Some(WordToken(s[i..e])), e;
    }
  }

  /** The tokenizer's loop. Where the source would repeat a step forever (the
      identifier scan consumed nothing and an empty ID was appended) it
      returns `Stuck`. */
  method Tokenize(s: string) returns (r: Tokenized)
    ensures r == TokenizeFrom(s, 0)
  {
    var tokens: seq<Token> := [];
    var i := 0;
    var n := |s|;
    while i < n
      invariant i <= n + 1
      invariant TokenizeFrom(s, 0) == Prefixed(tokens, TokenizeFrom(s, i))
      decreases n + 1 - i
    {
      var t, j := ScanStep(s, i);
      if j == i {
        return Stuck(i);
      }
      PrefixedAssoc(tokens, if t.Some? then [t.value] else [], TokenizeFrom(s, j));
      tokens := tokens + (if t.Some? then [t.value] else []);
      i := j;
    }
    return Tokens(tokens);
  }

  /** When the tokenizer is stuck, it is stuck on a blocked character, and the
      loop body there appends an empty ID and leaves the index where it was:
      the source's loop repeats that step without end. */
  lemma {:induction false} StuckOnBlocked(s: string, i: nat)
    requires i <= |s| + 1
    requires TokenizeFrom(s, i).Stuck?
    decreases |s| + 1 - i
    ensures var k := TokenizeFrom(s, i).at;
      i <= k < |s| && Blocked(s, k) && ScanToken(s, k) == (Some(Token(ID, Str(""))), k)
  {
    var (t, j) := ScanToken(s, i);
    ScanStallsIffBlocked(s, i);
    if j != i {
      StuckOnBlocked(s, j);
    }
  }

  /** A text whose characters are all whitespace, operators, quotes or word
      characters is always tokenized to the end. */
  lemma SafeTextTokenizes(s: string)
    requires forall k :: 0 <= k < |s| ==> IsSpace(s[k]) || IsOpChar(s[k]) || s[k] == '"' || IsWordChar(s[k])
    ensures TokenizeFrom(s, 0).Tokens?
  {
    if TokenizeFrom(s, 0).Stuck? {
      StuckOnBlocked(s, 0);
    }
  }

  /** A word is a NUM token only if it holds nothing but digits and dots, so a
      sign or an exponent (`-4.5`, `1.0e-5`) makes it an identifier. */
  lemma {:induction false} NumeralHasOnlyDigitsAndDots(w: string, k: nat)
    requires k < |w| && !IsDigit(w[k]) && w[k] != '.'
    ensures !IsNumeral(w)
    ensures WordToken(w).kind != NUM
  {
    DropFirstDotKeeps(w, k);
  }

  /** Every character of a word other than its first dot survives DropFirstDot. */
  lemma {:induction false} DropFirstDotKeeps(w: string, k: nat)
    requires k < |w| && w[k] != '.'
    ensures exists m :: 0 <= m < |DropFirstDot(w)| && DropFirstDot(w)[m] == w[k]
  {
    if w[0] == '.' {
      assert DropFirstDot(w)[k - 1] == w[k];
    } else if k == 0 {
      assert DropFirstDot(w)[0] == w[0];
    } else {
      DropFirstDotKeeps(w[1..], k - 1);
      var m :| 0 <= m < |DropFirstDot(w[1..])| && DropFirstDot(w[1..])[m] == w[1..][k - 1];
      assert DropFirstDot(w)[m + 1] == w[k];
    }
  }

  /** DropFirstDot removes exactly the first dot of the word. */
  lemma {:induction false} DropFirstDotRemoves(w: string, d: nat)
    requires d < |w| && w[d] == '.' && '.' !in w[..d]
    ensures DropFirstDot(w) == w[..d] + w[d + 1..]
  {
    if d > 0 {
      assert w[0] in w[..d];
      assert '.' !in w[1..][..d - 1] by { assert w[1..][..d - 1] == w[1..d]; }
      DropFirstDotRemoves(w[1..], d - 1);
      assert w[..d] == [w[0]] + w[1..][..d - 1];
      assert w[d + 1..] == w[1..][d..];
    }
  }

  /** A second dot survives DropFirstDot, one place earlier. */
  lemma {:induction false} SecondDotSurvives(w: string, a: nat, b: nat)
    requires a < b < |w| && w[a] == '.' && w[b] == '.'
    ensures b - 1 < |DropFirstDot(w)| && DropFirstDot(w)[b - 1] == '.'
  {
    if w[0] != '.' {
      SecondDotSurvives(w[1..], a - 1, b - 1);
    }
  }

  /** A word with two dots (`1.2.3`) is not a number: it becomes an ID. */
  lemma TwoDotsNotNumeral(w: string, a: nat, b: nat)
    requires a < b < |w| && w[a] == '.' && w[b] == '.'
    ensures !IsNumeral(w)
    ensures WordToken(w) == Token(ID, Str(w))
  {
    SecondDotSurvives(w, a, b);
    assert w != "true" && w != "false" by {
      assert '.' in w && '.' !in "true" && '.' !in "false";
    }
  }

  /** Conversely, digits with one dot are the NUM token holding the word. */
  lemma DigitsWithOneDotAreNumber(w: string, d: nat)
    requires d < |w| && w[d] == '.' && |w| > 1
    requires forall k :: 0 <= k < |w| && k != d ==> IsDigit(w[k])
    ensures IsNumeral(w)
    ensures WordToken(w) == Token(NUM, Num(w))
  {
    assert '.' !in w[..d];
    DropFirstDotRemoves(w, d);
    var r := w[..d] + w[d + 1..];
    assert forall m :: 0 <= m < |r| ==> r[m] == (if m < d then w[m] else w[m + 1]);
    assert w != "true" && w != "false" by {
      assert w[d] == '.';
    }
  }

  /** And digits with no dot are the NUM token holding their integer value. */
  lemma DigitsAreNumber(w: string)
    requires w != [] && AllDigits(w)
    ensures IsNumeral(w)
    ensures WordToken(w) == Token(NUM, Int(DigitsValue(w)))
  {
    assert forall k :: 0 <= k < |w| ==> w[k] != '.';
    assert w != "true" && w != "false" by {
      assert IsDigit(w[0]);
    }
  }

  /** `1.2.3`, `1.5` and `.5`, as the tokenizer reads them. */
  lemma DotExamples()
    ensures WordToken("1.2.3") == Token(ID, Str("1.2.3"))
    ensures WordToken("1.5") == Token(NUM, Num("1.5"))
    ensures WordToken(".5") == Token(NUM, Num(".5"))
  {
    TwoDotsNotNumeral("1.2.3", 1, 3);
    DigitsWithOneDotAreNumber("1.5", 1);
    DigitsWithOneDotAreNumber(".5", 0);
  }

  /** The signed and scientific numbers of tests/test_fusion_config.py's
      scientific-notation case become identifiers, as the code reads them. */
  lemma SignedAndScientificWordsAreIdentifiers()
    ensures WordToken("-4.5") == Token(ID, Str("-4.5"))
    ensures WordToken("1.0e-5") == Token(ID, Str("1.0e-5"))
  {
    NumeralHasOnlyDigitsAndDots("-4.5", 0);
    NumeralHasOnlyDigitsAndDots("1.0e-5", 3);
  }

  /** The plain integer of the same case does become a number. */
  lemma PlainIntegerWordIsNumber()
    ensures WordToken("10") == Token(NUM, Int(10))
  {
    assert "10"[..1] == "1";
    assert DigitsValue("1") == 1;
  }
}
