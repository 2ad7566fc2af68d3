# Ramses-Fusion core, modelled in Dafny

Ramses-Fusion connects Blackmagic Fusion to the Ramses pipeline. This project
models three parts of its library.

- **Saver configuration** (`Ramses-Fusion/lib/fusion_config.py`):
  - reading the render configuration out of the text of a copied Saver node:
    - the brace-counting block extractor;
    - the Lua tokenizer;
    - the recursive-descent Lua-table parser with its `FuID` / `Number` / `Input` unwrapping;
    - `parse_saver_node` itself;
  - the format-to-extension table and `get_extension`;
  - `apply_config`, which writes a configuration onto a Saver tool.
- **The patch's Lua-table parser** `_robust_lua_to_dict` (`Ramses-Fusion/lib/ramses_patches.py`).
  It reads the text by index, stores keyless entries under 1, 2, 3, … and
  accepts either quote character. The patch is meant to replace the
  tokenizing parser, but it rebinds a module attribute
  (`fusion_config._lua_to_dict`, ramses_patches.py:45-46), while
  `parse_saver_node` calls the class's static method
  `FusionConfig._lua_to_dict` (fusion_config.py:57). So `ParseSaverNode`
  always uses the tokenizing parser, and the model treats the two parsers
  as separate operations.
- **The asset browser's rules** (`Ramses-Fusion/lib/asset_browser.py`):
  - `resolve_upstream_source`: a depth-first search up the input pipes that
    passes over steps whose state is NA, OMIT, NO or WAIT;
  - `_find_media`: movies before image frames, hidden files ignored;
  - `populate_versions`: published versions, newest first.

## How the model is built

- `py_model.dfy` (module `PyModel`) holds what the three files share:
  - Python values (`Value`) and hashable keys (`Key`);
  - outcomes (`Returns`, `Raises` for an exception, `Diverges` for a loop that never ends);
  - the `str` operations the code uses.
- Each imperative piece of the source is a `method` with the source's loops.
  Each method is proved equal to a specification function, and the
  properties are lemmas about those functions:
  - the tokenizer, the string and identifier scans;
  - the parser's token cursor (class `FusionParser.Cursor`);
  - the block extractor;
  - the property loops of `parse_saver_node` and `apply_config`;
  - the index loops of the robust parser;
  - the pipe loop of `resolve_upstream_source`;
  - `_find_media`;
  - `populate_versions`.
- The Saver tool and the version tree widget are classes:
  - `SaverTool` holds its inputs and a log of the inputs written;
  - `VersionTree` holds its rows.
- Three kinds of source behaviour are made explicit:
  - **Non-termination.** A tokenizer pass, or a robust-parser table pass,
    that does not advance repeats forever. The model returns `Stuck` /
    `Diverges` for it.
  - **Exceptions.**
    - A non-string key reaching `startswith` raises, and so does `.get` on a list.
    - An unhashable table used as a key raises.
    - `props.items()` on a non-dict raises.
    - In the source's tokenizer-based parser, `peek()[0]` on a missing token raises.
  - **The recursion limit** of `resolve_upstream_source`. A `depth` parameter
    counts the nested calls left before RecursionError.
- Collaborators are passed in as values:
  - the Ramses project and shot: a `Pipeline` of input pipes and status state short names;
  - the folder listings: a map, where a missing folder means `OSError`;
  - the published folders;
  - the presence of a current shot.

Where the tests and the code disagree, the model follows the code.
`tests/test_fusion_config.py:110-119` expects `1.0e-5` and `-4.5` to become
floats. The tokenizer's numeral check (digits with at most one dot) makes them
identifiers, and `FusionTokenizer.SignedAndScientificWordsAreIdentifiers`
states what the code does.

## Model

| member | source | states |
|---|---|---|
| PyModel.Find | Ramses-Fusion/lib/fusion_config.py:47 | `str.find` gives the first index at or after `start` where the substring occurs, None (-1) when there is none |
| FusionTokenizer.StringEnd | Ramses-Fusion/lib/fusion_config.py:171-177 | the string scan stops at a `"` or at the end of the text, never before `start` |
| FusionTokenizer.StringEndIsFirst | Ramses-Fusion/lib/fusion_config.py:171-177 | every `"` the scan passes over directly follows a backslash, so it stops at the first quote the backslash skip leaves |
| FusionTokenizer.WordEnd | Ramses-Fusion/lib/fusion_config.py:197-199 | the identifier scan covers exactly the maximal run of alphanumerics and `._-` |
| FusionTokenizer.DropFirstDot | Ramses-Fusion/lib/fusion_config.py:206 | `replace('.', '', 1)` removes at most one character, keeps only characters of the word, and is the identity without a dot |
| FusionTokenizer.DropFirstDotRemoves | Ramses-Fusion/lib/fusion_config.py:206 | `replace('.', '', 1)` removes exactly the first dot: the result is the word before it followed by the word after it |
| FusionTokenizer.SecondDotSurvives | Ramses-Fusion/lib/fusion_config.py:206 | a second dot is still present after `replace('.', '', 1)` |
| FusionTokenizer.ScanToken | Ramses-Fusion/lib/fusion_config.py:158-211 | one pass never moves the index backwards, and moves it at most one past the end |
| FusionTokenizer.ScanStallsIffBlocked | Ramses-Fusion/lib/fusion_config.py:158-211 | one pass leaves the index unchanged exactly when the character is blocked (no branch consumes it), and then appends an empty ID |
| FusionTokenizer.ScanStep | Ramses-Fusion/lib/fusion_config.py:158-211 | the loop body, with its string and identifier scans, gives what ScanToken says |
| FusionTokenizer.ScanString | Ramses-Fusion/lib/fusion_config.py:171-177 | the `while` loop ends where StringEnd says |
| FusionTokenizer.ScanWord | Ramses-Fusion/lib/fusion_config.py:197-199 | the `while` loop ends where WordEnd says |
| FusionTokenizer.Tokenize | Ramses-Fusion/lib/fusion_config.py:153-212 | the tokenizer loop yields the token list of the specification, or Stuck where the source loops forever |
| FusionTokenizer.StuckOnBlocked | Ramses-Fusion/lib/fusion_config.py:183-211 | the tokenizer is stuck only at a character that is not whitespace, an operator, a quote, a word character or a `[` with a later `]` |
| FusionTokenizer.SafeTextTokenizes | Ramses-Fusion/lib/fusion_config.py:157-211 | a text of whitespace, operators, quotes and word characters always tokenizes |
| FusionTokenizer.NumeralHasOnlyDigitsAndDots | Ramses-Fusion/lib/fusion_config.py:206-210 | a word with a character other than a digit or a dot is never a NUM token |
| FusionTokenizer.DropFirstDotKeeps | Ramses-Fusion/lib/fusion_config.py:206 | every non-dot character of a word survives `replace('.', '', 1)` |
| FusionTokenizer.SignedAndScientificWordsAreIdentifiers | Ramses-Fusion/lib/fusion_config.py:204-210 | `-4.5` and `1.0e-5` become ID tokens holding their text |
| FusionTokenizer.PlainIntegerWordIsNumber | Ramses-Fusion/lib/fusion_config.py:206-208 | `10` becomes the NUM token 10 |
| FusionTokenizer.TwoDotsNotNumeral | Ramses-Fusion/lib/fusion_config.py:206-210 | a word with two dots is not a number and becomes an ID token |
| FusionTokenizer.DigitsWithOneDotAreNumber | Ramses-Fusion/lib/fusion_config.py:206-207 | digits with exactly one dot become the NUM token holding the word (`float(val)`) |
| FusionTokenizer.DigitsAreNumber | Ramses-Fusion/lib/fusion_config.py:206-208 | a non-empty run of digits becomes the NUM token holding its integer value (`int(val)`) |
| FusionTokenizer.DotExamples | Ramses-Fusion/lib/fusion_config.py:206-210 | `1.2.3` is an ID, while `1.5` and `.5` are NUM tokens |
| FusionParser.SkipComma | Ramses-Fusion/lib/fusion_config.py:339-340 | the comma skip consumes at most one token and stays within the tokens |
| FusionParser.ParsedValue | Ramses-Fusion/lib/fusion_config.py:229-270 | parse_value consumes at least one token whenever one is left |
| FusionParser.ParsedTable | Ramses-Fusion/lib/fusion_config.py:272-342 | parse_table consumes its `{` and stays within the tokens |
| FusionParser.TableEntries | Ramses-Fusion/lib/fusion_config.py:279-342 | the table loop ends within the tokens |
| FusionParser.EntryAt | Ramses-Fusion/lib/fusion_config.py:288-340 | every pass of the table loop consumes at least one token |
| FusionParser.EmptyIffAbsent | Ramses-Fusion/lib/fusion_config.py:284-286 | `data_dict` is empty exactly when no `Key = Val` was read; `data_list` is empty exactly when no implicit value was read |
| FusionParser.AssembleShape | Ramses-Fusion/lib/fusion_config.py:279-342 | parse_table gives a list exactly when `}` closed a table with implicit values and no keyed ones; otherwise it gives the dict of the keyed entries, implicit values dropped |
| FusionParser.KeyedMapHas | Ramses-Fusion/lib/fusion_config.py:300-305 | a key is in the dict exactly when some `Key = Val` entry named it |
| FusionParser.KeyedMapLastWins | Ramses-Fusion/lib/fusion_config.py:305 | a key holds the value of the last entry that assigned it |
| FusionParser.BareWordIsImplicit | Ramses-Fusion/lib/fusion_config.py:306-336 | an identifier followed by anything but `=`, `{` or `,` is an implicit value |
| FusionParser.EmptyTableIsEmptyDict | Ramses-Fusion/lib/fusion_config.py:281-286 | `{}` is the empty dict |
| FusionParser.SingletonTable | Ramses-Fusion/lib/fusion_config.py:281-286 | `{ t }` is the one-element list `[t]` |
| FusionParser.ValueTable | Ramses-Fusion/lib/fusion_config.py:298-305 | `{ Value = t }` is the dict `{"Value": t}` |
| FusionParser.FuIDUnwraps | Ramses-Fusion/lib/fusion_config.py:243-256 | `FuID { "X" }` in value position is `"X"` |
| FusionParser.FuIDUnwrapsAsEntry | Ramses-Fusion/lib/fusion_config.py:318-326 | `FuID { "X" }` as an implicit entry is `"X"` |
| FusionParser.NumberUnwraps | Ramses-Fusion/lib/fusion_config.py:258-262 | `Number { Value = v }` is `v`, in value position and as an implicit entry |
| FusionParser.InputIsKept | Ramses-Fusion/lib/fusion_config.py:264-268 | `Input { Value = v }` stays the dict `{"Value": v}`, in value position and as an implicit entry |
| FusionParser.Cursor.constructor | Ramses-Fusion/lib/fusion_config.py:214-216 | the cursor starts on the first token |
| FusionParser.Cursor.Peek | Ramses-Fusion/lib/fusion_config.py:226-227 | peek gives the current token, None past the end |
| FusionParser.Cursor.Next | Ramses-Fusion/lib/fusion_config.py:218-224 | next_tok returns the current token and advances, staying put at the end |
| FusionParser.Cursor.ParseValue | Ramses-Fusion/lib/fusion_config.py:229-270 | parse_value on the shared cursor gives the specification's value and leaves the cursor where it says, or raises where it does |
| FusionParser.Cursor.ParseTable | Ramses-Fusion/lib/fusion_config.py:272-342 | parse_table on the shared cursor agrees with the specification |
| FusionParser.Cursor.ReadEntry | Ramses-Fusion/lib/fusion_config.py:288-340 | one pass of the table loop reads the entry the specification reads |
| FusionParser.RunLuaToDict | Ramses-Fusion/lib/fusion_config.py:214-346 | _lua_to_dict tokenizes and parses one value, as LuaToDict says |
| FusionConfig.BlockEnd | Ramses-Fusion/lib/fusion_config.py:121-130 | gives the first index at or after `i` that holds a `}` balancing the braces since `start` with at least one `{`, None when there is none |
| FusionConfig.ExtractedBlock | Ramses-Fusion/lib/fusion_config.py:118-130 | _extract_block returns `text[start..e]` for the smallest such closing index `e`, None when no index closes the block |
| FusionConfig.ExtractBlock | Ramses-Fusion/lib/fusion_config.py:118-130 | the counter loop returns what ExtractedBlock says |
| FusionConfig.ExtractedBlockIsBalanced | Ramses-Fusion/lib/fusion_config.py:118-130 | a returned block ends in `}` with equal, non-zero brace counts, and no shorter prefix of it closes |
| FusionConfig.FirstClosingBrace | Ramses-Fusion/lib/fusion_config.py:121-129 | a balancing `}` with no earlier balancing `}` ends the block returned |
| FusionConfig.ExtractBlockExample | tests/test_fusion_config.py:79-83 | `"Start { Middle { Inner } } End"` from 6 gives `"{ Middle { Inner } }"` |
| FusionConfig.FormatValue | Ramses-Fusion/lib/fusion_config.py:69-82 | a truthy format only comes from a present OutputFormat input |
| FusionConfig.PropertiesOver | Ramses-Fusion/lib/fusion_config.py:88-100 | after the loop has visited `done`, the properties are exactly the visited string keys starting with the format |
| FusionConfig.FormatProperties | Ramses-Fusion/lib/fusion_config.py:86-100 | the properties are exactly the input keys starting with the format, each holding its value with `{Value: v}` flattened to `v` |
| FusionConfig.ParseSaverNode | Ramses-Fusion/lib/fusion_config.py:30-102 | parse_saver_node with its property loop gives what SaverNode says |
| FusionConfig.SaverNodeNoneIff | Ramses-Fusion/lib/fusion_config.py:42-82 | None exactly for: an empty text; no "Saver"; no "Inputs = {"; an unclosed block; an Inputs table without a truthy OutputFormat |
| FusionConfig.SaverNodeConfig | Ramses-Fusion/lib/fusion_config.py:84-102 | on success the format is the non-empty unwrapped OutputFormat, and the properties are exactly the keys starting with it, flattened |
| FusionConfig.NotASaverNode | tests/test_fusion_config.py:76 | `"Not a Saver node"` gives None |
| FusionConfig.SaverWithEmptyInputs | tests/test_fusion_config.py:77 | `"Saver { Inputs = { } }"` gives None |
| FusionConfig.EmptyInputsParse | Ramses-Fusion/lib/fusion_config.py:272-286 | `"{ }"` parses to the empty dict |
| FusionConfig.ExtensionKnownIff | Ramses-Fusion/lib/fusion_config.py:349-351 | get_extension is non-empty exactly for the IDs of EXTENSION_MAP, and then gives the mapped extension |
| FusionConfig.ExtensionsAreDistinct | Ramses-Fusion/lib/fusion_config.py:10-27 | no two format IDs share an extension |
| FusionConfig.ExtensionNamesFormat | Ramses-Fusion/lib/fusion_config.py:10-27 | the extension of every known format leads back to that format (the map read backwards) |
| FusionConfig.ExtensionExamples | tests/test_fusion_config.py:121-124 | QuickTimeMovies gives mov, OpenEXRFormat gives exr, Unknown gives "" |
| FusionConfig.SaverTool.SetInput | Ramses-Fusion/lib/fusion_config.py:384 | SetInput replaces one input and logs one write |
| FusionConfig.CollectProperties | Ramses-Fusion/lib/fusion_config.py:88-100 | the property loop raises exactly when the inputs are not empty and the format or some key is not a string; otherwise it gives the inputs whose key starts with the format, each flattened (nothing for no inputs) |
| FusionConfig.SetProperties | Ramses-Fusion/lib/fusion_config.py:377-384 | the property loop sets every configured key to its value, touches nothing else and logs exactly the configured keys as written |
| FusionConfig.ApplyConfig | Ramses-Fusion/lib/fusion_config.py:364-386 | apply_config gives the result, the new inputs and the writes of ConfigApplied / WritesOf; a null node gives False |
| FusionConfig.ApplyConfigEffect | Ramses-Fusion/lib/fusion_config.py:364-386 | no truthy format: False and nothing changed. Inputs other than OutputFormat and the properties are kept. Each property is set, and OutputFormat is the format unless a property overrides it. OutputFormat is written exactly when it differs or a property names it |
| RobustParser.SkipSpace | Ramses-Fusion/lib/ramses_patches.py:59-60 | the skip stops at the first non-whitespace character |
| RobustParser.SkipSeparators | Ramses-Fusion/lib/ramses_patches.py:137-138 | the skip stops at the first character that is neither whitespace nor `,` |
| RobustParser.ScalarEnd | Ramses-Fusion/lib/ramses_patches.py:78-80 | a bare scalar runs to the next `,`, `}` or `=` |
| RobustParser.QuoteClose | Ramses-Fusion/lib/ramses_patches.py:66-73 | the closing quote is a quote not preceded by a backslash, or the end of the text; None only when the text does not end in the quote |
| RobustParser.QuoteCloseIsFirst | Ramses-Fusion/lib/ramses_patches.py:66-73 | every quote the search passes over follows a backslash, so the closing quote is the first unescaped one |
| RobustParser.DigitsAreDigits | Ramses-Fusion/lib/ramses_patches.py:89 | a digit group with its underscores removed is all digits |
| RobustParser.UnsignedSuffix | Ramses-Fusion/lib/ramses_patches.py:89 | what follows an optional sign is a suffix of the text, at most one character shorter |
| RobustParser.IntTextShape | Ramses-Fusion/lib/ramses_patches.py:89 | int() accepts exactly an optional sign followed by a digit group |
| RobustParser.ExponentStartIsFirst | Ramses-Fusion/lib/ramses_patches.py:89 | the mantissa of a float text ends at its first `e` or `E` |
| RobustParser.Scalar | Ramses-Fusion/lib/ramses_patches.py:81-91 | a bare scalar is never a table |
| RobustParser.ScalarMeaning | Ramses-Fusion/lib/ramses_patches.py:81-91 | true/false/nil are the literals; text with a dot is a float when float() accepts it; other text is an int when int() accepts it; anything else stays the stripped text |
| RobustParser.Positionals | Ramses-Fusion/lib/ramses_patches.py:96 | implicit_idx - 1 never exceeds the number of entries |
| RobustParser.ValueAt | Ramses-Fusion/lib/ramses_patches.py:58-91 | parse_value never moves the index backwards nor beyond the text |
| RobustParser.TableAt | Ramses-Fusion/lib/ramses_patches.py:93-140 | parse_table returns a dict and an index past its `{` |
| RobustParser.EntriesFrom | Ramses-Fusion/lib/ramses_patches.py:97-140 | the table loop ends just after a `}` or at the end of the text |
| RobustParser.EntryAt | Ramses-Fusion/lib/ramses_patches.py:103-135 | one entry never moves the index backwards |
| RobustParser.PlainEntry | Ramses-Fusion/lib/ramses_patches.py:119-131 | the value-or-key branch never moves the index backwards |
| RobustParser.BracketEntry | Ramses-Fusion/lib/ramses_patches.py:107-119 | a bracketed entry never moves the index backwards |
| RobustParser.Assign | Ramses-Fusion/lib/ramses_patches.py:133-135 | the assignment branch never moves the index backwards |
| RobustParser.RobustLuaTable | Ramses-Fusion/lib/ramses_patches.py:49-143 | _robust_lua_to_dict returns a dict whenever it returns |
| RobustParser.UnbracedIsEmpty | Ramses-Fusion/lib/ramses_patches.py:54-56 | `{}` unless the stripped text starts with `{` and ends with `}` |
| RobustParser.AssembleKeys | Ramses-Fusion/lib/ramses_patches.py:95-135 | the dict holds exactly the keys the entries were stored under |
| RobustParser.LastWriteWins | Ramses-Fusion/lib/ramses_patches.py:129-135 | a key holds the value of the last entry stored under it |
| RobustParser.PositionalsGrow | Ramses-Fusion/lib/ramses_patches.py:130 | implicit_idx only grows, by one per keyless entry |
| RobustParser.PositionalSlotsIncrease | Ramses-Fusion/lib/ramses_patches.py:128-131 | later keyless entries get larger integer keys |
| RobustParser.PositionalSlotsConsecutive | Ramses-Fusion/lib/ramses_patches.py:128-131 | the keyless entries take exactly the keys 1 .. n |
| RobustParser.OnlyPositional | Ramses-Fusion/lib/ramses_patches.py:128-131 | a table of keyless entries is `{1: v1, 2: v2, …}` in order |
| RobustParser.OnlyPositionalSlots | Ramses-Fusion/lib/ramses_patches.py:128-131 | the m-th keyless entry of such a table is stored under m |
| RobustParser.UnterminatedStringDiverges | Ramses-Fusion/lib/ramses_patches.py:119-138 | a string without a closing quote leaves the index in place, so the table loop never ends |
| RobustParser.BracketWithoutAssignIsValue | Ramses-Fusion/lib/ramses_patches.py:107-120 | a bracket not followed by `=` is discarded and the pass re-reads it as a value |
| RobustParser.BracketEqualsMakesKey | Ramses-Fusion/lib/ramses_patches.py:107-119 | a bracket followed by `=` makes its parsed contents the key of the value after the `=` |
| RobustParser.EqualsMakesKey | Ramses-Fusion/lib/ramses_patches.py:121-129 | an unbracketed value followed by `=` becomes the key of the value after the `=` |
| RobustParser.TableKeyRaises | Ramses-Fusion/lib/ramses_patches.py:133-135 | a dict or list used as a key raises TypeError once the value after `=` has been read |
| RobustParser.BracketIntegerKey | Ramses-Fusion/lib/ramses_patches.py:110-111 | the bracket contents `1` parse as the integer 1 |
| RobustParser.BracketQuotedKey | Ramses-Fusion/lib/ramses_patches.py:65-74 | bracket contents `"K"` and `'K'` both parse as the string K |
| RobustParser.SkipWhitespace | Ramses-Fusion/lib/ramses_patches.py:59-60 | the loop ends where SkipSpace says |
| RobustParser.SkipCommas | Ramses-Fusion/lib/ramses_patches.py:137-138 | the loop ends where SkipSeparators says |
| RobustParser.ScanScalar | Ramses-Fusion/lib/ramses_patches.py:78-80 | the loop ends where ScalarEnd says |
| RobustParser.FindClosingQuote | Ramses-Fusion/lib/ramses_patches.py:66-73 | the repeated `find` ends where QuoteClose says |
| RobustParser.ParseValue | Ramses-Fusion/lib/ramses_patches.py:58-91 | parse_value as written gives what ValueAt says |
| RobustParser.ParseEntry | Ramses-Fusion/lib/ramses_patches.py:103-135 | one pass of the loop body gives what EntryAt says |
| RobustParser.ParsePlainEntry | Ramses-Fusion/lib/ramses_patches.py:119-131 | the value-or-key branch gives what PlainEntry says |
| RobustParser.ParseBracketEntry | Ramses-Fusion/lib/ramses_patches.py:111-119 | the rest of a bracketed entry gives what BracketEntry says |
| RobustParser.StoreAssignment | Ramses-Fusion/lib/ramses_patches.py:133-135 | the assignment branch gives what Assign says |
| RobustParser.ParseTable | Ramses-Fusion/lib/ramses_patches.py:93-140 | parse_table gives what TableAt says |
| RobustParser.TableLoop | Ramses-Fusion/lib/ramses_patches.py:94-140 | the loop that fills `result` and counts `implicit_idx` ends, raises or repeats for ever as EntriesFrom says, and on ending `result` is the dict the stored items build |
| RobustParser.RobustLuaToDict | Ramses-Fusion/lib/ramses_patches.py:49-143 | _robust_lua_to_dict as written gives what RobustLuaTable says |
| AssetBrowser.Resolve | Ramses-Fusion/lib/asset_browser.py:130-160 | the search never loops forever; a step it returns is not skipped |
| AssetBrowser.SearchPipes | Ramses-Fusion/lib/asset_browser.py:139-160 | the pipe loop never loops forever; a step it returns is not skipped |
| AssetBrowser.ResolveUpstreamSource | Ramses-Fusion/lib/asset_browser.py:130-160 | the recursive loop gives what Resolve says |
| AssetBrowser.NoStepNoSource | Ramses-Fusion/lib/asset_browser.py:132-137 | None without a current step or without input pipes |
| AssetBrowser.SearchSkipsTo | Ramses-Fusion/lib/asset_browser.py:139-158 | pipes whose skipped steps found nothing pass the search on to the next pipe |
| AssetBrowser.FirstActiveUpstream | Ramses-Fusion/lib/asset_browser.py:139-158 | pipes are tried in order; the first step that is not skipped is returned |
| AssetBrowser.SkippedUpstreamFinds | Ramses-Fusion/lib/asset_browser.py:148-152 | a skipped step's own non-None result is returned, whatever later pipes hold |
| AssetBrowser.ResolveSound | Ramses-Fusion/lib/asset_browser.py:139-158 | a returned step is reached from the start through skipped steps only |
| AssetBrowser.SearchSound | Ramses-Fusion/lib/asset_browser.py:139-158 | the same, from any pipe of the loop on |
| AssetBrowser.SearchNone | Ramses-Fusion/lib/asset_browser.py:139-160 | None means every remaining pipe led to a skipped step whose search found nothing |
| AssetBrowser.NoSourceNoChain | Ramses-Fusion/lib/asset_browser.py:139-160 | None means no chain of skipped steps reaches an active step |
| AssetBrowser.FoundIffChain | Ramses-Fusion/lib/asset_browser.py:130-160 | once it returns, the search finds a step exactly when such a chain exists |
| AssetBrowser.RankedResolves | Ramses-Fusion/lib/asset_browser.py:139-158 | with no cycle of skipped steps, and a recursion limit above the start's rank, the search returns |
| AssetBrowser.RankedSearches | Ramses-Fusion/lib/asset_browser.py:139-158 | the same for the pipe loop |
| AssetBrowser.SkippedSelfLoopRaises | Ramses-Fusion/lib/asset_browser.py:148-150 | with no visited set, a skipped step whose first pipe comes from itself recurses until RecursionError |
| AssetBrowser.DepthIrrelevant | Ramses-Fusion/lib/asset_browser.py:130-160 | once the search returns, a larger recursion limit gives the same answer |
| AssetBrowser.SearchDepthIrrelevant | Ramses-Fusion/lib/asset_browser.py:139-160 | the same for the pipe loop |
| AssetBrowser.SkipStateExamples | Ramses-Fusion/lib/asset_browser.py:143-147 | state short names are compared upper-cased: `wait` and `Omit` skip, `WIP` and no status do not |
| AssetBrowser.Join | Ramses-Fusion/lib/asset_browser.py:200 | `os.path.join(folder, f)` ends with `f` |
| AssetBrowser.Basename | Ramses-Fusion/lib/asset_browser.py:176 | `os.path.basename` is the suffix after the last `/` and holds no `/` |
| AssetBrowser.Visible | Ramses-Fusion/lib/asset_browser.py:193 | the listing keeps exactly the names not starting with `.` |
| AssetBrowser.FirstMovie | Ramses-Fusion/lib/asset_browser.py:198-200 | gives a listed movie, None exactly when no file is a movie |
| AssetBrowser.FirstImage | Ramses-Fusion/lib/asset_browser.py:204-206 | gives a listed image, None exactly when no file is an image |
| AssetBrowser.FindMedia | Ramses-Fusion/lib/asset_browser.py:190-208 | the two first-match loops give what MediaOf says |
| AssetBrowser.MediaIsVisible | Ramses-Fusion/lib/asset_browser.py:193-206 | media found is a listed, non-hidden movie or image joined to the folder |
| AssetBrowser.MoviePreferred | Ramses-Fusion/lib/asset_browser.py:197-200 | the first non-hidden movie wins, even over images listed before it |
| AssetBrowser.ImageWithoutMovie | Ramses-Fusion/lib/asset_browser.py:203-206 | with no movie, the first non-hidden image wins |
| AssetBrowser.NoMediaIff | Ramses-Fusion/lib/asset_browser.py:190-208 | None exactly when the folder cannot be listed or no non-hidden name is a movie or an image |
| AssetBrowser.RowOf | Ramses-Fusion/lib/asset_browser.py:178-188 | a folder adds one row, holding its media path, exactly when it has media |
| AssetBrowser.VersionTree.Clear | Ramses-Fusion/lib/asset_browser.py:165 | Clear empties the tree |
| AssetBrowser.VersionTree.AddTopLevelItem | Ramses-Fusion/lib/asset_browser.py:188 | a row is appended at the end |
| AssetBrowser.PopulateVersions | Ramses-Fusion/lib/asset_browser.py:162-188 | the tree is emptied. Without a shot or step it stays empty; otherwise it holds VersionRows of the published folders |
| AssetBrowser.VersionRowsReversed | Ramses-Fusion/lib/asset_browser.py:174-175 | newest first: the rows of later folders come before those of earlier ones |
| AssetBrowser.VersionRowsCount | Ramses-Fusion/lib/asset_browser.py:175-188 | at most one row per published folder |
| AssetBrowser.VersionRowsSound | Ramses-Fusion/lib/asset_browser.py:175-188 | every row carries the media path `_find_media` gives for one of the folders |
| AssetBrowser.VersionRowsComplete | Ramses-Fusion/lib/asset_browser.py:175-188 | every folder whose media is found has a row carrying that media path |
| AssetBrowser.FirstVisibleImage | Ramses-Fusion/lib/asset_browser.py:192-206 | the image scan returns the first listed image whose name is not hidden |

## Left out

- Floating point: a numeric text with a dot is kept as its text (`Num`), not converted to a float.
  - Float truthiness is read off the digits.
  - A float key is compared by its text, so the key `1.0` differs from `1` here, while Python's dict treats them as the same key.
- FusionConfig.ApplyConfig: compares the current and target format structurally. Python's `!=` treats `1`, `1.0` and `True` as equal, so a format stored as a different but equal type may be written here where the source skips the write.
- Dict insertion order is not modelled.
  - Dicts are maps, so the order of `properties` and the order of `SetInput` calls are not captured.
- FusionConfig.SetProperties: the write log of `SaverTool` is a set of input names, so how many times an input is written is not captured (apply_config writes each property once, and OutputFormat twice only when a property also names it).
- Character classes and case mapping (`isspace`, `isalnum`, `isdigit`, `upper`, `lower`) cover ASCII only. Non-ASCII text is classified as neither space, digit nor letter, and keeps its case.
- `int()` is modelled on ASCII digit groups with underscores. CPython's 4300-digit conversion limit and non-ASCII digits are not modelled.
- The two Lua parsers recurse once per nested table. RecursionError on very deep nesting is not modelled; for `resolve_upstream_source` it is.
- The Ramses API is not part of this model. The collaborators of `resolve_upstream_source` are a `Pipeline` value:
  - steps are identified by their short names;
  - a pipe whose `outputStep()` is None is not represented.
- `os.listdir` is replaced by a map of listings, where a missing folder means `OSError`.
  - `os.path.join` and `os.path.basename` follow the POSIX rules.
  - Windows path handling is not modelled.
- `populate_versions`:
  - the lookup of the tree in `self.dlg` is not modelled;
  - `NewItem` and the two text columns become one `VersionRow`;
  - the current shot is a flag, and its published folders for the step are given.
- `AssetBrowser.show` is not modelled: it is window layout, event callbacks and `os.path.exists`.
- `_patch_fusion_config` and `apply` in ramses_patches.py are not modelled: they monkey-patch `sys.modules` and log.
- The Fusion comp API behind `GetInput` / `SetInput` is reduced to a map of inputs.
