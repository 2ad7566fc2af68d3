/** FusionConfig (fusion_config.py): reading the render configuration out of a
    copied Saver node (parse_saver_node with its brace-counting block
    extractor), the format-to-extension table, and writing a configuration
    onto a Saver node (apply_config). */
module FusionConfig {
  import opened PyModel
  import opened FusionTokenizer
  import opened FusionParser

  // ------------------------------------------------------------ _extract_block

  /** The number of `{` minus the number of `}` in text[start..i]. */
  function Depth(text: string, start: nat, i: nat): int
    requires start <= i <= |text|
  {
    Count(text[start..i], '{') - Count(text[start..i], '}')
  }

  /** Index `i` ends the block that starts at `start`: it holds a `}`, at least
      one `{` has been seen, and the braces of text[start..i] are balanced. */
  predicate ClosesBlock(text: string, start: nat, i: nat)
    requires start <= i < |text|
  {
    text[i] == '}' && Count(text[start..i + 1], '{') > 0 && Depth(text, start, i + 1) == 0
  }

  /** The first index at or after `i` that ends the block. */
  function BlockEnd(text: string, start: nat, i: nat): (r: Option<nat>)
    requires start <= i <= |text|
    decreases |text| - i
    ensures r.Some? ==> i <= r.value < |text| && ClosesBlock(text, start, r.value)
    ensures r.Some? ==> forall j :: i <= j < r.value ==> !ClosesBlock(text, start, j)
    ensures r.None? ==> forall j :: i <= j < |text| ==> !ClosesBlock(text, start, j)
  {
    if i == |text| then None
    else if ClosesBlock(text, start, i) then Some(i)
    else BlockEnd(text, start, i + 1)
  }

  /** What _extract_block returns: text[start..i] up to and including the first
      `}` that balances the braces seen since `start`, or None. */
  function ExtractedBlock(text: string, start: nat): (r: Option<string>)
    ensures r.Some? ==> exists e :: start <= e < |text| && ClosesBlock(text, start, e)
                           && r.value == text[start..e + 1]
                           && forall j :: start <= j < e ==> !ClosesBlock(text, start, j)
    ensures r.None? ==> forall j :: start <= j < |text| ==> !ClosesBlock(text, start, j)
  {
    if start > |text| then None
    else
      match BlockEnd(text, start, start)
      case Some(e) => Some(text[start..e + 1])
      case None => None
  }

  lemma CountStep(text: string, start: nat, i: nat, c: char)
    requires start <= i < |text|
    ensures Count(text[start..i + 1], c) == Count(text[start..i], c) + (if text[i] == c then 1 else 0)
  {
    assert text[start..i + 1][..i - start] == text[start..i];
  }

  /** _extract_block: the brace-counting loop. */
  method ExtractBlock(text: string, start: nat) returns (r: Option<string>)
    ensures r == ExtractedBlock(text, start)
  {
    if start >= |text| {
      // range(start_index, len(text)) is empty
      return None;
    }
    var count := 0;
    var foundStart := false;
    var i := start;
    while i < |text|
      invariant start <= i <= |text|
      invariant count == Depth(text, start, i)
      invariant foundStart == (Count(text[start..i], '{') > 0)
      invariant forall j :: start <= j < i ==> !ClosesBlock(text, start, j)
      decreases |text| - i
    {
      var c := text[i];
      CountStep(text, start, i, '{');
      CountStep(text, start, i, '}');
      if c == '{' {
        count := count + 1;
        foundStart := true;
      } else if c == '}' {
        count := count - 1;
        if foundStart && count == 0 {
          assert ClosesBlock(text, start, i);
          return Some(text[start..i + 1]);
        }
      }
      i := i + 1;
    }
    return None;
  }

  // ------------------------------------------------------------ parse_saver_node

  /** The result of parse_saver_node: the output format and its properties. */
  datatype SaverConfig = SaverConfig(format: string, properties: map<string, Value>)

  /** `Input { Value = v }` flattened to v; any other value as it is. */
  function Flatten(v: Value): Value {
    if v.Dict? && KStr("Value") in v.entries then v.entries[KStr("Value")] else v
  }

  /** get_val("OutputFormat"): Nil when the input is missing or falsy,
      otherwise the input flattened. */
  function FormatValue(inputs: map<Key, Value>): (v: Value)
    ensures Truthy(v) ==> KStr("OutputFormat") in inputs
  {
    var node := if KStr("OutputFormat") in inputs then inputs[KStr("OutputFormat")] else Nil;
    if !Truthy(node) then Nil else Flatten(node)
  }

  predicate AllStringKeys(inputs: map<Key, Value>) {
    forall k :: k in inputs ==> k.KStr?
  }

  /** The properties parse_saver_node keeps from the inputs in `done`: the
      string keys that start with the format, with their values flattened. */
  function PropertiesOver(inputs: map<Key, Value>, format: string, done: set<Key>): (props: map<string, Value>)
    ensures forall name :: name in props <==> KStr(name) in done && KStr(name) in inputs && StartsWith(name, format)
  {
    map k | k in done && k in inputs && k.KStr? && StartsWith(k.s, format) :: k.s := Flatten(inputs[k])
  }

  /** The properties of a whole Inputs table: exactly its keys that start with
      the format, each holding its value flattened. */
  function FormatProperties(inputs: map<Key, Value>, format: string): (props: map<string, Value>)
    ensures forall name :: name in props <==> KStr(name) in inputs && StartsWith(name, format)
    ensures forall name :: name in props ==> props[name] == Flatten(inputs[KStr(name)])
  {
    PropertiesOver(inputs, format, inputs.Keys)
  }

  /** Steps 3 and 4 of parse_saver_node on the parsed Inputs table. `.get` on a
      list, and `startswith` on a non-string key or with a non-string format,
      raise. */
  function ConfigFromInputs(data: Value): Outcome<Option<SaverConfig>> {
    if !data.Dict? then Raises
    else
      var fmt := FormatValue(data.entries);
      if !Truthy(fmt) then Returns(None)
      else if !fmt.Str? || !AllStringKeys(data.entries) then Raises
      else Returns(Some(SaverConfig(fmt.s, FormatProperties(data.entries, fmt.s))))
  }

  /** parse_saver_node. */
  function SaverNode(text: string): Outcome<Option<SaverConfig>> {
    if text == "" || !Contains(text, "Saver") then Returns(None)
    else
      match Find(text, "Inputs = {", 0)
      case None => Returns(None)
      case Some(at) =>
        // at + 9 is the `{` of "Inputs = {"
        match ExtractedBlock(text, at + 9)
        case None => Returns(None)
        case Some(block) =>
          match LuaToDict(block)
          case Returns(data) => ConfigFromInputs(data)
          case Raises => Raises
          case Diverges => Diverges
  }

  /** parse_saver_node, as the source runs it. */
  method ParseSaverNode(text: string) returns (r: Outcome<Option<SaverConfig>>)
    ensures r == SaverNode(text)
  {
    if text == "" || !Contains(text, "Saver") {
      return Returns(None);
    }
    var inputsStart := Find(text, "Inputs = {", 0);
    if inputsStart.None? {
      return Returns(None);
    }
    var block := ExtractBlock(text, inputsStart.value + 9);
    if block.None? {
      return Returns(None);
    }
    var parsed := RunLuaToDict(block.value);
    if parsed.Raises? {
      return Raises;
    } else if parsed.Diverges? {
      return Diverges;
    }
    var data := parsed.value;
    if !data.Dict? {
      return Raises;
    }
    var inputs := data.entries;
    var fmt := FormatValue(inputs);
    if !Truthy(fmt) {
      return Returns(None);
    }
    var props := CollectProperties(inputs, fmt);
    if props.Raises? {
      return Raises;
    }
    return Returns(Some(SaverConfig(fmt.s, props.value)));
  }

  /** Visiting one more key adds it to the properties when it starts with the
      format. */
  lemma PropertiesOverStep(inputs: map<Key, Value>, format: string, done: set<Key>, key: Key)
    requires key in inputs && key.KStr?
    ensures PropertiesOver(inputs, format, done + {key})
      == if StartsWith(key.s, format) then PropertiesOver(inputs, format, done)[key.s := Flatten(inputs[key])]
         else PropertiesOver(inputs, format, done)
  { }

  /** The `for key, val in inputs_data.items()` loop of parse_saver_node:
      `startswith` on a key that is not a string, or with a format that is
      not a string, raises. */
  method CollectProperties(inputs: map<Key, Value>, fmt: Value) returns (r: Outcome<map<string, Value>>)
    ensures r.Raises? <==> inputs != map[] && (!fmt.Str? || !AllStringKeys(inputs))
    ensures r.Returns? && inputs == map[] ==> r.value == map[]
    ensures r.Returns? && inputs != map[] ==> fmt.Str? && r.value == FormatProperties(inputs, fmt.s)
    ensures !r.Diverges?
  {
    var props: map<string, Value> := map[];
    var todo := inputs.Keys;
    while todo != {}
      invariant todo <= inputs.Keys
      invariant forall k :: k in inputs.Keys - todo ==> k.KStr?
      invariant todo != inputs.Keys ==> fmt.Str?
      invariant todo == inputs.Keys ==> props == map[]
      invariant fmt.Str? ==> props == PropertiesOver(inputs, fmt.s, inputs.Keys - todo)
      decreases todo
    {
      var key :| key in todo;
      if !key.KStr? || !fmt.Str? {
        // key.startswith(format) raises AttributeError or TypeError
        return Raises;
      }
      ghost var done := inputs.Keys - todo;
      PropertiesOverStep(inputs, fmt.s, done, key);
      if StartsWith(key.s, fmt.s) {
        props := props[key.s := Flatten(inputs[key])];
      }
      todo := todo - {key};
      assert inputs.Keys - todo == done + {key};
    }
    assert inputs.Keys - todo == inputs.Keys;
    return Returns(props);
  }

  // ------------------------------------------------------------ get_extension

  /** EXTENSION_MAP: the default file extension of each Fusion format ID. */
  const ExtensionMap: map<string, string> := map[
    "QuickTimeMovies" := "mov",
    "OpenEXRFormat" := "exr",
    "TiffFormat" := "tif",
    "DPXFormat" := "dpx",
    "MXFFormat" := "mxf",
    "JpegFormat" := "jpg",
    "PngFormat" := "png",
    "TargaFormat" := "tga",
    "CineonFormat" := "cin",
    "SGIFormat" := "sgi",
    "AVIFormat" := "avi",
    "BMPFormat" := "bmp",
    "PhotoshopFormat" := "psd",
    "SoftimageFormat" := "pic",
    "MayaFormat" := "iff",
    "Jpeg2000Format" := "jp2"
  ]

  /** get_extension: EXTENSION_MAP.get(format_id, ""). */
  function GetExtension(formatId: string): string {
    if formatId in ExtensionMap then ExtensionMap[formatId] else ""
  }

  // ------------------------------------------------------------ apply_config

  /** A Saver tool as apply_config sees it: its inputs, and the set of
      names that SetInput has been called with. */
  class SaverTool {
    var inputs: map<Key, Value>
    var written: set<Key>

    constructor (inputs: map<Key, Value>)
      ensures this.inputs == inputs && written == {}
    {
      this.inputs := inputs;
      written := {};
    }

    /** GetInput: None for an input that is not set. */
    function GetInput(name: Key): Value
      reads this
    {
      if name in inputs then inputs[name] else Nil
    }

    method SetInput(name: Key, v: Value)
      modifies this
      ensures inputs == old(inputs)[name := v]
      ensures written == old(written) + {name}
    {
      inputs := inputs[name := v];
      written := written + {name};
    }
  }

  /** How apply_config ends, and the inputs it leaves on the node. */
  datatype Applied = Applied(result: Outcome<bool>, inputs: map<Key, Value>)

  function Lookup(config: map<string, Value>, key: string, default: Value): Value {
    if key in config then config[key] else default
  }

  /** Whether apply_config writes OutputFormat: only when it differs. */
  predicate FormatDiffers(inputs: map<Key, Value>, format: Value) {
    (if KStr("OutputFormat") in inputs then inputs[KStr("OutputFormat")] else Nil) != format
  }

  /** apply_config on a node whose inputs are `inputs`. */
  function ConfigApplied(inputs: map<Key, Value>, config: map<string, Value>): Applied {
    var format := Lookup(config, "format", Nil);
    if config == map[] || !Truthy(format) then Applied(Returns(false), inputs)
    else
      var withFormat := if FormatDiffers(inputs, format) then inputs[KStr("OutputFormat") := format] else inputs;
      var props := Lookup(config, "properties", Dict(map[]));
      if !props.Dict? then Applied(Raises, withFormat)   // props.items() on a non-dict
      else Applied(Returns(true), withFormat + props.entries)
  }

  /** One pass of the property loop: setting `k` moves it from `todo` to the
      properties already applied. */
  lemma PropertyStep(m: map<Key, Value>, props: map<Key, Value>, todo: set<Key>, k: Key)
    requires k in todo && todo <= props.Keys
    ensures (m + (props - todo))[k := props[k]] == m + (props - (todo - {k}))
  {
    assert props.Keys - (todo - {k}) == (props.Keys - todo) + {k};
    var a := (m + (props - todo))[k := props[k]];
    var b := m + (props - (todo - {k}));
    assert a.Keys == b.Keys;
  }

  /** The `for key, value in props.items()` loop of apply_config: one SetInput
      per property, in some order. */
  method SetProperties(node: SaverTool, props: map<Key, Value>)
    modifies node
    ensures node.inputs == old(node.inputs) + props
    ensures node.written == old(node.written) + props.Keys
  {
    ghost var in0, w0 := node.inputs, node.written;
    var todo := props.Keys;
    while todo != {}
      invariant todo <= props.Keys
      invariant node.inputs == in0 + (props - todo)
      invariant node.written == w0 + (props.Keys - todo)
      decreases todo
    {
      var key :| key in todo;
      PropertyStep(in0, props, todo, key);
      node.SetInput(key, props[key]);
      todo := todo - {key};
    }
    assert props - {} == props && props.Keys - {} == props.Keys;
  }

  /** apply_config. */
  method ApplyConfig(node: SaverTool?, config: map<string, Value>) returns (r: Outcome<bool>)
    modifies node
    ensures node == null ==> r == Returns(false)
    ensures node != null ==> r == ConfigApplied(old(node.inputs), config).result
    ensures node != null ==> node.inputs == ConfigApplied(old(node.inputs), config).inputs
    ensures node != null ==> node.written == old(node.written) + WritesOf(old(node.inputs), config)
  {
    if node == null || config == map[] {
      return Returns(false);
    }
    var targetFormat := Lookup(config, "format", Nil);
    if !Truthy(targetFormat) {
      return Returns(false);
    }
    var currentFormat := node.GetInput(KStr("OutputFormat"));
    if currentFormat != targetFormat {
      node.SetInput(KStr("OutputFormat"), targetFormat);
    }
    var props := Lookup(config, "properties", Dict(map[]));
    if !props.Dict? {
      // props.items() on a value that is not a dict
      return Raises;
    }
    SetProperties(node, props.entries);
    return Returns(true);
  }

  /** The inputs apply_config writes with SetInput. */
  function WritesOf(inputs: map<Key, Value>, config: map<string, Value>): set<Key> {
    var format := Lookup(config, "format", Nil);
    if config == map[] || !Truthy(format) then {}
    else
      var props := Lookup(config, "properties", Dict(map[]));
      (if FormatDiffers(inputs, format) then {KStr("OutputFormat")} else {})
      + (if props.Dict? then props.entries.Keys else {})
  }

  // ------------------------------------------------------------ properties

  /** A block that _extract_block returns is balanced and ends with the `}`
      that balances it; no shorter piece of it closes the block. */
  lemma ExtractedBlockIsBalanced(text: string, start: nat)
    requires ExtractedBlock(text, start).Some?
    ensures var b := ExtractedBlock(text, start).value;
      |b| > 0 && b[|b| - 1] == '}' && Count(b, '{') == Count(b, '}') > 0
      && forall e :: 0 < e < |b| ==> !(b[e - 1] == '}' && Count(b[..e], '{') > 0 && Count(b[..e], '{') == Count(b[..e], '}'))
  {
    var e :| start <= e < |text| && ClosesBlock(text, start, e)
              && ExtractedBlock(text, start).value == text[start..e + 1]
              && forall j :: start <= j < e ==> !ClosesBlock(text, start, j);
    var b := text[start..e + 1];
    assert b[..|b|] == b;
    forall m | 0 < m < |b|
      ensures !(b[m - 1] == '}' && Count(b[..m], '{') > 0 && Count(b[..m], '{') == Count(b[..m], '}'))
    {
      PrefixClosesBlock(text, start, e, m);
    }
  }

  /** Whether a prefix of text[start..e + 1] closes the block is ClosesBlock
      at the prefix's last index. */
  lemma PrefixClosesBlock(text: string, start: nat, e: nat, m: nat)
    requires start <= e < |text| && 0 < m <= e + 1 - start
    ensures var b := text[start..e + 1];
      (b[m - 1] == '}' && Count(b[..m], '{') > 0 && Count(b[..m], '{') == Count(b[..m], '}'))
      <==> ClosesBlock(text, start, start + m - 1)
  {
    var b := text[start..e + 1];
    assert b[..m] == text[start..start + m];
    assert b[m - 1] == text[start + m - 1];
  }

  /** Brace counts of the block in the brace-extraction case. */
  lemma ExampleBlockCounts(c: char)
    requires c == '{' || c == '}'
    ensures Count("{" + " Middle " + "{" + " Inner " + "}", c) == if c == '{' then 2 else 1
    ensures Count("{" + " Middle " + "{" + " Inner " + "}" + " " + "}", c) == 2
  {
    CountAppend("{", " Middle ", c);
    CountAppend("{" + " Middle ", "{", c);
    CountAppend("{" + " Middle " + "{", " Inner ", c);
    CountAppend("{" + " Middle " + "{" + " Inner ", "}", c);
    CountAppend("{" + " Middle " + "{" + " Inner " + "}", " ", c);
    CountAppend("{" + " Middle " + "{" + " Inner " + "}" + " ", "}", c);
    CountAbsent(" Middle ", c);
    CountAbsent(" Inner ", c);
    CountAbsent(" ", c);
    assert "{"[..0] == [] && "}"[..0] == [];
  }

  /** A `}` that balances the block, with no earlier `}` that does, ends the
      extracted block. */
  lemma FirstClosingBrace(text: string, start: nat, e: nat)
    requires start <= e < |text| && ClosesBlock(text, start, e)
    requires forall j :: start <= j < e && text[j] == '}' ==> !ClosesBlock(text, start, j)
    ensures ExtractedBlock(text, start) == Some(text[start..e + 1])
  { }

  /** The block of the brace-extraction case, in pieces. */
  function ExampleBlock(): string {
    "{" + " Middle " + "{" + " Inner " + "}" + " " + "}"
  }

  /** The text of the brace-extraction case. */
  function ExampleText(): string {
    "Start " + ExampleBlock() + " End"
  }

  /** Where the braces of the brace-extraction case close. */
  lemma ExampleBraces()
    ensures ClosesBlock(ExampleText(), 6, 25)
    ensures forall j :: 6 <= j < 25 && ExampleText()[j] == '}' ==> !ClosesBlock(ExampleText(), 6, j)
  {
    var open := "{" + " Middle " + "{" + " Inner ";
    var text := ExampleText();
    assert ExampleBlock() == open + "}" + " " + "}";
    assert text == "Start " + open + "}" + " " + "}" + " End";
    assert text[6..24] == open + "}";
    assert text[6..26] == open + "}" + " " + "}";
    ExampleBlockCounts('{');
    ExampleBlockCounts('}');
    assert '}' !in open;
    forall j | 6 <= j < 23
      ensures text[j] != '}'
    {
      assert text[j] == open[j - 6];
    }
    assert !ClosesBlock(text, 6, 23);
  }

  /** The brace-extraction case of tests/test_fusion_config.py. */
  lemma ExtractBlockExample()
    ensures ExtractedBlock("Start { Middle { Inner } } End", 6) == Some("{ Middle { Inner } }")
  {
    assert ExampleBlock() == "{ Middle { Inner } }";
    assert ExampleText() == "Start { Middle { Inner } } End";
    assert ExampleText()[6..26] == ExampleBlock();
    ExampleBraces();
    FirstClosingBrace(ExampleText(), 6, 25);
  }

  /** parse_saver_node returns None exactly when the text is empty or names
      no Saver, when "Inputs = {" is absent, when the Inputs block never
      closes, or when the parsed Inputs table has no truthy OutputFormat. */
  lemma SaverNodeNoneIff(text: string)
    ensures SaverNode(text) == Returns(None) <==>
      text == "" || !Contains(text, "Saver") || Find(text, "Inputs = {", 0).None?
      || (var b := ExtractedBlock(text, Find(text, "Inputs = {", 0).value + 9);
          b.None?
          || (var d := LuaToDict(b.value);
              d.Returns? && d.value.Dict? && !Truthy(FormatValue(d.value.entries))))
  {
    if text != "" && Contains(text, "Saver") && Find(text, "Inputs = {", 0).Some? {
      var b := ExtractedBlock(text, Find(text, "Inputs = {", 0).value + 9);
      if b.Some? && LuaToDict(b.value).Returns? {
        ConfigFromInputsNone(LuaToDict(b.value).value);
      }
    }
  }

  /** The parsed Inputs table gives None exactly when it is a dict without a
      truthy OutputFormat. */
  lemma ConfigFromInputsNone(data: Value)
    ensures ConfigFromInputs(data) == Returns(None) <==> data.Dict? && !Truthy(FormatValue(data.entries))
  { }

  /** On success the format is the non-empty, unwrapped OutputFormat of the
      parsed Inputs table, and the properties are exactly the table's keys
      that start with the format, each with its value flattened. */
  lemma SaverNodeConfig(text: string, c: SaverConfig)
    requires SaverNode(text) == Returns(Some(c))
    ensures Find(text, "Inputs = {", 0).Some?
    ensures ExtractedBlock(text, Find(text, "Inputs = {", 0).value + 9).Some?
    ensures var d := LuaToDict(ExtractedBlock(text, Find(text, "Inputs = {", 0).value + 9).value);
      d.Returns? && d.value.Dict?
      && FormatValue(d.value.entries) == Str(c.format) && c.format != ""
      && (forall name :: name in c.properties <==> KStr(name) in d.value.entries && StartsWith(name, c.format))
      && (forall name :: name in c.properties ==> c.properties[name] == Flatten(d.value.entries[KStr(name)]))
  { }

  /** The first invalid-text case of tests/test_fusion_config.py: the text
      names a Saver but has no Inputs block. */
  lemma NotASaverNode()
    ensures SaverNode("Not a Saver node") == Returns(None)
  {
    var text := "Not a " + "Saver" + " node";
    assert text == "Not a Saver node";
    assert OccursAt(text, "Saver", 6);
    FindAbsentFirst(text, "Inputs = {", 0);
  }

  lemma EmptyBlockCounts(c: char)
    requires c == '{' || c == '}'
    ensures Count("{" + " " + "}", c) == 1
  {
    CountAppend("{", " ", c);
    CountAppend("{" + " ", "}", c);
    CountAbsent(" ", c);
    assert "{"[..0] == [] && "}"[..0] == [];
  }

  /** The second invalid-text case: an empty Inputs table has no OutputFormat. */
  lemma SaverWithEmptyInputs()
    ensures SaverNode("Saver { Inputs = { } }") == Returns(None)
  {
    EmptySaverIsLiteral();
    EmptySaverFind();
    EmptySaverBlock();
    EmptyInputsParse();
  }

  /** The text of the empty-Inputs case, in pieces. */
  function EmptySaverText(): string {
    "Saver { " + "Inputs = {" + " }" + " }"
  }

  /** The text of the empty-Inputs case is the test's literal. Stated on its
      own: proving it inside SaverWithEmptyInputs is much more expensive. */
  lemma EmptySaverIsLiteral()
    ensures EmptySaverText() == "Saver { Inputs = { } }"
  { }

  /** The empty-Inputs case names a Saver, and its "Inputs = {" is at 8. */
  lemma EmptySaverFind()
    ensures Contains(EmptySaverText(), "Saver")
    ensures Find(EmptySaverText(), "Inputs = {", 0) == Some(8)
  {
    var head := "Saver { ";
    var text := EmptySaverText();
    assert OccursAt(text, "Saver", 0);
    assert OccursAt(text, "Inputs = {", 8);
    assert 'I' !in head;
    forall k | 0 <= k < 8
      ensures text[k] != 'I'
    {
      assert text[k] == head[k];
    }
    FindAt(text, "Inputs = {", 0, 8);
  }

  /** Its Inputs block is `{ }`. */
  lemma EmptySaverBlock()
    ensures ExtractedBlock(EmptySaverText(), 17) == Some("{ }")
  {
    var text := EmptySaverText();
    assert text[17..20] == "{" + " " + "}" == "{ }";
    EmptyBlockCounts('{');
    EmptyBlockCounts('}');
    assert ClosesBlock(text, 17, 19);
    assert text[17] == '{' && text[18] == ' ';
    FirstClosingBrace(text, 17, 19);
  }

  lemma EmptyInputsParse()
    ensures LuaToDict("{ }") == Returns(Dict(map[]))
  {
    var toks := [Token(OP, Str("{")), Token(OP, Str("}"))];
    assert TokenizeFrom("{ }", 0) == Tokens(toks);
    EmptyTableIsEmptyDict(toks, 0);
  }

  /** get_extension returns "" exactly for format IDs missing from
      EXTENSION_MAP; every known format has a non-empty extension. */
  lemma ExtensionKnownIff(formatId: string)
    ensures GetExtension(formatId) != "" <==> formatId in ExtensionMap
    ensures formatId in ExtensionMap ==> GetExtension(formatId) == ExtensionMap[formatId]
  {
    if formatId in ExtensionMap {
      assert ExtensionMap[formatId] in ExtensionMap.Values;
    }
  }

  /** No two formats share an extension. */
  lemma ExtensionsAreDistinct(f: string, g: string)
    requires f in ExtensionMap && g in ExtensionMap && f != g
    ensures GetExtension(f) != GetExtension(g)
  {
    ExtensionNamesFormat(f);
    ExtensionNamesFormat(g);
  }

  /** EXTENSION_MAP read backwards. */
  const FormatByExtension: map<string, string> := map[
    "mov" := "QuickTimeMovies",
    "exr" := "OpenEXRFormat",
    "tif" := "TiffFormat",
    "dpx" := "DPXFormat",
    "mxf" := "MXFFormat",
    "jpg" := "JpegFormat",
    "png" := "PngFormat",
    "tga" := "TargaFormat",
    "cin" := "CineonFormat",
    "sgi" := "SGIFormat",
    "avi" := "AVIFormat",
    "bmp" := "BMPFormat",
    "psd" := "PhotoshopFormat",
    "pic" := "SoftimageFormat",
    "iff" := "MayaFormat",
    "jp2" := "Jpeg2000Format"
  ]

  /** A known format's extension names that format and no other. */
  lemma ExtensionNamesFormat(f: string)
    requires f in ExtensionMap
    ensures GetExtension(f) in FormatByExtension && FormatByExtension[GetExtension(f)] == f
  { }

  /** The get_extension cases of tests/test_fusion_config.py. */
  lemma ExtensionExamples()
    ensures GetExtension("QuickTimeMovies") == "mov"
    ensures GetExtension("OpenEXRFormat") == "exr"
    ensures GetExtension("Unknown") == ""
  { }

  /** apply_config changes nothing and returns False without a truthy format;
      otherwise every input it leaves differs from the old one only on
      OutputFormat and the configured properties, where a property overrides
      the format, and it writes OutputFormat only when it differs. */
  lemma ApplyConfigEffect(inputs: map<Key, Value>, config: map<string, Value>)
    ensures !Truthy(Lookup(config, "format", Nil)) ==> ConfigApplied(inputs, config) == Applied(Returns(false), inputs)
    ensures var a := ConfigApplied(inputs, config);
      forall k :: k in inputs && k != KStr("OutputFormat")
        && !("properties" in config && config["properties"].Dict? && k in config["properties"].entries)
        ==> k in a.inputs && a.inputs[k] == inputs[k]
    ensures var a := ConfigApplied(inputs, config);
      a.result == Returns(true) ==>
        var props := Lookup(config, "properties", Dict(map[])).entries;
        (forall k :: k in props ==> k in a.inputs && a.inputs[k] == props[k])
        && (KStr("OutputFormat") !in props ==> a.inputs[KStr("OutputFormat")] == config["format"])
    ensures KStr("OutputFormat") !in WritesOf(inputs, config) <==>
      !Truthy(Lookup(config, "format", Nil)) || config == map[]
      || (!FormatDiffers(inputs, config["format"])
          && !(Lookup(config, "properties", Dict(map[])).Dict? && KStr("OutputFormat") in Lookup(config, "properties", Dict(map[])).entries))
  { }
}
