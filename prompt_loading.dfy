/** Loading a prompt from a configuration dictionary or a JSON/YAML file: `_type` dispatch,
    templates and examples read from files, output parsers, and few-shot prompts whose example
    prompt is itself loaded from a nested configuration or from another file. */
module PromptLoading {
  import opened Wrappers
  import opened Text

  // ---------------------------------------------------------------------------
  // Data model
  // ---------------------------------------------------------------------------

  /** A configuration value as JSON or YAML decoding produces it, or one of the objects the
      loaders put back into a configuration. */
  datatype Value =
    | Null
    | Bool(b: bool)
    | Int(i: int)
    | Str(s: string)
    | List(items: seq<Value>)
    | Dict(entries: map<string, Value>)
    | PromptObject(prompt: Prompt)
    | ParserObject(parser: OutputParser)

  /** The prompt templates built at the end of loading, holding the keyword arguments they
      were built from. */
  datatype Prompt =
    | PromptTemplate(fields: map<string, Value>)
    | FewShotPromptTemplate(fields: map<string, Value>)

  datatype OutputParser =
    | RegexParser(fields: map<string, Value>)
    | StrOutputParser(fields: map<string, Value>)

  type Config = map<string, Value>

  /** Python truthiness of a configuration value; objects are always true. */
  predicate Truthy(v: Value) {
    match v
    case Null => false
    case Bool(b) => b
    case Int(i) => i != 0
    case Str(s) => s != ""
    case List(items) => items != []
    case Dict(entries) => entries != map[]
    case PromptObject(_) => true
    case ParserObject(_) => true
  }

  /** The exceptions the loaders raise. */
  datatype LoadError =
    | UnsupportedPromptType(configType: Value)
    | TemplateAndPathBoth(varName: string)
    | TemplateNotTxt
    | CannotRead(path: string)
    | Undecodable(path: string)
    | ExamplesFileFormat
    | ExamplesFormat
    | KeyMissing(key: string)
    | UnsupportedOutputParser(parserType: Value)
    | ExamplePromptAndPathBoth
    | UnsupportedFileType(suffix: string)
    | WrongValueType
    | RecursionLimit

  /** The file system and the two decoders: `read` gives a file's text, or None when it cannot
      be opened; `parseJson` and `parseYaml` decode a text, or give None when it is malformed. */
  datatype Env = Env(
    read: string -> Option<string>,
    parseJson: string -> Option<Value>,
    parseYaml: string -> Option<Value>)

  /** The configuration after a loading step, and the exception it raised, if any. */
  datatype Step = Step(config: Config, error: Option<LoadError>)

  /** The configuration after loading a prompt, and the prompt or the exception. */
  datatype Loaded = Loaded(config: Config, result: Result<Prompt, LoadError>)

  /** The keys a step may have changed are exactly those in `changed`. */
  ghost predicate SameOutside(a: Config, b: Config, changed: set<string>) {
    forall k :: k !in changed ==> (k in a <==> k in b) && (k in a ==> a[k] == b[k])
  }

  /** Frames compose: a key outside both change sets is kept across two steps. */
  lemma SameOutsideTrans(a: Config, b: Config, c: Config, x: set<string>, y: set<string>, z: set<string>)
    requires SameOutside(a, b, x) && SameOutside(b, c, y) && x + y <= z
    ensures SameOutside(a, c, z)
  {
  }

  // ---------------------------------------------------------------------------
  // File suffixes
  // ---------------------------------------------------------------------------

  /** The path without its trailing '/' characters, as `PurePath` reads it. */
  function DropTrailingSlashes(path: string): (r: string)
    ensures r == [] || r[|r| - 1] != '/'
  {
    if path != [] && path[|path| - 1] == '/' then DropTrailingSlashes(path[..|path| - 1]) else path
  }

  /** Only '/' characters are dropped, and only from the end. */
  lemma {:induction false} DropTrailingSlashesIsPrefix(path: string)
    ensures |DropTrailingSlashes(path)| <= |path|
    ensures DropTrailingSlashes(path) == path[..|DropTrailingSlashes(path)|]
    ensures forall j :: |DropTrailingSlashes(path)| <= j < |path| ==> path[j] == '/'
    decreases |path|
  {
    if path != [] && path[|path| - 1] == '/' {
      var front := path[..|path| - 1];
      DropTrailingSlashesIsPrefix(front);
      assert front[..|DropTrailingSlashes(front)|] == path[..|DropTrailingSlashes(front)|];
    }
  }

  /** The index of the last occurrence of `c` in `s`, or -1 (`str.rfind`). */
  function LastIndex(s: string, c: char): (i: int)
    ensures -1 <= i < |s|
    ensures 0 <= i ==> s[i] == c
    ensures forall j :: i < j < |s| ==> s[j] != c
  {
    if s == [] then -1
    else if s[|s| - 1] == c then |s| - 1
    else LastIndex(s[..|s| - 1], c)
  }

  /** What follows the last '/' of a path with no trailing '/'. */
  function LastComponent(path: string): (name: string)
    ensures |name| <= |path| && name == path[|path| - |name|..]
    ensures forall j :: 0 <= j < |name| ==> name[j] != '/'
    ensures |name| < |path| ==> path[|path| - |name| - 1] == '/'
  {
    path[LastIndex(path, '/') + 1..]
  }

  /** A tail of a tail of a sequence is a tail of it. */
  lemma TailOfTail(s: string, t: string, i: nat)
    requires |t| <= |s| && t == s[|s| - |t|..] && i <= |t|
    ensures t[i..] == s[|s| - (|t| - i)..]
  {
  }

  /** The extension of a file name: from its last '.', provided that dot neither starts nor
      ends the name; otherwise the empty string. */
  function Extension(name: string): (r: string)
    ensures r == [] || (2 <= |r| < |name| && r[0] == '.' && r == name[|name| - |r|..])
    ensures forall j :: 0 < j < |r| ==> r[j] != '.'
    ensures forall j :: 0 < j < |name| - 1 && name[j] == '.' && (forall k :: j < k < |name| ==> name[k] != '.') ==>
      r == name[j..]
  {
    var i := LastIndex(name, '.');
    if 0 < i < |name| - 1 then name[i..] else []
  }

  /** `PurePath.suffix`: the extension of the path's final component. */
  function Suffix(path: string): (r: string)
    ensures r == [] || (2 <= |r| && r[0] == '.' && EndsWith(DropTrailingSlashes(path), r))
    ensures forall j :: 0 < j < |r| ==> r[j] != '.' && r[j] != '/'
  {
    var trimmed := DropTrailingSlashes(path);
    var name := LastComponent(trimmed);
    var r := Extension(name);
    ExtensionOfTail(trimmed, name, r);
    r
  }

  /** An extension of a path's final component ends the path and holds no '/'. */
  lemma ExtensionOfTail(trimmed: string, name: string, r: string)
    requires |name| <= |trimmed| && name == trimmed[|trimmed| - |name|..]
    requires forall j :: 0 <= j < |name| ==> name[j] != '/'
    requires r == [] || (2 <= |r| < |name| && r[0] == '.' && r == name[|name| - |r|..])
    requires forall j :: 0 < j < |r| ==> r[j] != '.'
    ensures r == [] || (2 <= |r| && r[0] == '.' && EndsWith(trimmed, r))
    ensures forall j :: 0 < j < |r| ==> r[j] != '.' && r[j] != '/'
  {
    if r != [] {
      TailOfTail(trimmed, name, |name| - |r|);
      assert forall j :: 0 <= j < |r| ==> r[j] == name[|name| - |r| + j];
    }
  }

  /** A character that does not occur has no last occurrence. */
  lemma {:induction false} LastIndexAbsent(s: string, c: char)
    requires c !in s
    ensures LastIndex(s, c) == -1
    decreases |s|
  {
    if s != [] {
      assert s[|s| - 1] in s;
      assert forall x :: x in s[..|s| - 1] ==> x in s;
      LastIndexAbsent(s[..|s| - 1], c);
    }
  }

  /** The last occurrence of `c` in `s + ([c] + t)` is the one after `s` when `t` has none. */
  lemma {:induction false} LastIndexBefore(s: string, c: char, t: string)
    requires c !in t
    ensures LastIndex(s + ([c] + t), c) == |s|
    decreases |t|
  {
    var whole := s + ([c] + t);
    if t == [] {
      assert whole[|whole| - 1] == c;
    } else {
      assert t[|t| - 1] in t;
      assert whole[|whole| - 1] == t[|t| - 1];
      assert whole[..|whole| - 1] == s + ([c] + t[..|t| - 1]);
      assert forall x :: x in t[..|t| - 1] ==> x in t;
      LastIndexBefore(s, c, t[..|t| - 1]);
    }
  }

  /** A path that is a bare file name has its whole self as the final component. */
  lemma PlainNameSuffix(name: string)
    requires name != [] && '/' !in name
    ensures Suffix(name) == Extension(name)
  {
    assert name[|name| - 1] in name;
    assert DropTrailingSlashes(name) == name;
    LastIndexAbsent(name, '/');
    assert LastComponent(name) == name[0..] == name;
  }

  /** A plain file name (no directory, no dot) with an extension has that extension as its
      suffix, so "prompt.yml" has the suffix ".yml". */
  lemma SuffixOfPlainName(stem: string, ext: string)
    requires stem != [] && '/' !in stem && '.' !in stem
    requires ext != [] && '/' !in ext && '.' !in ext
    ensures Suffix(stem + ("." + ext)) == "." + ext
  {
    var path := stem + ("." + ext);
    assert '/' !in path;
    PlainNameSuffix(path);
    LastIndexBefore(stem, '.', ext);
    DropPrefix(stem, "." + ext);
  }

  /** The suffix of a file name under a directory is the file name's extension, so
      "prompts/simple.yml" has the suffix ".yml". */
  lemma SuffixOfNestedName(dir: string, stem: string, ext: string)
    requires stem != [] && '/' !in stem && '.' !in stem
    requires ext != [] && '/' !in ext && '.' !in ext
    ensures Suffix(dir + ("/" + (stem + ("." + ext)))) == "." + ext
  {
    var name := stem + ("." + ext);
    var path := dir + ("/" + name);
    assert '/' !in name;
    assert path[|path| - 1] == ext[|ext| - 1];
    assert DropTrailingSlashes(path) == path;
    LastIndexBefore(dir, '/', name);
    DropPrefix(dir + "/", name);
    assert path == (dir + "/") + name;
    assert LastComponent(path) == name;
    SuffixOfPlainName(stem, ext);
    PlainNameSuffix(name);
  }

  lemma DropPrefix(a: string, b: string)
    ensures (a + b)[|a|..] == b
  {
  }

  // ---------------------------------------------------------------------------
  // Loading steps that update the configuration in place
  // ---------------------------------------------------------------------------

  /** The key naming the file a template variable is read from: `<var>_path`. */
  function PathKey(varName: string): string {
    varName + "_path"
  }

  /** `_load_template`: replace `<var>_path` by `<var>` holding the file's text. */
  function TemplateStep(varName: string, c: Config, env: Env): (r: Step)
    ensures SameOutside(r.config, c, {varName, PathKey(varName)})
    ensures PathKey(varName) !in c ==> r == Step(c, None)
    ensures r.error.None? ==> PathKey(varName) !in r.config
    ensures PathKey(varName) in c && varName in c ==> r == Step(c, Some(TemplateAndPathBoth(varName)))
    ensures PathKey(varName) in c && varName !in c ==>
      PathKey(varName) !in r.config &&
      (r.error.None? <==> c[PathKey(varName)].Str? && Suffix(c[PathKey(varName)].s) == ".txt" &&
                          env.read(c[PathKey(varName)].s).Some?)
    ensures PathKey(varName) in c && varName !in c && r.error.None? ==>
      c[PathKey(varName)].Str? && env.read(c[PathKey(varName)].s).Some? &&
      varName in r.config && r.config[varName] == Str(env.read(c[PathKey(varName)].s).value)
    ensures (PathKey(varName) in c && varName !in c && c[PathKey(varName)].Str? &&
             Suffix(c[PathKey(varName)].s) != ".txt") ==> r.error == Some(TemplateNotTxt)
  {
    var pathKey := PathKey(varName);
    if pathKey !in c then Step(c, None)
    else if varName in c then Step(c, Some(TemplateAndPathBoth(varName)))
    else
      var popped := c - {pathKey};
      match c[pathKey]
      case Str(path) => TemplateFromPath(varName, popped, path, env)
      case _ => Step(popped, Some(WrongValueType))
  }

  /** The file part of `_load_template`: only a ".txt" file is read, into `<var>`. */
  function TemplateFromPath(varName: string, c: Config, path: string, env: Env): (r: Step)
    ensures SameOutside(r.config, c, {varName})
    ensures r.error.None? <==> Suffix(path) == ".txt" && env.read(path).Some?
    ensures r.error.None? ==> varName in r.config && r.config[varName] == Str(env.read(path).value)
    ensures r.error.Some? ==> r.config == c
  {
    if Suffix(path) != ".txt" then Step(c, Some(TemplateNotTxt))
    else
      match env.read(path)
      case None => Step(c, Some(CannotRead(path)))
      case Some(text) => Step(c[varName := Str(text)], None)
  }

  /** Whether `_load_examples` takes the file at `path`: it is decided by the name's ending. */
  predicate ExamplesFileName(path: string) {
    EndsWith(path, ".json") || EndsWith(path, ".yaml") || EndsWith(path, ".yml")
  }

  /** The decoder `_load_examples` applies to a file, by the name's ending. */
  function DecodeExamples(path: string, text: string, env: Env): Option<Value> {
    if EndsWith(path, ".json") then env.parseJson(text) else env.parseYaml(text)
  }

  /** `_load_examples`: a list stays, a file name is replaced by the decoded file. The file is
      opened before its name is checked. */
  function ExamplesStep(c: Config, env: Env): (r: Step)
    ensures r.config.Keys == c.Keys
    ensures SameOutside(r.config, c, {"examples"})
    ensures "examples" !in c ==> r == Step(c, Some(KeyMissing("examples")))
    ensures "examples" in c && c["examples"].List? ==> r == Step(c, None)
    ensures "examples" in c && !c["examples"].List? && !c["examples"].Str? ==> r == Step(c, Some(ExamplesFormat))
    ensures ("examples" in c && c["examples"].Str? && !ExamplesFileName(c["examples"].s)) ==> r.error.Some?
    ensures r.error.None? <==>
      "examples" in c &&
      (c["examples"].List? ||
       (c["examples"].Str? && ExamplesFileName(c["examples"].s) && env.read(c["examples"].s).Some? &&
        DecodeExamples(c["examples"].s, env.read(c["examples"].s).value, env).Some?))
    ensures r.error.None? && "examples" in c && c["examples"].Str? ==>
      env.read(c["examples"].s).Some? &&
      DecodeExamples(c["examples"].s, env.read(c["examples"].s).value, env).Some? &&
      r.config == c["examples" := DecodeExamples(c["examples"].s, env.read(c["examples"].s).value, env).value]
    ensures r.error.Some? ==> r.config == c
  {
    if "examples" !in c then Step(c, Some(KeyMissing("examples")))
    else
      match c["examples"]
      case List(_) => Step(c, None)
      case Str(path) =>
        (match env.read(path)
         case None => Step(c, Some(CannotRead(path)))
         case Some(text) =>
           if !ExamplesFileName(path) then Step(c, Some(ExamplesFileFormat))
           else
             match DecodeExamples(path, text, env)
             case None => Step(c, Some(Undecodable(path)))
             case Some(examples) => Step(c["examples" := examples], None))
      case _ => Step(c, Some(ExamplesFormat))
  }

  /** The output parser kinds the loader knows. */
  predicate KnownParserType(t: Value) {
    t == Str("regex_parser") || t == Str("default")
  }

  /** `_load_output_parser`: a present, truthy `output_parser` dict is replaced by the parser
      it describes, without its `_type`. */
  function OutputParserStep(c: Config): (r: Step)
    ensures SameOutside(r.config, c, {"output_parser"})
    ensures "output_parser" !in c || !Truthy(c["output_parser"]) ==> r == Step(c, None)
    ensures "output_parser" in c && Truthy(c["output_parser"]) ==>
      (r.error.None? <==> c["output_parser"].Dict? && "_type" in c["output_parser"].entries &&
                          KnownParserType(c["output_parser"].entries["_type"]))
    ensures "output_parser" in c && Truthy(c["output_parser"]) && r.error.None? ==>
      "output_parser" in r.config && r.config["output_parser"].ParserObject? &&
      r.config["output_parser"].parser.fields == c["output_parser"].entries - {"_type"} &&
      (r.config["output_parser"].parser.RegexParser? <==> c["output_parser"].entries["_type"] == Str("regex_parser"))
  {
    if "output_parser" !in c || !Truthy(c["output_parser"]) then Step(c, None)
    else
      var popped := c - {"output_parser"};
      match c["output_parser"]
      case Dict(parserConfig) =>
        if "_type" !in parserConfig then Step(popped, Some(KeyMissing("_type")))
        else
          var parserType := parserConfig["_type"];
          var args := parserConfig - {"_type"};
          if parserType == Str("regex_parser") then Step(popped["output_parser" := ParserObject(RegexParser(args))], None)
          else if parserType == Str("default") then Step(popped["output_parser" := ParserObject(StrOutputParser(args))], None)
          else Step(popped, Some(UnsupportedOutputParser(parserType)))
      case _ => Step(popped, Some(WrongValueType))
  }

  // ---------------------------------------------------------------------------
  // Loading prompts. A file can name another file as its example prompt, so `fuel` bounds the
  // depth of nesting, standing in for the interpreter's recursion limit.
  // ---------------------------------------------------------------------------

  /** `load_prompt_from_config`: pop `_type` (default "prompt") and dispatch on it. */
  function FromConfig(c: Config, env: Env, fuel: nat): (r: Loaded)
    ensures "_type" !in r.config
    ensures "_type" !in c ==> r == PromptLoaded(c, env)
    ensures "_type" in c && c["_type"] == Str("prompt") ==> r == PromptLoaded(c - {"_type"}, env)
    ensures "_type" in c && c["_type"] != Str("prompt") && c["_type"] != Str("few_shot") ==>
      r == Loaded(c - {"_type"}, Failure(UnsupportedPromptType(c["_type"])))
    decreases fuel, 6
  {
    var configType := if "_type" in c then c["_type"] else Str("prompt");
    var rest := c - {"_type"};
    TypeKeyNotLoaded();
    if configType == Str("prompt") then
      assert "_type" !in c ==> rest == c;
      var r := PromptLoaded(rest, env);
      assert "_type" !in r.config by { assert "_type" !in rest; }
      r
    else if configType == Str("few_shot") then
      var r := FewShotLoaded(rest, env, fuel);
      assert "_type" !in r.config by { assert "_type" !in rest; }
      r
    else Loaded(rest, Failure(UnsupportedPromptType(configType)))
  }

  /** A configuration whose `_type` is "few_shot" is loaded, without its `_type`, as a few-shot prompt. */
  lemma FewShotTypeDispatch(c: Config, env: Env, fuel: nat)
    requires "_type" in c && c["_type"] == Str("few_shot")
    ensures FromConfig(c, env, fuel) == FewShotLoaded(c - {"_type"}, env, fuel)
  {
  }

  /** Neither loader touches the key `_type`. */
  lemma TypeKeyNotLoaded()
    ensures "_type" !in PromptKeys && "_type" !in FewShotKeys
  {
  }

  /** `_load_prompt`: load the template file if named, then the output parser. */
  function PromptLoaded(c: Config, env: Env): (r: Loaded)
    ensures SameOutside(r.config, c, PromptKeys)
    ensures r.result.Success? ==> r.result.value == PromptTemplate(r.config) && PathKey("template") !in r.config
    ensures r.result.Success? <==>
      TemplateStep("template", c, env).error.None? &&
      OutputParserStep(TemplateStep("template", c, env).config).error.None?
    ensures TemplateStep("template", c, env).error.Some? ==> r.config == TemplateStep("template", c, env).config
    ensures TemplateStep("template", c, env).error.None? ==>
      r.config == OutputParserStep(TemplateStep("template", c, env).config).config
  {
    var t := TemplateStep("template", c, env);
    if t.error.Some? then Loaded(t.config, Failure(t.error.value))
    else
      var o := OutputParserStep(t.config);
      SameOutsideTrans(o.config, t.config, c, {"output_parser"}, {"template", PathKey("template")}, PromptKeys);
      if o.error.Some? then Loaded(o.config, Failure(o.error.value))
      else
        assert PathKey("template") !in o.config by {
          assert PathKey("template")[0] != "output_parser"[0];
          assert PathKey("template") !in t.config;
        }
        Loaded(o.config, Success(PromptTemplate(o.config)))
  }

  /** The keys `_load_prompt` may add, replace or remove. */
  const PromptKeys: set<string> := {"template", PathKey("template"), "output_parser"}

  /** The keys `_load_few_shot_prompt` may add, replace or remove. */
  const FewShotKeys: set<string> :=
    {"suffix", PathKey("suffix"), "prefix", PathKey("prefix"), "example_prompt", "example_prompt_path", "examples", "output_parser"}

  /** The example-prompt part of `_load_few_shot_prompt`: load it from `example_prompt_path`, or
      from the nested configuration `example_prompt`; naming both is an error. */
  function ExamplePromptStep(c: Config, env: Env, fuel: nat): (r: Step)
    ensures SameOutside(r.config, c, {"example_prompt", "example_prompt_path"})
    ensures "example_prompt_path" in c && "example_prompt" in c ==> r == Step(c, Some(ExamplePromptAndPathBoth))
    ensures r.error.None? ==>
      "example_prompt_path" !in r.config && "example_prompt" in r.config && r.config["example_prompt"].PromptObject?
    ensures "example_prompt_path" in c && "example_prompt" !in c ==> r == ExamplePromptFromFile(c, env, fuel)
    ensures "example_prompt_path" !in c ==> r == ExamplePromptFromConfig(c, env, fuel)
    decreases fuel, 4
  {
    if "example_prompt_path" in c then
      if "example_prompt" in c then Step(c, Some(ExamplePromptAndPathBoth))
      else ExamplePromptFromFile(c, env, fuel)
    else ExamplePromptFromConfig(c, env, fuel)
  }

  /** Pop `example_prompt_path` and load the prompt file it names as `example_prompt`. */
  function ExamplePromptFromFile(c: Config, env: Env, fuel: nat): (r: Step)
    requires "example_prompt_path" in c && "example_prompt" !in c
    ensures SameOutside(r.config, c, {"example_prompt", "example_prompt_path"})
    ensures "example_prompt_path" !in r.config
    ensures r.error.None? <==> "example_prompt" in r.config
    ensures r.error.None? ==> r.config["example_prompt"].PromptObject?
    ensures c["example_prompt_path"].Str? ==>
      r == ExamplePromptFromPath(c - {"example_prompt_path"}, c["example_prompt_path"].s, env, fuel)
    ensures !c["example_prompt_path"].Str? ==> r == Step(c - {"example_prompt_path"}, Some(WrongValueType))
    decreases fuel, 3
  {
    var popped := c - {"example_prompt_path"};
    match c["example_prompt_path"]
    case Str(path) => ExamplePromptFromPath(popped, path, env, fuel)
    case _ => Step(popped, Some(WrongValueType))
  }

  /** Load the prompt file `path` names as `example_prompt`. */
  function ExamplePromptFromPath(c: Config, path: string, env: Env, fuel: nat): (r: Step)
    requires "example_prompt" !in c
    ensures SameOutside(r.config, c, {"example_prompt"})
    ensures r.error.None? <==> "example_prompt" in r.config
    ensures r.error.None? ==> r.config["example_prompt"].PromptObject?
    ensures r.error.None? <==> FileLoaded(path, env, fuel).Success?
    ensures r.error.None? ==> r.config["example_prompt"] == PromptObject(FileLoaded(path, env, fuel).value)
    ensures r.error.Some? ==> r == Step(c, Some(FileLoaded(path, env, fuel).error))
    decreases fuel, 2
  {
    match FileLoaded(path, env, fuel)
    case Failure(e) => Step(c, Some(e))
    case Success(p) => Step(c["example_prompt" := PromptObject(p)], None)
  }

  /** Load the nested configuration `example_prompt` in place of itself; when that fails, the
      nested configuration stays, as far as its own loading has updated it. */
  function ExamplePromptFromConfig(c: Config, env: Env, fuel: nat): (r: Step)
    requires "example_prompt_path" !in c
    ensures SameOutside(r.config, c, {"example_prompt"})
    ensures r.error.None? ==> "example_prompt" in r.config && r.config["example_prompt"].PromptObject?
    ensures r.error.Some? && "example_prompt" in c && c["example_prompt"].Dict? && fuel > 0 ==>
      "example_prompt" in r.config && r.config["example_prompt"] == Dict(FromConfig(c["example_prompt"].entries, env, fuel - 1).config)
    ensures "example_prompt" !in c ==> r == Step(c, Some(KeyMissing("example_prompt")))
    ensures "example_prompt" in c && !c["example_prompt"].Dict? ==> r == Step(c, Some(WrongValueType))
    ensures "example_prompt" in c && c["example_prompt"].Dict? ==>
      r == ExamplePromptFromNested(c, c["example_prompt"].entries, env, fuel)
    decreases fuel, 3
  {
    if "example_prompt" !in c then Step(c, Some(KeyMissing("example_prompt")))
    else
      match c["example_prompt"]
      case Dict(nested) => ExamplePromptFromNested(c, nested, env, fuel)
      case _ => Step(c, Some(WrongValueType))
  }

  /** Load the dictionary `nested` found under `example_prompt`, one level deeper. */
  function ExamplePromptFromNested(c: Config, nested: Config, env: Env, fuel: nat): (r: Step)
    ensures SameOutside(r.config, c, {"example_prompt"})
    ensures r.error.None? ==> "example_prompt" in r.config && r.config["example_prompt"].PromptObject?
    ensures r.error.Some? && fuel > 0 ==>
      "example_prompt" in r.config && r.config["example_prompt"] == Dict(FromConfig(nested, env, fuel - 1).config)
    ensures fuel == 0 ==> r == Step(c, Some(RecursionLimit))
    ensures fuel > 0 ==> (r.error.None? <==> FromConfig(nested, env, fuel - 1).result.Success?)
    ensures fuel > 0 && r.error.None? ==>
      r.config["example_prompt"] == PromptObject(FromConfig(nested, env, fuel - 1).result.value)
    ensures fuel > 0 && r.error.Some? ==> r.error == Some(FromConfig(nested, env, fuel - 1).result.error)
    decreases fuel, 2
  {
    if fuel == 0 then Step(c, Some(RecursionLimit))
    else
      var n := FromConfig(nested, env, fuel - 1);
      match n.result
      case Failure(e) => Step(c["example_prompt" := Dict(n.config)], Some(e))
      case Success(p) => Step(c["example_prompt" := PromptObject(p)], None)
  }

  /** `_load_few_shot_prompt`: suffix and prefix templates, the example prompt, the examples and
      the output parser, in that order, each stopping the load when it raises. */
  function FewShotLoaded(c: Config, env: Env, fuel: nat): (r: Loaded)
    ensures SameOutside(r.config, c, FewShotKeys)
    ensures r.result.Success? ==> r.result.value == FewShotPromptTemplate(r.config)
    decreases fuel, 5
  {
    var s := TemplateStep("suffix", c, env);
    if s.error.Some? then Loaded(s.config, Failure(s.error.value))
    else
      var p := TemplateStep("prefix", s.config, env);
      SameOutsideTrans(p.config, s.config, c, {"prefix", PathKey("prefix")}, {"suffix", PathKey("suffix")}, FewShotKeys);
      if p.error.Some? then Loaded(p.config, Failure(p.error.value))
      else
        var e := ExamplePromptStep(p.config, env, fuel);
        SameOutsideTrans(e.config, p.config, c, {"example_prompt", "example_prompt_path"}, FewShotKeys, FewShotKeys);
        if e.error.Some? then Loaded(e.config, Failure(e.error.value))
        else
          var x := ExamplesStep(e.config, env);
          SameOutsideTrans(x.config, e.config, c, {"examples"}, FewShotKeys, FewShotKeys);
          if x.error.Some? then Loaded(x.config, Failure(x.error.value))
          else
            var o := OutputParserStep(x.config);
            SameOutsideTrans(o.config, x.config, c, {"output_parser"}, FewShotKeys, FewShotKeys);
            if o.error.Some? then Loaded(o.config, Failure(o.error.value))
            else Loaded(o.config, Success(FewShotPromptTemplate(o.config)))
  }

  /** A few-shot prompt loads exactly when each of its five steps succeeds in turn; once the first
      four have succeeded, the configuration it leaves is the one the output-parser step leaves. */
  lemma FewShotLoadedSucceeds(c: Config, env: Env, fuel: nat)
    ensures FewShotLoaded(c, env, fuel).result.Success? <==>
      (var s := TemplateStep("suffix", c, env);
       var p := TemplateStep("prefix", s.config, env);
       var e := ExamplePromptStep(p.config, env, fuel);
       var x := ExamplesStep(e.config, env);
       s.error.None? && p.error.None? && e.error.None? && x.error.None? && OutputParserStep(x.config).error.None?)
    ensures
      (var s := TemplateStep("suffix", c, env);
       var p := TemplateStep("prefix", s.config, env);
       var e := ExamplePromptStep(p.config, env, fuel);
       var x := ExamplesStep(e.config, env);
       s.error.None? && p.error.None? && e.error.None? && x.error.None? ==>
         FewShotLoaded(c, env, fuel).config == OutputParserStep(x.config).config)
  {
  }

  /** The two formats a prompt file may have. */
  datatype FileFormat = Json | Yaml

  /** The format `_load_prompt_from_file` reads a file in, by its suffix; `None` for any other
      suffix. */
  function PromptFileFormat(suffix: string): (f: Option<FileFormat>)
    ensures f == Some(Json) <==> suffix == ".json"
    ensures f == Some(Yaml) <==> suffix == ".yaml"
  {
    if suffix == ".json" then Some(Json) else if suffix == ".yaml" then Some(Yaml) else None
  }

  /** The decoder for a prompt file's format. */
  function DecodeAs(format: FileFormat, text: string, env: Env): Option<Value> {
    match format
    case Json => env.parseJson(text)
    case Yaml => env.parseYaml(text)
  }

  /** Read a prompt file and decode it in its format; the decoded value must be a dictionary. */
  function ReadPromptFile(path: string, format: FileFormat, env: Env): (r: Result<Config, LoadError>)
    ensures env.read(path).None? ==> r == Failure(CannotRead(path))
    ensures r.Success? <==>
      env.read(path).Some? && DecodeAs(format, env.read(path).value, env).Some? &&
      DecodeAs(format, env.read(path).value, env).value.Dict?
    ensures r.Success? ==> DecodeAs(format, env.read(path).value, env) == Some(Dict(r.value))
  {
    match env.read(path)
    case None => Failure(CannotRead(path))
    case Some(text) =>
      match DecodeAs(format, text, env)
      case None => Failure(Undecodable(path))
      case Some(Dict(c)) => Success(c)
      case Some(_) => Failure(WrongValueType)
  }

  /** `_load_prompt_from_file` (reached from `load_prompt` for a local path): only the suffixes
      ".json" and ".yaml" are read. */
  function FileLoaded(path: string, env: Env, fuel: nat): (r: Result<Prompt, LoadError>)
    ensures PromptFileFormat(Suffix(path)).None? ==> r == Failure(UnsupportedFileType(Suffix(path)))
    ensures r.Success? ==> PromptFileFormat(Suffix(path)).Some? && env.read(path).Some?
    ensures PromptFileFormat(Suffix(path)).Some? ==> r == FormatLoaded(path, PromptFileFormat(Suffix(path)).value, env, fuel)
    decreases fuel, 1
  {
    var suffix := Suffix(path);
    match PromptFileFormat(suffix)
    case None => Failure(UnsupportedFileType(suffix))
    case Some(format) => FormatLoaded(path, format, env, fuel)
  }

  /** A prompt file of a known format: read it, decode it, and load the dictionary it holds. */
  function FormatLoaded(path: string, format: FileFormat, env: Env, fuel: nat): (r: Result<Prompt, LoadError>)
    ensures r.Success? ==> env.read(path).Some?
    ensures ReadPromptFile(path, format, env).Failure? ==> r == Failure(ReadPromptFile(path, format, env).error)
    ensures ReadPromptFile(path, format, env).Success? && fuel == 0 ==> r == Failure(RecursionLimit)
    ensures ReadPromptFile(path, format, env).Success? && fuel > 0 ==>
      r == FromConfig(ReadPromptFile(path, format, env).value, env, fuel - 1).result
    decreases fuel, 0
  {
    match ReadPromptFile(path, format, env)
    case Failure(e) => Failure(e)
    case Success(c) => if fuel == 0 then Failure(RecursionLimit) else FromConfig(c, env, fuel - 1).result
  }

  // ---------------------------------------------------------------------------
  // Properties of the loaders
  // ---------------------------------------------------------------------------

  /** A configuration without `_type` loads exactly as one whose `_type` is "prompt". */
  lemma TypeDefaultsToPrompt(c: Config, env: Env, fuel: nat)
    requires "_type" !in c
    ensures FromConfig(c, env, fuel) == FromConfig(c["_type" := Str("prompt")], env, fuel)
  {
    assert c["_type" := Str("prompt")] - {"_type"} == c;
  }

  /** A few-shot configuration naming both an example prompt and an example prompt file is
      rejected; once its suffix and prefix templates load, the error is that clash. */
  lemma FewShotRejectsBothExamplePrompts(c: Config, env: Env, fuel: nat)
    requires "example_prompt" in c && "example_prompt_path" in c
    ensures FewShotLoaded(c, env, fuel).result.Failure?
    ensures TemplateStep("suffix", c, env).error.None? &&
            TemplateStep("prefix", TemplateStep("suffix", c, env).config, env).error.None? ==>
      FewShotLoaded(c, env, fuel).result == Failure(ExamplePromptAndPathBoth)
  {
    var s := TemplateStep("suffix", c, env);
    var p := TemplateStep("prefix", s.config, env);
    assert "example_prompt" in s.config && "example_prompt_path" in s.config;
    assert "example_prompt" in p.config && "example_prompt_path" in p.config;
  }

  /** The top-level file loader takes ".json" and ".yaml" only, while the examples loader also
      takes ".yml": a plain "name.yml" is refused as a prompt file but read as examples. */
  lemma YmlExamplesButNotPrompts(stem: string, env: Env, fuel: nat)
    requires stem != [] && '/' !in stem && '.' !in stem
    ensures FileLoaded(stem + ".yml", env, fuel) == Failure(UnsupportedFileType(".yml"))
    ensures ExamplesFileName(stem + ".yml")
  {
    var path := stem + ".yml";
    assert ".yml" == "." + "yml";
    SuffixOfPlainName(stem, "yml");
    assert path[|path| - 4..] == ".yml";
  }

  /** A dot followed by a dot-free name ends with another such ending exactly when the two agree. */
  lemma DotNameEndsWith(ext: string, e: string)
    requires '.' !in ext && '.' !in e
    ensures EndsWith("." + ext, "." + e) <==> ext == e
  {
    var path := "." + ext;
    assert forall i :: 1 <= i < |path| ==> path[i] != '.' by {
      forall i | 1 <= i < |path| ensures path[i] != '.' {
        assert path[i] == ext[i - 1];
      }
    }
    if EndsWith(path, "." + e) {
      var k := |path| - |"." + e|;
      assert path[k] == (path[k..])[0] == '.';
      assert k == 0;
      assert ext == path[1..] == e;
    }
    if ext == e {
      assert path[|path| - |"." + e|..] == path;
    }
  }

  /** A name that is only an extension, such as ".json", has no suffix: the top-level loader
      refuses it, while the examples loader accepts it by its ending. */
  lemma DotFileHasNoSuffix(ext: string)
    requires ext != [] && '/' !in ext && '.' !in ext
    ensures Suffix("." + ext) == ""
    ensures ExamplesFileName("." + ext) <==> ext in {"json", "yaml", "yml"}
  {
    var path := "." + ext;
    assert ExamplesFileName(path) <==> ext in {"json", "yaml", "yml"} by {
      assert ".json" == "." + "json" && ".yaml" == "." + "yaml" && ".yml" == "." + "yml";
      DotNameEndsWith(ext, "json");
      DotNameEndsWith(ext, "yaml");
      DotNameEndsWith(ext, "yml");
    }
    assert Suffix(path) == "" by {
      assert '/' !in path;
      PlainNameSuffix(path);
      assert path == [] + ("." + ext);
      LastIndexBefore([], '.', ext);
    }
  }

  /** A configuration holding only an inline template loads as a prompt template built from it. */
  lemma InlineTemplateLoads(t: string, env: Env, fuel: nat)
    ensures FromConfig(map["template" := Str(t)], env, fuel)
         == Loaded(map["template" := Str(t)], Success(PromptTemplate(map["template" := Str(t)])))
  {
    var c := map["template" := Str(t)];
    assert PathKey("template") !in c by { assert |PathKey("template")| != |"template"|; }
    assert TemplateStep("template", c, env) == Step(c, None);
    assert OutputParserStep(c) == Step(c, None);
  }

  /** A readable ".json" file that decodes to a dictionary loads as that dictionary does. */
  lemma JsonPromptFileLoads(stem: string, text: string, c: Config, env: Env, fuel: nat)
    requires stem != [] && '/' !in stem && '.' !in stem
    requires env.read(stem + ".json") == Some(text) && env.parseJson(text) == Some(Dict(c))
    requires fuel > 0
    ensures FileLoaded(stem + ".json", env, fuel) == FromConfig(c, env, fuel - 1).result
  {
    assert ".json" == "." + "json";
    SuffixOfPlainName(stem, "json");
    assert ReadPromptFile(stem + ".json", Json, env) == Success(c);
  }

  /** A few-shot configuration with an inline suffix, an inline example prompt and a list of
      examples loads, with the example prompt loaded in place of its dictionary. */
  lemma InlineFewShotLoads(suffix: string, t: string, examples: seq<Value>, env: Env, fuel: nat)
    requires fuel > 0
    ensures var c := map["suffix" := Str(suffix), "example_prompt" := Dict(map["template" := Str(t)]),
                         "examples" := List(examples)];
      FewShotLoaded(c, env, fuel).result
        == Success(FewShotPromptTemplate(c["example_prompt" := PromptObject(PromptTemplate(map["template" := Str(t)]))]))
  {
    var c := map["suffix" := Str(suffix), "example_prompt" := Dict(map["template" := Str(t)]),
                 "examples" := List(examples)];
    var inner := map["template" := Str(t)];
    var e := c["example_prompt" := PromptObject(PromptTemplate(inner))];
    assert TemplateStep("suffix", c, env) == Step(c, None) by {
      assert PathKey("suffix") !in c by {
        assert |PathKey("suffix")| != |"suffix"|;
        assert PathKey("suffix")[0] != "example_prompt"[0] && PathKey("suffix")[0] != "examples"[0];
      }
    }
    assert TemplateStep("prefix", c, env) == Step(c, None) by {
      assert PathKey("prefix")[0] !in {'s', 'e'};
    }
    InlineTemplateLoads(t, env, fuel - 1);
    assert ExamplePromptStep(c, env, fuel) == Step(e, None);
    assert ExamplesStep(e, env) == Step(e, None);
    assert OutputParserStep(e) == Step(e, None);
  }

  // ---------------------------------------------------------------------------
  // The configuration dictionary, updated in place
  // ---------------------------------------------------------------------------

  /** A configuration dictionary that the loaders pop keys from and assign keys in. */
  class PromptConfig {
    var entries: Config

    constructor(entries: Config)
      ensures this.entries == entries
    {
      this.entries := entries;
    }
  }

  /** `_load_template`, updating the configuration in place. */
  method LoadTemplate(varName: string, config: PromptConfig, env: Env) returns (error: Option<LoadError>)
    modifies config
    ensures Step(config.entries, error) == TemplateStep(varName, old(config.entries), env)
  {
    var pathKey := PathKey(varName);
    if pathKey in config.entries {
      if varName in config.entries {
        return Some(TemplateAndPathBoth(varName));
      }
      var pathValue := config.entries[pathKey];
      config.entries := config.entries - {pathKey};
      if !pathValue.Str? {
        return Some(WrongValueType);
      }
      error := LoadTemplateFromPath(varName, config, pathValue.s, env);
      return;
    }
    return None;
  }

  /** The file part of `_load_template`, updating the configuration in place. */
  method LoadTemplateFromPath(varName: string, config: PromptConfig, path: string, env: Env)
    returns (error: Option<LoadError>)
    modifies config
    ensures Step(config.entries, error) == TemplateFromPath(varName, old(config.entries), path, env)
  {
    if Suffix(path) != ".txt" {
      return Some(TemplateNotTxt);
    }
    var text := env.read(path);
    if text.None? {
      return Some(CannotRead(path));
    }
    config.entries := config.entries[varName := Str(text.value)];
    return None;
  }

  /** `_load_examples`, updating the configuration in place. */
  method LoadExamples(config: PromptConfig, env: Env) returns (error: Option<LoadError>)
    modifies config
    ensures Step(config.entries, error) == ExamplesStep(old(config.entries), env)
  {
    if "examples" !in config.entries {
      return Some(KeyMissing("examples"));
    }
    var examples := config.entries["examples"];
    if examples.List? {
      return None;
    }
    if !examples.Str? {
      return Some(ExamplesFormat);
    }
    var path := examples.s;
    var text := env.read(path);
    if text.None? {
      return Some(CannotRead(path));
    }
    if !ExamplesFileName(path) {
      return Some(ExamplesFileFormat);
    }
    var decoded := DecodeExamples(path, text.value, env);
    if decoded.None? {
      return Some(Undecodable(path));
    }
    config.entries := config.entries["examples" := decoded.value];
    return None;
  }

  /** `_load_output_parser`, updating the configuration in place. */
  method LoadOutputParser(config: PromptConfig) returns (error: Option<LoadError>)
    modifies config
    ensures Step(config.entries, error) == OutputParserStep(old(config.entries))
  {
    if "output_parser" in config.entries && Truthy(config.entries["output_parser"]) {
      var parserConfig := config.entries["output_parser"];
      config.entries := config.entries - {"output_parser"};
      if !parserConfig.Dict? {
        return Some(WrongValueType);
      }
      if "_type" !in parserConfig.entries {
        return Some(KeyMissing("_type"));
      }
      var parserType := parserConfig.entries["_type"];
      var args := parserConfig.entries - {"_type"};
      var parser;
      if parserType == Str("regex_parser") {
        parser := RegexParser(args);
      } else if parserType == Str("default") {
        parser := StrOutputParser(args);
      } else {
        return Some(UnsupportedOutputParser(parserType));
      }
      config.entries := config.entries["output_parser" := ParserObject(parser)];
    }
    return None;
  }

  /** `load_prompt_from_config`, updating the configuration in place. */
  method LoadPromptFromConfig(config: PromptConfig, env: Env, fuel: nat) returns (result: Result<Prompt, LoadError>)
    modifies config
    ensures Loaded(config.entries, result) == FromConfig(old(config.entries), env, fuel)
    decreases fuel, 6
  {
    var configType := if "_type" in config.entries then config.entries["_type"] else Str("prompt");
    config.entries := config.entries - {"_type"};
    if configType == Str("prompt") {
      result := LoadPrompt(config, env);
    } else if configType == Str("few_shot") {
      result := LoadFewShotPrompt(config, env, fuel);
    } else {
      result := Failure(UnsupportedPromptType(configType));
    }
  }

  /** `_load_prompt`, updating the configuration in place. */
  method LoadPrompt(config: PromptConfig, env: Env) returns (result: Result<Prompt, LoadError>)
    modifies config
    ensures Loaded(config.entries, result) == PromptLoaded(old(config.entries), env)
  {
    var error := LoadTemplate("template", config, env);
    if error.Some? {
      return Failure(error.value);
    }
    error := LoadOutputParser(config);
    if error.Some? {
      return Failure(error.value);
    }
    return Success(PromptTemplate(config.entries));
  }

  /** `_load_few_shot_prompt`, updating the configuration in place. */
  method LoadFewShotPrompt(config: PromptConfig, env: Env, fuel: nat) returns (result: Result<Prompt, LoadError>)
    modifies config
    ensures Loaded(config.entries, result) == FewShotLoaded(old(config.entries), env, fuel)
    decreases fuel, 5
  {
    var error := LoadTemplate("suffix", config, env);
    if error.Some? {
      return Failure(error.value);
    }
    error := LoadTemplate("prefix", config, env);
    if error.Some? {
      return Failure(error.value);
    }
    error := LoadExamplePrompt(config, env, fuel);
    if error.Some? {
      return Failure(error.value);
    }
    error := LoadExamples(config, env);
    if error.Some? {
      return Failure(error.value);
    }
    error := LoadOutputParser(config);
    if error.Some? {
      return Failure(error.value);
    }
    return Success(FewShotPromptTemplate(config.entries));
  }

  /** The example-prompt part of `_load_few_shot_prompt`, updating the configuration in place. */
  method LoadExamplePrompt(config: PromptConfig, env: Env, fuel: nat) returns (error: Option<LoadError>)
    modifies config
    ensures Step(config.entries, error) == ExamplePromptStep(old(config.entries), env, fuel)
    decreases fuel, 4
  {
    if "example_prompt_path" in config.entries {
      if "example_prompt" in config.entries {
        return Some(ExamplePromptAndPathBoth);
      }
      error := LoadExamplePromptFromFile(config, env, fuel);
    } else {
      error := LoadExamplePromptFromConfig(config, env, fuel);
    }
  }

  /** Pop `example_prompt_path` and load the file it names, updating the configuration in place. */
  method LoadExamplePromptFromFile(config: PromptConfig, env: Env, fuel: nat) returns (error: Option<LoadError>)
    requires "example_prompt_path" in config.entries && "example_prompt" !in config.entries
    modifies config
    ensures Step(config.entries, error) == ExamplePromptFromFile(old(config.entries), env, fuel)
    decreases fuel, 3
  {
    var pathValue := config.entries["example_prompt_path"];
    config.entries := config.entries - {"example_prompt_path"};
    if !pathValue.Str? {
      return Some(WrongValueType);
    }
    error := LoadExamplePromptFromPath(config, pathValue.s, env, fuel);
  }

  /** Load the prompt file `path` names as `example_prompt`, updating the configuration in place. */
  method LoadExamplePromptFromPath(config: PromptConfig, path: string, env: Env, fuel: nat) returns (error: Option<LoadError>)
    requires "example_prompt" !in config.entries
    modifies config
    ensures Step(config.entries, error) == ExamplePromptFromPath(old(config.entries), path, env, fuel)
    decreases fuel, 2
  {
    var loaded := LoadPromptFromFile(path, env, fuel);
    if loaded.Failure? {
      return Some(loaded.error);
    }
    config.entries := config.entries["example_prompt" := PromptObject(loaded.value)];
    return None;
  }

  /** Load the nested configuration `example_prompt`, itself updated in place, and put the prompt
      in its place; when that fails, the updated nested configuration stays. */
  method LoadExamplePromptFromConfig(config: PromptConfig, env: Env, fuel: nat) returns (error: Option<LoadError>)
    requires "example_prompt_path" !in config.entries
    modifies config
    ensures Step(config.entries, error) == ExamplePromptFromConfig(old(config.entries), env, fuel)
    decreases fuel, 3
  {
    if "example_prompt" !in config.entries {
      return Some(KeyMissing("example_prompt"));
    }
    var examplePrompt := config.entries["example_prompt"];
    if !examplePrompt.Dict? {
      return Some(WrongValueType);
    }
    error := LoadExamplePromptFromNested(config, examplePrompt.entries, env, fuel);
  }

  /** Load the dictionary under `example_prompt` and store the prompt, or on failure the
      dictionary as its own loading has updated it. */
  method LoadExamplePromptFromNested(config: PromptConfig, nested: Config, env: Env, fuel: nat)
    returns (error: Option<LoadError>)
    modifies config
    ensures Step(config.entries, error) == ExamplePromptFromNested(old(config.entries), nested, env, fuel)
    decreases fuel, 2
  {
    if fuel == 0 {
      return Some(RecursionLimit);
    }
    var inner := new PromptConfig(nested);
    var loaded := LoadPromptFromConfig(inner, env, fuel - 1);
    if loaded.Failure? {
      config.entries := config.entries["example_prompt" := Dict(inner.entries)];
      return Some(loaded.error);
    }
    config.entries := config.entries["example_prompt" := PromptObject(loaded.value)];
    return None;
  }

  /** `_load_prompt_from_file`: dispatch on the file's suffix. */
  method LoadPromptFromFile(path: string, env: Env, fuel: nat) returns (result: Result<Prompt, LoadError>)
    ensures result == FileLoaded(path, env, fuel)
    decreases fuel, 1
  {
    var suffix := Suffix(path);
    var format := PromptFileFormat(suffix);
    if format.None? {
      return Failure(UnsupportedFileType(suffix));
    }
    result := LoadPromptFile(path, format.value, env, fuel);
  }

  /** Decode a prompt file of a known format into a fresh configuration and load it. */
  method LoadPromptFile(path: string, format: FileFormat, env: Env, fuel: nat) returns (result: Result<Prompt, LoadError>)
    ensures result == FormatLoaded(path, format, env, fuel)
    decreases fuel, 0
  {
    var read := ReadPromptFile(path, format, env);
    if read.Failure? {
      return Failure(read.error);
    }
    if fuel == 0 {
      return Failure(RecursionLimit);
    }
    result := LoadDecodedConfig(read.value, env, fuel - 1);
  }

  /** Load a decoded dictionary through a fresh configuration object. */
  method LoadDecodedConfig(c: Config, env: Env, fuel: nat) returns (result: Result<Prompt, LoadError>)
    ensures result == FromConfig(c, env, fuel).result
    decreases fuel, 7
  {
    var config := new PromptConfig(c);
    result := LoadPromptFromConfig(config, env, fuel);
  }
}
