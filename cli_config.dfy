/**
 * The command line's option objects after the scan: renaming the keys of a configuration file,
 * merging it under the command-line parameters, filling in defaults, and the rule that decides
 * whether the output ends with a line break.
 */
module CliConfig {
  import opened Base
  import opened Json
  import opened JsText
  import opened JsObject
  import opened CliArgs

  // ---------------------------------------------------------------------------
  // convertConfig

  /** Configuration keys written in kebab case and the parameter each one names. */
  const ParamNames: seq<(string, string)> := [
    ("ignore-proto-key", "ignoreProtoKey"),
    ("ignore-prototype-keys", "ignorePrototypeKeys"),
    ("trailing-commas", "trailingCommas"),
    ("single-quoted-strings", "singleQuotedStrings"),
    ("duplicate-keys", "duplicateKeys"),
    ("pretty-print", "prettyPrint"),
    ("prune-comments", "pruneComments"),
    ("strip-object-keys", "stripObjectKeys"),
    ("enforce-double-quotes", "enforceDoubleQuotes"),
    ("enforce-single-quotes", "enforceSingleQuotes"),
    ("trim-trailing-commas", "trimTrailingCommas"),
    ("compact-empty-objects", "compactEmptyObjects"),
    ("force-crlf", "forceCrlf"),
    ("sort-keys", "sortKeys"),
    ("sort-keys-ignore-case", "sortKeysIgnoreCase"),
    ("sort-keys-locale", "sortKeysLocale"),
    ("sort-keys-case-first", "sortKeysCaseFirst"),
    ("sort-keys-numeric", "sortKeysNumeric"),
    ("pretty-print-invalid", "prettyPrintInvalid"),
    ("log-files", "logFiles"),
    ("in-place", "inPlace"),
    ("trailing-newline", "trailingNewline")
  ]

  /** The parameter the command-line option `name` sets from its flag or its value, if it sets one. */
  function ParamSetBy(name: string): Option<string> {
    match ActionFor(name)
    case Some(Flag(p)) => Some(p)
    case Some(Text(p)) => Some(p)
    case _ => None
  }

  /**
   * A configuration file may use the long option names: each kebab-case key in the table is
   * renamed to exactly the parameter the option of that name sets on the command line.
   */
  lemma RenamesMatchOptions()
    ensures forall i :: 0 <= i < |ParamNames| ==> ParamSetBy(ParamNames[i].0) == Some(ParamNames[i].1)
  {
    forall i | 0 <= i < |ParamNames| ensures ParamSetBy(ParamNames[i].0) == Some(ParamNames[i].1) {
      var (key, param) := ParamNames[i];
      assert ParamSetBy(key) == Some(param);
    }
  }

  /** `paramNames[key] || key`: every name in the table is non-empty, so a listed key is always renamed. */
  function Rename(key: string): (name: string)
    ensures key in KeysOf(ParamNames) ==> (key, name) in ParamNames
    ensures key !in KeysOf(ParamNames) ==> name == key
  {
    if key in KeysOf(ParamNames) then
      var i := IndexOf(ParamNames, key);
      assert ParamNames[i].0 == key;
      Lookup(ParamNames, key)
    else key
  }

  /** A listed key is renamed to the parameter its command-line option sets. */
  lemma RenameAsOption(key: string)
    requires key in KeysOf(ParamNames)
    ensures ParamSetBy(key) == Some(Rename(key))
  {
    RenamesMatchOptions();
    var i :| 0 <= i < |ParamNames| && ParamNames[i] == (key, Rename(key));
  }

  /** The object `convertConfig` builds from the first `|config|` entries, in enumeration order. */
  function Converted(config: Obj): Obj
    decreases |config|
  {
    if config == [] then []
    else
      var last := config[|config| - 1];
      Set(Converted(config[..|config| - 1]), Rename(last.0), last.1)
  }

  /** `convertConfig(config)`. */
  method ConvertConfig(config: Obj) returns (result: Obj)
    ensures result == Converted(config)
  {
    result := [];
    var k := 0;
    while k < |config|
      invariant 0 <= k <= |config|
      invariant result == Converted(config[..k])
    {
      var (key, value) := config[k];
      assert config[..k + 1][..k] == config[..k];
      result := Set(result, Rename(key), value);
      k := k + 1;
    }
    assert config[..k] == config;
  }

  /** The value of the last configuration entry whose key is renamed to `name`. */
  function LastRenamedTo(config: Obj, name: string): Option<Prop>
    decreases |config|
  {
    if config == [] then None
    else if Rename(config[|config| - 1].0) == name then Some(config[|config| - 1].1)
    else LastRenamedTo(config[..|config| - 1], name)
  }

  /**
   * A converted name is present exactly when some key is renamed to it, and holds the value of
   * the last such key; values are never changed, and the result never repeats a name.
   */
  lemma {:induction false} ConvertedGet(config: Obj, name: string)
    ensures name in KeysOf(Converted(config)) <==> LastRenamedTo(config, name).Some?
    ensures LastRenamedTo(config, name).Some? ==> Get(Converted(config), name) == LastRenamedTo(config, name).value
    ensures Valid(Converted(config))
    decreases |config|
  {
    if config != [] {
      var init, last := config[..|config| - 1], config[|config| - 1];
      ConvertedGet(init, name);
      SetValid(Converted(init), Rename(last.0), last.1);
      GetSet(Converted(init), Rename(last.0), last.1, name);
    }
  }

  /** With keys that rename to distinct names, each key's value reappears under its new name. */
  lemma ConvertedRenames(config: Obj, i: nat)
    requires i < |config|
    requires forall j :: 0 <= j < |config| && j != i ==> Rename(config[j].0) != Rename(config[i].0)
    ensures Get(Converted(config), Rename(config[i].0)) == config[i].1
  {
    LastIsOnly(config, i);
    ConvertedGet(config, Rename(config[i].0));
  }

  lemma {:induction false} LastIsOnly(config: Obj, i: nat)
    requires i < |config|
    requires forall j :: 0 <= j < |config| && j != i ==> Rename(config[j].0) != Rename(config[i].0)
    ensures LastRenamedTo(config, Rename(config[i].0)) == Some(config[i].1)
    decreases |config|
  {
    if i < |config| - 1 {
      var init := config[..|config| - 1];
      forall j | 0 <= j < |init| && j != i ensures Rename(init[j].0) != Rename(init[i].0) {
        assert init[j] == config[j];
      }
      LastIsOnly(init, i);
    }
  }

  // ---------------------------------------------------------------------------
  // mergeOptions

  /** The two primitive kinds compared by the array clause. */
  datatype JsPrimitive = PBool(b: bool) | PNumber(n: real)

  /** `===` on primitives: same kind and same value. */
  predicate StrictEquals(a: JsPrimitive, b: JsPrimitive) {
    a == b
  }

  /** `Array.isArray(v) && !v.length === 0`: `!v.length` is a boolean, compared with the number 0. */
  predicate ArrayClause(v: Prop) {
    v.Some? && v.value.JArr? && StrictEquals(PBool(|v.value.arr| == 0), PNumber(0.0))
  }

  /** Whether `mergeOptions` writes over the target's value. */
  predicate Overwritable(v: Prop) {
    IsNullish(v) || ArrayClause(v)
  }

  /** The array clause never holds: only a null or undefined target value is written over, even an empty array is kept. */
  lemma OnlyNullishOverwritten(v: Prop)
    ensures Overwritable(v) <==> IsNullish(v)
    ensures v == Some(JArr([])) ==> !Overwritable(v)
  {
  }

  /** The target after the inner loop has gone over the first `|source|` keys of one source. */
  function MergeOne(target: Obj, source: Obj): Obj
    decreases |source|
  {
    if source == [] then target
    else
      var t := MergeOne(target, source[..|source| - 1]);
      var (k, v) := source[|source| - 1];
      if Overwritable(Get(t, k)) then Set(t, k, v) else t
  }

  /** The target after the outer loop has gone over `sources`. */
  function Merge(target: Obj, sources: seq<Obj>): Obj
    decreases |sources|
  {
    if sources == [] then target
    else MergeOne(Merge(target, sources[..|sources| - 1]), sources[|sources| - 1])
  }

  /** `mergeOptions(target, ...sources)`, writing into `target` and returning it. */
  method MergeOptions(target: Obj, sources: seq<Obj>) returns (merged: Obj)
    ensures merged == Merge(target, sources)
  {
    merged := target;
    var s := 0;
    while s < |sources|
      invariant 0 <= s <= |sources|
      invariant merged == Merge(target, sources[..s])
    {
      var source := sources[s];
      ghost var before := merged;
      var k := 0;
      while k < |source|
        invariant 0 <= k <= |source|
        invariant merged == MergeOne(before, source[..k])
      {
        var (key, value) := source[k];
        assert source[..k + 1][..k] == source[..k];
        if Overwritable(Get(merged, key)) {
          merged := Set(merged, key, value);
        }
        k := k + 1;
      }
      assert source[..k] == source;
      assert sources[..s + 1][..s] == sources[..s];
      s := s + 1;
    }
    assert sources[..s] == sources;
  }

  /** One source fills a key the target holds as null or undefined, and leaves every other value alone. */
  lemma {:induction false} MergeOneGet(target: Obj, source: Obj, k: string)
    requires Valid(source)
    ensures Get(MergeOne(target, source), k)
         == if IsNullish(Get(target, k)) && k in KeysOf(source) then Get(source, k) else Get(target, k)
    decreases |source|
  {
    if source != [] {
      var n := |source| - 1;
      var init := source[..n];
      var t := MergeOne(target, init);
      var (k', v) := source[n];
      PrefixValid(source, n);
      MergeOneGet(target, init, k);
      assert KeysOf(source) == KeysOf(init) + [k'];
      OnlyNullishOverwritten(Get(t, k'));
      GetSet(t, k', v, k);
      if k == k' {
        GetAt(source, n);
      } else {
        GetInit(source, k);
      }
    }
  }

  /** The first source, in order, holding a value other than null or undefined under `k`. */
  function FirstDefined(sources: seq<Obj>, k: string): (r: Option<nat>)
    ensures r.Some? ==> r.value < |sources| && !IsNullish(Get(sources[r.value], k))
    ensures r.Some? ==> forall j :: 0 <= j < r.value ==> IsNullish(Get(sources[j], k))
    ensures r.None? ==> forall j :: 0 <= j < |sources| ==> IsNullish(Get(sources[j], k))
  {
    if sources == [] then None
    else if !IsNullish(Get(sources[0], k)) then Some(0)
    else
      match FirstDefined(sources[1..], k)
      case None => None
      case Some(j) => Some(j + 1)
  }

  /** The first defined source of a list is that of the list without its last source, if any, else possibly the last one. */
  lemma {:induction false} FirstDefinedInit(sources: seq<Obj>, k: string)
    requires sources != []
    ensures var n := |sources| - 1;
      var g := FirstDefined(sources[..n], k);
      FirstDefined(sources, k) == if g.Some? then g else if IsNullish(Get(sources[n], k)) then None else Some(n)
    decreases |sources|
  {
    var n := |sources| - 1;
    if n > 0 {
      assert sources[..n][0] == sources[0];
      if IsNullish(Get(sources[0], k)) {
        assert sources[..n][1..] == sources[1..][..n - 1];
        FirstDefinedInit(sources[1..], k);
      }
    }
  }

  /**
   * The earliest value that is not null or undefined wins: the target's own, else the first
   * source's that has one; when there is none, the key stays null or undefined.
   */
  lemma {:induction false} MergeGet(target: Obj, sources: seq<Obj>, k: string)
    requires forall j :: 0 <= j < |sources| ==> Valid(sources[j])
    ensures !IsNullish(Get(target, k)) ==> Get(Merge(target, sources), k) == Get(target, k)
    ensures IsNullish(Get(target, k)) && FirstDefined(sources, k).Some? ==>
      Get(Merge(target, sources), k) == Get(sources[FirstDefined(sources, k).value], k)
    ensures IsNullish(Get(target, k)) && FirstDefined(sources, k).None? ==> IsNullish(Get(Merge(target, sources), k))
    decreases |sources|
  {
    if sources != [] {
      var n := |sources| - 1;
      var init := sources[..n];
      assert forall j :: 0 <= j < n ==> init[j] == sources[j];
      MergeGet(target, init, k);
      MergeOneGet(Merge(target, init), sources[n], k);
      FirstDefinedInit(sources, k);
      var g := FirstDefined(init, k);
      if g.Some? {
        assert init[g.value] == sources[g.value];
      } else if k !in KeysOf(sources[n]) {
        assert Get(sources[n], k).None?;
      }
    }
  }

  /** `if (params.config !== false) params = mergeOptions({}, convertConfig(config), params)`, `config` as loaded. */
  function WithConfig(params: Obj, config: Obj): Obj {
    if Get(params, "config") == Some(JBool(false)) then params
    else Merge([], [Converted(config), params])
  }

  /**
   * With a configuration in force, a value it sets (other than null) overrides the command line;
   * the command line fills in what it leaves null or undefined.
   */
  lemma ConfigOverridesCommandLine(params: Obj, config: Obj, k: string)
    requires Valid(params)
    requires Get(params, "config") != Some(JBool(false))
    ensures !IsNullish(Get(Converted(config), k)) ==> Get(WithConfig(params, config), k) == Get(Converted(config), k)
    ensures IsNullish(Get(Converted(config), k)) && !IsNullish(Get(params, k)) ==>
      Get(WithConfig(params, config), k) == Get(params, k)
  {
    ConvertedGet(config, k);
    var sources := [Converted(config), params];
    MergeGet([], sources, k);
    var f := FirstDefined(sources, k);
    if f.Some? && f.value == 1 {
      assert sources[1] == params;
    }
  }

  /** Switching configuration files off leaves the command-line parameters as they are. */
  lemma NoConfigKeepsParams(params: Obj, config: Obj)
    requires Get(params, "config") == Some(JBool(false))
    ensures WithConfig(params, config) == params
  {
  }

  // ---------------------------------------------------------------------------
  // The defaults block

  /** The parameters with their defaults, and the file extensions a directory walk looks for. */
  datatype Settings = Settings(params: Obj, extensions: seq<string>)

  /** `${v}`: a string as it is, any other value as `display` writes it. */
  function TemplateText(v: JValue, display: JValue -> string): string {
    if v.JStr? then v.s else display(v)
  }

  /** `params.extensions.map(ext => `.${ext}`)`, or `.json` and `.JSON` when the list is empty. */
  function DottedExtensions(items: seq<JValue>, display: JValue -> string): seq<string> {
    var mapped := seq(|items|, i requires 0 <= i < |items| => "." + TemplateText(items[i], display));
    if mapped == [] then [".json", ".JSON"] else mapped
  }

  /** The defaults for the mode, the indentation and the diff context. */
  function FillDefaults(params: Obj): Obj {
    var p1 := if !Truthy(Get(params, "mode")) then Set(params, "mode", Some(JStr("json"))) else params;
    var p2 := if IsNullish(Get(p1, "indent")) then Set(p1, "indent", Some(JNum(2.0))) else p1;
    if IsNullish(Get(p2, "context")) then Set(p2, "context", Some(JNum(3.0))) else p2
  }

  /** The defaults block; an `extensions` parameter that is not an array makes `.map` throw. */
  function ApplyDefaults(params: Obj, display: JValue -> string): Result<Settings, string> {
    var ext := Get(params, "extensions");
    if ext.None? then Err("Cannot read properties of undefined (reading 'map')")
    else if ext.value.JNull? then Err("Cannot read properties of null (reading 'map')")
    else if !ext.value.JArr? then Err("params.extensions.map is not a function")
    else Ok(Settings(FillDefaults(params), DottedExtensions(ext.value.arr, display)))
  }

  /**
   * With an array of extensions the defaults apply: a falsy mode becomes `json`, a missing
   * indentation 2 and a missing context 3; set values are kept and nothing else changes.
   */
  lemma DefaultsFilled(params: Obj, display: JValue -> string, k: string)
    requires Get(params, "extensions").Some? && Get(params, "extensions").value.JArr?
    ensures var r := ApplyDefaults(params, display);
      && r.Ok?
      && Get(r.value.params, k) == (
           if k == "mode" && !Truthy(Get(params, k)) then Some(JStr("json"))
           else if k == "indent" && IsNullish(Get(params, k)) then Some(JNum(2.0))
           else if k == "context" && IsNullish(Get(params, k)) then Some(JNum(3.0))
           else Get(params, k))
  {
    var p1 := if !Truthy(Get(params, "mode")) then Set(params, "mode", Some(JStr("json"))) else params;
    var p2 := if IsNullish(Get(p1, "indent")) then Set(p1, "indent", Some(JNum(2.0))) else p1;
    var p3 := if IsNullish(Get(p2, "context")) then Set(p2, "context", Some(JNum(3.0))) else p2;
    assert FillDefaults(params) == p3;
    GetSet(params, "mode", Some(JStr("json")), "indent");
    GetSet(params, "mode", Some(JStr("json")), "context");
    GetSet(p1, "indent", Some(JNum(2.0)), "context");
    GetSet(params, "mode", Some(JStr("json")), k);
    GetSet(p1, "indent", Some(JNum(2.0)), k);
    GetSet(p2, "context", Some(JNum(3.0)), k);
  }

  /**
   * Every extension looked for starts with a dot: each given one with a dot in front, in order,
   * or `.json` and `.JSON` when none is given.
   */
  lemma DefaultExtensions(params: Obj, display: JValue -> string)
    requires Get(params, "extensions").Some? && Get(params, "extensions").value.JArr?
    ensures var items := Get(params, "extensions").value.arr;
      var r := ApplyDefaults(params, display);
      && r.Ok?
      && (items == [] ==> r.value.extensions == [".json", ".JSON"])
      && (items != [] ==>
            && |r.value.extensions| == |items|
            && forall i :: 0 <= i < |items| ==> r.value.extensions[i] == "." + TemplateText(items[i], display))
      && forall i :: 0 <= i < |r.value.extensions| ==> r.value.extensions[i][0] == '.'
  {
  }

  /** A non-array `extensions` parameter makes the block throw. */
  lemma ExtensionsMustBeArray(params: Obj, display: JValue -> string)
    requires !(Get(params, "extensions").Some? && Get(params, "extensions").value.JArr?)
    ensures ApplyDefaults(params, display).Err?
  {
  }

  // ---------------------------------------------------------------------------
  // ensureLineBreak

  /** The line break appended: CRLF only when `forceCrlf` is exactly true. */
  function LineBreak(forceCrlf: Prop): string {
    if forceCrlf == Some(JBool(true)) then "\r\n" else "\n"
  }

  /** `ensureLineBreak(parsed, source)` with `params.trailingNewline` and `params.forceCrlf` passed in. */
  function EnsureLineBreak(parsed: string, source: string, trailingNewline: Prop, forceCrlf: Prop): string {
    var lines := SplitLines(source);
    var newLine := lines[|lines| - 1] == "";
    if trailingNewline == Some(JBool(true)) || (trailingNewline != Some(JBool(false)) && newLine) then
      parsed + LineBreak(forceCrlf)
    else parsed
  }

  /**
   * A line break is appended exactly when `trailingNewline` is true, or when it is not false and
   * the source is empty or ends with a line feed; otherwise the output is unchanged.
   */
  lemma LineBreakRule(parsed: string, source: string, trailingNewline: Prop, forceCrlf: Prop)
    ensures var appended := trailingNewline == Some(JBool(true))
        || (trailingNewline != Some(JBool(false)) && (source == "" || source[|source| - 1] == '\n'));
      EnsureLineBreak(parsed, source, trailingNewline, forceCrlf)
        == if appended then parsed + LineBreak(forceCrlf) else parsed
  {
    LastLineEmpty(source);
  }

  /** The output always starts with the text given and adds at most one line break. */
  lemma LineBreakOnlyAppends(parsed: string, source: string, trailingNewline: Prop, forceCrlf: Prop)
    ensures var r := EnsureLineBreak(parsed, source, trailingNewline, forceCrlf);
      && r[..|parsed|] == parsed
      && (r == parsed || r[|parsed|..] == "\n" || r[|parsed|..] == "\r\n")
  {
    var r := EnsureLineBreak(parsed, source, trailingNewline, forceCrlf);
    if r != parsed {
      assert r == parsed + LineBreak(forceCrlf);
    }
  }
}
