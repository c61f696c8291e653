/**
 * `compile(schema, environmentOrOptions)`: builds a schema engine for the chosen environment,
 * prepares and registers the schemas, and returns a function that validates data and turns the
 * first validation error into a `SyntaxError` located in the input text.
 *
 * The schema engine (Ajv), the linter's parser and tokenizer, `pathToPointer`,
 * `getErrorTexts` and `JSON.stringify` are not part of this model: they are the fields of a
 * `Library` value, and nothing is assumed about what they return.
 */
module Validator {
  import opened Base
  import opened Json
  import opened Environments

  // ---------------------------------------------------------------------------
  // Values exchanged with the parser, the tokenizer and the engine.

  /** The options the parser and the tokenizer read; `None` is an absent property. */
  datatype ParseOptions = ParseOptions(
    mode: Option<string>,
    ignoreBOM: Option<bool>,
    ignoreComments: Option<bool>,
    ignoreTrailingCommas: Option<bool>,
    allowSingleQuotedStrings: Option<bool>,
    allowDuplicateObjectKeys: Option<bool>,
    ignoreProtoKey: Option<bool>,
    ignorePrototypeKeys: Option<bool>,
    tokenLocations: Option<bool>,
    tokenPaths: Option<bool>)

  const NoParseOptions := ParseOptions(None, None, None, None, None, None, None, None, None, None)

  /** An options object owned by the caller of the validator; `createError` writes into it. */
  class OptionsObject {
    var settings: ParseOptions

    constructor(settings: ParseOptions)
      ensures this.settings == settings
    {
      this.settings := settings;
    }
  }

  /** The `CompileOptions` object that may stand in place of the environment name. */
  datatype CompileOptions = CompileOptions(
    mode: Option<string>,
    ignoreBOM: Option<bool>,
    ignoreComments: Option<bool>,
    ignoreTrailingCommas: Option<bool>,
    allowSingleQuotedStrings: Option<bool>,
    allowDuplicateObjectKeys: Option<bool>,
    ignoreProtoKey: Option<bool>,
    ignorePrototypeKeys: Option<bool>,
    environment: Option<string>,
    strict: Option<bool>)

  /** The second argument of `compile`: nothing, an environment name, or an options object. */
  datatype EnvironmentArg = NoEnvironment | Named(name: string) | WithOptions(options: CompileOptions)

  /** One step of a token's path: an object key or an array index. */
  datatype PathKey = Key(key: string) | Index(index: nat)

  datatype Position = Position(offset: nat, line: nat, column: nat)

  /** A token as the tokenizer reports it when asked for paths and locations. */
  datatype Token = Token(path: seq<PathKey>, start: Position)

  /** What `getErrorTexts` returns; an empty `pointer` is a missing one. */
  datatype ErrorTexts = ErrorTexts(message: string, excerpt: string, pointer: string)

  /** One entry of the engine's error list. */
  datatype AjvError = AjvError(dataPath: Option<string>, schemaPath: string, message: string)

  /** The fields `errorToProblem` and `addErrorLocation` write; `None` is a property never set. */
  datatype Problem = Problem(
    reason: string,
    dataPath: Option<string>,
    schemaPath: string,
    message: Option<string>,
    excerpt: Option<string>,
    pointer: Option<string>,
    location: Option<Position>)

  datatype ErrorName = SyntaxError | RangeError | ReferenceError | EngineError

  /** A thrown error: its constructor, its message and the problem fields copied onto it. */
  datatype JsError = JsError(name: ErrorName, message: string, problem: Option<Problem>)

  /** A compiled schema check: the engine's error list for the data, empty when the data is valid. */
  type Check = JValue -> seq<AjvError>

  /** What the engine holds: its build, its options, the installed extensions and the registered schemas. */
  datatype EngineState = EngineState(setup: Setup, strictOff: bool, schemas: seq<JValue>)

  /** The outcome of `ajv.addSchema`: what it threw, if anything, and `ajv.errors` afterwards. */
  datatype AddReply = AddReply(thrown: Option<string>, errors: Option<seq<AjvError>>)

  /** The outcome of `ajv.compile`: the check or what it threw, and `ajv.errors` afterwards. */
  datatype CompileReply = CompileReply(result: Result<Check, string>, errors: Option<seq<AjvError>>)

  /** The code the validator calls but does not own. */
  datatype Library = Library(
    parse: (string, ParseOptions) -> Result<JValue, JsError>,
    tokenize: (string, ParseOptions) -> seq<Token>,
    pathToPointer: seq<PathKey> -> string,
    getErrorTexts: (string, string, nat, nat, nat) -> ErrorTexts,
    stringify: JValue -> string,
    addSchema: (EngineState, JValue) -> AddReply,
    compile: (EngineState, Option<JValue>) -> CompileReply)

  // ---------------------------------------------------------------------------
  // createAjv

  /** A schema engine instance. */
  class Ajv {
    var setup: Setup
    var strictOff: bool
    var schemas: seq<JValue>
    var errors: Option<seq<AjvError>>

    function State(): EngineState
      reads this
    {
      EngineState(setup, strictOff, schemas)
    }

    /** `new Ajv(ajvOptions)`: `strictOff` is the `strict: false` engine option. */
    constructor(engine: Engine, strictOff: bool)
      ensures State() == EngineState(Setup(engine, []), strictOff, [])
      ensures errors == None
    {
      setup := Setup(engine, []);
      this.strictOff := strictOff;
      schemas := [];
      errors := None;
    }

    /** `ajv.addMetaSchema(...)` or a plugin applied to the engine. */
    method Install(x: Extension)
      modifies this
      ensures setup == old(setup).(extensions := old(setup).extensions + [x])
      ensures strictOff == old(strictOff) && schemas == old(schemas) && errors == old(errors)
    {
      setup := setup.(extensions := setup.extensions + [x]);
    }

    /** `ajv.addSchema(schema)`: registered unless the engine throws. */
    method AddSchema(schema: JValue, lib: Library) returns (thrown: Option<string>)
      modifies this
      ensures var reply := lib.addSchema(old(State()), schema);
        && thrown == reply.thrown
        && errors == reply.errors
        && setup == old(setup) && strictOff == old(strictOff)
        && schemas == (if thrown.None? then old(schemas) + [schema] else old(schemas))
    {
      var reply := lib.addSchema(State(), schema);
      thrown := reply.thrown;
      errors := reply.errors;
      if thrown.None? {
        schemas := schemas + [schema];
      }
    }

    /** `ajv.compile(schema)`. */
    method Compile(main: Option<JValue>, lib: Library) returns (r: Result<Check, string>)
      modifies this
      ensures var reply := lib.compile(old(State()), main);
        r == reply.result && errors == reply.errors && State() == old(State())
    {
      var reply := lib.compile(State(), main);
      r := reply.result;
      errors := reply.errors;
    }
  }

  /**
   * `createAjv(environment, ajvOptions)`: builds the engine the environment selects and installs
   * its extensions in order, or refuses the environment with the `RangeError` message.
   */
  method CreateAjv(environment: Option<string>, strictOff: bool) returns (r: Result<Ajv, string>)
    ensures SetupFor(environment).Err? ==> r.Err? && r.error == SetupFor(environment).error
    ensures SetupFor(environment).Ok? ==>
      && r.Ok? && fresh(r.value)
      && r.value.State() == EngineState(SetupFor(environment).value, strictOff, [])
      && r.value.errors == None
  {
    var e := if environment.None? then "" else environment.value;
    var ajv: Ajv;
    if e == "" || e == "json-schema-draft-06" || e == "draft-06" {
      ajv := new Ajv(Ajv07, strictOff);
      ajv.Install(MetaSchema06);
      ajv.Install(Formats);
      ajv.Install(Keywords);
    } else if e == "json-schema-draft-07" || e == "draft-07" {
      ajv := new Ajv(Ajv07, strictOff);
      ajv.Install(Formats);
      ajv.Install(Formats2019);
      ajv.Install(Keywords);
    } else if e == "json-schema-draft-04" || e == "draft-04" {
      ajv := new Ajv(Ajv04, strictOff);
    } else if e == "json-schema-draft-2019-09" || e == "draft-2019-09" {
      ajv := new Ajv(Ajv2019, strictOff);
      ajv.Install(Formats);
      ajv.Install(Formats2019);
      ajv.Install(Keywords);
    } else if e == "json-schema-draft-2020-12" || e == "draft-2020-12" {
      ajv := new Ajv(Ajv2020, strictOff);
      ajv.Install(Formats);
      ajv.Install(Formats2019);
      ajv.Install(Keywords);
    } else if e == "json-type-definition" || e == "jtd" || e == "rfc8927" {
      ajv := new Ajv(AjvJtd, strictOff);
    } else {
      return Err(Unsupported(e));
    }
    return Ok(ajv);
  }

  // ---------------------------------------------------------------------------
  // compile: reading the second argument

  /** What `compile` takes from its second argument. */
  datatype Normalised = Normalised(environment: Option<string>, strictOff: bool, parseOptions: ParseOptions)

  /**
   * An options object supplies the environment, the `strict` switch and the eight parsing
   * options; a name or nothing is the environment itself, with no options at all.
   */
  function Normalise(arg: EnvironmentArg): (n: Normalised)
    ensures n.strictOff <==> arg.WithOptions? && arg.options.strict == Some(false)
    ensures n.environment == match arg
      case NoEnvironment => None
      case Named(name) => Some(name)
      case WithOptions(o) => o.environment
    ensures n.parseOptions.tokenLocations.None? && n.parseOptions.tokenPaths.None?
    ensures !arg.WithOptions? ==> n.parseOptions == NoParseOptions
    ensures arg.WithOptions? ==>
      var o := arg.options;
      var p := n.parseOptions;
      && p.mode == o.mode && p.ignoreBOM == o.ignoreBOM && p.ignoreComments == o.ignoreComments
      && p.ignoreTrailingCommas == o.ignoreTrailingCommas
      && p.allowSingleQuotedStrings == o.allowSingleQuotedStrings
      && p.allowDuplicateObjectKeys == o.allowDuplicateObjectKeys
      && p.ignoreProtoKey == o.ignoreProtoKey && p.ignorePrototypeKeys == o.ignorePrototypeKeys
  {
    match arg
    case NoEnvironment => Normalised(None, false, NoParseOptions)
    case Named(name) => Normalised(Some(name), false, NoParseOptions)
    case WithOptions(o) =>
      var p := ParseOptions(o.mode, o.ignoreBOM, o.ignoreComments, o.ignoreTrailingCommas,
        o.allowSingleQuotedStrings, o.allowDuplicateObjectKeys, o.ignoreProtoKey, o.ignorePrototypeKeys,
        None, None);
      Normalised(o.environment, o.strict == Some(false), p)
  }

  // ---------------------------------------------------------------------------
  // compileSchema

  /** A schema argument that is not an array is a list of one schema. */
  function SchemaList(schema: JValue): (items: seq<JValue>)
    ensures schema.JArr? ==> items == schema.arr
    ensures !schema.JArr? ==> items == [schema]
  {
    if schema.JArr? then schema.arr else [schema]
  }

  /** The message a schema parse failure is re-thrown with; `position` counts from 1. */
  function ParseFailureMessage(position: nat, message: string): string {
    "Parsing the JSON Schema #" + NatToString(position) + " failed.\n" + message
  }

  /**
   * The `schema.map(...)` step over `items`, whose first element has index `from`: strings are
   * parsed, other values pass through, and the first parse failure is re-thrown with its position.
   */
  function PrepareSchemas(items: seq<JValue>, from: nat, options: ParseOptions, lib: Library): Result<seq<JValue>, JsError>
    decreases |items|
  {
    if items == [] then Ok([])
    else
      var head: Result<JValue, JsError> :=
        if items[0].JStr? then
          match lib.parse(items[0].s, options)
          case Ok(v) => Ok(v)
          case Err(e) => Err(e.(message := ParseFailureMessage(from + 1, e.message)))
        else Ok(items[0]);
      if head.Err? then Err(head.error)
      else
        match PrepareSchemas(items[1..], from + 1, options, lib)
        case Ok(rest) => Ok([head.value] + rest)
        case Err(e) => Err(e)
  }

  /** A text entry parses under the given options. */
  predicate Parses(item: JValue, options: ParseOptions, lib: Library) {
    item.JStr? ==> lib.parse(item.s, options).Ok?
  }

  /** Entry `i` is the first text entry that does not parse. */
  predicate FirstFailure(items: seq<JValue>, i: int, options: ParseOptions, lib: Library) {
    && 0 <= i < |items|
    && !Parses(items[i], options, lib)
    && forall j :: 0 <= j < i ==> Parses(items[j], options, lib)
  }

  /** The value an entry stands for once prepared. */
  function Prepared(item: JValue, options: ParseOptions, lib: Library): JValue
    requires Parses(item, options, lib)
  {
    if item.JStr? then lib.parse(item.s, options).value else item
  }

  /**
   * Preparation succeeds exactly when every text entry parses, and then yields each entry's
   * value in order; otherwise it fails with the first unparseable text's error, its message
   * prefixed with that entry's position.
   */
  /** A first entry that parses is prepared and the rest follow, or the rest's failure is the result. */
  lemma PrepareHead(items: seq<JValue>, from: nat, options: ParseOptions, lib: Library)
    requires items != [] && Parses(items[0], options, lib)
    ensures var rest := PrepareSchemas(items[1..], from + 1, options, lib);
      PrepareSchemas(items, from, options, lib)
        == if rest.Ok? then Ok([Prepared(items[0], options, lib)] + rest.value) else Err(rest.error)
  {
  }

  lemma {:induction false} PrepareSchemasSpec(items: seq<JValue>, from: nat, options: ParseOptions, lib: Library)
    ensures var r := PrepareSchemas(items, from, options, lib);
      && (r.Ok? <==> forall i :: 0 <= i < |items| ==> Parses(items[i], options, lib))
      && (r.Ok? ==>
            && |r.value| == |items|
            && forall i :: 0 <= i < |items| ==> r.value[i] == Prepared(items[i], options, lib))
      && (r.Err? ==>
            exists i :: FirstFailure(items, i, options, lib) &&
              var e := lib.parse(items[i].s, options).error;
              r.error == e.(message := ParseFailureMessage(from + i + 1, e.message)))
    decreases |items|
  {
    if items != [] {
      PrepareSchemasSpec(items[1..], from + 1, options, lib);
      var r := PrepareSchemas(items, from, options, lib);
      if Parses(items[0], options, lib) {
        var rest := PrepareSchemas(items[1..], from + 1, options, lib);
        PrepareHead(items, from, options, lib);
        if rest.Err? {
          var i :| FirstFailure(items[1..], i, options, lib) &&
            var e := lib.parse(items[1..][i].s, options).error;
            rest.error == e.(message := ParseFailureMessage(from + 1 + i + 1, e.message));
          assert items[i + 1] == items[1..][i];
          forall j | 0 <= j < i + 1 ensures Parses(items[j], options, lib) {
            if j > 0 { assert items[j] == items[1..][j - 1]; }
          }
          assert FirstFailure(items, i + 1, options, lib);
        } else {
          forall i | 0 <= i < |items|
            ensures Parses(items[i], options, lib) && r.value[i] == Prepared(items[i], options, lib)
          {
            if i > 0 { assert items[i] == items[1..][i - 1]; }
          }
        }
      } else {
        assert FirstFailure(items, 0, options, lib);
      }
    }
  }

  /**
   * The registration loop's outcome for the schemas `others`, from engine state `st` with
   * `ajv.errors` equal to `errors`: the state and `ajv.errors` after it, and what was thrown.
   */
  function Register(st: EngineState, errors: Option<seq<AjvError>>, others: seq<JValue>, lib: Library)
    : (EngineState, Option<seq<AjvError>>, Option<string>)
    decreases |others|
  {
    if others == [] then (st, errors, None)
    else
      var reply := lib.addSchema(st, others[0]);
      if reply.thrown.Some? then (st, reply.errors, reply.thrown)
      else Register(st.(schemas := st.schemas + [others[0]]), reply.errors, others[1..], lib)
  }

  /** When no registration throws, every auxiliary schema is registered, in order. */
  lemma {:induction false} RegisterAll(st: EngineState, errors: Option<seq<AjvError>>, others: seq<JValue>, lib: Library)
    ensures var (st', _, thrown) := Register(st, errors, others, lib);
      thrown.None? ==> st' == st.(schemas := st.schemas + others)
    decreases |others|
  {
    if others != [] {
      var reply := lib.addSchema(st, others[0]);
      if reply.thrown.None? {
        RegisterAll(st.(schemas := st.schemas + [others[0]]), reply.errors, others[1..], lib);
        assert st.schemas + [others[0]] + others[1..] == st.schemas + others;
      }
    }
  }

  const CompileFailurePrefix := "Compiling the JSON Schema failed.\n"

  /**
   * The `catch` of `compileSchema`. With `ajv.errors` set, the call `createError(errors, parsed, ...)`
   * names a variable that does not exist, so a `ReferenceError` escapes; otherwise the engine's
   * error is re-thrown with the compile-failure prefix.
   */
  function CompileFailure(errors: Option<seq<AjvError>>, message: string): JsError {
    if errors.Some? then JsError(ReferenceError, "parsed is not defined", None)
    else JsError(EngineError, CompileFailurePrefix + message, None)
  }

  /** `compileSchema(ajv, schema, parseOptions)` on an engine in state `st` with `ajv.errors` equal to `errors`. */
  function CompileSchemaOutcome(st: EngineState, errors: Option<seq<AjvError>>, schema: JValue,
                                options: ParseOptions, lib: Library): Result<Check, JsError>
  {
    match PrepareSchemas(SchemaList(schema), 0, options, lib)
    case Err(e) => Err(e)
    case Ok(ss) =>
      var main := if ss == [] then None else Some(ss[0]);
      var others := if ss == [] then [] else ss[1..];
      var (st', errors', thrown) := Register(st, errors, others, lib);
      if thrown.Some? then Err(CompileFailure(errors', thrown.value))
      else
        var reply := lib.compile(st', main);
        match reply.result
        case Ok(check) => Ok(check)
        case Err(m) => Err(CompileFailure(reply.errors, m))
  }

  /** The engine's state and `ajv.errors` after `compileSchema`. */
  function CompileSchemaEffect(st: EngineState, errors: Option<seq<AjvError>>, schema: JValue,
                               options: ParseOptions, lib: Library): (EngineState, Option<seq<AjvError>>)
  {
    match PrepareSchemas(SchemaList(schema), 0, options, lib)
    case Err(_) => (st, errors)
    case Ok(ss) =>
      var main := if ss == [] then None else Some(ss[0]);
      var others := if ss == [] then [] else ss[1..];
      var (st', errors', thrown) := Register(st, errors, others, lib);
      if thrown.Some? then (st', errors')
      else (st', lib.compile(st', main).errors)
  }

  /**
   * A schema that fails to parse leaves the engine untouched; a successful compilation leaves it
   * holding every other prepared schema after those it had, with `ajv.errors` as the engine's
   * compile step set it.
   */
  lemma EngineAfterCompile(st: EngineState, errors: Option<seq<AjvError>>, schema: JValue,
                           options: ParseOptions, lib: Library)
    ensures var ss := PrepareSchemas(SchemaList(schema), 0, options, lib);
      var effect := CompileSchemaEffect(st, errors, schema, options, lib);
      && (ss.Err? ==> effect == (st, errors))
      && (CompileSchemaOutcome(st, errors, schema, options, lib).Ok? ==>
            && ss.Ok?
            && var main := if ss.value == [] then None else Some(ss.value[0]);
               var others := if ss.value == [] then [] else ss.value[1..];
               && effect.0 == st.(schemas := st.schemas + others)
               && effect.1 == lib.compile(effect.0, main).errors)
  {
    var ss := PrepareSchemas(SchemaList(schema), 0, options, lib);
    if ss.Ok? && CompileSchemaOutcome(st, errors, schema, options, lib).Ok? {
      var others := if ss.value == [] then [] else ss.value[1..];
      RegisterAll(st, errors, others, lib);
      assert Register(st, errors, others, lib).2.None?;
    }
  }

  /**
   * A successful compilation compiled the first prepared schema on an engine holding every other
   * prepared schema, registered in order after those it already had.
   */
  lemma MainCompiledLast(st: EngineState, errors: Option<seq<AjvError>>, schema: JValue,
                         options: ParseOptions, lib: Library)
    requires CompileSchemaOutcome(st, errors, schema, options, lib).Ok?
    ensures var ss := PrepareSchemas(SchemaList(schema), 0, options, lib);
      && ss.Ok? && |ss.value| == |SchemaList(schema)|
      && var main := if ss.value == [] then None else Some(ss.value[0]);
         var others := if ss.value == [] then [] else ss.value[1..];
         lib.compile(st.(schemas := st.schemas + others), main).result
           == Ok(CompileSchemaOutcome(st, errors, schema, options, lib).value)
  {
    var ss := PrepareSchemas(SchemaList(schema), 0, options, lib);
    PrepareSchemasSpec(SchemaList(schema), 0, options, lib);
    var main := if ss.value == [] then None else Some(ss.value[0]);
    var others := if ss.value == [] then [] else ss.value[1..];
    RegisterAll(st, errors, others, lib);
    var reg := Register(st, errors, others, lib);
    assert reg.2.None?;
    assert reg.0 == st.(schemas := st.schemas + others);
    var reply := lib.compile(reg.0, main);
    assert CompileSchemaOutcome(st, errors, schema, options, lib) == Ok(reply.result.value);
  }

  /**
   * Once every schema is prepared, a failure of the engine surfaces either as the
   * `ReferenceError` for the missing variable (when `ajv.errors` was set) or as the engine's own
   * error with the compile-failure prefix; no problem record is attached either way.
   */
  lemma EngineFailureReported(st: EngineState, errors: Option<seq<AjvError>>, schema: JValue,
                              options: ParseOptions, lib: Library)
    requires PrepareSchemas(SchemaList(schema), 0, options, lib).Ok?
    requires CompileSchemaOutcome(st, errors, schema, options, lib).Err?
    ensures var e := CompileSchemaOutcome(st, errors, schema, options, lib).error;
      && e.problem.None?
      && (e.name == ReferenceError || e.name == EngineError)
      && (e.name == ReferenceError ==> e.message == "parsed is not defined")
      && (e.name == EngineError ==> e.message[..|CompileFailurePrefix|] == CompileFailurePrefix)
  {
  }

  /** The `for (const schema of others) ajv.addSchema(schema)` loop. */
  method RegisterSchemas(ajv: Ajv, others: seq<JValue>, lib: Library) returns (thrown: Option<string>)
    modifies ajv
    ensures (ajv.State(), ajv.errors, thrown) == Register(old(ajv.State()), old(ajv.errors), others, lib)
  {
    var i := 0;
    thrown := None;
    while i < |others|
      invariant 0 <= i <= |others| && thrown.None?
      invariant Register(old(ajv.State()), old(ajv.errors), others, lib)
             == Register(ajv.State(), ajv.errors, others[i..], lib)
    {
      assert others[i..][0] == others[i] && others[i..][1..] == others[i + 1..];
      ghost var before, errors := ajv.State(), ajv.errors;
      thrown := ajv.AddSchema(others[i], lib);
      if thrown.Some? {
        assert ajv.State() == before;
        assert Register(before, errors, others[i..], lib) == (ajv.State(), ajv.errors, thrown);
        return;
      }
      i := i + 1;
    }
    assert others[i..] == [];
  }

  /** `compileSchema(ajv, schema, parseOptions)`. */
  method CompileSchema(ajv: Ajv, schema: JValue, options: ParseOptions, lib: Library) returns (r: Result<Check, JsError>)
    modifies ajv
    ensures r == CompileSchemaOutcome(old(ajv.State()), old(ajv.errors), schema, options, lib)
    ensures (ajv.State(), ajv.errors) == CompileSchemaEffect(old(ajv.State()), old(ajv.errors), schema, options, lib)
  {
    var prepared := PrepareSchemas(SchemaList(schema), 0, options, lib);
    if prepared.Err? {
      return Err(prepared.error);
    }
    var ss := prepared.value;
    var main := if ss == [] then None else Some(ss[0]);
    var others := if ss == [] then [] else ss[1..];
    var thrown := RegisterSchemas(ajv, others, lib);
    if thrown.Some? {
      return Err(CompileFailure(ajv.errors, thrown.value));
    }
    var compiled := ajv.Compile(main, lib);
    if compiled.Err? {
      return Err(CompileFailure(ajv.errors, compiled.error));
    }
    return Ok(compiled.value);
  }

  // ---------------------------------------------------------------------------
  // compile

  /** The validator `compile` returns: the compiled check, closed over. */
  datatype SchemaValidator = SchemaValidator(check: Check)

  /** `compile(schema, environment)` as a whole. */
  function CompileOutcome(schema: JValue, environment: EnvironmentArg, lib: Library): Result<SchemaValidator, JsError> {
    var n := Normalise(environment);
    match SetupFor(n.environment)
    case Err(m) => Err(JsError(RangeError, m, None))
    case Ok(setup) =>
      match CompileSchemaOutcome(EngineState(setup, n.strictOff, []), None, schema, n.parseOptions, lib)
      case Ok(check) => Ok(SchemaValidator(check))
      case Err(e) => Err(e)
  }

  /** An unknown environment is refused before any schema is looked at. */
  lemma UnknownEnvironmentFirst(schema: JValue, name: string, lib: Library)
    requires name != "" && name !in Names()
    ensures CompileOutcome(schema, Named(name), lib) == Err(JsError(RangeError, Unsupported(name), None))
  {
    SetupMatchesTable(name);
  }

  method Compile(schema: JValue, environment: EnvironmentArg, lib: Library) returns (r: Result<SchemaValidator, JsError>)
    ensures r == CompileOutcome(schema, environment, lib)
  {
    var n := Normalise(environment);
    var made := CreateAjv(n.environment, n.strictOff);
    if made.Err? {
      return Err(JsError(RangeError, made.error, None));
    }
    var compiled := CompileSchema(made.value, schema, n.parseOptions, lib);
    if compiled.Err? {
      return Err(compiled.error);
    }
    return Ok(SchemaValidator(compiled.value));
  }

  // ---------------------------------------------------------------------------
  // Shaping the reported error

  /** `tokens.find(...)`: the position of the first token whose pointer is the data path. */
  function FindToken(tokens: seq<Token>, dataPath: Option<string>, toPointer: seq<PathKey> -> string): (r: Option<nat>)
    ensures r.Some? ==> r.value < |tokens| && dataPath == Some(toPointer(tokens[r.value].path))
    ensures r.Some? ==> forall j :: 0 <= j < r.value ==> dataPath != Some(toPointer(tokens[j].path))
    ensures r.None? ==> forall j :: 0 <= j < |tokens| ==> dataPath != Some(toPointer(tokens[j].path))
  {
    if tokens == [] then None
    else if dataPath == Some(toPointer(tokens[0].path)) then Some(0)
    else
      match FindToken(tokens[1..], dataPath, toPointer)
      case None => None
      case Some(i) => Some(i + 1)
  }

  /** The reason template: the data path (or "/" when it is missing or empty), the message and the schema path. */
  function Reason(error: AjvError): string {
    var path := if error.dataPath.None? || error.dataPath.value == "" then "/" else error.dataPath.value;
    path + " " + error.message + "; see " + error.schemaPath
  }

  /** The reason is the data path, or "/", a space, the message, and `; see` with the schema path. */
  lemma ReasonParts(error: AjvError)
    ensures var r := Reason(error);
      var path := if error.dataPath.Some? && error.dataPath.value != "" then error.dataPath.value else "/";
      && |r| == |path| + 1 + |error.message| + 6 + |error.schemaPath|
      && r[..|path|] == path
      && r[|path|] == ' '
      && r[|path| + 1..|path| + 1 + |error.message|] == error.message
      && r[|r| - |error.schemaPath| - 6..] == "; see " + error.schemaPath
  {
    var path := if error.dataPath.Some? && error.dataPath.value != "" then error.dataPath.value else "/";
    var r := Reason(error);
    var head := path + " " + error.message;
    assert r == head + ("; see " + error.schemaPath);
    assert r[..|head|] == head && r[|head|..] == "; see " + error.schemaPath;
    assert head[..|path|] == path && head[|path|] == ' ' && head[|path| + 1..] == error.message;
  }

  /** `addErrorLocation(problem, input, tokens, dataPath)`: whether a token matched, and the problem after it. */
  function Locate(problem: Problem, input: string, tokens: seq<Token>, dataPath: Option<string>, lib: Library): (bool, Problem) {
    match FindToken(tokens, dataPath, lib.pathToPointer)
    case None => (false, problem)
    case Some(i) =>
      var at := tokens[i].start;
      var texts := lib.getErrorTexts(problem.reason, input, at.offset, at.line, at.column);
      var p := problem.(message := Some(texts.message), excerpt := Some(texts.excerpt));
      if texts.pointer != "" then (true, p.(pointer := Some(texts.pointer), location := Some(at)))
      else (true, p)
  }

  /** `errorToProblem(error, input, tokens)`. */
  function ProblemFor(error: AjvError, input: string, tokens: seq<Token>, lib: Library): Problem {
    var reason := Reason(error);
    var base := Problem(reason, error.dataPath, error.schemaPath, None, None, None, None);
    var (found, p) := Locate(base, input, tokens, error.dataPath, lib);
    if found then p else p.(message := Some(reason))
  }

  /**
   * The problem always has a message: the located text when a token matches the data path,
   * the reason otherwise. A location, with the matching token's start, is attached exactly when
   * a token matches and the error texts carry a pointer.
   */
  lemma ProblemShape(error: AjvError, input: string, tokens: seq<Token>, lib: Library)
    ensures var p := ProblemFor(error, input, tokens, lib);
      var hit := FindToken(tokens, error.dataPath, lib.pathToPointer);
      && p.reason == Reason(error) && p.dataPath == error.dataPath && p.schemaPath == error.schemaPath
      && (hit.None? ==> p.message == Some(Reason(error)) && p.excerpt.None? && p.location.None? && p.pointer.None?)
      && (hit.Some? ==>
            var at := tokens[hit.value].start;
            var texts := lib.getErrorTexts(Reason(error), input, at.offset, at.line, at.column);
            && p.message == Some(texts.message)
            && p.excerpt == Some(texts.excerpt)
            && (p.location.Some? <==> texts.pointer != "")
            && (p.location.Some? ==> p.location == Some(at) && p.pointer == Some(texts.pointer)))
  {
  }

  /** The options object after `Object.assign(options, { tokenLocations: true, tokenPaths: true })`. */
  function WithTokenDetails(options: ParseOptions): ParseOptions {
    options.(tokenLocations := Some(true), tokenPaths := Some(true))
  }

  /** The text errors are located in: the input, or the data serialised when there is no input text. */
  function ErrorInput(data: JValue, input: Option<string>, lib: Library): string {
    if input.None? || input.value == "" then lib.stringify(data) else input.value
  }

  /** `createError(errors, data, input, options)`, given what the options object held beforehand. */
  function ErrorFor(errors: seq<AjvError>, data: JValue, input: Option<string>, options: Option<ParseOptions>,
                    lib: Library): JsError
    requires |errors| > 0
  {
    var text := ErrorInput(data, input, lib);
    var settings := WithTokenDetails(if options.Some? then options.value else NoParseOptions);
    var problem := ProblemFor(errors[0], text, lib.tokenize(text, settings), lib);
    JsError(SyntaxError, problem.message.value, Some(problem))
  }

  /** Only the first engine error is reported: the errors after it change nothing. */
  lemma OnlyFirstError(errors: seq<AjvError>, data: JValue, input: Option<string>, options: Option<ParseOptions>,
                       lib: Library)
    requires |errors| > 0
    ensures ErrorFor(errors, data, input, options, lib) == ErrorFor([errors[0]], data, input, options, lib)
  {
  }

  /** Without an input text the error is located in the serialised data, as if that text had been given. */
  lemma MissingInputSerialised(errors: seq<AjvError>, data: JValue, options: Option<ParseOptions>, lib: Library)
    requires |errors| > 0
    ensures ErrorFor(errors, data, None, options, lib) == ErrorFor(errors, data, Some(lib.stringify(data)), options, lib)
    ensures ErrorFor(errors, data, Some(""), options, lib) == ErrorFor(errors, data, None, options, lib)
  {
  }

  /** A problem record that `errorToProblem` and `addErrorLocation` fill in. */
  class ProblemObject {
    var reason: string
    var dataPath: Option<string>
    var schemaPath: string
    var message: Option<string>
    var excerpt: Option<string>
    var pointer: Option<string>
    var location: Option<Position>

    function Snapshot(): Problem
      reads this
    {
      Problem(reason, dataPath, schemaPath, message, excerpt, pointer, location)
    }

    /** `{ reason, dataPath, schemaPath }`. */
    constructor(reason: string, dataPath: Option<string>, schemaPath: string)
      ensures Snapshot() == Problem(reason, dataPath, schemaPath, None, None, None, None)
    {
      this.reason := reason;
      this.dataPath := dataPath;
      this.schemaPath := schemaPath;
      message := None;
      excerpt := None;
      pointer := None;
      location := None;
    }
  }

  /** `addErrorLocation(problem, input, tokens, dataPath)`: writes the located texts into `problem`. */
  method AddErrorLocation(problem: ProblemObject, input: string, tokens: seq<Token>, dataPath: Option<string>,
                          lib: Library) returns (found: bool)
    modifies problem
    ensures (found, problem.Snapshot()) == Locate(old(problem.Snapshot()), input, tokens, dataPath, lib)
  {
    var hit := FindToken(tokens, dataPath, lib.pathToPointer);
    if hit.None? {
      return false;
    }
    var at := tokens[hit.value].start;
    var texts := lib.getErrorTexts(problem.reason, input, at.offset, at.line, at.column);
    problem.message := Some(texts.message);
    problem.excerpt := Some(texts.excerpt);
    if texts.pointer != "" {
      problem.pointer := Some(texts.pointer);
      problem.location := Some(at);
    }
    return true;
  }

  /** `errorToProblem(error, input, tokens)`. */
  method ErrorToProblem(error: AjvError, input: string, tokens: seq<Token>, lib: Library) returns (problem: ProblemObject)
    ensures fresh(problem)
    ensures problem.Snapshot() == ProblemFor(error, input, tokens, lib)
  {
    var reason := Reason(error);
    problem := new ProblemObject(reason, error.dataPath, error.schemaPath);
    var found := AddErrorLocation(problem, input, tokens, error.dataPath, lib);
    if !found {
      problem.message := Some(reason);
    }
  }

  /**
   * `createError(errors, data, input, options)`: a given options object is updated in place to
   * ask the tokenizer for token locations and paths; the thrown error describes `errors[0]`.
   */
  method CreateError(errors: seq<AjvError>, data: JValue, input: Option<string>, options: Option<OptionsObject>,
                     lib: Library) returns (e: JsError)
    requires |errors| > 0
    modifies if options.Some? then {options.value} else {}
    ensures options.Some? ==> options.value.settings == WithTokenDetails(old(options.value.settings))
    ensures e == ErrorFor(errors, data, input, if options.Some? then Some(old(options.value.settings)) else None, lib)
  {
    var text := if input.None? || input.value == "" then lib.stringify(data) else input.value;
    var o: OptionsObject;
    if options.Some? {
      o := options.value;
    } else {
      o := new OptionsObject(NoParseOptions);
    }
    o.settings := o.settings.(tokenLocations := Some(true), tokenPaths := Some(true));
    var tokens := lib.tokenize(text, o.settings);
    var problem := ErrorToProblem(errors[0], text, tokens, lib);
    e := JsError(SyntaxError, problem.message.value, Some(problem.Snapshot()));
  }

  // ---------------------------------------------------------------------------
  // The validator

  /** The second argument of the validator: nothing, the input text, or an options object. */
  datatype SecondArg = NoSecond | InputText(text: string) | OptionsArg(options: OptionsObject)

  /** The options object a second argument supplies when it stands in the options position. */
  function AsOptions(a: SecondArg): Option<OptionsObject> {
    if a.OptionsArg? then Some(a.options) else None
  }

  /** Which options object the validator ends up using. */
  function ChosenOptions(data: JValue, second: SecondArg, third: Option<OptionsObject>): Option<OptionsObject> {
    if data.JStr? || !second.InputText? then AsOptions(second) else third
  }

  /** What the options object holds, if there is one. */
  function SettingsOf(o: Option<OptionsObject>): Option<ParseOptions>
    reads if o.Some? then {o.value} else {}
  {
    if o.Some? then Some(o.value.settings) else None
  }

  /** The data the check runs on: text is parsed first with the chosen options, anything else is used as it is. */
  function ParsedData(data: JValue, settings: Option<ParseOptions>, lib: Library): Result<JValue, JsError> {
    if data.JStr? then lib.parse(data.s, if settings.Some? then settings.value else NoParseOptions) else Ok(data)
  }

  /** The data parses and the check reports at least one error, so `createError` runs. */
  predicate CheckFails(check: Check, data: JValue, settings: Option<ParseOptions>, lib: Library) {
    var parsed := ParsedData(data, settings, lib);
    parsed.Ok? && check(parsed.value) != []
  }

  /**
   * `validate(data, input, options)` with `settings` the chosen options object's contents: text
   * data is parsed first; valid data is returned as it is; otherwise the first error is thrown.
   */
  function ValidateOutcome(check: Check, data: JValue, second: SecondArg, settings: Option<ParseOptions>,
                           lib: Library): Result<JValue, JsError>
  {
    var input := if data.JStr? then Some(data.s) else if second.InputText? then Some(second.text) else None;
    match ParsedData(data, settings, lib)
    case Err(e) => Err(e)
    case Ok(d) =>
      var errors := check(d);
      if errors == [] then Ok(d) else Err(ErrorFor(errors, d, input, settings, lib))
  }

  /** Data that is not text is returned unchanged exactly when the check finds no error. */
  lemma ValidDataReturned(check: Check, data: JValue, second: SecondArg, settings: Option<ParseOptions>, lib: Library)
    requires !data.JStr?
    ensures var r := ValidateOutcome(check, data, second, settings, lib);
      && (r.Ok? <==> check(data) == [])
      && (r.Ok? ==> r.value == data)
      && (r.Err? ==>
            && r.error.name == SyntaxError && r.error.problem.Some?
            && r.error.problem.value.reason == Reason(check(data)[0]))
  {
  }

  /**
   * Text data is parsed with the second argument as options; a parse failure escapes as it is,
   * and otherwise the parsed value is checked and returned, or its first error is located in the text.
   */
  lemma TextDataParsed(check: Check, text: string, second: SecondArg, settings: Option<ParseOptions>, lib: Library)
    ensures var r := ValidateOutcome(check, JStr(text), second, settings, lib);
      var p := lib.parse(text, if settings.Some? then settings.value else NoParseOptions);
      && (p.Err? ==> r == Err(p.error))
      && (p.Ok? && check(p.value) == [] ==> r == Ok(p.value))
      && (p.Ok? && check(p.value) != [] ==> r == Err(ErrorFor(check(p.value), p.value, Some(text), settings, lib)))
  {
  }

  /**
   * `createError` runs exactly when the validator throws an error other than a parse failure:
   * the located `SyntaxError` for the first engine error.
   */
  lemma CheckFailsIffLocatedError(check: Check, data: JValue, second: SecondArg, settings: Option<ParseOptions>,
                                  lib: Library)
    ensures var r := ValidateOutcome(check, data, second, settings, lib);
      (CheckFails(check, data, settings, lib)
       <==> (r.Err? && ParsedData(data, settings, lib).Ok? && r.error.name == SyntaxError && r.error.problem.Some?))
  {
  }

  /** The function `compile` returns. */
  method Validate(v: SchemaValidator, data: JValue, second: SecondArg, third: Option<OptionsObject>, lib: Library)
    returns (r: Result<JValue, JsError>)
    modifies if ChosenOptions(data, second, third).Some? then {ChosenOptions(data, second, third).value} else {}
    ensures r == ValidateOutcome(v.check, data, second, old(SettingsOf(ChosenOptions(data, second, third))), lib)
    ensures var chosen := ChosenOptions(data, second, third);
      chosen.Some? ==>
        (chosen.value.settings
           == if CheckFails(v.check, data, old(SettingsOf(chosen)), lib) then WithTokenDetails(old(chosen.value.settings))
              else old(chosen.value.settings))
  {
    var d := data;
    var input: Option<string>;
    var options: Option<OptionsObject>;
    if data.JStr? {
      options := AsOptions(second);
      input := Some(data.s);
      var settings := if options.Some? then options.value.settings else NoParseOptions;
      var parsed := lib.parse(data.s, settings);
      if parsed.Err? {
        return Err(parsed.error);
      }
      d := parsed.value;
    } else if !second.InputText? {
      options := AsOptions(second);
      input := None;
    } else {
      options := third;
      input := Some(second.text);
    }
    var errors := v.check(d);
    if errors == [] {
      return Ok(d);
    }
    var e := CreateError(errors, d, input, options, lib);
    return Err(e);
  }
}
