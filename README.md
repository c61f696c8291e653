# jsonlint core in Dafny

This project models three core pieces of `@prantlf/jsonlint`:

- **The key sorter.** `sortObject` rebuilds objects with their own keys reordered. Arrays keep their order and scalars pass through.
- **The JSON Schema validator glue.** `compile` chooses a schema engine for an environment. It prepares and registers the schemas. It returns a validator that raises a `SyntaxError` located in the input text.
- **The command-line front end.** This covers:
  - scanning `process.argv` and validating option values;
  - renaming configuration keys;
  - `mergeOptions`;
  - the defaults block;
  - `ensureLineBreak`.

The modules follow the source files:

| module | contents |
|---|---|
| `Base` | Shared vocabulary: `Option`, `Result` and decimal rendering. |
| `Json` | JSON values and objects, as ordered key/value sequences. |
| `JsText` | String order, `toLowerCase`, `trim` and `split`. |
| `ArraySort` | The stable sort that `Array.prototype.sort` performs, with its order and stability lemmas. |
| `Sorter` | `sortObject` (lib/sorter.js). |
| `Environments` | The environment table of `createAjv`. |
| `Validator` | lib/validator.js. |
| `JsObject` | Plain JavaScript objects: properties in insertion order, `undefined` as `None`. |
| `CliArgs` | The argv loop and `parseArg` (lib/cli.js). |
| `CliConfig` | `convertConfig`, `mergeOptions`, the configuration merge, the defaults and `ensureLineBreak` (lib/cli.js). |

Code the core calls but does not own becomes a function-valued parameter:

- **Sorter:** `localeCompare`, as a `Collator`.
- **Validator:** the Ajv engine's `addSchema` and `compile`, plus jsonlint's `parse`, `tokenize`, `pathToPointer`, `getErrorTexts` and `JSON.stringify`. These are the fields of `Validator.Library`.
- **Command line:** the numeric conversion `+arg`, as `toNumber`, where `None` is `NaN`.
- **Defaults block:** the template conversion of a non-string value, as `display`.

Nothing is assumed about what these parameters return. The one exception is the locale order: it is required to be a total preorder wherever sortedness is claimed.

Parts of the model that change state in place are imperative:

- the `Ajv` engine instance;
- the problem record filled by `addErrorLocation`;
- the caller's options object, which `createError` modifies;
- the loops of `sortObject`, `compileSchema`, the argv scan, `convertConfig` and `mergeOptions`.

Each of these methods is proved equal to a specification function. The properties are then proved about that function.

Three behaviours of the code are reproduced as written:

- **`--context` is stored as `indent`.** The code checks that the value is numeric, then writes it into `params.indent` (lib/cli.js:207), so `params.context` is never set from the command line.
- **`mergeOptions` only fills null or undefined values.** Its array clause `!target[key].length === 0` compares a boolean with a number, so it never holds (lib/cli.js:332). An empty array in the target is therefore never overwritten.
- **The configuration wins over the command line.** The code calls `mergeOptions({}, convertConfig(config), params)` (lib/cli.js:309), so a value set in the configuration takes precedence. The command line only fills what the configuration leaves null or undefined.

One path is modelled as written even though it cannot have been meant. When compiling a schema fails while `ajv.errors` is set, the `catch` of `compileSchema` calls `createError` with the variable `parsed`. No variable of that name exists (lib/validator.js:164). The error that escapes is therefore a `ReferenceError` ("parsed is not defined"), not the located schema error. The model keeps that outcome (`Validator.CompileFailure`, stated by `Validator.EngineFailureReported`). The intended call cannot be recovered from the code, so no corrected variant is modelled.

The help text of the command line names draft-07 as the default environment. The code builds the draft-06 setup when no environment is given (lib/validator.js:109), and the model follows the code (`Environments.DefaultIsDraft06`).

## Model

| member | source | states |
|---|---|---|
| `Sorter.OrderFor` | node_modules/@prantlf/jsonlint/lib/sorter.js:25-42 | Locale collation exactly when a locale, `caseFirst` or `numeric` is given. `"default"` or no locale means the runtime's locale, and `ignoreCase` then means accent sensitivity. Otherwise lower-case comparison when `ignoreCase` is set, else the plain order. |
| `Sorter.CodeUnitPrecedes` | node_modules/@prantlf/jsonlint/lib/sorter.js:41 | The default comparison lets `l` stand before `r` exactly when they are equal or `l` is the smaller string. |
| `Sorter.OrderIsValid` | node_modules/@prantlf/jsonlint/lib/sorter.js:25-41 | The plain and the lower-case comparators are total preorders. The locale comparator is one whenever the collator is. |
| `Sorter.LowerCaseTies` | node_modules/@prantlf/jsonlint/lib/sorter.js:34-39 | Under `ignoreCase`, two keys tie exactly when their lower-case forms are equal, and order follows the lower-case forms. |
| `Sorter.SortObject` | node_modules/@prantlf/jsonlint/lib/sorter.js:11-47 | The method returns exactly the specification tree `SortValue` of its input and options. |
| `Sorter.SortElements` | node_modules/@prantlf/jsonlint/lib/sorter.js:12-13 | Every array element is sorted with no options: the index that `map` passes selects none. |
| `Sorter.OwnKeys` | node_modules/@prantlf/jsonlint/lib/sorter.js:17-24 | The key-collection loop yields the object's own keys in enumeration order. |
| `Sorter.FillSorted` | node_modules/@prantlf/jsonlint/lib/sorter.js:43-45 | The fill loop pairs each sorted key, in order, with its value sorted with no options. |
| `Sorter.ObjectEntries` | node_modules/@prantlf/jsonlint/lib/sorter.js:17-46 | A sorted object has the sorted keys, each taken from the input and holding the input's value under it, sorted with no options. |
| `Sorter.KeysPermuted` | node_modules/@prantlf/jsonlint/lib/sorter.js:17-45 | The result's keys are a permutation of the input's keys. |
| `Sorter.KeysSorted` | node_modules/@prantlf/jsonlint/lib/sorter.js:25-41 | The result's keys are ordered by the comparator the options select. |
| `Sorter.KeysStable` | node_modules/@prantlf/jsonlint/lib/sorter.js:25-41 | Keys the comparator holds equal keep their input order. |
| `Sorter.DefaultKeysAscending` | node_modules/@prantlf/jsonlint/lib/sorter.js:40-41 | Without options, distinct keys come out in strictly ascending string order. |
| `Sorter.IgnoreCaseKeys` | node_modules/@prantlf/jsonlint/lib/sorter.js:34-39 | With `ignoreCase` alone, lower-case forms never decrease, and keys with equal lower-case forms keep their input order. |
| `Sorter.ValuesSortedWithDefaults` | node_modules/@prantlf/jsonlint/lib/sorter.js:43-45 | Every input key is in the result, holding the input's value under it, sorted with no options. |
| `Sorter.OptionsOnlyAtTop` | node_modules/@prantlf/jsonlint/lib/sorter.js:11-16 | Options only affect the top-level object's key order. Arrays, scalars and all nested values come out the same whatever the options. |
| `Sorter.SortPreservesWellFormed` | node_modules/@prantlf/jsonlint/lib/sorter.js:17-46 | Sorting never creates duplicate keys in any object of the tree. |
| `Sorter.ObjectIdempotent` | node_modules/@prantlf/jsonlint/lib/sorter.js:17-46 | Re-sorting a sorted object with the same options changes nothing, given its values are already fixed points. |
| `Sorter.SortIdempotent` | node_modules/@prantlf/jsonlint/lib/sorter.js:11-47 | `sortObject` is idempotent on every tree and every set of options. Under a locale order, this needs a collator that forms a total preorder. |
| `ArraySort.SortBySorted` | node_modules/@prantlf/jsonlint/lib/sorter.js:33-41 | `a.sort` with a total-preorder comparator yields a sequence ordered by it. |
| `ArraySort.SortByStable` | node_modules/@prantlf/jsonlint/lib/sorter.js:33-41 | `a.sort` keeps the relative order of tied elements. |
| `ArraySort.SortBy` | node_modules/@prantlf/jsonlint/lib/sorter.js:33-41 | `a.sort` permutes the keys: same length, same multiset. |
| `Environments.SetupMatchesTable` | node_modules/@prantlf/jsonlint/lib/validator.js:107-143 | A non-empty identifier is accepted exactly when it is one of the thirteen listed. It then selects the listed setup. Any other identifier is refused with the message naming it. |
| `Environments.TableAgrees` | node_modules/@prantlf/jsonlint/lib/validator.js:107-143 | Every identifier of the reference table selects that entry's setup. |
| `Environments.DefaultIsDraft06` | node_modules/@prantlf/jsonlint/lib/validator.js:109-114 | With no environment, or an empty one, the Ajv07 engine is built with the draft-06 meta-schema, formats and keywords. |
| `Environments.ExtensionsBySetup` | node_modules/@prantlf/jsonlint/lib/validator.js:107-138 | draft-04 and JTD get no extensions. Only draft-06 gets the draft-06 meta-schema. Every other setup gets formats, the 2019 formats and keywords, in that order. |
| `Environments.UnsupportedNamesEnvironment` | node_modules/@prantlf/jsonlint/lib/validator.js:139-141 | The refusal message is the fixed prefix, the identifier, then `".`. |
| `Validator.Ajv.constructor` | node_modules/@prantlf/jsonlint/lib/validator.js:110-111 | A new engine has the chosen build, the `strict` option, no extensions, no schemas and no errors. |
| `Validator.Ajv.Install` | node_modules/@prantlf/jsonlint/lib/validator.js:112-114 | Installing an extension appends it and changes nothing else. |
| `Validator.Ajv.AddSchema` | node_modules/@prantlf/jsonlint/lib/validator.js:158 | A schema is registered unless the engine throws. `ajv.errors` becomes what the engine reports. |
| `Validator.Ajv.Compile` | node_modules/@prantlf/jsonlint/lib/validator.js:160 | Compilation returns the engine's check or its error, sets `ajv.errors` and keeps the engine state. |
| `Validator.CreateAjv` | node_modules/@prantlf/jsonlint/lib/validator.js:107-143 | For an accepted environment, a fresh engine holding exactly the table's setup with its extensions in order. Otherwise the `RangeError` message. |
| `Validator.Normalise` | node_modules/@prantlf/jsonlint/lib/validator.js:171-191 | An options object supplies the environment and the eight parsing options, and `strict: false` alone switches strictness off. A name, or nothing, is the environment with no options. |
| `Validator.SchemaList` | node_modules/@prantlf/jsonlint/lib/validator.js:146 | A non-array schema becomes a one-element list, and an array is taken as it is. |
| `Validator.PrepareSchemasSpec` | node_modules/@prantlf/jsonlint/lib/validator.js:147-155 | Preparation succeeds exactly when every text schema parses, yielding each schema's value in order. Otherwise it fails with the first failing text's error, its message prefixed with that schema's 1-based position. |
| `Base.NatToStringRoundTrip` | node_modules/@prantlf/jsonlint/lib/validator.js:152 | The position rendered into the parse-failure message reads back as the number. |
| `Validator.RegisterAll` | node_modules/@prantlf/jsonlint/lib/validator.js:157-159 | When no registration throws, every auxiliary schema is registered, in order. |
| `Validator.RegisterSchemas` | node_modules/@prantlf/jsonlint/lib/validator.js:157-159 | The registration loop leaves the engine, `ajv.errors` and the thrown error as the specification `Register` says. |
| `Validator.MainCompiledLast` | node_modules/@prantlf/jsonlint/lib/validator.js:145-160 | A successful compilation compiled the first prepared schema on the engine that holds all the other prepared schemas. |
| `Validator.EngineFailureReported` | node_modules/@prantlf/jsonlint/lib/validator.js:161-167 | Once the schemas are prepared, an engine failure surfaces as the `ReferenceError` "parsed is not defined" or as the engine's error with the compile-failure prefix. No problem record is attached. |
| `Validator.CompileSchema` | node_modules/@prantlf/jsonlint/lib/validator.js:145-169 | The method gives exactly the outcome of `CompileSchemaOutcome` on the engine's prior state. It leaves the engine and `ajv.errors` as `CompileSchemaEffect` says. |
| `Validator.EngineAfterCompile` | node_modules/@prantlf/jsonlint/lib/validator.js:145-169 | When a schema text does not parse, the engine and `ajv.errors` are untouched. When compiling succeeds, every schema after the first is registered in order, and `ajv.errors` is what compiling the main schema left. |
| `Validator.UnknownEnvironmentFirst` | node_modules/@prantlf/jsonlint/lib/validator.js:171-181 | An unknown environment name is refused with the `RangeError` before any schema is read. |
| `Validator.Compile` | node_modules/@prantlf/jsonlint/lib/validator.js:171-192 | `compile` gives exactly `CompileOutcome`: the environment error, the schema error, or the validator over the compiled check. |
| `Validator.FindToken` | node_modules/@prantlf/jsonlint/lib/validator.js:41-43 | The result is the first token whose pointer equals the data path, or none when no token matches. |
| `Validator.ReasonParts` | node_modules/@prantlf/jsonlint/lib/validator.js:69 | The reason is the data path (or `/` when it is missing or empty), a space, the message, then `; see` and the schema path. |
| `Validator.ProblemShape` | node_modules/@prantlf/jsonlint/lib/validator.js:40-79 | The problem keeps the reason and both paths, and always has a message. The message is the located text when a token matches and the reason otherwise. A location at the token's start is attached exactly when the error texts carry a pointer. |
| `Validator.ProblemObject.constructor` | node_modules/@prantlf/jsonlint/lib/validator.js:70-74 | A new problem holds the reason and the two paths, and nothing else. |
| `Validator.AddErrorLocation` | node_modules/@prantlf/jsonlint/lib/validator.js:40-64 | The method updates the problem record in place to the specification `Locate` and reports whether a token matched. |
| `Validator.ErrorToProblem` | node_modules/@prantlf/jsonlint/lib/validator.js:66-79 | The result is a fresh problem equal to `ProblemFor`. |
| `Validator.CreateError` | node_modules/@prantlf/jsonlint/lib/validator.js:81-105 | A given options object gains `tokenLocations` and `tokenPaths` set to true, and nothing else about it changes. The error is `ErrorFor` of the options as they were. |
| `Validator.OnlyFirstError` | node_modules/@prantlf/jsonlint/lib/validator.js:101 | Only the first engine error is reported, and the others change nothing. |
| `Validator.MissingInputSerialised` | node_modules/@prantlf/jsonlint/lib/validator.js:82-84 | A missing or empty input text is replaced by the serialised data. |
| `Validator.ValidDataReturned` | node_modules/@prantlf/jsonlint/lib/validator.js:198-205 | Non-text data is returned unchanged exactly when the check finds no error. Otherwise a `SyntaxError` is raised whose reason describes the first error. |
| `Validator.TextDataParsed` | node_modules/@prantlf/jsonlint/lib/validator.js:194-205 | Text data is parsed with the second argument as options, and a parse error escapes as it is. The parsed value is returned when valid; otherwise its first error is located in the text. |
| `Validator.Validate` | node_modules/@prantlf/jsonlint/lib/validator.js:193-206 | The validator gives exactly `ValidateOutcome` with the chosen options object's prior contents. The chosen options object gains `tokenLocations` and `tokenPaths` exactly when the data parsed and the check reported errors, and is otherwise left as it was. |
| `Validator.CheckFailsIffLocatedError` | node_modules/@prantlf/jsonlint/lib/validator.js:202-205 | The check rejects the parsed data exactly when the validator throws a `SyntaxError` that carries the problem. |
| `CliArgs.MatchRenders` | node_modules/@prantlf/jsonlint/lib/cli.js:103 | A matched option accounts for the whole argument: dashes, an optional `no-`, a name of letters and dashes starting with a letter, then an optional single-line value. |
| `CliArgs.LongForms` | node_modules/@prantlf/jsonlint/lib/cli.js:103 | `--name` and `--no-name` match the same name, plain and negated. |
| `CliArgs.RenderMatches` | node_modules/@prantlf/jsonlint/lib/cli.js:103 | Every argument of the option shape is matched, with its dashes, name and value read back. A plain name that starts with `no-` and a letter is read as the negation of the rest. |
| `CliArgs.RenderMatchesItself` | node_modules/@prantlf/jsonlint/lib/cli.js:103 | A match whose name is negated, or does not start with `no-`, is read back exactly from the argument it describes. |
| `CliArgs.TakeValue` | node_modules/@prantlf/jsonlint/lib/cli.js:126 | A non-empty attached value is used without consuming anything. Otherwise the next argument is consumed, and it is undefined past the end. |
| `CliArgs.ParseArg` | node_modules/@prantlf/jsonlint/lib/cli.js:105-263 | One option consumes at most one further argument. |
| `CliArgs.EnvironmentWhitelist` | node_modules/@prantlf/jsonlint/lib/cli.js:186-193 | The identifiers the command line accepts are exactly those for which the validator builds an engine. |
| `CliArgs.ScanArgv` | node_modules/@prantlf/jsonlint/lib/cli.js:101-277 | The argv loop gives exactly the outcome of the specification scan `Scan`. |
| `CliArgs.ScanFlags` | node_modules/@prantlf/jsonlint/lib/cli.js:264-266 | The loop over a letter group gives exactly the step `ParseFlags` specifies: the letters applied in order, stopping at the first that ends the scan. |
| `CliArgs.LongFlag` | node_modules/@prantlf/jsonlint/lib/cli.js:264-270 | A double-dash option whose name is a flag sets its parameter to true, or to false when negated (`--no-name`). An attached value is ignored, and scanning continues with the next argument. |
| `CliArgs.FlagArg` | node_modules/@prantlf/jsonlint/lib/cli.js:113-115 | An option whose action is a flag sets its parameter to the flag, changes nothing else and consumes no argument. |
| `CliArgs.LetterGroup` | node_modules/@prantlf/jsonlint/lib/cli.js:264-266 | A group of flag letters sets each letter's parameter to true, consumes nothing, and leaves all other parameters unchanged. |
| `CliArgs.SwitchOffLetters` | node_modules/@prantlf/jsonlint/lib/cli.js:110-229 | `-D`, `-F` and `-R` set `duplicateKeys`, `config` and `trailingNewline` to false, even when negated. |
| `CliArgs.UnknownLongOption` | node_modules/@prantlf/jsonlint/lib/cli.js:262 | A long option with an unknown name ends the scan with the unknown-option failure. |
| `CliArgs.ModeValues` | node_modules/@prantlf/jsonlint/lib/cli.js:155-161 | `--mode` succeeds exactly for `json`, `cjson` and `json5`, and stores the value. Anything else, or no value, throws. |
| `CliArgs.EnvironmentValues` | node_modules/@prantlf/jsonlint/lib/cli.js:184-195 | `--environment` succeeds exactly for a listed identifier and stores it. Otherwise it throws the message quoting the value. |
| `CliArgs.IndentValues` | node_modules/@prantlf/jsonlint/lib/cli.js:147-151 | `-t`/`--indent` takes the attached value or the next argument. With neither, the scan throws the `trim` TypeError. The indentation becomes a number exactly when the value is non-blank and numeric, and stays text otherwise. Scanning resumes after the consumed argument, and no other parameter changes. |
| `CliArgs.ContextGoesToIndent` | node_modules/@prantlf/jsonlint/lib/cli.js:202-208 | The diff context succeeds exactly for a numeric value. It writes that number into `indent`, and `context` stays as it was. |
| `CliArgs.ConfigValue` | node_modules/@prantlf/jsonlint/lib/cli.js:107-109 | `--config` stores its value, or undefined past the end. `--no-config` stores false and consumes nothing. No other parameter changes. |
| `CliArgs.TextValues` | node_modules/@prantlf/jsonlint/lib/cli.js:125-130 | The collation options store their value as given, and no other parameter changes. |
| `CliArgs.ListAppended` | node_modules/@prantlf/jsonlint/lib/cli.js:134-137 | A list option appends the comma-separated parts of its value, which join back to the value, and changes nothing else. Without a value, `split` throws. |
| `CliArgs.ListValues` | node_modules/@prantlf/jsonlint/lib/cli.js:180-183 | `-E`/`--extensions` and `-V`/`--validate` are list options on `extensions` and `validate`. |
| `CliArgs.DoubleDashEnds` | node_modules/@prantlf/jsonlint/lib/cli.js:272-275 | `--` ends option scanning, and every later argument is positional, unchanged. |
| `CliArgs.PlainArguments` | node_modules/@prantlf/jsonlint/lib/cli.js:276 | Arguments not starting with a dash are collected in order and change no parameter. |
| `CliConfig.RenamesMatchOptions` | node_modules/@prantlf/jsonlint/lib/cli.js:279-302 | Each kebab-case configuration key is renamed to exactly the parameter its command-line option sets. |
| `CliConfig.Rename` | node_modules/@prantlf/jsonlint/lib/cli.js:323 | A listed key becomes the name its table entry gives, and any other key is kept. |
| `CliConfig.RenameAsOption` | node_modules/@prantlf/jsonlint/lib/cli.js:279-302 | The name a listed key becomes is the parameter the long option of that key sets on the command line. |
| `CliConfig.ConvertConfig` | node_modules/@prantlf/jsonlint/lib/cli.js:320-327 | The loop builds exactly `Converted` of the configuration. |
| `CliConfig.ConvertedGet` | node_modules/@prantlf/jsonlint/lib/cli.js:320-327 | A name is present exactly when some key renames to it, and it holds the last such key's value. The result has no duplicate names. |
| `CliConfig.ConvertedRenames` | node_modules/@prantlf/jsonlint/lib/cli.js:322-325 | When renamed keys do not collide, each value reappears under its new name. |
| `CliConfig.OnlyNullishOverwritten` | node_modules/@prantlf/jsonlint/lib/cli.js:332 | A target value is overwritten exactly when it is null or undefined. An empty array is kept. |
| `CliConfig.MergeOptions` | node_modules/@prantlf/jsonlint/lib/cli.js:329-338 | The nested loops build exactly `Merge` of the target and the sources. |
| `CliConfig.MergeOneGet` | node_modules/@prantlf/jsonlint/lib/cli.js:331-335 | One source fills a key the target holds as null or undefined, and leaves every other key alone. |
| `CliConfig.MergeGet` | node_modules/@prantlf/jsonlint/lib/cli.js:329-338 | The earliest value that is not null or undefined wins: the target's own, else that of the first source having one. Otherwise the key stays nullish. |
| `CliConfig.ConfigOverridesCommandLine` | node_modules/@prantlf/jsonlint/lib/cli.js:304-310 | With configuration files enabled, a configured non-null value overrides the command line. The command line fills what the configuration leaves null or undefined. |
| `CliConfig.NoConfigKeepsParams` | node_modules/@prantlf/jsonlint/lib/cli.js:304 | With configuration files switched off, the parameters stay as scanned. |
| `CliConfig.DefaultsFilled` | node_modules/@prantlf/jsonlint/lib/cli.js:314-316 | A falsy mode becomes `json`, a null or undefined indentation 2, and a null or undefined context 3. Every other value is kept. |
| `CliConfig.DefaultExtensions` | node_modules/@prantlf/jsonlint/lib/cli.js:312-313 | Each given extension is prefixed with a dot, in order, or `.json` and `.JSON` are used when none is given. Every extension starts with a dot. |
| `CliConfig.ExtensionsMustBeArray` | node_modules/@prantlf/jsonlint/lib/cli.js:312 | An `extensions` parameter that is not an array makes the block throw. |
| `CliConfig.LineBreakRule` | node_modules/@prantlf/jsonlint/lib/cli.js:467-475 | A line break is appended exactly when `trailingNewline` is true, or when it is not false and the source is empty or ends with a newline. The break is CRLF only when `forceCrlf` is true. |
| `CliConfig.LineBreakOnlyAppends` | node_modules/@prantlf/jsonlint/lib/cli.js:467-475 | The output starts with the given text and adds at most one line break. |
| `JsText.LastLineEmpty` | node_modules/@prantlf/jsonlint/lib/cli.js:468-469 | The last segment of `split(/\r?\n/)` is empty exactly when the text is empty or ends with a newline. |
| `JsText.SplitJoinRoundTrip` | node_modules/@prantlf/jsonlint/lib/cli.js:136 | Splitting at commas loses nothing: joining the parts gives the text back. |
| `JsText.TrimEmptyIffBlank` | node_modules/@prantlf/jsonlint/lib/cli.js:149 | `trim()` leaves nothing exactly when every character is white space. |

## Left out

- Key order is the order of code points, not of UTF-16 code units. `toLowerCase` maps ASCII letters only.
- JavaScript enumerates integer-like keys first, in numeric order, whatever order they were inserted in. The model keeps every key in insertion order, both in `sortObject`'s result and in the command line's objects.
- A `__proto__` key, and a configuration key that is a name of `Object.prototype` (which `paramNames[key]` would find), are not modelled.
- Sorter.OrderFor: the `Collator` parameter never throws. In the source, `localeCompare` throws a `RangeError` for an invalid locale tag or `caseFirst` value (sorter.js:33). That is reachable from the command line, e.g. `--sort-keys-case-first=bogus` (cli.js:128-130, cli.js:420-423). The model sorts with the collator instead.
- Sorter.OrderFor: `SortOptions` uses `""` for an absent locale, so an explicit empty locale together with `caseFirst` or `numeric` is read as the runtime's locale. The source passes `""` on to `localeCompare`, which throws a `RangeError`. The command line never passes an empty locale, because cli.js:416 skips it.
- Validator.Normalise: a `null` second argument to `compile` is read as no environment. In the source `typeof null` is `'object'`, so validator.js:175 reads `options.environment` from `null` and throws a `TypeError`.
- `localeCompare` is the `Collator` parameter. Sortedness and stability under a locale are proved only for collators that form a total preorder.
- Numbers are reals. `NaN`, `Infinity` and `-0` are not modelled, and `+arg` is the `toNumber` parameter.
- String wrapper objects (`new String(...)`) are not distinguished from strings. A string passed as `compile`'s options is treated as an environment name, and `null` as no environment.
- In the validator's text-data path, a string second argument stands where the options go and is treated as no options.
- The Ajv engine, jsonlint's parser and tokenizer, `pathToPointer`, `getErrorTexts` and `JSON.stringify` are function parameters with no stated behaviour.
- Reading files, cosmiconfig's search and loading (the loaded configuration is a parameter), console output, `process.exit`, and the help and version texts are left out. So is everything in lib/cli.js after the defaults block except `ensureLineBreak`: processing files, diffs and reporting.
- CliArgs.ParseArg: states only that one option consumes at most one argument. What each option does is stated by the per-option lemmas (`LongFlag`, `ModeValues`, `EnvironmentValues`, `IndentValues`, `ContextGoesToIndent`, `ConfigValue`, `TextValues`, `ListAppended`, `SwitchOffLetters`) and by `ScanArgv`.
- Validator.ValidDataReturned: names only the reason of the raised problem. The rest of the problem is stated by `ProblemShape` and `CreateError`.
- The version and help options end the scan as `Exited`. What they print is not modelled.
