/**
 * The command line scanner: walks `process.argv` from its third element, recognises options by
 * their syntax, dispatches each option name to its effect on `params`, and collects the other
 * arguments as file names or patterns.
 *
 * Conversion of an option value to a number (`+arg`) is the parameter `toNumber`, which answers
 * `None` where JavaScript gives `NaN`.
 */
module CliArgs {
  import opened Base
  import opened Json
  import opened JsText
  import opened JsObject
  import Environments

  // ---------------------------------------------------------------------------
  // Option syntax: /^(-|--)(no-)?([a-zA-Z][-a-zA-Z]*)(?:=(.*))?$/

  datatype Dashes = Single | Double

  /** The groups of a matched option: the dashes, a `no-` prefix, the name and an attached value. */
  datatype OptionMatch = OptionMatch(dashes: Dashes, negated: bool, name: string, value: Option<string>)

  predicate IsLetter(c: char) {
    'a' <= c <= 'z' || 'A' <= c <= 'Z'
  }

  predicate IsNameChar(c: char) {
    IsLetter(c) || c == '-'
  }

  /** The characters `.` does not match. */
  predicate IsLineTerminator(c: char) {
    c == '\n' || c == '\r' || c == '\U{2028}' || c == '\U{2029}'
  }

  /** A name the pattern accepts as a whole: a letter, then letters and dashes. */
  predicate IsName(s: string) {
    |s| > 0 && IsLetter(s[0]) && forall j :: 0 <= j < |s| ==> IsNameChar(s[j])
  }

  /** The length of the longest prefix made of name characters. */
  function NameRun(s: string): (n: nat)
    ensures n <= |s|
    ensures forall j :: 0 <= j < n ==> IsNameChar(s[j])
    ensures n < |s| ==> !IsNameChar(s[n])
  {
    if s == [] || !IsNameChar(s[0]) then 0 else 1 + NameRun(s[1..])
  }

  /** `[a-zA-Z][-a-zA-Z]*(?:=(.*))?$` at the start of `s`: the name and the attached value. */
  function NameAndValue(s: string): Option<(string, Option<string>)> {
    if s == [] || !IsLetter(s[0]) then None
    else
      var n := NameRun(s);
      var tail := s[n..];
      if tail == [] then Some((s, None))
      else if tail[0] == '=' && forall j :: 1 <= j < |tail| ==> !IsLineTerminator(tail[j]) then
        Some((s[..n], Some(tail[1..])))
      else None
  }

  /** What follows the dashes: a `no-` prefix is taken when the rest still matches. */
  function AfterDashes(dashes: Dashes, s: string): Option<OptionMatch> {
    var withNo := if |s| >= 3 && s[..3] == "no-" then NameAndValue(s[3..]) else None;
    if withNo.Some? then Some(OptionMatch(dashes, true, withNo.value.0, withNo.value.1))
    else
      match NameAndValue(s)
      case None => None
      case Some(nv) => Some(OptionMatch(dashes, false, nv.0, nv.1))
  }

  /** The option pattern applied to one argument. */
  function MatchOption(arg: string): Option<OptionMatch> {
    if |arg| >= 2 && arg[..2] == "--" then AfterDashes(Double, arg[2..])
    else if |arg| >= 1 && arg[0] == '-' then AfterDashes(Single, arg[1..])
    else None
  }

  /** The `=value` part of an argument, empty when there is no value. */
  function ValuePart(value: Option<string>): string {
    if value.Some? then "=" + value.value else ""
  }

  /** Line terminators only appear outside an attached value. */
  predicate ValueOnOneLine(value: Option<string>) {
    value.Some? ==> forall j :: 0 <= j < |value.value| ==> !IsLineTerminator(value.value[j])
  }

  function DashText(dashes: Dashes): string {
    if dashes == Single then "-" else "--"
  }

  /** What follows the dashes: the `no-` prefix, the name and the attached value. */
  function AfterDashesText(m: OptionMatch): string {
    (if m.negated then "no-" else "") + m.name + ValuePart(m.value)
  }

  /** The argument a match was made from. */
  function Render(m: OptionMatch): string {
    DashText(m.dashes) + AfterDashesText(m)
  }

  lemma NameAndValueParts(s: string)
    requires NameAndValue(s).Some?
    ensures var nv := NameAndValue(s).value;
      IsName(nv.0) && s == nv.0 + ValuePart(nv.1) && ValueOnOneLine(nv.1)
  {
    var n := NameRun(s);
    var tail := s[n..];
    if tail != [] {
      assert s == s[..n] + "=" + tail[1..];
      forall j | 0 <= j < |tail[1..]| ensures !IsLineTerminator(tail[1..][j]) {
        assert tail[1..][j] == tail[j + 1];
      }
    }
  }

  lemma NegatedParts(dashes: Dashes, s: string)
    requires |s| >= 3 && s[..3] == "no-" && NameAndValue(s[3..]).Some?
    ensures var nv := NameAndValue(s[3..]).value;
      AfterDashes(dashes, s) == Some(OptionMatch(dashes, true, nv.0, nv.1))
      && IsName(nv.0) && s == "no-" + nv.0 + ValuePart(nv.1) && ValueOnOneLine(nv.1)
  {
    NameAndValueParts(s[3..]);
    assert s == "no-" + s[3..];
  }

  lemma AfterDashesParts(dashes: Dashes, s: string)
    requires AfterDashes(dashes, s).Some?
    ensures var m := AfterDashes(dashes, s).value;
      && m.dashes == dashes
      && IsName(m.name)
      && s == AfterDashesText(m)
      && ValueOnOneLine(m.value)
  {
    if |s| >= 3 && s[..3] == "no-" && NameAndValue(s[3..]).Some? {
      NegatedParts(dashes, s);
    } else {
      NameAndValueParts(s);
      assert "" + NameAndValue(s).value.0 == NameAndValue(s).value.0;
    }
  }

  /** What follows the dashes, put back behind them, gives the argument. */
  lemma DashesRender(dashes: Dashes, arg: string, n: nat)
    requires n == |DashText(dashes)| && n <= |arg| && arg[..n] == DashText(dashes)
    requires AfterDashes(dashes, arg[n..]).Some?
    ensures var m := AfterDashes(dashes, arg[n..]).value;
      Render(m) == arg && IsName(m.name) && m.dashes == dashes && ValueOnOneLine(m.value)
  {
    AfterDashesParts(dashes, arg[n..]);
    assert arg == arg[..n] + arg[n..];
  }

  /**
   * A match accounts for the whole argument: the groups put back together give the argument,
   * the name is a valid name, and an attached value holds no line terminator.
   */
  lemma MatchRenders(arg: string)
    requires MatchOption(arg).Some?
    ensures var m := MatchOption(arg).value;
      && Render(m) == arg
      && IsName(m.name)
      && (m.dashes == Double <==> |arg| >= 2 && arg[..2] == "--")
      && ValueOnOneLine(m.value)
  {
    if |arg| >= 2 && arg[..2] == "--" {
      DashesRender(Double, arg, 2);
    } else {
      DashesRender(Single, arg, 1);
    }
  }

  /** The name run stops where the name characters do. */
  lemma {:induction false} NameRunIs(s: string, k: nat)
    requires k <= |s| && (forall j :: 0 <= j < k ==> IsNameChar(s[j])) && (k < |s| ==> !IsNameChar(s[k]))
    ensures NameRun(s) == k
  {
    if k > 0 {
      assert forall j :: 0 <= j < k - 1 ==> s[1..][j] == s[j + 1];
      NameRunIs(s[1..], k - 1);
    }
  }

  /** A name followed by an attached value on one line is read back as that name and value. */
  lemma NameAndValueOf(n: string, v: Option<string>)
    requires IsName(n) && ValueOnOneLine(v)
    ensures NameAndValue(n + ValuePart(v)) == Some((n, v))
  {
    var s := n + ValuePart(v);
    assert s[0] == n[0];
    assert forall j :: 0 <= j < |n| ==> s[j] == n[j];
    if v.None? {
      assert s == n;
      NameRunIs(s, |n|);
    } else {
      var tail := "=" + v.value;
      assert s == n + tail;
      assert s[|n|] == '=';
      NameRunIs(s, |n|);
      assert s[|n|..] == tail && s[..|n|] == n;
      assert tail[1..] == v.value;
      assert forall j :: 1 <= j < |tail| ==> tail[j] == v.value[j - 1];
    }
  }

  /**
   * How a group of matches is read: a plain name that starts with `no-` and a letter is read
   * as the negation of the rest; every other match is read as it is.
   */
  function Canonical(m: OptionMatch): OptionMatch {
    if !m.negated && |m.name| > 3 && m.name[..3] == "no-" && IsLetter(m.name[3]) then
      m.(negated := true, name := m.name[3..])
    else m
  }

  lemma NegatedAfterDashes(m: OptionMatch)
    requires m.negated && IsName(m.name) && ValueOnOneLine(m.value)
    ensures AfterDashes(m.dashes, AfterDashesText(m)) == Some(m)
  {
    var text := AfterDashesText(m);
    var rest := m.name + ValuePart(m.value);
    assert text == "no-" + rest;
    assert text[..3] == "no-" && text[3..] == rest;
    NameAndValueOf(m.name, m.value);
  }

  /** A run of name characters and a value: read back when the run starts with a letter. */
  lemma RunAndValue(r: string, v: Option<string>)
    requires (forall j :: 0 <= j < |r| ==> IsNameChar(r[j])) && ValueOnOneLine(v)
    ensures NameAndValue(r + ValuePart(v)) == if r != [] && IsLetter(r[0]) then Some((r, v)) else None
  {
    var s := r + ValuePart(v);
    if r != [] && IsLetter(r[0]) {
      NameAndValueOf(r, v);
    } else if r == [] {
      assert s == ValuePart(v);
    } else {
      assert s[0] == r[0];
    }
  }

  /** A name followed by its value starts with `no-` exactly when the name does. */
  lemma NoPrefixOfName(n: string, v: Option<string>)
    requires IsName(n)
    ensures var s := n + ValuePart(v);
      (|s| >= 3 && s[..3] == "no-") == (|n| >= 3 && n[..3] == "no-")
    ensures var s := n + ValuePart(v);
      |n| >= 3 ==> s[3..] == n[3..] + ValuePart(v)
  {
    var s := n + ValuePart(v);
    if |n| >= 3 {
      assert s[..3] == n[..3];
      assert s[3..] == n[3..] + ValuePart(v);
    } else if |s| >= 3 {
      assert s[|n|] == '=';
    }
  }

  lemma PlainWithoutNo(m: OptionMatch)
    requires !m.negated && IsName(m.name) && ValueOnOneLine(m.value)
    requires !(|m.name| >= 3 && m.name[..3] == "no-")
    ensures AfterDashes(m.dashes, AfterDashesText(m)) == Some(m)
  {
    assert AfterDashesText(m) == m.name + ValuePart(m.value);
    NoPrefixOfName(m.name, m.value);
    NameAndValueOf(m.name, m.value);
  }

  lemma PlainWithNo(m: OptionMatch)
    requires !m.negated && IsName(m.name) && ValueOnOneLine(m.value)
    requires |m.name| >= 3 && m.name[..3] == "no-"
    ensures AfterDashes(m.dashes, AfterDashesText(m)) == Some(Canonical(m))
  {
    var text := AfterDashesText(m);
    assert text == m.name + ValuePart(m.value);
    NoPrefixOfName(m.name, m.value);
    RunAndValue(m.name[3..], m.value);
    NameAndValueOf(m.name, m.value);
  }

  lemma PlainAfterDashes(m: OptionMatch)
    requires !m.negated && IsName(m.name) && ValueOnOneLine(m.value)
    ensures AfterDashes(m.dashes, AfterDashesText(m)) == Some(Canonical(m))
  {
    if |m.name| >= 3 && m.name[..3] == "no-" {
      PlainWithNo(m);
    } else {
      PlainWithoutNo(m);
    }
  }

  /** Where the dashes end in an argument made of dashes and text that does not start with one. */
  lemma DashesSplit(d: Dashes, text: string)
    requires text != [] && text[0] != '-'
    ensures var arg := DashText(d) + text;
      if d == Double then |arg| >= 2 && arg[..2] == "--" && arg[2..] == text
      else !(|arg| >= 2 && arg[..2] == "--") && |arg| >= 1 && arg[0] == '-' && arg[1..] == text
  {
    var arg := DashText(d) + text;
    if d == Double {
      assert arg[..2] == "--" && arg[2..] == text;
    } else {
      assert arg[1] == text[0] && arg[1..] == text;
    }
  }

  /** Dashes before text that does not start with a dash are matched as those dashes. */
  lemma MatchAfterDashes(d: Dashes, text: string)
    requires text != [] && text[0] != '-'
    ensures MatchOption(DashText(d) + text) == AfterDashes(d, text)
  {
    DashesSplit(d, text);
  }

  /**
   * Every argument of the option shape is matched: the dashes, the name and the value are read
   * back, and a plain name that starts with `no-` and a letter is read as a negation.
   */
  lemma RenderMatches(m: OptionMatch)
    requires IsName(m.name) && ValueOnOneLine(m.value)
    ensures MatchOption(Render(m)) == Some(Canonical(m))
  {
    var text := AfterDashesText(m);
    if m.negated {
      NegatedAfterDashes(m);
    } else {
      PlainAfterDashes(m);
    }
    assert text[0] == (if m.negated then 'n' else m.name[0]);
    MatchAfterDashes(m.dashes, text);
  }

  /** A match whose plain name does not start with `no-` is recognised exactly as it is. */
  lemma RenderMatchesItself(m: OptionMatch)
    requires IsName(m.name) && ValueOnOneLine(m.value)
    requires m.negated || !(|m.name| >= 3 && m.name[..3] == "no-")
    ensures MatchOption(Render(m)) == Some(m)
  {
    RenderMatches(m);
  }

  lemma NameRunWhole(s: string)
    requires forall j :: 0 <= j < |s| ==> IsNameChar(s[j])
    ensures NameRun(s) == |s|
  {
    if s != [] {
      NameRunWhole(s[1..]);
    }
  }

  /** `--name` and `--no-name` are recognised as the name, plain or negated. */
  lemma LongForms(name: string)
    requires IsName(name) && !(|name| >= 3 && name[..3] == "no-")
    ensures MatchOption("--" + name) == Some(OptionMatch(Double, false, name, None))
    ensures MatchOption("--no-" + name) == Some(OptionMatch(Double, true, name, None))
  {
    NameRunWhole(name);
    assert ("--" + name)[..2] == "--" && ("--" + name)[2..] == name;
    var neg := "--no-" + name;
    assert neg[..2] == "--" && neg[2..] == "no-" + name;
    assert ("no-" + name)[..3] == "no-" && ("no-" + name)[3..] == name;
  }

  // ---------------------------------------------------------------------------
  // What each option name does: the `switch` of `parseArg`.

  datatype Action =
    | Flag(param: string)        // the parameter takes the flag
    | Off(param: string)         // the parameter is set to false whatever the flag
    | ConfigFile                 // a file name when the flag is set, false when negated
    | Text(param: string)        // the value as given
    | List(param: string)        // the comma-separated values are appended
    | IndentValue                // a number when the value is numeric, the text otherwise
    | ModeValue                  // one of the three parsing modes
    | EnvironmentValue           // one of the validation environments
    | ContextValue               // a number, stored into `indent`
    | Exit                       // version or help: the process ends

  /** The one-letter cases of the `switch`. */
  function LetterAction(c: char): Option<Action> {
    match c
    case 'f' => Some(ConfigFile)
    case 'F' => Some(Off("config"))
    case 's' => Some(Flag("sortKeys"))
    case 'E' => Some(List("extensions"))
    case 'i' => Some(Flag("inPlace"))
    case 'j' => Some(Flag("diff"))
    case 'k' => Some(Flag("check"))
    case 't' => Some(IndentValue)
    case 'c' => Some(Flag("compact"))
    case 'M' => Some(ModeValue)
    case 'B' => Some(Flag("bom"))
    case 'C' => Some(Flag("comments"))
    case 'S' => Some(Flag("singleQuotedStrings"))
    case 'T' => Some(Flag("trailingCommas"))
    case 'D' => Some(Off("duplicateKeys"))
    case 'V' => Some(List("validate"))
    case 'e' => Some(EnvironmentValue)
    case 'x' => Some(ContextValue)
    case 'l' => Some(Flag("logFiles"))
    case 'q' => Some(Flag("quiet"))
    case 'n' => Some(Flag("continue"))
    case 'p' => Some(Flag("prettyPrint"))
    case 'P' => Some(Flag("prettyPrintInvalid"))
    case 'r' => Some(Flag("trailingNewline"))
    case 'R' => Some(Off("trailingNewline"))
    case 'v' | 'h' => Some(Exit)
    case _ => None
  }

  /** The cases of the `switch` for long option names. */
  function LongAction(name: string): Option<Action> {
    match name
    case "config" => Some(ConfigFile)
    case "ignore-proto-key" => Some(Flag("ignoreProtoKey"))
    case "ignore-prototype-keys" => Some(Flag("ignorePrototypeKeys"))
    case "sort-keys" => Some(Flag("sortKeys"))
    case "sort-keys-ignore-case" => Some(Flag("sortKeysIgnoreCase"))
    case "sort-keys-locale" => Some(Text("sortKeysLocale"))
    case "sort-keys-case-first" => Some(Text("sortKeysCaseFirst"))
    case "sort-keys-numeric" => Some(Flag("sortKeysNumeric"))
    case "extensions" => Some(List("extensions"))
    case "in-place" => Some(Flag("inPlace"))
    case "diff" => Some(Flag("diff"))
    case "check" => Some(Flag("check"))
    case "indent" => Some(IndentValue)
    case "compact" => Some(Flag("compact"))
    case "mode" => Some(ModeValue)
    case "bom" => Some(Flag("bom"))
    case "comments" => Some(Flag("comments"))
    case "single-quoted-strings" => Some(Flag("singleQuotedStrings"))
    case "trailing-commas" => Some(Flag("trailingCommas"))
    case "duplicate-keys" => Some(Flag("duplicateKeys"))
    case "validate" => Some(List("validate"))
    case "environment" => Some(EnvironmentValue)
    case "strict" => Some(Flag("strict"))
    case "color" => Some(Flag("color"))
    case "context" => Some(ContextValue)
    case "log-files" => Some(Flag("logFiles"))
    case "quiet" => Some(Flag("quiet"))
    case "continue" => Some(Flag("continue"))
    case "pretty-print" => Some(Flag("prettyPrint"))
    case "pretty-print-invalid" => Some(Flag("prettyPrintInvalid"))
    case "trailing-newline" => Some(Flag("trailingNewline"))
    case "prune-comments" => Some(Flag("pruneComments"))
    case "strip-object-keys" => Some(Flag("stripObjectKeys"))
    case "enforce-double-quotes" => Some(Flag("enforceDoubleQuotes"))
    case "enforce-single-quotes" => Some(Flag("enforceSingleQuotes"))
    case "trim-trailing-commas" => Some(Flag("trimTrailingCommas"))
    case "compact-empty-objects" => Some(Flag("compactEmptyObjects"))
    case "force-crlf" => Some(Flag("forceCrlf"))
    case "succeed-with-no-files" => Some(Flag("succeedWithNoFiles"))
    case "version" | "help" => Some(Exit)
    case _ => None
  }

  /** The `switch` on an option name: a one-letter name is looked up by its letter. */
  function ActionFor(name: string): Option<Action> {
    if |name| == 1 then LetterAction(name[0]) else LongAction(name)
  }

  /** The identifiers `--environment` accepts. */
  predicate KnownEnvironment(arg: string) {
    arg == "json-schema-draft-04" || arg == "draft-04" ||
    arg == "json-schema-draft-06" || arg == "draft-06" ||
    arg == "json-schema-draft-07" || arg == "draft-07" ||
    arg == "json-schema-draft-2019-09" || arg == "draft-2019-09" ||
    arg == "json-schema-draft-2020-12" || arg == "draft-2020-12" ||
    arg == "json-type-definition" || arg == "jtd" || arg == "rfc8927"
  }

  /** The command line accepts exactly the identifiers the validator can build an engine for. */
  lemma EnvironmentWhitelist(arg: string)
    ensures KnownEnvironment(arg) <==> arg in Environments.Names()
    ensures KnownEnvironment(arg) <==> arg != "" && Environments.SetupFor(Some(arg)).Ok?
  {
    var ns := Environments.Names();
    assert ns == [
      "json-schema-draft-06", "draft-06", "json-schema-draft-07", "draft-07",
      "json-schema-draft-04", "draft-04", "json-schema-draft-2019-09", "draft-2019-09",
      "json-schema-draft-2020-12", "draft-2020-12", "json-type-definition", "jtd", "rfc8927"];
    if arg != "" {
      Environments.SetupMatchesTable(arg);
    }
  }

  // ---------------------------------------------------------------------------
  // One option, then the whole scan.

  /** How the scan ends. */
  datatype Outcome =
    | Done(params: Obj, args: seq<string>)   // options read, positional arguments collected
    | Failed(message: string)                // reported, then exit code 1
    | Thrown(message: string)                // an exception escapes
    | Exited                                 // version or help printed, exit code 0

  /** After one option: the parameters and the index of the last argument read, or the end. */
  datatype Step = Next(params: Obj, i: nat) | Stop(outcome: Outcome)

  /** `match[4] || argv[++i]`: a non-empty attached value, or else the next argument, which is consumed. */
  function TakeValue(value: Option<string>, argv: seq<string>, i: nat): (r: (Option<string>, nat))
    ensures value.Some? && value.value != "" ==> r == (value, i)
    ensures !(value.Some? && value.value != "") ==>
      r.1 == i + 1 && (r.0.Some? <==> i + 1 < |argv|) && (r.0.Some? ==> r.0.value == argv[i + 1])
  {
    if value.Some? && value.value != "" then (value, i)
    else (if i + 1 < |argv| then Some(argv[i + 1]) else None, i + 1)
  }

  /** A value in a message template: `undefined` when missing. */
  function Shown(v: Option<string>): string {
    if v.Some? then v.value else "undefined"
  }

  function Str(v: Option<string>): Prop {
    if v.Some? then Some(JStr(v.value)) else None
  }

  /** The array held by a parameter; the scanner only ever finds arrays there. */
  function ListAt(params: Obj, k: string): seq<JValue> {
    var v := Get(params, k);
    if v.Some? && v.value.JArr? then v.value.arr else []
  }

  /** `params[k].push(...items)`. */
  function Push(params: Obj, k: string, items: seq<string>): Obj {
    Set(params, k, Some(JArr(ListAt(params, k) + seq(|items|, j requires 0 <= j < |items| => JStr(items[j])))))
  }

  function UnknownOption(name: string): string {
    "unknown option: \"" + name + "\""
  }

  /** `parseArg(name, flag)` with `value` the attached value and `i` the current index. */
  function ParseArg(name: string, flag: bool, value: Option<string>, argv: seq<string>, i: nat, params: Obj,
                    toNumber: string -> Option<real>): (r: Step)
    ensures r.Next? ==> i <= r.i <= i + 1
  {
    match ActionFor(name)
    case None => Stop(Failed(UnknownOption(name)))
    case Some(action) => Apply(action, flag, value, argv, i, params, toNumber)
  }

  /** The effect of one recognised option. */
  function Apply(action: Action, flag: bool, value: Option<string>, argv: seq<string>, i: nat, params: Obj,
                 toNumber: string -> Option<real>): (r: Step)
    ensures r.Next? ==> i <= r.i <= i + 1
  {
    var (v, j) := TakeValue(value, argv, i);
    match action
    case Flag(p) => Next(Set(params, p, Some(JBool(flag))), i)
    case Off(p) => Next(Set(params, p, Some(JBool(false))), i)
    case ConfigFile =>
      if flag then Next(Set(params, "config", Str(v)), j)
      else Next(Set(params, "config", Some(JBool(false))), i)
    case Text(p) => Next(Set(params, p, Str(v)), j)
    case List(p) =>
      if v.None? then Stop(Thrown("Cannot read properties of undefined (reading 'split')"))
      else Next(Push(params, p, SplitOn(v.value, ',')), j)
    case IndentValue =>
      if v.None? then Stop(Thrown("Cannot read properties of undefined (reading 'trim')"))
      else
        var number := toNumber(v.value);
        var indent := if !IsBlank(v.value) && number.Some? then JNum(number.value) else JStr(v.value);
        Next(Set(params, "indent", Some(indent)), j)
    case ModeValue =>
      if v == Some("json") || v == Some("cjson") || v == Some("json5") then
        Next(Set(params, "mode", Str(v)), j)
      else Stop(Thrown("invalid parsing mode: \"" + Shown(v) + "\""))
    case EnvironmentValue =>
      if v.Some? && KnownEnvironment(v.value) then Next(Set(params, "environment", Str(v)), j)
      else Stop(Thrown("invalid validation environment \"" + Shown(v) + "\""))
    case ContextValue =>
      var number := if v.Some? then toNumber(v.value) else None;
      if number.None? then Stop(Thrown("invalid diff context: \"" + Shown(v) + "\""))
      else Next(Set(params, "indent", Some(JNum(number.value))), j)
    case Exit => Stop(Exited)
  }

  /** A single-dash group: each character handled in turn as an option set to true. */
  function ParseFlags(flags: string, value: Option<string>, argv: seq<string>, i: nat, params: Obj,
                      toNumber: string -> Option<real>): (r: Step)
    ensures r.Next? ==> i <= r.i
    decreases |flags|
  {
    if flags == [] then Next(params, i)
    else
      match ParseArg([flags[0]], true, value, argv, i, params, toNumber)
      case Stop(o) => Stop(o)
      case Next(p, j) => ParseFlags(flags[1..], value, argv, j, p, toNumber)
  }

  /** What one matched option does. */
  function ParseOption(m: OptionMatch, argv: seq<string>, i: nat, params: Obj, toNumber: string -> Option<real>): (r: Step)
    ensures r.Next? ==> i <= r.i
  {
    if m.dashes == Single then ParseFlags(m.name, m.value, argv, i, params, toNumber)
    else ParseArg(m.name, !m.negated, m.value, argv, i, params, toNumber)
  }

  /** The scan from index `i` with the parameters and positional arguments gathered so far. */
  function ScanFrom(argv: seq<string>, i: nat, params: Obj, args: seq<string>, toNumber: string -> Option<real>): Outcome
    decreases |argv| - i
  {
    if i >= |argv| then Done(params, args)
    else
      var arg := argv[i];
      match MatchOption(arg)
      case Some(m) =>
        (match ParseOption(m, argv, i, params, toNumber)
         case Stop(o) => o
         case Next(p, j) => ScanFrom(argv, j + 1, p, args, toNumber))
      case None =>
        if arg == "--" then Done(params, args + argv[i + 1..])
        else ScanFrom(argv, i + 1, params, args + [arg], toNumber)
  }

  const InitialParams: Obj := [("extensions", Some(JArr([]))), ("validate", Some(JArr([])))]

  /** The whole scan: the first two elements are the runtime and the script. */
  function Scan(argv: seq<string>, toNumber: string -> Option<real>): Outcome {
    ScanFrom(argv, 2, InitialParams, [], toNumber)
  }

  /** `for (const flag of flags) parseArg(flag, true)`: a single-dash group, one letter at a time. */
  method ScanFlags(flags: string, value: Option<string>, argv: seq<string>, i: nat, params: Obj,
                   toNumber: string -> Option<real>) returns (step: Step)
    ensures step == ParseFlags(flags, value, argv, i, params, toNumber)
  {
    var p, j := params, i;
    var k := 0;
    while k < |flags|
      invariant 0 <= k <= |flags| && i <= j
      invariant ParseFlags(flags, value, argv, i, params, toNumber) == ParseFlags(flags[k..], value, argv, j, p, toNumber)
    {
      assert flags[k..][0] == flags[k] && flags[k..][1..] == flags[k + 1..];
      var s := ParseArg([flags[k]], true, value, argv, j, p, toNumber);
      if s.Stop? {
        return s;
      }
      p, j := s.params, s.i;
      k := k + 1;
    }
    return Next(p, j);
  }

  /** An argument that is not an option is collected, unless it is `--`. */
  lemma PlainStep(argv: seq<string>, i: nat, params: Obj, args: seq<string>, toNumber: string -> Option<real>)
    requires i < |argv| && MatchOption(argv[i]).None? && argv[i] != "--"
    ensures ScanFrom(argv, i, params, args, toNumber) == ScanFrom(argv, i + 1, params, args + [argv[i]], toNumber)
  {
  }

  /** An argument that does not start with a dash is collected. */
  lemma NoDashStep(argv: seq<string>, i: nat, params: Obj, args: seq<string>, toNumber: string -> Option<real>)
    requires i < |argv| && (argv[i] == [] || argv[i][0] != '-')
    ensures ScanFrom(argv, i, params, args, toNumber) == ScanFrom(argv, i + 1, params, args + [argv[i]], toNumber)
  {
    assert MatchOption(argv[i]).None? && argv[i] != "--";
    PlainStep(argv, i, params, args, toNumber);
  }

  /** A letter group goes through its letters; a long option is handled at once. */
  method ScanOption(m: OptionMatch, argv: seq<string>, i: nat, params: Obj, toNumber: string -> Option<real>)
    returns (step: Step)
    ensures step == ParseOption(m, argv, i, params, toNumber)
  {
    if m.dashes == Single {
      step := ScanFlags(m.name, m.value, argv, i, params, toNumber);
    } else {
      step := ParseArg(m.name, !m.negated, m.value, argv, i, params, toNumber);
    }
  }

  /** One matched option advances the scan to the argument after the last one it read, or ends it. */
  lemma OptionStep(argv: seq<string>, i: nat, m: OptionMatch, step: Step, params: Obj, args: seq<string>,
                   toNumber: string -> Option<real>)
    requires i < |argv| && MatchOption(argv[i]) == Some(m)
    requires step == ParseOption(m, argv, i, params, toNumber)
    ensures step.Stop? ==> ScanFrom(argv, i, params, args, toNumber) == step.outcome
    ensures step.Next? ==> ScanFrom(argv, i, params, args, toNumber) == ScanFrom(argv, step.i + 1, step.params, args, toNumber)
  {
    assert ScanFrom(argv, i, params, args, toNumber)
        == match step case Stop(o) => o case Next(p, j) => ScanFrom(argv, j + 1, p, args, toNumber);
  }

  /** An option that takes no following argument: the scan goes on with the next one. */
  lemma OptionInPlace(argv: seq<string>, i: nat, m: OptionMatch, step: Step, params: Obj, args: seq<string>,
                      toNumber: string -> Option<real>)
    requires i < |argv| && MatchOption(argv[i]) == Some(m)
    requires step == ParseOption(m, argv, i, params, toNumber) && step.Next? && step.i == i
    ensures ScanFrom(argv, i, params, args, toNumber) == ScanFrom(argv, i + 1, step.params, args, toNumber)
  {
    OptionStep(argv, i, m, step, params, args, toNumber);
  }

  /** One pass of the argv loop: the argument at `i` ends the scan or moves it forward. */
  method ScanOne(argv: seq<string>, i: nat, params: Obj, args: seq<string>, toNumber: string -> Option<real>)
    returns (stop: Option<Outcome>, params': Obj, args': seq<string>, i': nat)
    requires i < |argv|
    ensures stop.Some? ==> ScanFrom(argv, i, params, args, toNumber) == stop.value
    ensures stop.None? ==> i < i' && ScanFrom(argv, i, params, args, toNumber) == ScanFrom(argv, i', params', args', toNumber)
  {
    var arg := argv[i];
    var m := MatchOption(arg);
    if m.Some? {
      var step := ScanOption(m.value, argv, i, params, toNumber);
      OptionStep(argv, i, m.value, step, params, args, toNumber);
      if step.Stop? {
        return Some(step.outcome), params, args, i;
      }
      return None, step.params, args, step.i + 1;
    } else if arg == "--" {
      return Some(Done(params, args + argv[i + 1..])), params, args, i;
    } else {
      assert ScanFrom(argv, i, params, args, toNumber) == ScanFrom(argv, i + 1, params, args + [arg], toNumber);
      return None, params, args + [arg], i + 1;
    }
  }

  /** The argv loop. */
  method ScanArgv(argv: seq<string>, toNumber: string -> Option<real>) returns (outcome: Outcome)
    ensures outcome == Scan(argv, toNumber)
  {
    var params := InitialParams;
    var args: seq<string> := [];
    var i: nat := 2;
    while i < |argv|
      invariant Scan(argv, toNumber) == ScanFrom(argv, i, params, args, toNumber)
      decreases |argv| - i
    {
      var stop;
      stop, params, args, i := ScanOne(argv, i, params, args, toNumber);
      if stop.Some? {
        return stop.value;
      }
    }
    return Done(params, args);
  }

  // ---------------------------------------------------------------------------
  // Properties of the scan.

  /** An option whose action is a flag sets its parameter to the flag and consumes nothing. */
  lemma FlagArg(name: string, flag: bool, value: Option<string>, argv: seq<string>, i: nat, params: Obj,
                 toNumber: string -> Option<real>, param: string)
    requires ActionFor(name) == Some(Flag(param))
    ensures ParseArg(name, flag, value, argv, i, params, toNumber) == Next(Set(params, param, Some(JBool(flag))), i)
  {
  }

  /**
   * A double-dash option whose name is a flag sets the parameter to true, or to false when it is
   * negated; an attached value is ignored, and scanning goes on with the next argument.
   * (`LongForms` says which arguments are matched as `--name` and `--no-name`.)
   */
  lemma LongFlag(argv: seq<string>, i: nat, params: Obj, args: seq<string>, toNumber: string -> Option<real>,
                 m: OptionMatch, param: string)
    requires i < |argv| && MatchOption(argv[i]) == Some(m) && m.dashes == Double
    requires ActionFor(m.name) == Some(Flag(param))
    ensures ScanFrom(argv, i, params, args, toNumber)
         == ScanFrom(argv, i + 1, Set(params, param, Some(JBool(!m.negated))), args, toNumber)
  {
    var step := ParseOption(m, argv, i, params, toNumber);
    FlagArg(m.name, !m.negated, m.value, argv, i, params, toNumber, param);
    OptionInPlace(argv, i, m, step, params, args, toNumber);
  }

  /** The parameter a letter with a flag action sets. */
  function LetterParam(c: char): string
    requires ActionFor([c]).Some? && ActionFor([c]).value.Flag?
  {
    ActionFor([c]).value.param
  }

  /**
   * A single-dash group of flag letters sets each letter's parameter to true, consumes no
   * argument, and leaves every other parameter as it was.
   */
  lemma {:induction false} LetterGroup(flags: string, value: Option<string>, argv: seq<string>, i: nat, params: Obj,
                                       toNumber: string -> Option<real>)
    requires forall j :: 0 <= j < |flags| ==> ActionFor([flags[j]]).Some? && ActionFor([flags[j]]).value.Flag?
    ensures var r := ParseFlags(flags, value, argv, i, params, toNumber);
      && r.Next? && r.i == i
      && (forall j :: 0 <= j < |flags| ==> Get(r.params, LetterParam(flags[j])) == Some(JBool(true)))
      && (forall k :: (forall j :: 0 <= j < |flags| ==> k != LetterParam(flags[j])) ==> Get(r.params, k) == Get(params, k))
    decreases |flags|
  {
    if flags != [] {
      var p := Set(params, LetterParam(flags[0]), Some(JBool(true)));
      assert ParseArg([flags[0]], true, value, argv, i, params, toNumber) == Next(p, i);
      assert forall j :: 0 <= j < |flags[1..]| ==> flags[1..][j] == flags[j + 1];
      LetterGroup(flags[1..], value, argv, i, p, toNumber);
      var r := ParseFlags(flags, value, argv, i, params, toNumber);
      assert r == ParseFlags(flags[1..], value, argv, i, p, toNumber);
      forall j | 0 <= j < |flags| ensures Get(r.params, LetterParam(flags[j])) == Some(JBool(true)) {
        if j == 0 {
          GetSet(params, LetterParam(flags[0]), Some(JBool(true)), LetterParam(flags[0]));
          if exists j' :: 0 <= j' < |flags[1..]| && LetterParam(flags[0]) == LetterParam(flags[1..][j']) {
          }
        } else {
          assert flags[j] == flags[1..][j - 1];
        }
      }
      forall k | forall j :: 0 <= j < |flags| ==> k != LetterParam(flags[j])
        ensures Get(r.params, k) == Get(params, k)
      {
        assert k != LetterParam(flags[0]);
        GetSet(params, LetterParam(flags[0]), Some(JBool(true)), k);
        forall j | 0 <= j < |flags[1..]| ensures k != LetterParam(flags[1..][j]) {
          assert flags[1..][j] == flags[j + 1];
        }
      }
    }
  }

  /** `-D`, `-F` and `-R` switch their parameter off even when negated or grouped. */
  lemma SwitchOffLetters(name: string, flag: bool, value: Option<string>, argv: seq<string>, i: nat, params: Obj,
                         toNumber: string -> Option<real>)
    requires name == "D" || name == "F" || name == "R"
    ensures var param := if name == "D" then "duplicateKeys" else if name == "F" then "config" else "trailingNewline";
      ParseArg(name, flag, value, argv, i, params, toNumber) == Next(Set(params, param, Some(JBool(false))), i)
  {
    if name == "D" {
      assert ActionFor(name) == Some(Off("duplicateKeys"));
    } else if name == "F" {
      assert ActionFor(name) == Some(Off("config"));
    } else {
      assert ActionFor(name) == Some(Off("trailingNewline"));
    }
  }

  /** A long option whose name has no action ends the scan with the unknown-option failure. */
  lemma UnknownLongOption(argv: seq<string>, i: nat, params: Obj, args: seq<string>, toNumber: string -> Option<real>)
    requires i < |argv| && MatchOption(argv[i]).Some?
    requires MatchOption(argv[i]).value.dashes == Double
    requires ActionFor(MatchOption(argv[i]).value.name).None?
    ensures ScanFrom(argv, i, params, args, toNumber) == Failed(UnknownOption(MatchOption(argv[i]).value.name))
  {
  }

  /** The mode action accepts exactly `json`, `cjson` and `json5`; any other value, or none, throws. */
  lemma ModeApplied(flag: bool, value: Option<string>, argv: seq<string>, i: nat, params: Obj,
                    toNumber: string -> Option<real>)
    ensures var (v, j) := TakeValue(value, argv, i);
      var r := Apply(ModeValue, flag, value, argv, i, params, toNumber);
      && (r.Next? <==> v.Some? && v.value in {"json", "cjson", "json5"})
      && (r.Next? ==> r.i == j && Get(r.params, "mode") == Some(JStr(v.value)))
      && (r.Stop? ==> r.outcome == Thrown("invalid parsing mode: \"" + Shown(v) + "\""))
  {
    var (v, j) := TakeValue(value, argv, i);
    GetSet(params, "mode", Str(v), "mode");
  }

  /** `--mode` accepts exactly `json`, `cjson` and `json5`; any other value, or none, throws. */
  lemma ModeValues(name: string, flag: bool, value: Option<string>, argv: seq<string>, i: nat, params: Obj,
                   toNumber: string -> Option<real>)
    requires name == "M" || name == "mode"
    ensures var (v, j) := TakeValue(value, argv, i);
      var r := ParseArg(name, flag, value, argv, i, params, toNumber);
      && (r.Next? <==> v.Some? && v.value in {"json", "cjson", "json5"})
      && (r.Next? ==> r.i == j && Get(r.params, "mode") == Some(JStr(v.value)))
      && (r.Stop? ==> r.outcome == Thrown("invalid parsing mode: \"" + Shown(v) + "\""))
  {
    assert ActionFor(name) == Some(ModeValue);
    ModeApplied(flag, value, argv, i, params, toNumber);
  }

  /** `--environment` accepts exactly the identifiers the validator accepts; anything else throws. */
  lemma EnvironmentValues(name: string, flag: bool, value: Option<string>, argv: seq<string>, i: nat, params: Obj,
                          toNumber: string -> Option<real>)
    requires name == "e" || name == "environment"
    ensures var (v, j) := TakeValue(value, argv, i);
      var r := ParseArg(name, flag, value, argv, i, params, toNumber);
      && (r.Next? <==> v.Some? && v.value in Environments.Names())
      && (r.Next? ==> r.i == j && Get(r.params, "environment") == Some(JStr(v.value)))
      && (r.Stop? ==> r.outcome == Thrown("invalid validation environment \"" + Shown(v) + "\""))
  {
    assert ActionFor(name) == Some(EnvironmentValue);
    var (v, j) := TakeValue(value, argv, i);
    if v.Some? {
      EnvironmentWhitelist(v.value);
      GetSet(params, "environment", Str(v), "environment");
    }
  }

  /**
   * The indentation action needs a value: without one, `arg.trim()` throws. With one, the value
   * is stored as a number exactly when it is non-blank and numeric, and as the text otherwise;
   * nothing else changes.
   */
  lemma IndentApplied(flag: bool, value: Option<string>, argv: seq<string>, i: nat, params: Obj,
                      toNumber: string -> Option<real>)
    ensures var (v, j) := TakeValue(value, argv, i);
      var r := Apply(IndentValue, flag, value, argv, i, params, toNumber);
      && (r.Stop? <==> v.None?)
      && (r.Stop? ==> r.outcome == Thrown("Cannot read properties of undefined (reading 'trim')"))
      && (r.Next? ==>
            && r.i == j
            && Get(r.params, "indent").Some?
            && (Get(r.params, "indent").value.JNum? <==> !IsBlank(v.value) && toNumber(v.value).Some?)
            && (Get(r.params, "indent").value.JNum? ==> Get(r.params, "indent").value.n == toNumber(v.value).value)
            && (!Get(r.params, "indent").value.JNum? ==> Get(r.params, "indent") == Some(JStr(v.value)))
            && forall k :: k != "indent" ==> Get(r.params, k) == Get(params, k))
  {
    var (v, j) := TakeValue(value, argv, i);
    if v.Some? {
      var number := toNumber(v.value);
      var indent := if !IsBlank(v.value) && number.Some? then JNum(number.value) else JStr(v.value);
      var r := Apply(IndentValue, flag, value, argv, i, params, toNumber);
      assert r == Next(Set(params, "indent", Some(indent)), j);
      forall k ensures Get(r.params, k) == if k == "indent" then Some(indent) else Get(params, k) {
        GetSet(params, "indent", Some(indent), k);
      }
    }
  }

  /**
   * `-t`/`--indent` takes the attached value or the next argument; a missing value throws, a
   * non-blank numeric value is stored as a number, any other value as text.
   */
  lemma IndentValues(name: string, flag: bool, value: Option<string>, argv: seq<string>, i: nat, params: Obj,
                     toNumber: string -> Option<real>)
    requires name == "t" || name == "indent"
    ensures var (v, j) := TakeValue(value, argv, i);
      var r := ParseArg(name, flag, value, argv, i, params, toNumber);
      && (r.Stop? <==> v.None?)
      && (r.Stop? ==> r.outcome == Thrown("Cannot read properties of undefined (reading 'trim')"))
      && (r.Next? ==>
            && r.i == j
            && Get(r.params, "indent").Some?
            && (Get(r.params, "indent").value.JNum? <==> !IsBlank(v.value) && toNumber(v.value).Some?)
            && (Get(r.params, "indent").value.JNum? ==> Get(r.params, "indent").value.n == toNumber(v.value).value)
            && (!Get(r.params, "indent").value.JNum? ==> Get(r.params, "indent") == Some(JStr(v.value)))
            && forall k :: k != "indent" ==> Get(r.params, k) == Get(params, k))
  {
    assert ActionFor(name) == Some(IndentValue);
    IndentApplied(flag, value, argv, i, params, toNumber);
  }


  /** The diff context is checked to be numeric and then written into `indent`; `context` itself is never set. */
  lemma ContextGoesToIndent(name: string, flag: bool, value: Option<string>, argv: seq<string>, i: nat, params: Obj,
                            toNumber: string -> Option<real>)
    requires name == "x" || name == "context"
    ensures var (v, j) := TakeValue(value, argv, i);
      var r := ParseArg(name, flag, value, argv, i, params, toNumber);
      && (r.Next? <==> v.Some? && toNumber(v.value).Some?)
      && (r.Next? ==> Get(r.params, "indent") == Some(JNum(toNumber(v.value).value)))
      && (r.Next? ==> Get(r.params, "context") == Get(params, "context"))
  {
    assert ActionFor(name) == Some(ContextValue);
    var (v, j) := TakeValue(value, argv, i);
    if v.Some? && toNumber(v.value).Some? {
      var n := Some(JNum(toNumber(v.value).value));
      GetSet(params, "indent", n, "indent");
      GetSet(params, "indent", n, "context");
    }
  }

  /**
   * `--config` takes a file name, the next argument when none is attached (undefined past the
   * end); `--no-config` switches configuration files off and consumes nothing.
   */
  lemma ConfigValue(name: string, flag: bool, value: Option<string>, argv: seq<string>, i: nat, params: Obj,
                    toNumber: string -> Option<real>)
    requires name == "f" || name == "config"
    ensures var (v, j) := TakeValue(value, argv, i);
      var r := ParseArg(name, flag, value, argv, i, params, toNumber);
      && r.Next?
      && (flag ==> r.i == j && Get(r.params, "config") == Str(v))
      && (!flag ==> r.i == i && Get(r.params, "config") == Some(JBool(false)))
      && forall k :: k != "config" ==> Get(r.params, k) == Get(params, k)
  {
    assert ActionFor(name) == Some(ConfigFile);
    var (v, j) := TakeValue(value, argv, i);
    var written := if flag then Str(v) else Some(JBool(false));
    forall k ensures Get(Set(params, "config", written), k) == if k == "config" then written else Get(params, k) {
      GetSet(params, "config", written, k);
    }
  }

  /** The collation options take their text as given, or undefined when no argument is left. */
  lemma TextValues(name: string, flag: bool, value: Option<string>, argv: seq<string>, i: nat, params: Obj,
                   toNumber: string -> Option<real>)
    requires name == "sort-keys-locale" || name == "sort-keys-case-first"
    ensures var (v, j) := TakeValue(value, argv, i);
      var p := if name == "sort-keys-locale" then "sortKeysLocale" else "sortKeysCaseFirst";
      var r := ParseArg(name, flag, value, argv, i, params, toNumber);
      && r.Next? && r.i == j
      && Get(r.params, p) == Str(v)
      && forall k :: k != p ==> Get(r.params, k) == Get(params, k)
  {
    var p := if name == "sort-keys-locale" then "sortKeysLocale" else "sortKeysCaseFirst";
    assert ActionFor(name) == Some(Text(p));
    var (v, j) := TakeValue(value, argv, i);
    forall k ensures Get(Set(params, p, Str(v)), k) == if k == p then Str(v) else Get(params, k) {
      GetSet(params, p, Str(v), k);
    }
  }

  /** A list option with value `v` appends its comma-separated parts to parameter `p` and touches nothing else. */
  lemma ListAppended(p: string, flag: bool, value: Option<string>, argv: seq<string>, i: nat, params: Obj,
                     toNumber: string -> Option<real>)
    ensures var (v, j) := TakeValue(value, argv, i);
      var r := Apply(List(p), flag, value, argv, i, params, toNumber);
      && (r.Next? <==> v.Some?)
      && (r.Stop? ==> r.outcome == Thrown("Cannot read properties of undefined (reading 'split')"))
      && (r.Next? ==>
            var before := ListAt(params, p);
            var parts := SplitOn(v.value, ',');
            && r.i == j
            && Get(r.params, p).Some? && Get(r.params, p).value.JArr?
            && var after := Get(r.params, p).value.arr;
               && |after| == |before| + |parts|
               && after[..|before|] == before
               && (forall k :: 0 <= k < |parts| ==> after[|before| + k] == JStr(parts[k]))
               && JoinWith(parts, ',') == v.value
               && forall k :: k != p ==> Get(r.params, k) == Get(params, k))
  {
    var (v, j) := TakeValue(value, argv, i);
    if v.Some? {
      var parts := SplitOn(v.value, ',');
      SplitJoinRoundTrip(v.value, ',');
      var items := Some(JArr(ListAt(params, p) + seq(|parts|, k requires 0 <= k < |parts| => JStr(parts[k]))));
      assert Push(params, p, parts) == Set(params, p, items);
      forall k ensures Get(Set(params, p, items), k) == if k == p then items else Get(params, k) {
        GetSet(params, p, items, k);
      }
    }
  }

  /**
   * `--extensions` and `--validate` append the comma-separated parts of their value to the list
   * already gathered; the parts joined with commas give the value back. Without a value the
   * `split` call throws.
   */
  lemma ListValues(name: string, flag: bool, value: Option<string>, argv: seq<string>, i: nat, params: Obj,
                   toNumber: string -> Option<real>)
    requires name == "E" || name == "extensions" || name == "V" || name == "validate"
    ensures var p := if name == "E" || name == "extensions" then "extensions" else "validate";
      ParseArg(name, flag, value, argv, i, params, toNumber) == Apply(List(p), flag, value, argv, i, params, toNumber)
  {
    var p := if name == "E" || name == "extensions" then "extensions" else "validate";
    assert ActionFor(name) == Some(List(p));
  }

  /** `--` ends option scanning: every later argument is a positional one, as it is. */
  lemma DoubleDashEnds(argv: seq<string>, i: nat, params: Obj, args: seq<string>, toNumber: string -> Option<real>)
    requires i < |argv| && argv[i] == "--"
    ensures ScanFrom(argv, i, params, args, toNumber) == Done(params, args + argv[i + 1..])
  {
    assert argv[i][..2] == "--" && argv[i][2..] == [];
  }

  /** Arguments that do not start with a dash are collected in order and change no parameter. */
  lemma {:induction false} PlainArguments(argv: seq<string>, i: nat, params: Obj, args: seq<string>,
                                          toNumber: string -> Option<real>)
    requires i <= |argv|
    requires forall j :: i <= j < |argv| ==> argv[j] == [] || argv[j][0] != '-'
    ensures ScanFrom(argv, i, params, args, toNumber) == Done(params, args + argv[i..])
    decreases |argv| - i
  {
    if i < |argv| {
      NoDashStep(argv, i, params, args, toNumber);
      PlainArguments(argv, i + 1, params, args + [argv[i]], toNumber);
      assert args + [argv[i]] + argv[i + 1..] == args + argv[i..] by {
        assert argv[i..] == [argv[i]] + argv[i + 1..];
      }
    }
  }
}
