/**
 * The environment identifiers `createAjv` understands: which schema engine each one builds and
 * which extensions are installed on it, in the order they are installed.
 */
module Environments {
  import opened Base
  import opened Json

  /** The Ajv build a setup constructs. */
  datatype Engine = Ajv07 | Ajv04 | Ajv2019 | Ajv2020 | AjvJtd

  /** What is installed on a fresh engine: the draft-06 meta-schema or one of the plugin packages. */
  datatype Extension = MetaSchema06 | Formats | Formats2019 | Keywords

  datatype Setup = Setup(engine: Engine, extensions: seq<Extension>)

  const Draft06 := Setup(Ajv07, [MetaSchema06, Formats, Keywords])
  const Draft07 := Setup(Ajv07, [Formats, Formats2019, Keywords])
  const Draft04 := Setup(Ajv04, [])
  const Draft2019 := Setup(Ajv2019, [Formats, Formats2019, Keywords])
  const Draft2020 := Setup(Ajv2020, [Formats, Formats2019, Keywords])
  const Jtd := Setup(AjvJtd, [])

  /** Every accepted identifier with the setup it selects: a reference table for `SetupFor`. */
  const Table: seq<(string, Setup)> := [
    ("json-schema-draft-06", Draft06), ("draft-06", Draft06),
    ("json-schema-draft-07", Draft07), ("draft-07", Draft07),
    ("json-schema-draft-04", Draft04), ("draft-04", Draft04),
    ("json-schema-draft-2019-09", Draft2019), ("draft-2019-09", Draft2019),
    ("json-schema-draft-2020-12", Draft2020), ("draft-2020-12", Draft2020),
    ("json-type-definition", Jtd), ("jtd", Jtd), ("rfc8927", Jtd)
  ]

  /** The identifiers named in the table. */
  function Names(): seq<string> {
    KeysOf(Table)
  }

  const UnsupportedPrefix := "Unsupported environment for the JSON Schema validation: \""

  /** The message of the `RangeError` thrown for an identifier no branch accepts. */
  function Unsupported(environment: string): (m: string)
    ensures |m| == |UnsupportedPrefix| + |environment| + 2
  {
    UnsupportedPrefix + environment + "\"."
  }

  /**
   * `createAjv`'s branch on the environment: an absent or empty identifier selects draft-06,
   * each listed identifier its own setup, anything else is refused.
   */
  function SetupFor(environment: Option<string>): Result<Setup, string> {
    if environment.None? then Ok(Draft06)
    else
      var e := environment.value;
      if e == "" || e == "json-schema-draft-06" || e == "draft-06" then Ok(Draft06)
      else if e == "json-schema-draft-07" || e == "draft-07" then Ok(Draft07)
      else if e == "json-schema-draft-04" || e == "draft-04" then Ok(Draft04)
      else if e == "json-schema-draft-2019-09" || e == "draft-2019-09" then Ok(Draft2019)
      else if e == "json-schema-draft-2020-12" || e == "draft-2020-12" then Ok(Draft2020)
      else if e == "json-type-definition" || e == "jtd" || e == "rfc8927" then Ok(Jtd)
      else Err(Unsupported(e))
  }

  /** The thirteen identifiers are distinct. */
  lemma NamesDistinct()
    ensures |Names()| == 13 && Distinct(Names())
  {
    var ns := Names();
    assert ns == [
      "json-schema-draft-06", "draft-06", "json-schema-draft-07", "draft-07",
      "json-schema-draft-04", "draft-04", "json-schema-draft-2019-09", "draft-2019-09",
      "json-schema-draft-2020-12", "draft-2020-12", "json-type-definition", "jtd", "rfc8927"];
  }

  /** Each table entry's identifier selects the entry's setup. */
  lemma TableAgrees()
    ensures forall i :: 0 <= i < |Table| ==> SetupFor(Some(Table[i].0)) == Ok(Table[i].1)
  {
    forall i | 0 <= i < |Table| ensures SetupFor(Some(Table[i].0)) == Ok(Table[i].1) {
      var (name, setup) := Table[i];
      assert SetupFor(Some(name)) == Ok(setup);
    }
  }

  /**
   * A non-empty identifier is accepted exactly when it is in the table, and then it selects the
   * table's setup; a refused identifier is named in the error message.
   */
  lemma SetupMatchesTable(name: string)
    requires name != ""
    ensures SetupFor(Some(name)).Ok? <==> name in Names()
    ensures name in Names() ==> SetupFor(Some(name)) == Ok(Lookup(Table, name))
    ensures name !in Names() ==> SetupFor(Some(name)) == Err(Unsupported(name))
  {
    var ns := Names();
    if name in ns {
      var i := IndexOf(Table, name);
      assert Table[i].0 == name;
      TableAgrees();
    } else {
      assert ns == [
        "json-schema-draft-06", "draft-06", "json-schema-draft-07", "draft-07",
        "json-schema-draft-04", "draft-04", "json-schema-draft-2019-09", "draft-2019-09",
        "json-schema-draft-2020-12", "draft-2020-12", "json-type-definition", "jtd", "rfc8927"];
      assert forall i :: 0 <= i < |ns| ==> ns[i] != name;
    }
  }

  /** Without an identifier, or with an empty one, the draft-06 setup is built. */
  lemma DefaultIsDraft06(environment: Option<string>)
    requires environment.None? || environment.value == ""
    ensures SetupFor(environment) == Ok(Setup(Ajv07, [MetaSchema06, Formats, Keywords]))
  {
  }

  /**
   * The extension sets: draft-04 and JTD get none, draft-06 alone gets the draft-06 meta-schema,
   * and every other setup with extensions gets both format packages and the keywords.
   */
  lemma ExtensionsBySetup(environment: Option<string>)
    requires SetupFor(environment).Ok?
    ensures var s := SetupFor(environment).value;
      && (s.extensions == [] <==> s.engine == Ajv04 || s.engine == AjvJtd)
      && (MetaSchema06 in s.extensions <==> s == Draft06)
      && (s.extensions != [] ==> Formats in s.extensions && Keywords in s.extensions)
      && (s.extensions != [] && s != Draft06 ==> s.extensions == [Formats, Formats2019, Keywords])
  {
  }

  /** The identifier can be read back from a refusal message. */
  lemma UnsupportedNamesEnvironment(environment: string)
    ensures var m := Unsupported(environment);
      m[..|UnsupportedPrefix|] == UnsupportedPrefix && m[|UnsupportedPrefix|..|m| - 2] == environment
  {
    var m := Unsupported(environment);
    assert m == UnsupportedPrefix + environment + "\".";
  }
}
