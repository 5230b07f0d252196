/** What the generator produces, defined without reference to the registry it
    threads: the Swift type written for a value, the field list of a struct,
    the text of a struct declaration, and the declarations a value registers. */
module Schema {
  import opened JsonData
  import opened StringExtensions

  /** The `modelDefinitions` dictionary: struct name to declaration text. */
  type Definitions = map<string, string>

  function WithOptional(base: string, optional: bool): string {
    if optional then base + "?" else base
  }

  /** The Swift type written for `v` when it is the value of `propertyName`. */
  function TypeName(v: Json, propertyName: string, optional: bool): string
    decreases v
  {
    match v
    case JInt(_) => WithOptional("Int", optional)
    case JDouble(_) => WithOptional("Double", optional)
    case JBool(_) => WithOptional("Bool", optional)
    case JString(_) => WithOptional("String", optional)
    case JObject(_) => WithOptional(CapitalizedFirstLetter(propertyName), optional)
    case JArray(items) =>
      if |items| == 0 then WithOptional("[Any]", optional)
      else WithOptional("[" + TypeName(items[0], propertyName, optional) + "]", optional)
    case JNull => WithOptional("Any", optional)
  }

  /** One stored property: the JSON key, the Swift identifier and its type. */
  datatype Field = Field(key: string, name: string, typeName: string)

  predicate IsRenamed(f: Field) { f.name != f.key }

  /** The field a key/value pair becomes: a null value is the only optional one. */
  function FieldOf(key: string, value: Json): Field {
    var name := CamelCased(key);
    Field(key, name, TypeName(value, name, value.JNull?))
  }

  /** The fields of an object, one per key/value pair, in order. */
  function Describe(fields: seq<(string, Json)>): (fs: seq<Field>)
    ensures |fs| == |fields|
  {
    if fields == [] then [] else [FieldOf(fields[0].0, fields[0].1)] + Describe(fields[1..])
  }

  /** Field `i` of an object describes its `i`-th key/value pair. */
  lemma {:induction false} DescribeAt(fields: seq<(string, Json)>, i: nat)
    requires i < |fields|
    ensures Describe(fields)[i] == FieldOf(fields[i].0, fields[i].1)
  {
    if i > 0 {
      DescribeAt(fields[1..], i - 1);
    }
  }

  function LetLine(f: Field): string {
    "    let " + f.name + ": " + f.typeName + "\n"
  }

  function CaseLine(f: Field): string {
    "        case " + f.name + " = \"" + f.key + "\"\n"
  }

  /** The `let` lines of the first `n` fields: one per field, in field order. */
  function LetLines(fs: seq<Field>, n: nat): string
    requires n <= |fs|
  {
    if n == 0 then "" else LetLines(fs, n - 1) + LetLine(fs[n - 1])
  }

  /** The CodingKeys entries of the first `n` fields, in field order: a
      `case` line for each renamed field. */
  function CaseLines(fs: seq<Field>, n: nat): string
    requires n <= |fs|
  {
    if n == 0 then ""
    else if IsRenamed(fs[n - 1]) then CaseLines(fs, n - 1) + CaseLine(fs[n - 1])
    else CaseLines(fs, n - 1)
  }

  function Header(modelName: string, modelType: string): string {
    "struct " + modelName + ": " + modelType + " {\n"
  }

  function CodingKeysBlock(cases: string): string {
    "\n    enum CodingKeys: String, CodingKey {\n" + cases + "    }\n"
  }

  /** The text of the struct declaration for a field list. */
  function Declaration(modelName: string, modelType: string, fs: seq<Field>): string {
    var cases := CaseLines(fs, |fs|);
    if cases != "" then Header(modelName, modelType) + LetLines(fs, |fs|) + CodingKeysBlock(cases) + "}\n"
    else Header(modelName, modelType) + LetLines(fs, |fs|) + "}\n"
  }

  /** The declarations a value stores, by struct name: one for every object
      reached through object fields and first array elements, the nested ones
      stored before the one holding them and siblings in field order, so a
      later declaration replaces an earlier one of the same name. */
  function Registered(v: Json, propertyName: string, modelType: string): Definitions
    decreases v
  {
    match v
    case JObject(fields) =>
      var structName := CapitalizedFirstLetter(propertyName);
      FieldsRegistered(fields, |fields|, modelType)[structName := Declaration(structName, modelType, Describe(fields))]
    case JArray(items) => if |items| == 0 then map[] else Registered(items[0], propertyName, modelType)
    case _ => map[]
  }

  /** The declarations stored by the first `n` fields of an object, in field order. */
  function FieldsRegistered(fields: seq<(string, Json)>, n: nat, modelType: string): Definitions
    requires n <= |fields|
    decreases JObject(fields), 0, n
  {
    if n == 0 then map[]
    else FieldsRegistered(fields, n - 1, modelType) + Registered(fields[n - 1].1, CamelCased(fields[n - 1].0), modelType)
  }

  // ---------------------------------------------------------------------
  // Properties

  /** What one value does to the registry: it leaves the registry as it was
      when it holds no object, and for an object stores its declaration under
      the capitalized property name, replacing what was there. */
  lemma {:induction false} RegistryUpdate(v: Json, propertyName: string, modelDefinitions: Definitions, modelType: string)
    ensures var definitions := modelDefinitions + Registered(v, propertyName, modelType);
      && (forall name :: name in modelDefinitions && name !in Registered(v, propertyName, modelType) ==>
            name in definitions && definitions[name] == modelDefinitions[name])
      && (Registered(v, propertyName, modelType) == map[] ==> definitions == modelDefinitions)
      && (v.JObject? ==>
            var structName := CapitalizedFirstLetter(propertyName);
            structName in definitions && definitions[structName] == Declaration(structName, modelType, Describe(v.fields)))
  {
    var stored := Registered(v, propertyName, modelType);
    if stored == map[] {
      assert modelDefinitions + stored == modelDefinitions;
    }
  }

  /** Only the first element of an array matters, for the type and for the
      declarations stored. */
  lemma {:induction false} FirstElementOnly(first: Json, rest: seq<Json>, propertyName: string, optional: bool, modelType: string)
    ensures TypeName(JArray([first] + rest), propertyName, optional) == TypeName(JArray([first]), propertyName, optional)
    ensures Registered(JArray([first] + rest), propertyName, modelType) == Registered(JArray([first]), propertyName, modelType)
  {
    assert ([first] + rest)[0] == first;
  }

  /** Among sibling fields, the last one that stores a declaration under a
      name decides it: no collision is detected, the later object simply
      replaces the earlier one. */
  lemma {:induction false} LaterSiblingWins(fields: seq<(string, Json)>, n: nat, j: nat, name: string, modelType: string)
    requires j < n <= |fields|
    requires name in Registered(fields[j].1, CamelCased(fields[j].0), modelType)
    requires forall i :: j < i < n ==> name !in Registered(fields[i].1, CamelCased(fields[i].0), modelType)
    ensures name in FieldsRegistered(fields, n, modelType)
    ensures FieldsRegistered(fields, n, modelType)[name] == Registered(fields[j].1, CamelCased(fields[j].0), modelType)[name]
  {
    if n - 1 != j {
      LaterSiblingWins(fields, n - 1, j, name, modelType);
      assert name !in Registered(fields[n - 1].1, CamelCased(fields[n - 1].0), modelType);
    }
  }

  /** Only objects are stored: a scalar, null or an array with no object
      first element stores nothing. */
  lemma {:induction false} OnlyObjectsStored(v: Json, propertyName: string, modelType: string)
    ensures Registered(v, propertyName, modelType) != map[] <==>
      v.JObject? || (v.JArray? && |v.items| > 0 && Registered(v.items[0], propertyName, modelType) != map[])
  {
    if v.JObject? {
      assert CapitalizedFirstLetter(propertyName) in Registered(v, propertyName, modelType);
    }
  }

  /** The type ends in `?` exactly when the value is optional, except for an
      object whose property name itself ends in `?`. */
  lemma {:induction false} TypeNameOptional(v: Json, propertyName: string, optional: bool)
    ensures var t := TypeName(v, propertyName, optional);
      (|t| > 0 && t[|t| - 1] == '?') <==>
      optional || (v.JObject? && |propertyName| > 0 && propertyName[|propertyName| - 1] == '?')
  {
    if v.JObject? && |propertyName| > 0 {
      var s := CapitalizedFirstLetter(propertyName);
      assert s[|s| - 1] == '?' <==> propertyName[|propertyName| - 1] == '?';
    }
  }

  /** A field is optional when its value is null, and only then, unless its
      value is an object whose property name itself ends in `?`. */
  lemma {:induction false} FieldOptional(key: string, value: Json)
    ensures var f := FieldOf(key, value);
      (|f.typeName| > 0 && f.typeName[|f.typeName| - 1] == '?') <==>
      value.JNull? || (value.JObject? && |f.name| > 0 && f.name[|f.name| - 1] == '?')
  {
    TypeNameOptional(value, CamelCased(key), value.JNull?);
  }

  /** The `let` line of field `i` comes right after the lines of the fields
      before it. */
  lemma {:induction false} LetLineInPlace(fs: seq<Field>, i: nat, n: nat)
    requires i < n <= |fs|
    ensures LetLines(fs, i) + LetLine(fs[i]) <= LetLines(fs, n)
  {
    if n - 1 > i {
      LetLineInPlace(fs, i, n - 1);
    }
  }

  /** A renamed field's `case` line comes right after the entries of the
      fields before it. */
  lemma {:induction false} CaseLineInPlace(fs: seq<Field>, i: nat, n: nat)
    requires i < n <= |fs|
    requires IsRenamed(fs[i])
    ensures CaseLines(fs, i) + CaseLine(fs[i]) <= CaseLines(fs, n)
  {
    if n - 1 > i {
      CaseLineInPlace(fs, i, n - 1);
    }
  }

  /** The CodingKeys entries are empty exactly when no field is renamed. */
  lemma {:induction false} CaseLinesEmpty(fs: seq<Field>, n: nat)
    requires n <= |fs|
    ensures CaseLines(fs, n) == "" <==> forall i :: 0 <= i < n ==> !IsRenamed(fs[i])
  {
    if n > 0 {
      CaseLinesEmpty(fs, n - 1);
      if IsRenamed(fs[n - 1]) {
        assert |CaseLine(fs[n - 1])| > 0;
      }
    }
  }

  /** The layout of a declaration: the header, the `let` lines, a CodingKeys
      block exactly when some field is renamed, and the closing brace. */
  lemma {:induction false} DeclarationLayout(modelName: string, modelType: string, fs: seq<Field>)
    ensures Declaration(modelName, modelType, fs) ==
      Header(modelName, modelType) + LetLines(fs, |fs|)
      + (if exists i :: 0 <= i < |fs| && IsRenamed(fs[i]) then CodingKeysBlock(CaseLines(fs, |fs|)) else "")
      + "}\n"
  {
    CaseLinesEmpty(fs, |fs|);
  }

  /** An object's declaration has a CodingKeys block exactly when one of its
      keys has an underscore or an upper-case letter. */
  lemma {:induction false} CodingKeysNeeded(fields: seq<(string, Json)>)
    ensures CaseLines(Describe(fields), |fields|) != "" <==>
      exists i :: 0 <= i < |fields| && ('_' in fields[i].0 || HasUpper(fields[i].0))
  {
    var fs := Describe(fields);
    CaseLinesEmpty(fs, |fs|);
    forall i | 0 <= i < |fields|
      ensures IsRenamed(fs[i]) <==> '_' in fields[i].0 || HasUpper(fields[i].0)
    {
      DescribeAt(fields, i);
      CamelCasedRenames(fields[i].0);
    }
  }
}
