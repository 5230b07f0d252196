/** `swiftType` and `generateSwiftModel`: the walk over a JSON value that
    writes Swift types and struct declarations, threading the
    `modelDefinitions` dictionary. Swift passes an `inout` argument by copying
    it in and copying it back out, so each method takes the dictionary as an
    input and returns its new value. */
module Generator {
  import opened JsonData
  import opened StringExtensions
  import opened Schema

  datatype Option<T> = None | Some(value: T)

  /** The Swift type of one JSON value; a nested object is generated as a
      struct of its own and stored under its name, replacing any earlier
      declaration of that name. */
  method SwiftType(value: Json, propertyName: string, modelDefinitions: Definitions, optional: bool, modelType: string)
    returns (swiftType: string, definitions: Definitions)
    decreases value
    ensures swiftType == TypeName(value, propertyName, optional)
    ensures definitions == modelDefinitions + Registered(value, propertyName, modelType)
  {
    var baseType: string;
    definitions := modelDefinitions;
    match value {
      case JInt(_) =>
        baseType := "Int";
      case JDouble(_) =>
        baseType := "Double";
      case JBool(_) =>
        baseType := "Bool";
      case JString(_) =>
        baseType := "String";
      case JObject(dict) =>
        var structName := CapitalizedFirstLetter(propertyName);
        var model;
        model, definitions := GenerateSwiftModel(dict, structName, definitions, modelType);
        UnionUpdate(modelDefinitions, FieldsRegistered(dict, |dict|, modelType), structName, model);
        definitions := definitions[structName := model];
        baseType := structName;
      case JArray(elements) =>
        if |elements| > 0 {
          var elementType;
          elementType, definitions := SwiftType(elements[0], propertyName, definitions, optional, modelType);
          baseType := "[" + elementType + "]";
        } else {
          baseType := "[Any]";
        }
      case JNull =>
        baseType := "Any";
    }
    swiftType := if optional then baseType + "?" else baseType;
  }

  /** The struct declaration for an object's key/value pairs: one `let` per
      key, and a CodingKeys enum listing the keys whose camel-cased name differs. */
  method GenerateSwiftModel(json: seq<(string, Json)>, modelName: string, modelDefinitions: Definitions, modelType: string)
    returns (model: string, definitions: Definitions)
    decreases JObject(json), 0
    ensures model == Declaration(modelName, modelType, Describe(json))
    ensures definitions == modelDefinitions + FieldsRegistered(json, |json|, modelType)
  {
    var properties := "";
    var codingKeys := "";
    definitions := modelDefinitions;
    ghost var fields := Describe(json);
    for i := 0 to |json|
      invariant properties == LetLines(fields, i)
      invariant codingKeys == CaseLines(fields, i)
      invariant definitions == modelDefinitions + FieldsRegistered(json, i, modelType)
    {
      var (key, value) := json[i];
      var propertyName := CamelCased(key);
      var optional := value.JNull?;
      var propertyType;
      propertyType, definitions := SwiftType(value, propertyName, definitions, optional, modelType);
      var field := Field(key, propertyName, propertyType);
      properties := properties + LetLine(field);
      if propertyName != key {
        codingKeys := codingKeys + CaseLine(field);
      }
      DescribeAt(json, i);
      LinesNext(fields, i);
      FieldsRegisteredNext(json, i, modelDefinitions, modelType);
    }
    model := Header(modelName, modelType) + properties;
    if codingKeys != "" {
      model := model + CodingKeysBlock(codingKeys);
    }
    model := model + "}\n";
  }

  /** `order` lists every key of `defs` exactly once: one of the orders in
      which a Swift dictionary may hand out its values. */
  ghost predicate ListsKeys(order: seq<string>, defs: Definitions) {
    && (forall k :: k in order <==> k in defs)
    && (forall i, j :: 0 <= i < j < |order| ==> order[i] != order[j])
  }

  /** The values of `defs` in the order `order` gives their keys. */
  function ValuesIn(defs: Definitions, order: seq<string>): (vs: seq<string>)
    requires forall k :: k in order ==> k in defs
    ensures |vs| == |order|
  {
    if order == [] then [] else [defs[order[0]]] + ValuesIn(defs, order[1..])
  }

  /** `modelDefinitions.values` in one of the orders a dictionary may use;
      which one is left open, as Swift leaves it unspecified. */
  method SomeOrder(defs: Definitions) returns (order: seq<string>)
    ensures ListsKeys(order, defs)
  {
    order := [];
    var remaining := defs.Keys;
    while remaining != {}
      invariant remaining <= defs.Keys
      invariant forall k :: k in order <==> k in defs && k !in remaining
      invariant forall i, j :: 0 <= i < j < |order| ==> order[i] != order[j]
      decreases |remaining|
    {
      var k :| k in remaining;
      order := order + [k];
      remaining := remaining - {k};
    }
  }

  /** The program's output: the root struct followed by every stored
      declaration, separated by newlines. */
  function SwiftCode(rootModel: string, defs: Definitions, order: seq<string>): string
    requires ListsKeys(order, defs)
  {
    Joined([rootModel] + ValuesIn(defs, order), '\n')
  }

  /** The output starts with the root struct and holds every stored
      declaration whole, each at its place in the listing. */
  lemma {:induction false} SwiftCodeHoldsAll(rootModel: string, defs: Definitions, order: seq<string>, i: nat)
    requires ListsKeys(order, defs)
    requires i < |order|
    ensures rootModel <= SwiftCode(rootModel, defs, order)
    ensures var parts := [rootModel] + ValuesIn(defs, order);
      var code := SwiftCode(rootModel, defs, order);
      var at := Offset(parts, i + 1);
      && at + |defs[order[i]]| <= |code|
      && code[at..at + |defs[order[i]]|] == defs[order[i]]
  {
    var parts := [rootModel] + ValuesIn(defs, order);
    JoinedKeepsPieces(parts, '\n', 0);
    JoinedKeepsPieces(parts, '\n', i + 1);
    ValuesInAt(defs, order, i);
  }

  lemma {:induction false} ValuesInAt(defs: Definitions, order: seq<string>, i: nat)
    requires forall k :: k in order ==> k in defs
    requires i < |order|
    ensures ValuesIn(defs, order)[i] == defs[order[i]]
  {
    if i > 0 {
      ValuesInAt(defs, order[1..], i - 1);
    }
  }

  /** The whole run on a parsed JSON document: a top level that is not an
      object is refused; otherwise the root struct is generated into an empty
      registry and joined with every declaration stored on the way. */
  method Generate(root: Json, modelName: string, modelType: string) returns (output: Option<string>, order: seq<string>)
    ensures output.None? <==> !root.JObject?
    ensures root.JObject? ==>
      var defs := FieldsRegistered(root.fields, |root.fields|, modelType);
      && ListsKeys(order, defs)
      && output.value == SwiftCode(Declaration(modelName, modelType, Describe(root.fields)), defs, order)
  {
    order := [];
    if !root.JObject? {
      return None, order;
    }
    var modelDefinitions: Definitions := map[];
    var rootModel;
    rootModel, modelDefinitions := GenerateSwiftModel(root.fields, modelName, modelDefinitions, modelType);
    EmptyUnion(FieldsRegistered(root.fields, |root.fields|, modelType));
    order := SomeOrder(modelDefinitions);
    output := Some(SwiftCode(rootModel, modelDefinitions, order));
  }

  /** Storing one more field's declarations is one more override of the registry. */
  lemma {:induction false} FieldsRegisteredNext(json: seq<(string, Json)>, i: nat, modelDefinitions: Definitions, modelType: string)
    requires i < |json|
    ensures modelDefinitions + FieldsRegistered(json, i + 1, modelType)
      == (modelDefinitions + FieldsRegistered(json, i, modelType)) + Registered(json[i].1, CamelCased(json[i].0), modelType)
  {
    UnionAssoc(modelDefinitions, FieldsRegistered(json, i, modelType), Registered(json[i].1, CamelCased(json[i].0), modelType));
  }

  lemma {:induction false} EmptyUnion<K, V>(m: map<K, V>)
    ensures map[] + m == m
  {}

  lemma {:induction false} UnionAssoc<K, V>(a: map<K, V>, b: map<K, V>, c: map<K, V>)
    ensures a + (b + c) == (a + b) + c
  {}

  lemma {:induction false} LinesNext(fs: seq<Field>, i: nat)
    requires i < |fs|
    ensures LetLines(fs, i + 1) == LetLines(fs, i) + LetLine(fs[i])
    ensures CaseLines(fs, i + 1) == if IsRenamed(fs[i]) then CaseLines(fs, i) + CaseLine(fs[i]) else CaseLines(fs, i)
  {}

  lemma {:induction false} UnionUpdate(a: Definitions, b: Definitions, k: string, v: string)
    ensures (a + b)[k := v] == a + b[k := v]
  {}
}
