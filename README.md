# json2swift generator, modelled in Dafny

json2swift reads a JSON document and prints Swift `struct` declarations that
decode it. This project models the part that does the work:

- `swiftType(for:propertyName:modelDefinitions:optional:)` writes the Swift type of one
  JSON value;
- `generateSwiftModel(from:modelName:modelDefinitions:)` writes the struct for one
  object, with a `let` per key and a `CodingKeys` enum for renamed keys;
- the two `String` extensions `camelCased()` and `capitalizedFirstLetter()`;
- the last step of the script: the root is checked to be an object, its struct is
  generated, and all declarations are joined.

Files:

- `json.dfy` (`JsonData`): the parsed document. An object is a sequence of
  key/value pairs, and its order stands for the order in which the Swift
  dictionary hands out its entries.
- `strings.dfy` (`StringExtensions`): `camelCased`, `capitalizedFirstLetter`, and
  the Foundation and standard-library operations they use
  (`components(separatedBy:)`, `lowercased`, `capitalized`, `joined`). Case mapping is ASCII only.
- `schema.dfy` (`Schema`): reference definitions that do not depend on the
  registry being threaded. They give the type written for a value
  (`TypeName`), the fields of a struct (`Describe`), the declaration text
  (`Declaration`) and the declarations a value stores (`Registered`).
- `generator.dfy` (`Generator`): `swiftType` and `generateSwiftModel` as
  mutually recursive methods. Swift's `inout` dictionary is copy-in/copy-out,
  so each method takes the dictionary in and returns its new value. Each
  method is proved against the `Schema` definitions. The generated type and
  text do not depend on the dictionary. The dictionary itself only gains the
  declarations the value stores, overriding earlier entries: `definitions ==
  modelDefinitions + Registered(...)`.
- `scenarios.dfy` (`Scenarios`): worked examples on concrete keys and a
  concrete object.

The global `modelType` ("Decodable" unless `-t`/`--type` sets it) is a parameter.

The model follows the code as written:

- A struct name that is already in the dictionary is overwritten
  (`Schema.RegistryUpdate`, `Schema.LaterSiblingWins`). No collision is
  detected.
- A struct name is derived from the property name alone, not from the shape of
  the object.
- A null field value becomes `Any?`; a null first array element becomes `Any`
  (`[null]` gives `[Any]`, `Scenarios.NullElementExample`).
- The output lists the dictionary's values in the dictionary's own order, which
  Swift leaves unspecified (`Generator.SomeOrder`).
- The nested structs of an object are stored before the object's own struct.
  An object whose struct name equals a nested one therefore replaces the
  nested declaration.

## Model

| member | source | states |
|---|---|---|
| StringExtensions.Lowercased | Sources/json2swift/main.swift:131 | `lowercased()`: every ASCII upper-case letter replaced by its lower-case form, everything else kept |
| StringExtensions.Capitalized | Sources/json2swift/main.swift:132 | `capitalized`: the first character of each word upper-cased and every other character lower-cased, where a word starts at the beginning or after a space, tab or line break |
| StringExtensions.CamelCased | Sources/json2swift/main.swift:129-134 | the first `_`-component lower-cased, followed by every later component capitalized, joined without separator |
| StringExtensions.Joined | Sources/json2swift/main.swift:116 | `joined(separator:)`: the pieces in order with the separator between consecutive ones |
| StringExtensions.Concat | Sources/json2swift/main.swift:132 | `joined()`: the pieces in order with nothing between them |
| StringExtensions.CapitalizedEach | Sources/json2swift/main.swift:132 | `.map { $0.capitalized }`: each component capitalized, in order |
| StringExtensions.CapitalizedFirstLetter | Sources/json2swift/main.swift:136-138 | the result has the input's length, every character after the first is unchanged, and the first is the input's first letter, no longer lower-case |
| StringExtensions.CapitalizedFirstLetterIdempotent | Sources/json2swift/main.swift:136-138 | capitalizing the first letter twice gives the same as once |
| StringExtensions.Components | Sources/json2swift/main.swift:130 | splitting on `_` yields at least one piece, no piece holds `_`, and joining the pieces with `_` gives back the key |
| StringExtensions.ComponentsSplit | Sources/json2swift/main.swift:130 | the first underscore ends the first component, and the rest is split the same way |
| StringExtensions.CamelCasedHasNoUnderscore | Sources/json2swift/main.swift:129-134 | a camel-cased name never contains `_` |
| StringExtensions.CamelCasedOfPlain | Sources/json2swift/main.swift:129-134 | a key without `_` comes out as its lower-cased self |
| StringExtensions.CamelCasedKeepsLetters | Sources/json2swift/main.swift:129-134 | ignoring case, camel-casing only removes the underscores of the key |
| StringExtensions.CamelCasedRenames | Sources/json2swift/main.swift:129-134 | the camel-cased name differs from the key exactly when the key has an underscore or an upper-case letter |
| StringExtensions.JoinedKeepsPieces | Sources/json2swift/main.swift:116 | joining with a separator keeps every piece whole, starting after all earlier pieces and their separators |
| Schema.TypeName | Sources/json2swift/main.swift:8-33 | the type written for a value: `Int`, `Double`, `Bool` or `String` for scalars, the capitalized property name for an object, `[T]` with `T` the first element's type (`[Any]` when empty) for an array, `Any` otherwise, with `?` appended when optional (`WithOptional`) |
| Schema.FieldOf | Sources/json2swift/main.swift:41-43 | a key/value pair becomes the key, its camel-cased name, and the type of the value under that name, optional exactly when the value is null |
| Schema.Registered | Sources/json2swift/main.swift:17-28 | the declarations a value stores: for an object, those its fields store, then its own declaration under its capitalized property name; for an array, those of its first element; nothing otherwise |
| Schema.FieldsRegistered | Sources/json2swift/main.swift:40-43 | the declarations stored by an object's fields, each field overriding the ones before it |
| Schema.Declaration | Sources/json2swift/main.swift:52-58 | the struct text: the header `struct <name>: <modelType> {` (`Header`), the `let` lines, the CodingKeys enum around the entries when there are any (`CodingKeysBlock`), then `}` |
| Schema.LetLines | Sources/json2swift/main.swift:45 | the `properties` text after the first `n` fields: one `let <name>: <type>` line (`LetLine`) per field, in field order |
| Schema.CaseLines | Sources/json2swift/main.swift:47-49 | the `codingKeys` text after the first `n` fields: a `case <name> = "<key>"` line (`CaseLine`) for each renamed field (`IsRenamed`), in field order, nothing for the others |
| Schema.Describe | Sources/json2swift/main.swift:40-43 | an object yields exactly one field per key/value pair |
| Schema.DescribeAt | Sources/json2swift/main.swift:40-43 | field `i` is named by camel-casing key `i`, and is optional exactly when value `i` is null |
| Schema.TypeNameOptional | Sources/json2swift/main.swift:33 | the type ends in `?` exactly when the value is optional, or when it is an object whose property name ends in `?` |
| Schema.FirstElementOnly | Sources/json2swift/main.swift:22-28 | elements after the first change neither an array's type nor what it stores |
| Schema.OnlyObjectsStored | Sources/json2swift/main.swift:8-30 | a value stores declarations exactly when it is an object, or an array whose first element stores some |
| Schema.RegistryUpdate | Sources/json2swift/main.swift:17-21 | a value leaves untouched every entry it does not store; a value that stores nothing leaves the dictionary unchanged; an object puts its own declaration under its capitalized property name, replacing what was there |
| Schema.LaterSiblingWins | Sources/json2swift/main.swift:19-20 | among the fields of an object, the last one that stores a given struct name decides its declaration, with no collision check |
| Schema.FieldOptional | Sources/json2swift/main.swift:42-43 | a field's type ends in `?` exactly when its value is null, or it is an object whose property name ends in `?` |
| Schema.LetLineInPlace | Sources/json2swift/main.swift:40-45 | field `i`'s `let` line comes right after the lines of the fields before it |
| Schema.CaseLineInPlace | Sources/json2swift/main.swift:47-49 | a renamed field's `case` line comes after the entries of the fields before it |
| Schema.CaseLinesEmpty | Sources/json2swift/main.swift:47-49 | there are no CodingKeys entries exactly when no field is renamed |
| Schema.DeclarationLayout | Sources/json2swift/main.swift:52-58 | a declaration is the `struct` header, the `let` lines, a CodingKeys block exactly when some field is renamed, and a closing brace |
| Schema.CodingKeysNeeded | Sources/json2swift/main.swift:47-56 | an object gets a CodingKeys block exactly when one of its keys has an underscore or an upper-case letter |
| Generator.SwiftType | Sources/json2swift/main.swift:5-34 | the returned type is the reference type of the value, whatever the dictionary held; the new dictionary is the old one overridden by exactly the declarations the value stores |
| Generator.GenerateSwiftModel | Sources/json2swift/main.swift:36-61 | the returned text is the reference declaration of the object's fields; the new dictionary is the old one overridden, field by field in order, by what each value stores |
| Generator.SwiftCode | Sources/json2swift/main.swift:116 | the root struct followed by the dictionary's values in the given key order, joined with newlines |
| Generator.ValuesIn | Sources/json2swift/main.swift:116 | `modelDefinitions.values` listed in a given key order: the value stored under each key, one per key |
| Generator.SomeOrder | Sources/json2swift/main.swift:116 | the chosen order lists every key of the dictionary exactly once |
| Generator.SwiftCodeHoldsAll | Sources/json2swift/main.swift:116 | the output starts with the root struct, and every stored declaration appears in it whole, at its place in the listing |
| Generator.Generate | Sources/json2swift/main.swift:105-116 | a document whose top level is not an object is refused. Otherwise the output is the root declaration joined with every declaration its fields store, in some order of the dictionary's keys |
| Scenarios.UserIdComponents | Sources/json2swift/main.swift:130 | `user_id` splits into `user` and `id` |
| Scenarios.SnakeCaseExample | Sources/json2swift/main.swift:129-134 | `user_id` is camel-cased to `userId` |
| Scenarios.PlainKeyExample | Sources/json2swift/main.swift:129-134 | `name` is camel-cased to itself |
| Scenarios.NullElementExample | Sources/json2swift/main.swift:22-25 | `{"xs": [null]}` gives the field type `[Any]`: the element is typed with the field's own optional flag, which is false |
| Scenarios.SampleFields | Sources/json2swift/main.swift:40-43 | `{"user_id": 7, "name": null}` has the fields `userId: Int` and `name: Any?` |
| Scenarios.SampleLetLines | Sources/json2swift/main.swift:45 | the `let` lines for that object, in key order |
| Scenarios.SampleCaseLines | Sources/json2swift/main.swift:47-49 | its CodingKeys entries: one `case` line for `user_id`, none for `name` |

## Left out

- Command-line parsing and its defaults (main.swift:63-102): process glue that
  calls `exit`. The model name and `modelType` it yields are parameters here.
- Reading the file and `JSONSerialization` (main.swift:105-109): I/O and a
  foreign parser. The model starts from a parsed `Json` value. It models only
  the "top level is not an object" refusal, as `None`.
- Writing or printing the output (main.swift:118-124): I/O.
- NSNumber bridging: Foundation may report a boolean or a whole-valued double
  as `Int`. Numbers here arrive already tagged `JInt` or `JDouble`, and no
  floating-point arithmetic is modelled.
- Unicode- and locale-aware case mapping. `lowercased`, `uppercased` and
  `capitalized` act on ASCII letters only.
- `capitalized` follows Foundation's documented word rule: a word starts after
  a space, tab or line break. Some Foundation implementations also start a word
  after other non-letters such as a digit or `-` (there `a_b-c` gives `aB-C`,
  the model `aB-c`); that variant is not modelled.
- Duplicate keys inside one object are not excluded from `JObject`. A parsed
  Swift dictionary never has them.
- Generator.SomeOrder: the dictionary's real iteration order is hash-based and
  not modelled. Any order of its keys is allowed.
- Generate: the error message and the process exit status are not modelled.
- `Package.swift`: a build manifest with no logic.
