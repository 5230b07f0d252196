/** Worked examples: the names and text generated for small documents. */
module Scenarios {
  import opened JsonData
  import opened StringExtensions
  import opened Schema

  lemma {:induction false} UserIdComponents()
    ensures Components("user_id") == ["user", "id"]
  {
    assert "user_id" == "user" + "_" + "id";
    ComponentsSplit("user", "id");
    ComponentsOfPlain("id");
  }

  lemma {:induction false} UserIdPieces()
    ensures Lowercased("user") == "user"
    ensures CapitalizedEach(["id"]) == ["Id"]
  {
    assert Capitalized("id") == "Id";
  }

  /** `user_id` becomes `userId`. */
  lemma {:induction false} SnakeCaseExample()
    ensures CamelCased("user_id") == "userId"
  {
    UserIdComponents();
    UserIdPieces();
    assert Concat(["Id"]) == "Id";
  }

  /** `name` stays `name`. */
  lemma {:induction false} PlainKeyExample()
    ensures CamelCased("name") == "name"
  {
    CamelCasedOfPlain("name");
    assert Lowercased("name") == "name";
  }

  /** A null inside an array is typed with the field's own optional flag,
      which is false for an array value: the element type carries no `?`. */
  lemma {:induction false} NullElementExample()
    ensures FieldOf("xs", JArray([JNull])).typeName == "[Any]"
  {
    var t := TypeName(JNull, CamelCased("xs"), false);
    assert t == "Any";
  }

  const Sample: seq<(string, Json)> := [("user_id", JInt(7)), ("name", JNull)]

  lemma {:induction false} SampleFieldsEach()
    ensures FieldOf("user_id", JInt(7)) == Field("user_id", "userId", "Int")
    ensures FieldOf("name", JNull) == Field("name", "name", "Any?")
  {
    SnakeCaseExample();
    PlainKeyExample();
  }

  lemma {:induction false} SampleFields()
    ensures Describe(Sample) == [Field("user_id", "userId", "Int"), Field("name", "name", "Any?")]
  {
    SampleFieldsEach();
    assert Sample[1..] == [("name", JNull)];
    assert Describe(Sample[1..]) == [FieldOf("name", JNull)] + Describe([]);
  }

  const SampleFs: seq<Field> := [Field("user_id", "userId", "Int"), Field("name", "name", "Any?")]

  /** One `let` line per key, in key order, the null one optional. */
  lemma {:induction false} SampleLetLines()
    ensures LetLines(SampleFs, 2) == "    let userId: Int\n" + "    let name: Any?\n"
  {
    assert LetLines(SampleFs, 1) == "" + LetLine(SampleFs[0]);
  }

  /** A CodingKeys entry for the renamed key only. */
  lemma {:induction false} SampleCaseLines()
    ensures CaseLines(SampleFs, 2) == "        case userId = \"user_id\"\n"
  {
    assert IsRenamed(SampleFs[0]) && !IsRenamed(SampleFs[1]);
    assert CaseLines(SampleFs, 1) == "" + CaseLine(SampleFs[0]);
  }
}
