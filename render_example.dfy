/** The element tree of the package's live-query test and its exact rendering. */
module RenderExample {
  import opened Wrappers
  import opened Strings
  import opened Elements
  import opened Render
  import opened FragmentLists
  import opened Queries

  /** `Field.id`, the one shared `idField` instance: both groups hold the same field, id and all. */
  const SharedIdField: Field := Field(3, IdFieldName)

  function ExampleLocation(): Group {
    Group(6, "location", [FieldElement(SharedIdField), FieldElement(Field(8, "name")), FieldElement(Field(9, "type"))],
      NoPaging, [], None)
  }

  function Results(location: Group): Group {
    Group(2, "results", [FieldElement(SharedIdField), FieldElement(Field(4, "name")), FieldElement(Field(5, "status")),
      GroupElement(location)], NoPaging, [], None)
  }

  function ExampleResults(): Group {
    Results(ExampleLocation())
  }

  function Schema(results: Group): Group {
    Group(1, "characters", [GroupElement(results)], NoPaging, [Param("filter", StringValue("{ name: \"Rick\" }"))], None)
  }

  /** `Group("characters", ("filter", "{ name: \"Rick\" }")) { Group("results") { ... } }` */
  function ExampleSchema(): Group {
    Schema(ExampleResults())
  }

  /** An unpaged group renders as its header and its body in one pair of braces. */
  lemma ItemText(g: Group, header: string, fieldsText: string)
    requires g.paging == NoPaging
    requires Header(g.name, Arguments(g)) == header && GroupFieldsText(g) == fieldsText
    ensures GroupQueryText(g) == header + " { " + fieldsText + " }"
  {
  }

  lemma LocationBody()
    ensures GroupFieldsText(ExampleLocation()) == "__typename id name type"
  {
    var s := ExampleLocation().fields;
    assert s[1..][1..][1..] == [];
    assert Texts(s[1..][1..]) == ["type"];
    assert Texts(s[1..]) == ["name", "type"];
    assert Texts(s) == ["id", "name", "type"];
    assert ["id", "name", "type"][1..] == ["name", "type"];
    assert ["name", "type"][1..] == ["type"];
    assert Join(["name", "type"], " ") == "name type";
  }

  lemma LocationText()
    ensures GroupQueryText(ExampleLocation()) == "location { __typename id name type }"
  {
    LocationBody();
    assert Arguments(ExampleLocation()) == [];
    ItemText(ExampleLocation(), "location", "__typename id name type");
    LocationConcat();
  }

  lemma LocationConcat()
    ensures "location" + " { " + "__typename id name type" + " }" == "location { __typename id name type }"
  {
  }

  lemma JoinFour(a: string, b: string, c: string, d: string, sep: string)
    ensures Join([a, b, c, d], sep) == a + sep + b + sep + c + sep + d
  {
    assert [a, b, c, d][1..] == [b, c, d];
    assert [b, c, d][1..] == [c, d];
    assert [c, d][1..] == [d];
    assert Join([c, d], sep) == c + sep + d;
    assert Join([b, c, d], sep) == b + sep + (c + sep + d);
  }

  lemma ResultsFields(loc: string)
    ensures "__typename " + Join(["id", "name", "status", loc], " ") == "__typename id name status " + loc
  {
    JoinFour("id", "name", "status", loc, " ");
    assert "id" + " " + "name" + " " + "status" + " " == "id name status ";
  }

  lemma ResultsTexts(location: Group)
    ensures Texts(Results(location).fields) == ["id", "name", "status", GroupQueryText(location)]
  {
    var s := Results(location).fields;
    var loc := GroupQueryText(location);
    assert s[1..][1..][1..][1..] == [];
    assert QueryText(s[3]) == loc;
    assert Texts(s[1..][1..][1..]) == [loc];
    assert Texts(s[1..][1..]) == ["status", loc];
    assert Texts(s[1..]) == ["name", "status", loc];
  }

  /** `results` spells out its scalar fields and nests the text of `location`. */
  lemma ResultsText(location: Group)
    ensures GroupQueryText(Results(location))
      == "results { __typename id name status " + GroupQueryText(location) + " }"
  {
    var g := Results(location);
    var loc := GroupQueryText(location);
    ResultsTexts(location);
    ResultsFields(loc);
    assert Arguments(g) == [];
    ItemText(g, "results", "__typename id name status " + loc);
    ResultsConcat(loc);
  }

  lemma ResultsConcat(loc: string)
    ensures "results" + " { " + ("__typename id name status " + loc) + " }" == "results { __typename id name status " + loc + " }"
  {
    assert "results" + " { " + "__typename id name status " == "results { __typename id name status ";
  }

  /** The filter value opens an object literal, so it goes in unquoted. */
  lemma FilterArgument()
    ensures ParamArgument(Param("filter", StringValue("{ name: \"Rick\" }"))) == "filter: { name: \"Rick\" }"
  {
    var v := "{ name: \"Rick\" }";
    assert v[0] == '{';
  }

  lemma SchemaArguments(results: Group)
    ensures Arguments(Schema(results)) == ["filter: { name: \"Rick\" }"]
  {
    FilterArgument();
    assert ParamArguments(Schema(results).extraParams) == ["filter: { name: \"Rick\" }"];
  }

  lemma SchemaHeader(results: Group)
    ensures Header(Schema(results).name, Arguments(Schema(results))) == "characters(filter: { name: \"Rick\" })"
  {
    SchemaArguments(results);
    HeaderMerge("filter: { name: \"Rick\" }");
  }

  lemma HeaderMerge(filter: string)
    requires filter == "filter: { name: \"Rick\" }"
    ensures "characters" + "(" + filter + ")" == "characters(filter: { name: \"Rick\" })"
  {
  }

  lemma SchemaText(results: Group)
    ensures GroupQueryText(Schema(results))
      == "characters(filter: { name: \"Rick\" })" + " { " + ("__typename " + GroupQueryText(results)) + " }"
  {
    var g := Schema(results);
    assert g.fields[1..] == [];
    assert Texts(g.fields) == [GroupQueryText(results)];
    SchemaHeader(results);
    ItemText(g, "characters(filter: { name: \"Rick\" })", "__typename " + GroupQueryText(results));
  }

  /**
   * The text the live-query test expects between the outer braces of its
   * request; the three literals only split the expected string to keep the
   * proof small.
   */
  lemma ExampleSchemaText()
    ensures GroupQueryText(ExampleSchema())
      == "characters(filter: { name: \"Rick\" }) { __typename "
       + "results { __typename id name status "
       + "location { __typename id name type } } }"
  {
    var h := "characters(filter: { name: \"Rick\" })";
    var b := "results { __typename id name status ";
    var l := "location { __typename id name type }";
    LocationText();
    ResultsText(ExampleLocation());
    SchemaText(ExampleResults());
    Assemble(h, b, l);
  }

  lemma Assemble(h: string, b: string, l: string)
    requires h == "characters(filter: { name: \"Rick\" })"
    requires b == "results { __typename id name status "
    requires l == "location { __typename id name type }"
    ensures h + " { " + ("__typename " + (b + l + " }")) + " }"
      == "characters(filter: { name: \"Rick\" }) { __typename " + b + "location { __typename id name type } } }"
  {
    Regroup(h, b, l);
    HeadMerge(h);
    TailMerge(l);
  }

  lemma Regroup(h: string, b: string, l: string)
    ensures h + " { " + ("__typename " + (b + l + " }")) + " }" == (h + " { " + "__typename ") + b + (l + " }" + " }")
  {
  }

  lemma HeadMerge(h: string)
    requires h == "characters(filter: { name: \"Rick\" })"
    ensures h + " { " + "__typename " == "characters(filter: { name: \"Rick\" }) { __typename "
  {
  }

  lemma TailMerge(l: string)
    requires l == "location { __typename id name type }"
    ensures l + " }" + " }" == "location { __typename id name type } } }"
  {
  }

  /** The test's query: no parent, so the root is rendered as it stands. */
  function ExampleQuery(): Query {
    Query("Rick And Morty", GroupElement(ExampleSchema()), None, false, Some(0))
  }

  lemma ExampleHasNoFragments()
    ensures Fragments(ExampleQuery().rootElement) == []
  {
    var loc := ExampleLocation().fields;
    assert loc[1..][1..][1..] == [];
    assert ChildFragments(loc) == [];
    var res := ExampleResults().fields;
    assert res[1..][1..][1..][1..] == [];
    assert ChildFragments(res[1..][1..][1..]) == [];
    assert ChildFragments(res) == [];
    assert ExampleSchema().fields[1..] == [];
  }

  /**
   * The full request of the test: no fragment declarations, the schema's
   * text in braces, and the rate-limit selection before the closing brace.
   */
  lemma ExampleQueryText()
    ensures QueryRequestText(ExampleQuery())
      == " { " + ("characters(filter: { name: \"Rick\" }) { __typename "
       + "results { __typename id name status "
       + "location { __typename id name type } } }")
       + RateLimitText
  {
    ExampleHasNoFragments();
    assert DeclaredFragments(ExampleQuery()) == [];
    assert FragmentQueryText(ExampleQuery()) == "";
    ExampleSchemaText();
    NoDeclarationsPrefix(FragmentQueryText(ExampleQuery()), RootQueryText(ExampleQuery()));
  }

  lemma NoDeclarationsPrefix(declarations: string, root: string)
    requires declarations == ""
    ensures declarations + " { " + root + RateLimitText == " { " + root + RateLimitText
  {
  }
}
