/**
 * Worked renderings of the element kinds the live-query test does not use:
 * a batch group over two ids, and a query that spreads a fragment and so
 * declares it ahead of the selection.
 */
module TextExamples {
  import opened Wrappers
  import opened Strings
  import opened Elements
  import opened Render
  import opened FragmentLists
  import opened Queries

  /** A paged template; its header and paging are not part of the batch text. */
  function TitleTemplate(): Group {
    Group(41, "items", [FieldElement(Field(3, IdFieldName)), FieldElement(Field(42, "title"))], First(5, false), [], None)
  }

  /** `BatchGroup(templateGroup: TitleTemplate(), idList: ["A", "B"])` */
  function TwoIdBatch(): BatchGroup {
    NewBatchGroup(40, TitleTemplate(), ["A", "B"])
  }

  lemma TitleTexts()
    ensures Join(Texts(TitleTemplate().fields), " ") == "id title"
  {
    var s := TitleTemplate().fields;
    assert s[1..][1..] == [];
    assert Texts(s[1..]) == ["title"];
    assert Texts(s) == ["id", "title"];
    assert ["id", "title"][1..] == ["title"];
  }

  /** The ids are quoted and comma-separated; only the template's children follow. */
  lemma BatchExampleText()
    ensures BatchQueryText(TwoIdBatch()) == "nodes(ids: [\"A\",\"B\"]) { id title }"
  {
    assert ["A", "B"][1..] == ["B"];
    assert Join(["A", "B"], "\",\"") == "A\",\"B";
    TitleTexts();
  }

  /** `Fragment(on: "Issue") { Field("title") }` */
  function IssueFragment(): Fragment {
    Fragment(50, "issueFragment", "Issue", [FieldElement(Field(51, "title"))])
  }

  function Issues(): Group {
    Group(52, "issues", [FragmentElement(IssueFragment())], NoPaging, [], None)
  }

  function IssuesQuery(): Query {
    Query("Issues", GroupElement(Issues()), None, false, None)
  }

  lemma IssuesDeclareTheFragment()
    ensures DeclaredFragments(IssuesQuery()) == [IssueFragment()]
  {
    var f := IssueFragment();
    assert f.elements[1..] == [];
    assert ChildFragments(f.elements) == [];
    assert Issues().fields[1..] == [];
    assert Fragments(IssuesQuery().rootElement) == [f];
    assert [f][1..] == [];
  }

  lemma IssueDeclaration()
    ensures Declaration(IssueFragment()) == "fragment issueFragment on Issue { __typename title }"
  {
    var f := IssueFragment();
    assert f.elements[1..] == [];
    assert Texts(f.elements) == ["title"];
    DeclarationOf(f.name, f.typeName, Join(Texts(f.elements), " "));
  }

  lemma DeclarationOf(name: string, typeName: string, body: string)
    requires name == "issueFragment" && typeName == "Issue" && body == "title"
    ensures "fragment " + name + " on " + typeName + " { __typename " + body + " }"
         == "fragment issueFragment on Issue { __typename title }"
  {
    assert "fragment " + name == "fragment issueFragment";
    assert "fragment issueFragment" + " on " + typeName == "fragment issueFragment on Issue";
    assert "fragment issueFragment on Issue" + " { __typename " + body == "fragment issueFragment on Issue { __typename title";
  }

  /** The group spreads the fragment by its name, after `__typename`. */
  lemma IssuesRoot()
    ensures GroupQueryText(Issues()) == "issues" + " { " + ("__typename " + ("... " + "issueFragment")) + " }"
  {
    var g := Issues();
    assert g.fields[1..] == [];
    assert Texts(g.fields) == [FragmentSpread(IssueFragment())];
    assert Arguments(g) == [];
  }

  /**
   * The request declares the fragment once, before the selection, and the
   * selection uses it by spreading its name.
   */
  lemma FragmentExampleText()
    ensures QueryRequestText(IssuesQuery()) == Declaration(IssueFragment()) + " { " + GroupQueryText(Issues()) + RateLimitText
    ensures Declaration(IssueFragment()) == "fragment issueFragment on Issue { __typename title }"
    ensures GroupQueryText(Issues()) == "issues" + " { " + ("__typename " + ("... " + "issueFragment")) + " }"
  {
    IssuesDeclareTheFragment();
    IssueDeclaration();
    IssuesRoot();
    assert Declarations([IssueFragment()]) == [Declaration(IssueFragment())];
  }
}
