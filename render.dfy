/**
 * Query-text rendering of every element kind (`queryText` in `Field.swift`,
 * `Fragment.swift`, `Group.swift` and `BatchGroup.swift`, and
 * `Fragment.declaration`). The text is a deterministic function of the tree.
 */
module Render {
  import opened Wrappers
  import opened Strings
  import opened Elements

  /** `Group.QueryFormat`: how a group wraps its body. */
  datatype QueryFormat = Item | List | PagedList

  function QueryText(e: Element): string
    decreases e, 1
  {
    match e
    case FieldElement(f) => f.name
    case FragmentElement(f) => FragmentSpread(f)
    case GroupElement(g) => GroupQueryText(g)
    case BatchElement(b) => BatchQueryText(b)
  }

  /** `children.map(\.queryText)` */
  function Texts(s: seq<Element>): (r: seq<string>)
    ensures |r| == |s|
    decreases s, 0
  {
    if |s| == 0 then [] else [QueryText(s[0])] + Texts(s[1..])
  }

  /** A fragment is used by spreading its name. */
  function FragmentSpread(f: Fragment): string {
    "... " + f.name
  }

  /** `Fragment.declaration`, placed once at the top of the request. */
  function Declaration(f: Fragment): string
    decreases f, 0
  {
    "fragment " + f.name + " on " + f.typeName + " { __typename " + Join(Texts(f.elements), " ") + " }"
  }

  function Format(p: Paging): QueryFormat {
    match p
    case NoPaging => Item
    case Last(_) => List
    case Max => PagedList
    case First(_, useCursor) => if useCursor then PagedList else List
  }

  /** The paging modes that send the last seen cursor back. */
  predicate CursorBearing(p: Paging) {
    p.Max? || (p.First? && p.paging)
  }

  function AfterArgument(cursor: string): string {
    "after: \"" + cursor + "\""
  }

  /** The arguments the paging mode contributes, in order. */
  function PagingArguments(p: Paging, cursor: Option<string>): seq<string> {
    match p
    case NoPaging => []
    case Last(count) => ["last: " + IntToString(count)]
    case Max => ["first: 100"] + (if cursor.Some? then [AfterArgument(cursor.value)] else [])
    case First(count, useCursor) =>
      ["first: " + IntToString(count)] + (if useCursor && cursor.Some? then [AfterArgument(cursor.value)] else [])
  }

  /** A string that does not open a list or object literal is quoted; anything else goes in raw. */
  function ParamArgument(p: Param): string {
    match p.value
    case StringValue(v) =>
      if |v| > 0 && v[0] != '[' && v[0] != '{' then p.name + ": \"" + v + "\"" else p.name + ": " + v
    case OtherValue(d) => p.name + ": " + d
  }

  function ParamArguments(ps: seq<Param>): (r: seq<string>)
    ensures |r| == |ps|
    ensures forall i :: 0 <= i < |ps| ==> r[i] == ParamArgument(ps[i])
  {
    seq(|ps|, i requires 0 <= i < |ps| => ParamArgument(ps[i]))
  }

  /** The `brackets` list: paging arguments first, then the extra parameters in order. */
  function Arguments(g: Group): seq<string> {
    PagingArguments(g.paging, g.lastCursor) + ParamArguments(g.extraParams)
  }

  /** The selection name, with its argument list in parentheses when there is one. */
  function Header(name: string, args: seq<string>): string {
    if |args| > 0 then name + "(" + Join(args, ", ") + ")" else name
  }

  function Shape(format: QueryFormat, query: string, fieldsText: string): string {
    match format
    case Item => query + " { " + fieldsText + " }"
    case List => query + " { edges { node { " + fieldsText + " } } }"
    case PagedList => query + " { edges { node { " + fieldsText + " } cursor } pageInfo { hasNextPage } }"
  }

  /** The body of a group always asks for the type discriminator first. */
  function GroupFieldsText(g: Group): string
    decreases g, 0
  {
    "__typename " + Join(Texts(g.fields), " ")
  }

  function GroupQueryText(g: Group): string
    decreases g, 1
  {
    Shape(Format(g.paging), Header(g.name, Arguments(g)), GroupFieldsText(g))
  }

  /** The template's own name and arguments are not rendered, only its children. */
  function BatchQueryText(b: BatchGroup): string
    decreases b, 0
  {
    "nodes(ids: [\"" + Join(b.idList, "\",\"") + "\"]) { " + Join(Texts(b.templateGroup.fields), " ") + " }"
  }

  /** The paging half of `Group.queryText`: the render shape and the first entries of the local argument list. */
  method PagingBrackets(p: Paging, lastCursor: Option<string>) returns (brackets: seq<string>, format: QueryFormat)
    ensures brackets == PagingArguments(p, lastCursor)
    ensures format == Format(p)
  {
    brackets := [];
    match p {
      case NoPaging =>
        format := Item;
      case Last(count) =>
        format := List;
        brackets := brackets + ["last: " + IntToString(count)];
      case Max =>
        format := PagedList;
        brackets := brackets + ["first: 100"];
        if lastCursor.Some? {
          brackets := brackets + [AfterArgument(lastCursor.value)];
        }
      case First(count, useCursor) =>
        brackets := brackets + ["first: " + IntToString(count)];
        if useCursor {
          format := PagedList;
          if lastCursor.Some? {
            brackets := brackets + [AfterArgument(lastCursor.value)];
          }
        } else {
          format := List;
        }
    }
  }

  /** The parameter loop of `Group.queryText`: one entry appended per extra parameter, in order. */
  method AppendParams(brackets0: seq<string>, params: seq<Param>) returns (brackets: seq<string>)
    ensures brackets == brackets0 + ParamArguments(params)
  {
    brackets := brackets0;
    var i := 0;
    while i < |params|
      invariant 0 <= i <= |params|
      invariant brackets == brackets0 + ParamArguments(params[..i])
    {
      var param := params[i];
      var entry: string;
      match param.value {
        case StringValue(value) =>
          if |value| > 0 && value[0] != '[' && value[0] != '{' {
            entry := param.name + ": \"" + value + "\"";
          } else {
            entry := param.name + ": " + value;
          }
        case OtherValue(description) =>
          entry := param.name + ": " + description;
      }
      assert entry == ParamArgument(param);
      assert ParamArguments(params[..i + 1]) == ParamArguments(params[..i]) + [entry];
      brackets := brackets + [entry];
      i := i + 1;
    }
    assert params[..i] == params;
  }

  /** `Group.queryText` as the source computes it: a local argument list built step by step, then the text. */
  method RenderGroup(g: Group) returns (text: string)
    ensures text == GroupQueryText(g)
  {
    var brackets, format := PagingBrackets(g.paging, g.lastCursor);
    brackets := AppendParams(brackets, g.extraParams);
    var query: string;
    if |brackets| > 0 {
      query := g.name + "(" + Join(brackets, ", ") + ")";
    } else {
      query := g.name;
    }
    var fieldsText := "__typename " + Join(Texts(g.fields), " ");
    match format {
      case Item => text := query + " { " + fieldsText + " }";
      case List => text := query + " { edges { node { " + fieldsText + " } } }";
      case PagedList => text := query + " { edges { node { " + fieldsText + " } cursor } pageInfo { hasNextPage } }";
    }
  }

  // ---------------------------------------------------------------------------
  // Properties

  /** A field renders as its bare name. */
  lemma FieldRendersName(f: Field)
    ensures QueryText(FieldElement(f)) == f.name
  {
  }

  /**
   * A batch group's text depends only on its id list and its template's
   * children: its own id and name, and the template's id, name, paging,
   * parameters and cursor, are never rendered.
   */
  lemma BatchTextIgnoresHeaders(b: BatchGroup, id: nat, name: string, t: Group)
    requires t.fields == b.templateGroup.fields
    ensures BatchQueryText(BatchGroup(id, name, b.idList, t)) == BatchQueryText(b)
  {
  }

  /**
   * An `after:` argument is sent exactly when the mode is `max` or
   * `first(_, paging: true)` and a cursor is present, and then it carries that
   * cursor; the parentheses disappear exactly when there is no argument at all.
   */
  lemma CursorArgument(g: Group, c: string)
    ensures (exists i :: 0 <= i < |PagingArguments(g.paging, g.lastCursor)| && PagingArguments(g.paging, g.lastCursor)[i] == AfterArgument(c))
            <==> CursorBearing(g.paging) && g.lastCursor == Some(c)
    ensures Arguments(g) == [] <==> g.paging == NoPaging && g.extraParams == []
  {
    var args := PagingArguments(g.paging, g.lastCursor);
    assert AfterArgument(c)[0] == 'a';
    assert |args| > 0 ==> args[0][0] != 'a' by {
      match g.paging
      case NoPaging =>
      case Last(n) => assert args[0] == "last: " + IntToString(n);
      case Max => assert args[0] == "first: 100";
      case First(n, _) => assert args[0] == "first: " + IntToString(n);
    }
    if CursorBearing(g.paging) && g.lastCursor == Some(c) {
      assert |args| == 2 && args[1] == AfterArgument(c);
    }
    if exists i :: 0 <= i < |args| && args[i] == AfterArgument(c) {
      var i :| 0 <= i < |args| && args[i] == AfterArgument(c);
      assert i == 1 && g.lastCursor.Some?;
      var cv := g.lastCursor.value;
      assert AfterArgument(cv) == AfterArgument(c);
      assert cv == AfterArgument(cv)[8..|AfterArgument(cv)| - 1];
      assert c == AfterArgument(c)[8..|AfterArgument(c)| - 1];
    }
  }
}
