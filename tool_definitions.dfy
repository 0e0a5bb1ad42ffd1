/**
  Tool definitions as the JSON file provider serves them, and the two pure
  transforms it applies to a loaded list: the case-insensitive lookup of one
  definition by name and the projection to protocol tools.
*/
module ToolDefinitions {

  import opened Wrappers

  /** A protocol tool as advertised to clients. Its serialised form belongs to
      the protocol library; only these fields are carried here. */
  datatype Tool = Tool(name: string, description: string, inputSchema: string)

  /** One entry of the definitions file: the tool's name and its protocol tool. */
  datatype ToolDefinition = ToolDefinition(name: string, tool: Tool)

  /** The answer to a list-tools request. */
  datatype ListToolsResult = ListToolsResult(tools: seq<Tool>, nextCursor: Option<string>)

  /** Ordinal comparison ignoring case: both strings have the same number of
      characters and agree character by character once each is mapped through
      `fold`, the platform's invariant upper-casing of one Unicode scalar value
      (a Dafny `char`). */
  function EqualsIgnoreCase(a: string, b: string, fold: char -> char): (equal: bool)
    ensures equal ==> |a| == |b|
    // with a fold that changes nothing, this is plain ordinal equality
    ensures (forall c :: fold(c) == c) ==> (equal <==> a == b)
  {
    |a| == |b| && forall i :: 0 <= i < |a| ==> fold(a[i]) == fold(b[i])
  }

  /** Comparison ignoring case is an equivalence, whatever the fold. */
  lemma EqualsIgnoreCaseIsEquivalence(a: string, b: string, c: string, fold: char -> char)
    ensures EqualsIgnoreCase(a, a, fold)
    ensures EqualsIgnoreCase(a, b, fold) ==> EqualsIgnoreCase(b, a, fold)
    ensures EqualsIgnoreCase(a, b, fold) && EqualsIgnoreCase(b, c, fold) ==> EqualsIgnoreCase(a, c, fold)
  {
  }

  /** Equal strings are equal ignoring case, and strings of different
      lengths never are. */
  lemma EqualsIgnoreCaseBounds(a: string, b: string, fold: char -> char)
    ensures a == b ==> EqualsIgnoreCase(a, b, fold)
    ensures |a| != |b| ==> !EqualsIgnoreCase(a, b, fold)
  {
  }

  /** The first definition, in list order, whose name equals `name` ignoring
      case; none when no definition matches. */
  function FindByName(defs: seq<ToolDefinition>, name: string, fold: char -> char): (r: Option<ToolDefinition>)
    ensures r.None? <==> forall i :: 0 <= i < |defs| ==> !EqualsIgnoreCase(defs[i].name, name, fold)
    ensures r.Some? ==> exists i :: 0 <= i < |defs| && defs[i] == r.value
                          && EqualsIgnoreCase(defs[i].name, name, fold)
                          && forall j :: 0 <= j < i ==> !EqualsIgnoreCase(defs[j].name, name, fold)
  {
    if defs == [] then None
    else if EqualsIgnoreCase(defs[0].name, name, fold) then Some(defs[0])
    else
      var r := FindByName(defs[1..], name, fold);
      assert forall i :: 1 <= i < |defs| ==> defs[i] == defs[1..][i - 1];
      r
  }

  /** The lookup answers the same for every spelling of the name that is
      equal ignoring case. */
  lemma {:induction false} FindByNameIgnoresCase(defs: seq<ToolDefinition>, n1: string, n2: string, fold: char -> char)
    requires EqualsIgnoreCase(n1, n2, fold)
    ensures FindByName(defs, n1, fold) == FindByName(defs, n2, fold)
  {
    if defs != [] {
      EqualsIgnoreCaseIsEquivalence(defs[0].name, n1, n2, fold);
      EqualsIgnoreCaseIsEquivalence(defs[0].name, n2, n1, fold);
      FindByNameIgnoresCase(defs[1..], n1, n2, fold);
    }
  }

  /** A definition filed under exactly the requested name is always found,
      unless an earlier one already matches ignoring case. */
  lemma {:induction false} ExactNameIsFound(defs: seq<ToolDefinition>, k: nat, fold: char -> char)
    requires k < |defs|
    ensures var r := FindByName(defs, defs[k].name, fold);
            r.Some? && EqualsIgnoreCase(r.value.name, defs[k].name, fold)
  {
    EqualsIgnoreCaseBounds(defs[k].name, defs[k].name, fold);
  }

  /** The protocol tools of a list of definitions: one per definition, in the
      same order. */
  function ProtocolTools(defs: seq<ToolDefinition>): (r: seq<Tool>)
    ensures |r| == |defs|
    ensures forall i :: 0 <= i < |defs| ==> r[i] == defs[i].tool
  {
    if defs == [] then [] else [defs[0].tool] + ProtocolTools(defs[1..])
  }

  /** Projecting a concatenation projects each part. */
  lemma {:induction false} ProtocolToolsAppend(a: seq<ToolDefinition>, b: seq<ToolDefinition>)
    ensures ProtocolTools(a + b) == ProtocolTools(a) + ProtocolTools(b)
  {
    if a != [] {
      assert (a + b)[1..] == a[1..] + b;
      ProtocolToolsAppend(a[1..], b);
    }
  }

  /** The tool of a definition found by name is among the listed tools, at the
      definition's own position. */
  lemma FoundToolIsListed(defs: seq<ToolDefinition>, name: string, fold: char -> char)
    requires FindByName(defs, name, fold).Some?
    ensures exists i :: 0 <= i < |defs| && ProtocolTools(defs)[i] == FindByName(defs, name, fold).value.tool
  {
    var i :| 0 <= i < |defs| && defs[i] == FindByName(defs, name, fold).value;
    assert ProtocolTools(defs)[i] == defs[i].tool;
  }

  /** The result of a list-tools request over `defs`: every tool, and no
      further page. */
  function ListToolsOf(defs: seq<ToolDefinition>): (r: ListToolsResult)
    ensures r.nextCursor == None
    ensures |r.tools| == |defs|
    ensures forall i :: 0 <= i < |defs| ==> r.tools[i] == defs[i].tool
  {
    ListToolsResult(ProtocolTools(defs), None)
  }
}
