/**
  The in-memory tool resource store: a table of tool resources keyed by
  their names, with get, upsert, delete and list.

  Each operation of the source runs under a one-slot semaphore, so it is one
  atomic step; here each is one sequential method on the `tools` map.
*/
module ToolResourceStore {

  import opened Wrappers
  import opened ToolDefinitions

  /** A tool resource. Only its name matters to the store; `content` stands
      for every other field of the record, which the store never inspects. */
  datatype ToolResource = ToolResource(name: string, content: string)

  /** The store's invariant: every resource is filed under its own name. */
  ghost predicate KeyedByName(m: map<string, ToolResource>)
  {
    forall k :: k in m ==> m[k].name == k
  }

  /** Reading the table: the resource filed under `name`, if any. */
  function Lookup(m: map<string, ToolResource>, name: string): (r: Option<ToolResource>)
    ensures r.Some? <==> name in m
    ensures r.Some? ==> r.value == m[name]
    ensures KeyedByName(m) && r.Some? ==> r.value.name == name
  {
    if name in m then Some(m[name]) else None
  }

  /** The table after `tool` is written: it is filed under its own name. */
  function Upserted(m: map<string, ToolResource>, tool: ToolResource): (m': map<string, ToolResource>)
    ensures m'.Keys == m.Keys + {tool.name}
    ensures m'[tool.name] == tool
    ensures forall k :: k in m && k != tool.name ==> m'[k] == m[k]
  {
    m[tool.name := tool]
  }

  /** The table after `name` is removed; removing an absent name changes nothing. */
  function Deleted(m: map<string, ToolResource>, name: string): (m': map<string, ToolResource>)
    ensures m'.Keys == m.Keys - {name}
    ensures forall k :: k in m' ==> m'[k] == m[k]
    ensures name !in m ==> m' == m
  {
    m - {name}
  }

  // ---------------------------------------------------------------------------
  // Properties of the table operations

  /** Writing then reading the same name gives back what was written. */
  lemma LookupAfterUpsert(m: map<string, ToolResource>, tool: ToolResource)
    ensures Lookup(Upserted(m, tool), tool.name) == Some(tool)
  {
  }

  /** Writing a resource leaves every other name's entry as it was. */
  lemma UpsertFramesOtherNames(m: map<string, ToolResource>, tool: ToolResource, other: string)
    requires other != tool.name
    ensures Lookup(Upserted(m, tool), other) == Lookup(m, other)
  {
  }

  /** Last write wins: a second write under the same name erases the first. */
  lemma UpsertLastWriteWins(m: map<string, ToolResource>, first: ToolResource, second: ToolResource)
    requires first.name == second.name
    ensures Upserted(Upserted(m, first), second) == Upserted(m, second)
  {
  }

  /** Writes under different names do not interfere, in either order. */
  lemma UpsertsOfDistinctNamesCommute(m: map<string, ToolResource>, a: ToolResource, b: ToolResource)
    requires a.name != b.name
    ensures Upserted(Upserted(m, a), b) == Upserted(Upserted(m, b), a)
  {
  }

  /** Deleting then reading the same name finds nothing. */
  lemma LookupAfterDelete(m: map<string, ToolResource>, name: string)
    ensures Lookup(Deleted(m, name), name) == None
  {
  }

  /** Deleting a name leaves every other name's entry as it was. */
  lemma DeleteFramesOtherNames(m: map<string, ToolResource>, name: string, other: string)
    requires other != name
    ensures Lookup(Deleted(m, name), other) == Lookup(m, other)
  {
  }

  /** Writing then deleting a name that was absent restores the table. */
  lemma DeleteUndoesFreshUpsert(m: map<string, ToolResource>, tool: ToolResource)
    requires tool.name !in m
    ensures Deleted(Upserted(m, tool), tool.name) == m
  {
  }

  /** Both mutating operations keep every resource filed under its own name. */
  lemma OperationsKeepKeyedByName(m: map<string, ToolResource>, tool: ToolResource, name: string)
    requires KeyedByName(m)
    ensures KeyedByName(Upserted(m, tool))
    ensures KeyedByName(Deleted(m, name))
  {
  }

  /** Keys compare by ordinal equality: any two different names are separate
      entries, so writing both keeps both, whatever their letter case. */
  lemma DistinctNamesAreSeparateEntries(m: map<string, ToolResource>, a: ToolResource, b: ToolResource)
    requires a.name != b.name
    ensures var both := Upserted(Upserted(m, a), b);
            Lookup(both, a.name) == Some(a) && Lookup(both, b.name) == Some(b)
            && |both| == |m - {a.name, b.name}| + 2
  {
    var both := Upserted(Upserted(m, a), b);
    assert both.Keys == (m - {a.name, b.name}).Keys + {a.name, b.name};
  }

  /** Unlike the provider's lookup, the store does not ignore case: `tool` and
      `Tool` are equal ignoring case under any fold that maps `t` and `T`
      alike, and yet they are two entries, each found under its own spelling. */
  lemma NamesAreCaseSensitive(m: map<string, ToolResource>, fold: char -> char)
    requires fold('t') == fold('T')
    ensures EqualsIgnoreCase("tool", "Tool", fold)
    ensures var both := Upserted(Upserted(m, ToolResource("tool", "")), ToolResource("Tool", ""));
            Lookup(both, "tool") == Some(ToolResource("tool", "")) &&
            Lookup(both, "Tool") == Some(ToolResource("Tool", ""))
  {
    assert "tool" != "Tool" by { assert "tool"[0] != "Tool"[0]; }
    DistinctNamesAreSeparateEntries(m, ToolResource("tool", ""), ToolResource("Tool", ""));
  }

  // ---------------------------------------------------------------------------
  // The store object

  class InMemoryToolResourceStore {
    /** The dictionary of resources, keyed by name with ordinal comparison. */
    var tools: map<string, ToolResource>

    ghost predicate Valid()
      reads this
    {
      KeyedByName(tools)
    }

    constructor ()
      ensures Valid()
      ensures tools == map[]
    {
      tools := map[];
    }

    /** The resource stored under `name`, or none; the table is not changed. */
    method TryGet(name: string) returns (r: Option<ToolResource>)
      requires Valid()
      ensures r.Some? <==> name in tools
      ensures r.Some? ==> r.value == tools[name] && r.value.name == name
    {
      r := Lookup(tools, name);
    }

    /** Stores `tool` under its name, replacing any earlier entry with that name. */
    method Upsert(tool: ToolResource)
      requires Valid()
      modifies this
      ensures Valid()
      ensures tools == Upserted(old(tools), tool)
    {
      tools := tools[tool.name := tool];
    }

    /** Removes the entry for `name`; an absent name is not an error. */
    method Delete(name: string)
      requires Valid()
      modifies this
      ensures Valid()
      ensures tools == Deleted(old(tools), name)
    {
      tools := tools - {name};
    }

    /** A fresh list of every stored resource, one per name, in no particular order. */
    method List() returns (vs: seq<ToolResource>)
      requires Valid()
      ensures |vs| == |tools|
      ensures forall i :: 0 <= i < |vs| ==> vs[i].name in tools && tools[vs[i].name] == vs[i]
      ensures forall i, j :: 0 <= i < j < |vs| ==> vs[i].name != vs[j].name
      ensures forall k :: k in tools ==> exists i :: 0 <= i < |vs| && vs[i].name == k
    {
      vs := [];
      var pending := tools.Keys;
      while pending != {}
        invariant pending <= tools.Keys
        invariant |vs| + |pending| == |tools|
        invariant forall i :: 0 <= i < |vs| ==> vs[i].name in tools && tools[vs[i].name] == vs[i]
        invariant forall i :: 0 <= i < |vs| ==> vs[i].name !in pending
        invariant forall i, j :: 0 <= i < j < |vs| ==> vs[i].name != vs[j].name
        invariant forall k :: k in tools && k !in pending ==> exists i :: 0 <= i < |vs| && vs[i].name == k
        decreases pending
      {
        var k :| k in pending;
        ghost var listed := vs;
        vs := vs + [tools[k]];
        forall k' | k' in tools && k' !in pending - {k}
          ensures exists i :: 0 <= i < |vs| && vs[i].name == k'
        {
          if k' == k {
            assert vs[|listed|].name == k';
          } else {
            var i :| 0 <= i < |listed| && listed[i].name == k';
            assert vs[i] == listed[i];
          }
        }
        pending := pending - {k};
      }
    }
  }
}
