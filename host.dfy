/** The slice of the CAD host's automation model that the agent's helpers
    touch: objects and the members they expose, named entity collections
    (`Part.Bodies`, `Part.HybridBodies`) and the editor's selection. */
module Host {
  import opened Wrappers

  /** Members a host object may expose; reading one it lacks raises. */
  datatype Capability = HybridShapeFactory | ShapeFactory | Bodies

  /** An object of the host's object model (a part, a feature, a face),
      known by identity and by the members it exposes. */
  datatype HostObject = HostObject(id: nat, exposes: set<Capability>)

  /** Index of the first occurrence of `name` in `names`. */
  function IndexOf(names: seq<string>, name: string): (r: Option<nat>)
    ensures r.Some? ==> r.value < |names| && names[r.value] == name
    ensures r.Some? ==> forall j :: 0 <= j < r.value ==> names[j] != name
    ensures r.None? <==> name !in names
  {
    if names == [] then None
    else if names[0] == name then Some(0)
    else match IndexOf(names[1..], name)
      case None => None
      case Some(j) => Some(j + 1)
  }

  /** A body or geometrical set: an object whose `Name` can be assigned. */
  class NamedEntity {
    var name: string

    /** What the collection's `Add()` hands back: a new entity carrying a
        host-chosen name, modelled as the empty name. */
    constructor Created()
      ensures name == ""
    {
      name := "";
    }
  }

  /** The names of `es`, in order. */
  function NamesOf(es: seq<NamedEntity>): (r: seq<string>)
    reads es
    ensures |r| == |es|
    ensures forall i :: 0 <= i < |es| ==> r[i] == es[i].name
  {
    if es == [] then [] else [es[0].name] + NamesOf(es[1..])
  }

  lemma NamesOfAppend(es: seq<NamedEntity>, e: NamedEntity)
    ensures NamesOf(es + [e]) == NamesOf(es) + [e.name]
  {
  }

  /** A host collection of named entities (`Bodies`, `HybridBodies`). */
  class EntityCollection {
    var items: seq<NamedEntity>

    constructor ()
      ensures items == []
    {
      items := [];
    }

    function Names(): seq<string>
      reads this, items
    {
      NamesOf(items)
    }

    /** `Item(name)`: the first entity so named, or a failure (the host
        raises) when no entity carries that name. */
    function Item(name: string): (r: Option<NamedEntity>)
      reads this, items
      ensures r.Some? <==> name in Names()
      ensures r.Some? ==> r.value in items && r.value.name == name
      ensures r.Some? ==> r.value == items[IndexOf(Names(), name).value]
    {
      match IndexOf(Names(), name)
      case None => None
      case Some(j) => Some(items[j])
    }

    /** `Add()`: appends one new entity and returns it. */
    method Add() returns (e: NamedEntity)
      modifies this
      ensures fresh(e) && e.name == ""
      ensures items == old(items) + [e]
    {
      e := new NamedEntity.Created();
      items := items + [e];
    }
  }

  /** A part with its two named collections. */
  class Part {
    const bodies: EntityCollection
    const hybridBodies: EntityCollection

    constructor ()
      ensures Valid() && fresh(bodies) && fresh(hybridBodies)
      ensures bodies.items == [] && hybridBodies.items == []
    {
      bodies := new EntityCollection();
      hybridBodies := new EntityCollection();
    }

    /** The two collections are distinct objects. */
    ghost predicate Valid()
      reads this
    {
      bodies != hybridBodies
    }
  }

  /** The editor's selection: an ordered list of host objects. */
  class Selection {
    var items: seq<HostObject>

    constructor ()
      ensures items == []
    {
      items := [];
    }

    method Clear()
      modifies this
      ensures items == []
    {
      items := [];
    }

    method Add(x: HostObject)
      modifies this
      ensures items == old(items) + [x]
    {
      items := items + [x];
    }

    /** `Search(query)`: the selection is replaced by what the host finds;
        the query's evaluation is the host's, so its hits are an input. */
    method Search(hits: seq<HostObject>)
      modifies this
      ensures items == hits
    {
      items := hits;
    }

    /** `Count`: how many objects are selected. */
    function Count(): (n: nat)
      reads this
      ensures n == 0 <==> items == []
    {
      |items|
    }

    /** `Item(i)`, numbered from 1 as in the host's collections: `Item(1)` is
        the first object selected and `Item(Count)` the last. */
    function Item(i: nat): (r: HostObject)
      reads this
      requires 1 <= i <= Count()
      ensures r in items
      ensures i == 1 ==> r == items[0]
      ensures i == Count() ==> r == items[|items| - 1]
    {
      items[i - 1]
    }
  }
}
