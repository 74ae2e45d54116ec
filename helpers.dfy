/** The helpers the agent injects into every generated script:
    `require_geoset`, `require_body` (get-or-create a named entity) and
    `get_top_face` (the last planar face of a feature, as a reference). */
module Helpers {
  import opened Wrappers
  import opened Host

  /** The names of a collection after a get-or-create, and the position of
      the entity handed back. */
  datatype Required = Required(names: seq<string>, index: nat)

  /** Get-or-create on the names of a collection: the first entity named
      `name` when there is one; otherwise one new entity named `name` at the
      end. Earlier names are kept and at most one is added. */
  function RequireNamed(names: seq<string>, name: string): (r: Required)
    ensures r.index < |r.names| && r.names[r.index] == name
    ensures names <= r.names && |r.names| <= |names| + 1
    ensures name in names <==> r.names == names
  {
    match IndexOf(names, name)
    case Some(j) => Required(names, j)
    case None => Required(names + [name], |names|)
  }

  /** After a get-or-create, looking the name up finds the entity returned. */
  lemma RequireNamedThenItem(names: seq<string>, name: string)
    ensures IndexOf(RequireNamed(names, name).names, name) == Some(RequireNamed(names, name).index)
  {
  }

  /** Get-or-create is idempotent: repeating it with the same name hands back
      the same position and adds nothing. */
  lemma RequireNamedIdempotent(names: seq<string>, name: string)
    ensures var once := RequireNamed(names, name);
            RequireNamed(once.names, name) == once
  {
  }

  /** Get-or-create for one name does not change which entity any other name
      finds. */
  lemma RequireNamedKeepsOthers(names: seq<string>, name: string, other: string)
    requires other != name
    ensures IndexOf(RequireNamed(names, name).names, other) == IndexOf(names, other)
  {
  }

  /** The shared body of `require_geoset` and `require_body`: `Item(name)`,
      and on failure `Add()` followed by assigning the name. */
  method RequireIn(c: EntityCollection, name: string) returns (e: NamedEntity)
    modifies c
    ensures c.Names() == RequireNamed(old(c.Names()), name).names
    ensures e == c.items[RequireNamed(old(c.Names()), name).index]
    ensures c.items[..old(|c.items|)] == old(c.items)
    ensures name in old(c.Names()) ==> c.items == old(c.items) && Some(e) == old(c.Item(name))
    ensures name !in old(c.Names()) ==> fresh(e) && c.items == old(c.items) + [e]
  {
    var found := c.Item(name);
    if found.Some? {
      e := found.value;
      return;
    }
    ghost var before := c.items;
    e := c.Add();
    e.name := name;
    NamesOfAppend(before, e);
    assert c.items[..|before|] == before;
  }

  /** `require_geoset(part, name)`: get-or-create in the part's geometrical
      sets; the part's bodies are untouched. */
  method RequireGeoset(part: Part, name: string) returns (hb: NamedEntity)
    requires part.Valid()
    modifies part.hybridBodies
    ensures part.hybridBodies.Names() == RequireNamed(old(part.hybridBodies.Names()), name).names
    ensures hb == part.hybridBodies.items[RequireNamed(old(part.hybridBodies.Names()), name).index]
    ensures part.hybridBodies.items[..old(|part.hybridBodies.items|)] == old(part.hybridBodies.items)
    ensures name !in old(part.hybridBodies.Names()) ==> fresh(hb)
    ensures part.bodies.items == old(part.bodies.items)
  {
    hb := RequireIn(part.hybridBodies, name);
  }

  /** `require_body(part, name)`: get-or-create in the part's bodies; the
      part's geometrical sets are untouched. */
  method RequireBody(part: Part, name: string) returns (body: NamedEntity)
    requires part.Valid()
    modifies part.bodies
    ensures part.bodies.Names() == RequireNamed(old(part.bodies.Names()), name).names
    ensures body == part.bodies.items[RequireNamed(old(part.bodies.Names()), name).index]
    ensures part.bodies.items[..old(|part.bodies.items|)] == old(part.bodies.items)
    ensures name !in old(part.bodies.Names()) ==> fresh(body)
    ensures part.hybridBodies.items == old(part.hybridBodies.items)
  {
    body := RequireIn(part.bodies, name);
  }

  /** Two `require_body` calls with one name return the same body, and the
      second adds nothing. */
  method RequireBodyTwice(part: Part, name: string) returns (first: NamedEntity, second: NamedEntity)
    requires part.Valid()
    modifies part.bodies
    ensures first == second
    ensures part.bodies.Names() == RequireNamed(old(part.bodies.Names()), name).names
  {
    first := RequireBody(part, name);
    RequireNamedIdempotent(old(part.bodies.Names()), name);
    second := RequireBody(part, name);
  }

  /** The steps of `get_top_face` that call into the host, any of which may
      raise. */
  datatype TopFaceStep =
    | Attach           // GetActiveObject and ActiveEditor.Selection
    | ParentLookup     // pad.Parent.Parent
    | ClearSelection
    | AddPad
    | SearchFaces      // Search("Topology.Face.Planar,sel")
    | CreateReference  // Item(Count).Value and CreateReferenceFromObject

  /** A reference created in `part` to the host object `target`. */
  datatype Reference = Reference(part: HostObject, target: HostObject)

  /** `get_top_face(pad)`: select the pad, search its planar faces and return
      a reference to the last one found. `part` is what `pad.Parent.Parent`
      yields, `planarFaces` what the host's search finds, and `fault` the
      step that raises, if any; a fault never escapes, it yields no face. */
  method GetTopFace(sel: Selection, pad: HostObject, part: HostObject,
                    planarFaces: seq<HostObject>, fault: Option<TopFaceStep>)
    returns (r: Option<Reference>)
    modifies sel
    ensures r.Some? <==> fault.None? && |planarFaces| > 0
    ensures r.Some? ==> r.value == Reference(part, planarFaces[|planarFaces| - 1])
    ensures fault in {None, Some(CreateReference)} ==> sel.items == planarFaces
    ensures fault == Some(SearchFaces) ==> sel.items == [pad]
    ensures fault == Some(AddPad) ==> sel.items == []
    ensures fault in {Some(Attach), Some(ParentLookup), Some(ClearSelection)} ==> sel.items == old(sel.items)
  {
    r := None;
    if fault == Some(Attach) || fault == Some(ParentLookup) || fault == Some(ClearSelection) {
      return;
    }
    sel.Clear();
    if fault == Some(AddPad) {
      return;
    }
    sel.Add(pad);
    if fault == Some(SearchFaces) {
      return;
    }
    sel.Search(planarFaces);
    assert sel.Count() == |planarFaces|;
    if sel.Count() > 0 {
      if fault.Some? {
        // the one step left that can raise: CreateReference
        return;
      }
      r := Some(Reference(part, sel.Item(sel.Count())));
    }
  }
}
