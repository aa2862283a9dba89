/**
 * The part of PyChrono the loader touches, reduced to what it records: a
 * system that accumulates bodies and links (`system.Add`), each described by
 * the values the loader set on it.
 */
module Chrono {
  import opened Wrappers

  datatype Vec3 = Vec3(x: real, y: real, z: real)

  /**
   * A body as configured by the loader. A `None` means that the setter
   * (`SetMass`, `SetPos`, `SetInertiaXX`) was never called, so the engine's
   * own default stays in force.
   */
  datatype BodySpec = BodySpec(
    name: string,
    mass: Option<real>,
    pos: Option<Vec3>,
    inertia: Option<Vec3>,
    collide: bool,
    fixed: bool)

  /** The values a new `ChBody` starts with. */
  const DefaultMass: real := 1.0
  const DefaultInertia: Vec3 := Vec3(1.0, 1.0, 1.0)

  /** The constraint classes the loader creates: lock-revolute, lock-lock and lock-prismatic links. */
  datatype LinkKind = Revolute | Lock | Prismatic

  /** A link between the bodies at positions `body1` and `body2` of the system, placed at `origin`. */
  datatype LinkSpec = LinkSpec(kind: LinkKind, body1: nat, body2: nat, origin: Vec3, name: string)

  /** A simulation system: the bodies and links added to it, in the order they were added. */
  class ChSystem {
    var gravity: Option<Vec3>
    var bodies: seq<BodySpec>
    var links: seq<LinkSpec>

    /** Every link connects two bodies of this system. */
    ghost predicate Valid()
      reads this
    {
      forall i :: 0 <= i < |links| ==> links[i].body1 < |bodies| && links[i].body2 < |bodies|
    }

    constructor ()
      ensures Valid()
      ensures gravity == None && bodies == [] && links == []
    {
      gravity := None;
      bodies := [];
      links := [];
    }

    method SetGravity(g: Vec3)
      modifies this
      ensures gravity == Some(g)
      ensures bodies == old(bodies) && links == old(links)
    {
      gravity := Some(g);
    }

    /** Adds a body; its handle is its position in `bodies`. */
    method AddBody(b: BodySpec) returns (handle: nat)
      requires Valid()
      modifies this
      ensures Valid()
      ensures bodies == old(bodies) + [b] && handle == |old(bodies)|
      ensures links == old(links) && gravity == old(gravity)
    {
      handle := |bodies|;
      bodies := bodies + [b];
    }

    method AddLink(l: LinkSpec)
      requires Valid()
      requires l.body1 < |bodies| && l.body2 < |bodies|
      modifies this
      ensures Valid()
      ensures links == old(links) + [l]
      ensures bodies == old(bodies) && gravity == old(gravity)
    {
      links := links + [l];
    }
  }
}
