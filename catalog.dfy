/** The loaded catalog and the propagator it is screened with.

    `SatelliteAnalyzer.satellites` is a dictionary from object name to its
    category and its propagator handle, kept in load order. The model keeps the
    order and the names; a handle is the name itself, and the propagator is a
    function of the name and of the hour offset from "now" at which the
    object is sampled. */
module Catalog {
  import opened Common

  /** A position in kilometres. */
  datatype Vec3 = Vec3(x: real, y: real, z: real)

  function Sub(a: Vec3, b: Vec3): Vec3
  {
    Vec3(a.x - b.x, a.y - b.y, a.z - b.z)
  }

  /** The ephemeris (`satellite.at(t).position.km` at `t = now + hours`) and
      the Euclidean norm used for distances (`np.linalg.norm`). Both are
      supplied from outside the model. */
  datatype Sky = Sky(position: (string, nat) -> Vec3, norm: Vec3 -> real)

  /** Distance in kilometres between two objects `hours` hours from now. */
  function Distance(sky: Sky, a: string, b: string, hours: nat): real
  {
    sky.norm(Sub(sky.position(a, hours), sky.position(b, hours)))
  }

  /** One catalog entry: its name (the dictionary key) and its category tag. */
  datatype Entry = Entry(name: string, category: string)

  /** `list(self.satellites.keys())`. */
  function Names(catalog: seq<Entry>): (names: seq<string>)
    ensures |names| == |catalog|
    ensures forall i :: 0 <= i < |catalog| ==> names[i] == catalog[i].name
  {
    seq(|catalog|, i requires 0 <= i < |catalog| => catalog[i].name)
  }

  /** The names are dictionary keys, so no name occurs twice. */
  predicate WellFormed(catalog: seq<Entry>)
  {
    Distinct(Names(catalog))
  }
}
