/** The parts of the Three.js scene graph the loaders touch: vectors, sphere
    geometries, colours, meshes and a scene that meshes are added to. */
module Three {

  /** A THREE.Vector3, with real coordinates. */
  datatype Vec3 = Vec3(x: real, y: real, z: real)

  /** THREE.SphereBufferGeometry(radius, widthSegments, heightSegments). */
  datatype Geometry = Sphere(radius: real, widthSegments: nat, heightSegments: nat)

  /** The colours the loaders assign: THREE.Color 0xff0000, 0x00ff00, 0x0000ff and 0xffffff. */
  datatype Colour = Red | Green | Blue | White

  /** A THREE.Mesh of a sphere geometry and a basic material of one colour. */
  datatype Mesh = Mesh(position: Vec3, geometry: Geometry, colour: Colour)

  function Abs(x: real): (r: real)
    ensures r >= 0.0 && (r == x || r == -x)
  {
    if x < 0.0 then -x else x
  }

  /** Scene coordinates of a propagator vector: y and z swapped (the x-z plane is the
      Earth's equatorial plane), then multiplied by the scale factor. */
  function SwapScale(p: Vec3, scale: real): Vec3
  {
    Vec3(scale * p.x, scale * p.z, scale * p.y)
  }

  /** Swapping back and dividing by a non-zero scale recovers the propagator vector. */
  lemma SwapScaleInverse(p: Vec3, scale: real)
    requires scale != 0.0
    ensures SwapScale(SwapScale(p, scale), 1.0 / scale) == p
  {
    var q := SwapScale(SwapScale(p, scale), 1.0 / scale);
    assert q.x == (p.x * scale) * (1.0 / scale) == p.x * (scale * (1.0 / scale));
    assert q.y == (p.y * scale) * (1.0 / scale) == p.y * (scale * (1.0 / scale));
    assert q.z == (p.z * scale) * (1.0 / scale) == p.z * (scale * (1.0 / scale));
  }

  /** A THREE.Scene, reduced to the list of meshes added to it. */
  class Scene {
    var children: seq<Mesh>

    constructor ()
      ensures children == []
    {
      children := [];
    }

    /** scene.add(mesh): the mesh becomes the last child. */
    method Add(m: Mesh)
      modifies this
      ensures children == old(children) + [m]
    {
      children := children + [m];
    }
  }
}
