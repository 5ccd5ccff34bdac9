/**
 * The geometry kernel the compiler calls into. Its mesh mathematics is not
 * modelled: a kernel is any collection of functions with the shapes below,
 * and the compiler is generic in the kernel's geometry type G.
 */
module Geometry {
  import opened Wrappers
  import opened RecipeTypes

  /** An axis-aligned bounding box, [[minX, minY, minZ], [maxX, maxY, maxZ]]. */
  datatype BoundingBox = BoundingBox(min: Vec3, max: Vec3)

  /**
   * The kernel operations the compiler uses: three primitive constructors (an
   * absent centre or segment count is passed on as absent, that is, with the
   * key set to undefined), three transforms of one geometry, and the three
   * booleans. `subtract` takes the base and then the geometries to remove.
   */
  datatype Kernel<!G> = Kernel(
    cuboid: (Vec3, Option<Vec3>) -> G,
    sphere: (real, Option<Vec3>, Option<int>) -> G,
    cylinder: (real, real, Option<Vec3>, Option<int>) -> G,
    translate: (Vec3, G) -> G,
    rotate: (Vec3, G) -> G,
    scale: (Vec3, G) -> G,
    union: seq<G> -> G,
    subtract: (G, seq<G>) -> G,
    intersect: seq<G> -> G)

  /** A record of the kernel calls that produced a geometry, with their arguments. */
  datatype Call =
    | MakeCuboid(size: Vec3, center: Option<Vec3>)
    | MakeSphere(radius: real, center: Option<Vec3>, segments: Option<int>)
    | MakeCylinder(height: real, radius: real, center: Option<Vec3>, segments: Option<int>)
    | TranslateBy(offset: Vec3, g: Call)
    | RotateBy(radians: Vec3, g: Call)
    | ScaleBy(factors: Vec3, g: Call)
    | UnionOf(gs: seq<Call>)
    | SubtractFrom(base: Call, rest: seq<Call>)
    | IntersectOf(gs: seq<Call>)

  /** The kernel whose geometry is the call tree itself. */
  function TraceKernel(): Kernel<Call>
  {
    Kernel(
      (size, center) => MakeCuboid(size, center),
      (radius, center, segments) => MakeSphere(radius, center, segments),
      (height, radius, center, segments) => MakeCylinder(height, radius, center, segments),
      (offset, g) => TranslateBy(offset, g),
      (radians, g) => RotateBy(radians, g),
      (factors, g) => ScaleBy(factors, g),
      gs => UnionOf(gs),
      (base, rest) => SubtractFrom(base, rest),
      gs => IntersectOf(gs))
  }

  /** Replays a recorded call tree against a kernel, innermost calls first. */
  function Interpret<G>(k: Kernel<G>, c: Call): G
    decreases c, 1
  {
    match c
    case MakeCuboid(size, center) => k.cuboid(size, center)
    case MakeSphere(radius, center, segments) => k.sphere(radius, center, segments)
    case MakeCylinder(height, radius, center, segments) => k.cylinder(height, radius, center, segments)
    case TranslateBy(offset, g) => k.translate(offset, Interpret(k, g))
    case RotateBy(radians, g) => k.rotate(radians, Interpret(k, g))
    case ScaleBy(factors, g) => k.scale(factors, Interpret(k, g))
    case UnionOf(gs) => k.union(InterpretEach(k, gs))
    case SubtractFrom(base, rest) => k.subtract(Interpret(k, base), InterpretEach(k, rest))
    case IntersectOf(gs) => k.intersect(InterpretEach(k, gs))
  }

  function InterpretEach<G>(k: Kernel<G>, cs: seq<Call>): (gs: seq<G>)
    ensures |gs| == |cs|
    ensures forall i | 0 <= i < |cs| :: gs[i] == Interpret(k, cs[i])
    decreases cs, 0
  {
    if cs == [] then [] else InterpretEach(k, cs[..|cs| - 1]) + [Interpret(k, cs[|cs| - 1])]
  }
}
