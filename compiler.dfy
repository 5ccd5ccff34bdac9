/**
 * The geometry compiler: lowers a validated node tree to kernel calls,
 * converting rotation angles from degrees to radians, and the build step that
 * guards on the node count before compiling and measuring the result.
 */
module Compiler {
  import opened Wrappers
  import opened RecipeTypes
  import opened NodeCount
  import opened Geometry

  /** The value of `Math.PI`, as a real. */
  const PI: real := 3.141592653589793

  const DEG_TO_RAD: real := PI / 180.0

  /** The largest tree the build step accepts. */
  const MAX_NODES: int := 500

  /** Converts each of the three angles from degrees to radians on its own. */
  function ToRadians(degrees: Vec3): Vec3
  {
    Vec3(degrees.x * DEG_TO_RAD, degrees.y * DEG_TO_RAD, degrees.z * DEG_TO_RAD)
  }

  /**
   * Compiles one node: a primitive is one kernel constructor call with the
   * node's fields; a transform compiles its child and then transforms it; a
   * boolean compiles every child in document order and combines the results,
   * the first child being the base of a subtraction.
   */
  function BuildNode<G>(k: Kernel<G>, n: Node): G
    requires WellFormed(n)
    decreases n, 1
  {
    match n
    case Cuboid(size, center) => k.cuboid(size, center)
    case Sphere(radius, center, segments) => k.sphere(radius, center, segments)
    case Cylinder(height, radius, center, segments) => k.cylinder(height, radius, center, segments)
    case Translate(offset, child) => k.translate(offset, BuildNode(k, child))
    case Rotate(angles, child) => k.rotate(ToRadians(angles), BuildNode(k, child))
    case Scale(factors, child) => k.scale(factors, BuildNode(k, child))
    case Combine(UnionOp, children) => k.union(BuildEach(k, children))
    case Combine(SubtractOp, children) =>
      var gs := BuildEach(k, children);
      k.subtract(gs[0], gs[1..])
    case Combine(IntersectOp, children) => k.intersect(BuildEach(k, children))
  }

  /** Compiles a list of children, one geometry per child, in document order. */
  function BuildEach<G>(k: Kernel<G>, ns: seq<Node>): (gs: seq<G>)
    requires AllWellFormed(ns)
    ensures |gs| == |ns|
    ensures forall i | 0 <= i < |ns| :: gs[i] == BuildNode(k, ns[i])
    decreases ns, 0
  {
    if ns == [] then [] else BuildEach(k, ns[..|ns| - 1]) + [BuildNode(k, ns[|ns| - 1])]
  }

  /** The result of a successful build. */
  datatype Compiled<G> = Compiled(geometry: G, boundingBox: BoundingBox, nodeCount: int)

  /** The build step's own failure: the tree has more nodes than the limit. */
  datatype CompileError = TooComplex(nodeCount: int, limit: int)

  /**
   * Counts the nodes, refuses a tree of more than MAX_NODES nodes without
   * compiling anything, and otherwise compiles the root and measures it.
   */
  function BuildGeometryFromRecipe<G>(k: Kernel<G>, measure: G -> BoundingBox, recipe: Recipe)
    : (r: Result<Compiled<G>, CompileError>)
    requires WellFormed(recipe.root)
    ensures r.Err? <==> CountNodes(recipe.root) > MAX_NODES
    ensures r.Err? ==> r.error == TooComplex(CountNodes(recipe.root), MAX_NODES)
    ensures r.Ok? ==> 1 <= r.value.nodeCount <= MAX_NODES
    ensures r.Ok? ==> r.value.nodeCount == CountNodes(recipe.root)
    ensures r.Ok? ==> r.value.geometry == BuildNode(k, recipe.root)
    ensures r.Ok? ==> r.value.boundingBox == measure(r.value.geometry)
  {
    var nodeCount := CountNodes(recipe.root);
    if nodeCount > MAX_NODES then Err(TooComplex(nodeCount, MAX_NODES))
    else
      var geometry := BuildNode(k, recipe.root);
      Ok(Compiled(geometry, measure(geometry), nodeCount))
  }
}
