/**
 * What the compiler does with each node: every kernel result is the replay of
 * one call tree, that call tree keeps every field of the recipe (it can be
 * read back into the same tree), rotations become one call with all three
 * angles in radians, and a subtraction takes its first child as the base.
 */
module CompilerProperties {
  import opened Wrappers
  import opened RecipeTypes
  import opened NodeCount
  import opened Geometry
  import opened Compiler

  /** The kernel calls the compiler makes for a tree. */
  function Lower(n: Node): Call
    requires WellFormed(n)
  {
    BuildNode(TraceKernel(), n)
  }

  function ToDegrees(radians: Vec3): Vec3
  {
    Vec3(radians.x / DEG_TO_RAD, radians.y / DEG_TO_RAD, radians.z / DEG_TO_RAD)
  }

  /** Reads a call tree back as the node tree that would make those calls. */
  function Decompile(c: Call): Node
    decreases c, 1
  {
    match c
    case MakeCuboid(size, center) => Cuboid(size, center)
    case MakeSphere(radius, center, segments) => Sphere(radius, center, segments)
    case MakeCylinder(height, radius, center, segments) => Cylinder(height, radius, center, segments)
    case TranslateBy(offset, g) => Translate(offset, Decompile(g))
    case RotateBy(radians, g) => Rotate(ToDegrees(radians), Decompile(g))
    case ScaleBy(factors, g) => Scale(factors, Decompile(g))
    case UnionOf(gs) => Combine(UnionOp, DecompileEach(gs))
    case SubtractFrom(base, rest) => Combine(SubtractOp, [Decompile(base)] + DecompileEach(rest))
    case IntersectOf(gs) => Combine(IntersectOp, DecompileEach(gs))
  }

  function DecompileEach(cs: seq<Call>): (ns: seq<Node>)
    ensures |ns| == |cs|
    ensures forall i | 0 <= i < |cs| :: ns[i] == Decompile(cs[i])
    decreases cs, 0
  {
    if cs == [] then [] else DecompileEach(cs[..|cs| - 1]) + [Decompile(cs[|cs| - 1])]
  }

  /** Converting to radians loses nothing: each angle can be recovered. */
  lemma RadiansRoundTrip(degrees: Vec3)
    ensures ToDegrees(ToRadians(degrees)) == degrees
  {
  }

  /**
   * The compiler passes every field of the recipe to the kernel and keeps the
   * children in document order: the calls it makes determine the tree.
   */
  lemma {:induction false} DecompileLower(n: Node)
    requires WellFormed(n)
    ensures Decompile(Lower(n)) == n
    decreases n, 1
  {
    match n
    case Cuboid(_, _) =>
    case Sphere(_, _, _) =>
    case Cylinder(_, _, _, _) =>
    case Translate(_, child) =>
      DecompileLower(child);
      DecompileTransform(n);
    case Rotate(angles, child) =>
      DecompileLower(child);
      DecompileTransform(n);
    case Scale(_, child) =>
      DecompileLower(child);
      DecompileTransform(n);
    case Combine(op, children) =>
      forall i | 0 <= i < |children|
        ensures Decompile(Lower(children[i])) == children[i]
      {
        DecompileLower(children[i]);
      }
      DecompileCombine(op, children);
  }

  /** One translate, rotate or scale step, given that its child already reads back. */
  lemma {:induction false} DecompileTransform(n: Node)
    requires (n.Translate? || n.Rotate? || n.Scale?) && WellFormed(n)
    requires Decompile(Lower(n.child)) == n.child
    ensures Decompile(Lower(n)) == n
  {
    if n.Rotate? {
      RadiansRoundTrip(n.angles);
    }
  }

  /** One boolean step, given that its children already read back. */
  lemma {:induction false} DecompileCombine(op: BoolOp, children: seq<Node>)
    requires |children| > 0 && AllWellFormed(children)
    requires forall i | 0 <= i < |children| :: Decompile(Lower(children[i])) == children[i]
    ensures WellFormed(Combine(op, children))
    ensures Decompile(Lower(Combine(op, children))) == Combine(op, children)
  {
    var calls := BuildEach(TraceKernel(), children);
    if op == SubtractOp {
      assert Lower(Combine(op, children)) == SubtractFrom(calls[0], calls[1..]);
      var back := [Decompile(calls[0])] + DecompileEach(calls[1..]);
      forall i | 0 <= i < |children|
        ensures back[i] == children[i]
      {
        if i > 0 {
          assert back[i] == DecompileEach(calls[1..])[i - 1];
        }
      }
      assert back == children;
    } else {
      assert DecompileEach(calls) == children;
    }
  }

  /** Two well-formed trees that make the same kernel calls are the same tree. */
  lemma {:induction false} LowerIsInjective(m: Node, n: Node)
    requires WellFormed(m) && WellFormed(n)
    requires Lower(m) == Lower(n)
    ensures m == n
  {
    DecompileLower(m);
    DecompileLower(n);
  }

  /**
   * Whatever the kernel, compiling a tree gives the same geometry as replaying
   * the recorded calls against that kernel.
   */
  lemma {:induction false} BuildIsReplayOfCalls<G>(k: Kernel<G>, n: Node)
    requires WellFormed(n)
    ensures BuildNode(k, n) == Interpret(k, Lower(n))
    decreases n, 1
  {
    match n
    case Cuboid(_, _) =>
    case Sphere(_, _, _) =>
    case Cylinder(_, _, _, _) =>
    case Translate(_, child) => BuildIsReplayOfCalls(k, child);
    case Rotate(_, child) => BuildIsReplayOfCalls(k, child);
    case Scale(_, child) => BuildIsReplayOfCalls(k, child);
    case Combine(_, children) =>
      BuildEachIsReplay(k, children);
      ReplayCombine(k, n);
  }

  /** One boolean step, given that its children already compile to the replay of their calls. */
  lemma {:induction false} ReplayCombine<G>(k: Kernel<G>, n: Node)
    requires n.Combine? && WellFormed(n)
    requires BuildEach(k, n.children) == InterpretEach(k, BuildEach(TraceKernel(), n.children))
    ensures BuildNode(k, n) == Interpret(k, Lower(n))
  {
    var calls := BuildEach(TraceKernel(), n.children);
    var gs := BuildEach(k, n.children);
    match n.op
    case UnionOp =>
      assert Lower(n) == UnionOf(calls);
    case IntersectOp =>
      assert Lower(n) == IntersectOf(calls);
    case SubtractOp =>
      assert Lower(n) == SubtractFrom(calls[0], calls[1..]);
      assert InterpretEach(k, calls[1..]) == gs[1..];
      assert BuildNode(k, n) == k.subtract(gs[0], gs[1..]);
  }

  lemma {:induction false} BuildEachIsReplay<G>(k: Kernel<G>, ns: seq<Node>)
    requires AllWellFormed(ns)
    ensures BuildEach(k, ns) == InterpretEach(k, BuildEach(TraceKernel(), ns))
    decreases ns, 0
  {
    forall i | 0 <= i < |ns|
      ensures BuildEach(k, ns)[i] == InterpretEach(k, BuildEach(TraceKernel(), ns))[i]
    {
      BuildIsReplayOfCalls(k, ns[i]);
    }
  }

  /**
   * A subtraction passes the first child's geometry as the base and the
   * geometries of the remaining children, in document order, as what is removed.
   */
  lemma {:induction false} SubtractTakesFirstChildAsBase<G>(k: Kernel<G>, children: seq<Node>)
    requires |children| > 0 && AllWellFormed(children)
    ensures WellFormed(Combine(SubtractOp, children)) && AllWellFormed(children[1..])
    ensures BuildNode(k, Combine(SubtractOp, children))
         == k.subtract(BuildNode(k, children[0]), BuildEach(k, children[1..]))
  {
    assert BuildEach(k, children)[1..] == BuildEach(k, children[1..]);
  }

  /** A rotation is a single kernel call with all three angles in radians, applied to the compiled child. */
  lemma {:induction false} RotateIsOneCallInRadians<G>(k: Kernel<G>, angles: Vec3, child: Node)
    requires WellFormed(child)
    ensures Lower(Rotate(angles, child)) == RotateBy(ToRadians(angles), Lower(child))
    ensures ToDegrees(Lower(Rotate(angles, child)).radians) == angles
    ensures BuildNode(k, Rotate(angles, child)) == k.rotate(ToRadians(angles), BuildNode(k, child))
  {
    RadiansRoundTrip(angles);
  }

  /** A rotation of 90 degrees about X is a quarter turn, PI / 2 radians, and nothing about Y or Z. */
  lemma QuarterTurnAboutX(child: Node)
    requires WellFormed(child)
    ensures Lower(Rotate(Vec3(90.0, 0.0, 0.0), child)) == RotateBy(Vec3(PI / 2.0, 0.0, 0.0), Lower(child))
  {
  }

  /** A tree of `height` nodes: a cuboid under height - 1 translations. */
  function Tower(height: nat): (t: Node)
    requires height >= 1
    ensures WellFormed(t)
    ensures CountNodes(t) == height
  {
    if height == 1 then Cuboid(Vec3(1.0, 1.0, 1.0), None)
    else Translate(Vec3(0.0, 0.0, 1.0), Tower(height - 1))
  }

  /** A tree of exactly 500 nodes is built; one of 501 is refused, naming 501. */
  lemma GuardBoundary<G>(k: Kernel<G>, measure: G -> BoundingBox, units: Units, name: Option<string>)
    ensures BuildGeometryFromRecipe(k, measure, Recipe(units, name, Tower(500))).Ok?
    ensures BuildGeometryFromRecipe(k, measure, Recipe(units, name, Tower(500))).value.nodeCount == 500
    ensures BuildGeometryFromRecipe(k, measure, Recipe(units, name, Tower(501))) == Err(TooComplex(501, 500))
  {
  }

  /** The declared units never reach the compiler: the build is the same for mm, cm and m. */
  lemma UnitsAreInert<G>(k: Kernel<G>, measure: G -> BoundingBox, recipe: Recipe, units: Units)
    requires WellFormed(recipe.root)
    ensures BuildGeometryFromRecipe(k, measure, recipe.(units := units))
         == BuildGeometryFromRecipe(k, measure, recipe)
  {
  }
}
