/**
 * The validated recipe: the typed value the recipe schema produces, one
 * constructor per node shape of the discriminated union.
 */
module RecipeTypes {
  import opened Wrappers

  /** Three real numbers (x, y, z): a size, a centre, an offset, angles or factors. */
  datatype Vec3 = Vec3(x: real, y: real, z: real)

  /** The three n-ary boolean combinators share one object shape, told apart by `type`. */
  datatype BoolOp = UnionOp | SubtractOp | IntersectOp

  /**
   * A shape node. `center` and `segments` are optional; `Combine` holds the
   * children of a union, subtract or intersect in document order; `Rotate`
   * holds its angles in degrees.
   */
  datatype Node =
    | Cuboid(size: Vec3, center: Option<Vec3>)
    | Sphere(radius: real, center: Option<Vec3>, segments: Option<int>)
    | Cylinder(height: real, radius: real, center: Option<Vec3>, segments: Option<int>)
    | Combine(op: BoolOp, children: seq<Node>)
    | Translate(offset: Vec3, child: Node)
    | Rotate(angles: Vec3, child: Node)
    | Scale(factors: Vec3, child: Node)

  /** The declared length unit. The compiler never reads it. */
  datatype Units = Mm | Cm | M

  /** A top-level recipe; its `version` is the literal 1 and is not stored. */
  datatype Recipe = Recipe(units: Units, name: Option<string>, root: Node)

  /** The discriminant a node is written with in a recipe document. */
  function TypeName(n: Node): string
  {
    match n
    case Cuboid(_, _) => "cuboid"
    case Sphere(_, _, _) => "sphere"
    case Cylinder(_, _, _, _) => "cylinder"
    case Combine(UnionOp, _) => "union"
    case Combine(SubtractOp, _) => "subtract"
    case Combine(IntersectOp, _) => "intersect"
    case Translate(_, _) => "translate"
    case Rotate(_, _) => "rotate"
    case Scale(_, _) => "scale"
  }

  /** The spelling of a unit in a recipe document. */
  function UnitsName(u: Units): string
  {
    match u
    case Mm => "mm"
    case Cm => "cm"
    case M => "m"
  }

  /** `segments`, when present, is a positive integer. */
  predicate ValidSegments(segments: Option<int>)
  {
    segments.None? || segments.value > 0
  }

  /**
   * The constraints the schema puts on a node tree beyond its shape: positive
   * radius and height, positive segments, and at least one child per combinator.
   */
  predicate WellFormed(n: Node)
  {
    match n
    case Cuboid(_, _) => true
    case Sphere(radius, _, segments) => radius > 0.0 && ValidSegments(segments)
    case Cylinder(height, radius, _, segments) =>
      height > 0.0 && radius > 0.0 && ValidSegments(segments)
    case Combine(_, children) => |children| > 0 && AllWellFormed(children)
    case Translate(_, child) => WellFormed(child)
    case Rotate(_, child) => WellFormed(child)
    case Scale(_, child) => WellFormed(child)
  }

  predicate AllWellFormed(ns: seq<Node>)
  {
    forall i | 0 <= i < |ns| :: WellFormed(ns[i])
  }
}
