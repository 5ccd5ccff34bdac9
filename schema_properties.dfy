/**
 * What the recipe schema accepts and rejects: every well-formed recipe
 * survives encoding and validation unchanged, `units` defaults to mm, and the
 * malformed documents the schema exists to stop are refused.
 */
module SchemaProperties {
  import opened Wrappers
  import opened Json
  import opened RecipeTypes
  import opened Schema

  // ---------------------------------------------------------------------------
  // Validation accepts exactly what a document describes

  /**
   * A document that describes a well-formed node is accepted, and read as
   * that node. Together with `ValidateNode`'s own contract, validation
   * returns n exactly when the document describes n and n is well-formed.
   */
  lemma {:induction false} DescribedNodeIsAccepted(j: Json, n: Node, path: Path)
    requires WellFormed(n) && Describes(j, n)
    ensures ValidateNode(j, path) == Ok(n)
    decreases n, 1
  {
    match n
    case Cuboid(_, _) => DescribedPrimitiveIsAccepted(j, n, path);
    case Sphere(_, _, _) => DescribedPrimitiveIsAccepted(j, n, path);
    case Cylinder(_, _, _, _) => DescribedPrimitiveIsAccepted(j, n, path);
    case Combine(_, children) =>
      DescribedItemsAreAccepted(j.fields["children"].items, children, path + [Key("children")]);
      DescribedCombineIsAccepted(j, n, path);
    case Translate(_, child) =>
      DescribedNodeIsAccepted(j.fields["child"], child, path + [Key("child")]);
      DescribedTransformIsAccepted(j, n, path);
    case Rotate(_, child) =>
      DescribedNodeIsAccepted(j.fields["child"], child, path + [Key("child")]);
      DescribedTransformIsAccepted(j, n, path);
    case Scale(_, child) =>
      DescribedNodeIsAccepted(j.fields["child"], child, path + [Key("child")]);
      DescribedTransformIsAccepted(j, n, path);
  }

  lemma {:induction false} DescribedPrimitiveIsAccepted(j: Json, n: Node, path: Path)
    requires n.Cuboid? || n.Sphere? || n.Cylinder?
    requires WellFormed(n) && Describes(j, n)
    ensures ValidateNode(j, path) == Ok(n)
  {
    match n
    case Cuboid(_, _) => assert j.fields["type"] == JStr("cuboid");
    case Sphere(_, _, _) => assert j.fields["type"] == JStr("sphere");
    case Cylinder(_, _, _, _) => assert j.fields["type"] == JStr("cylinder");
  }

  /** One combinator step, given that its children are already accepted. */
  lemma {:induction false} DescribedCombineIsAccepted(j: Json, n: Node, path: Path)
    requires n.Combine? && WellFormed(n) && Describes(j, n)
    requires ValidateItems(j.fields["children"].items, path + [Key("children")]) == Ok(n.children)
    ensures ValidateNode(j, path) == Ok(n)
  {
    match n.op
    case UnionOp => assert j.fields["type"] == JStr("union");
    case SubtractOp => assert j.fields["type"] == JStr("subtract");
    case IntersectOp => assert j.fields["type"] == JStr("intersect");
  }

  /** One translate, rotate or scale step, given that its child is already accepted. */
  lemma {:induction false} DescribedTransformIsAccepted(j: Json, n: Node, path: Path)
    requires (n.Translate? || n.Rotate? || n.Scale?) && Describes(j, n)
    requires ValidateNode(j.fields["child"], path + [Key("child")]) == Ok(n.child)
    ensures ValidateNode(j, path) == Ok(n)
  {
    match n
    case Translate(_, _) => assert j.fields["type"] == JStr("translate");
    case Rotate(_, _) => assert j.fields["type"] == JStr("rotate");
    case Scale(_, _) => assert j.fields["type"] == JStr("scale");
  }

  /** Items that describe well-formed nodes are accepted as those nodes, in order. */
  lemma {:induction false} DescribedItemsAreAccepted(items: seq<Json>, ns: seq<Node>, path: Path)
    requires AllWellFormed(ns) && DescribesEach(items, ns)
    ensures ValidateItems(items, path) == Ok(ns)
    decreases ns, 0
  {
    if ns != [] {
      var k := |ns| - 1;
      assert AllWellFormed(ns[..k]) && DescribesEach(items[..k], ns[..k]) by {
        forall i | 0 <= i < k
          ensures WellFormed(ns[..k][i]) && Describes(items[..k][i], ns[..k][i])
        {
          assert ns[..k][i] == ns[i] && items[..k][i] == items[i];
        }
      }
      DescribedItemsAreAccepted(items[..k], ns[..k], path);
      DescribedNodeIsAccepted(items[k], ns[k], path + [Index(k)]);
      assert ValidateItems(items, path) == Ok(ns[..k] + [ns[k]]);
      assert ns[..k] + [ns[k]] == ns;
    }
  }

  /** A document with version 1, valid units and name, and a root describing a well-formed tree is accepted. */
  lemma DescribedRecipeIsAccepted(j: Json, r: Recipe)
    requires j.JObj? && "version" in j.fields && j.fields["version"] == JNum(1.0)
    requires UnitsOf(j.fields) == Ok(r.units) && NameOf(j.fields) == Ok(r.name)
    requires "root" in j.fields && Describes(j.fields["root"], r.root) && WellFormed(r.root)
    ensures Validate(j) == Ok(r)
  {
    DescribedNodeIsAccepted(j.fields["root"], r.root, [Key("root")]);
  }

  /** The keys a node shape may declare; any other key is stripped. */
  const NodeKeys: set<string> :=
    {"type", "size", "center", "radius", "height", "segments", "children", "offset", "angles", "factors", "child"}

  /** An undeclared key in a node is ignored: the node is read as if it were absent. */
  lemma UnknownKeyIsIgnored(n: Node, key: string, v: Json, path: Path)
    requires WellFormed(n) && key !in NodeKeys
    ensures ValidateNode(JObj(EncodeNode(n).fields[key := v]), path) == Ok(n)
  {
    EncodeDescribes(n);
    DescribedNodeIsAccepted(JObj(EncodeNode(n).fields[key := v]), n, path);
  }

  // ---------------------------------------------------------------------------
  // Encoding round trips

  /** The encoder writes a document that describes the node it encodes. */
  lemma {:induction false} EncodeDescribes(n: Node)
    ensures Describes(EncodeNode(n), n)
    decreases n, 1
  {
    match n
    case Cuboid(_, _) =>
    case Sphere(_, _, _) =>
    case Cylinder(_, _, _, _) =>
    case Combine(_, children) => EncodeDescribesEach(children);
    case Translate(_, child) => EncodeDescribes(child);
    case Rotate(_, child) => EncodeDescribes(child);
    case Scale(_, child) => EncodeDescribes(child);
  }

  lemma {:induction false} EncodeDescribesEach(ns: seq<Node>)
    ensures DescribesEach(EncodeItems(ns), ns)
    decreases ns, 0
  {
    forall i | 0 <= i < |ns|
      ensures Describes(EncodeItems(ns)[i], ns[i])
    {
      EncodeDescribes(ns[i]);
    }
  }

  /** Validation inverts encoding on every well-formed node. */
  lemma NodeRoundTrip(n: Node, path: Path)
    requires WellFormed(n)
    ensures ValidateNode(EncodeNode(n), path) == Ok(n)
  {
    EncodeDescribes(n);
    DescribedNodeIsAccepted(EncodeNode(n), n, path);
  }

  /** Every recipe whose tree is well-formed is accepted, and validation returns it unchanged. */
  lemma RecipeRoundTrip(r: Recipe)
    requires WellFormed(r.root)
    ensures Validate(Encode(r)) == Ok(r)
  {
    NodeRoundTrip(r.root, [Key("root")]);
  }

  /** Version 1 without a `units` key is accepted, with units mm. */
  lemma UnitsDefaultToMm(r: Recipe)
    requires WellFormed(r.root)
    ensures Validate(JObj(Encode(r).fields - {"units"})) == Ok(r.(units := Mm))
  {
    NodeRoundTrip(r.root, [Key("root")]);
  }

  /** Every node the validator accepts carries one of the nine known discriminants. */
  lemma AcceptedTypeIsKnown(j: Json, path: Path)
    requires ValidateNode(j, path).Ok?
    ensures j.fields["type"].s in NodeTypeNames
  {
    match ValidateNode(j, path).value
    case Cuboid(_, _) =>
    case Sphere(_, _, _) =>
    case Cylinder(_, _, _, _) =>
    case Combine(_, _) =>
    case Translate(_, _) =>
    case Rotate(_, _) =>
    case Scale(_, _) =>
  }

  /** An unknown or missing discriminant is refused at the `type` key. */
  lemma RejectsUnknownType(j: Json, path: Path)
    requires j.JObj?
    requires !("type" in j.fields && j.fields["type"].JStr? && j.fields["type"].s in NodeTypeNames)
    ensures ValidateNode(j, path) == Err(Issue(path + [Key("type")], UnknownType))
  {
  }

  /** A union, subtract or intersect with an empty `children` array is refused. */
  lemma RejectsEmptyChildren(j: Json, path: Path)
    requires j.JObj? && "type" in j.fields
    requires j.fields["type"] == JStr("union") || j.fields["type"] == JStr("subtract")
          || j.fields["type"] == JStr("intersect")
    requires "children" in j.fields && j.fields["children"] == JArr([])
    ensures ValidateNode(j, path) == Err(Issue(path + [Key("children")], TooFewItems))
  {
  }

  /** A sphere whose radius is zero or negative is refused at `radius`. */
  lemma RejectsNonPositiveSphereRadius(j: Json, path: Path)
    requires j.JObj? && "type" in j.fields && j.fields["type"] == JStr("sphere")
    requires "radius" in j.fields && j.fields["radius"].JNum? && j.fields["radius"].n <= 0.0
    ensures ValidateNode(j, path) == Err(Issue(path + [Key("radius")], NotPositive))
  {
  }

  /** A cylinder whose height or radius is zero or negative is refused. */
  lemma RejectsNonPositiveCylinder(j: Json, path: Path)
    requires j.JObj? && "type" in j.fields && j.fields["type"] == JStr("cylinder")
    requires || ("height" in j.fields && j.fields["height"].JNum? && j.fields["height"].n <= 0.0)
             || ("radius" in j.fields && j.fields["radius"].JNum? && j.fields["radius"].n <= 0.0)
    ensures ValidateNode(j, path).Err?
  {
  }

  /** A sphere or cylinder whose `segments` is not a positive integer is refused. */
  lemma RejectsBadSegments(j: Json, path: Path)
    requires j.JObj? && "type" in j.fields
    requires j.fields["type"] == JStr("sphere") || j.fields["type"] == JStr("cylinder")
    requires "segments" in j.fields
    requires !(j.fields["segments"].JNum? && IsInteger(j.fields["segments"].n) && j.fields["segments"].n > 0.0)
    ensures ValidateNode(j, path).Err?
  {
  }

  /** A document whose `version` is missing or is not the literal 1 is refused first. */
  lemma RejectsWrongVersion(j: Json)
    requires j.JObj?
    requires "version" !in j.fields || j.fields["version"] != JNum(1.0)
    ensures Validate(j) == Err(Issue([Key("version")], WrongLiteral))
  {
  }
}
