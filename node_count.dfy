/**
 * The node counter behind the complexity guard: a leaf counts 1, a unary
 * transform 1 plus its child, a combinator 1 plus the sum of its children.
 */
module NodeCount {
  import opened Wrappers
  import opened RecipeTypes

  function CountNodes(n: Node): (c: int)
    ensures c >= 1
  {
    match n
    case Cuboid(_, _) => 1
    case Sphere(_, _, _) => 1
    case Cylinder(_, _, _, _) => 1
    case Translate(_, child) => 1 + CountNodes(child)
    case Rotate(_, child) => 1 + CountNodes(child)
    case Scale(_, child) => 1 + CountNodes(child)
    case Combine(_, children) => 1 + SumCounts(children)
  }

  /** The children's counts added left to right from 0, as a `reduce` over the array does. */
  function SumCounts(ns: seq<Node>): (s: int)
    ensures s >= |ns|
  {
    if ns == [] then 0 else SumCounts(ns[..|ns| - 1]) + CountNodes(ns[|ns| - 1])
  }

  /** An independent traversal: every node of the tree, in pre-order. */
  function Subtrees(n: Node): seq<Node>
  {
    match n
    case Cuboid(_, _) => [n]
    case Sphere(_, _, _) => [n]
    case Cylinder(_, _, _, _) => [n]
    case Translate(_, child) => [n] + Subtrees(child)
    case Rotate(_, child) => [n] + Subtrees(child)
    case Scale(_, child) => [n] + Subtrees(child)
    case Combine(_, children) => [n] + AllSubtrees(children)
  }

  function AllSubtrees(ns: seq<Node>): seq<Node>
  {
    if ns == [] then [] else Subtrees(ns[0]) + AllSubtrees(ns[1..])
  }

  /** The counter agrees with the number of nodes the traversal visits. */
  lemma {:induction false} CountIsNumberOfSubtrees(n: Node)
    ensures CountNodes(n) == |Subtrees(n)|
    decreases n, 1
  {
    match n
    case Cuboid(_, _) =>
    case Sphere(_, _, _) =>
    case Cylinder(_, _, _, _) =>
    case Translate(_, child) => CountIsNumberOfSubtrees(child);
    case Rotate(_, child) => CountIsNumberOfSubtrees(child);
    case Scale(_, child) => CountIsNumberOfSubtrees(child);
    case Combine(_, children) => SumIsNumberOfSubtrees(children);
  }

  lemma {:induction false} SumIsNumberOfSubtrees(ns: seq<Node>)
    ensures SumCounts(ns) == |AllSubtrees(ns)|
    decreases ns, 0
  {
    if ns != [] {
      var k := |ns| - 1;
      SumIsNumberOfSubtrees(ns[..k]);
      CountIsNumberOfSubtrees(ns[k]);
      AllSubtreesAppend(ns[..k], ns[k]);
      assert ns[..k] + [ns[k]] == ns;
    }
  }

  lemma {:induction false} AllSubtreesAppend(ns: seq<Node>, last: Node)
    ensures AllSubtrees(ns + [last]) == AllSubtrees(ns) + Subtrees(last)
  {
    if ns == [] {
      assert [] + [last] == [last];
    } else {
      assert (ns + [last])[1..] == ns[1..] + [last];
      AllSubtreesAppend(ns[1..], last);
    }
  }

  /** The three counts spelt out as examples: a cuboid, a translated cuboid, a three-way union. */
  lemma CountExamples(size: Vec3, offset: Vec3)
    ensures CountNodes(Cuboid(size, None)) == 1
    ensures CountNodes(Translate(offset, Cuboid(size, None))) == 2
    ensures CountNodes(Combine(UnionOp, [Cuboid(size, None), Sphere(1.0, None, None),
                                         Cylinder(1.0, 1.0, None, None)])) == 4
  {
    var cs := [Cuboid(size, None), Sphere(1.0, None, None), Cylinder(1.0, 1.0, None, None)];
    assert SumCounts(cs[..1]) == 1 by {
      assert cs[..1][..0] == [];
    }
    assert SumCounts(cs[..2]) == 2 by {
      assert cs[..2][..1] == cs[..1];
    }
    assert SumCounts(cs) == 3;
  }
}
