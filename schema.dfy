/**
 * The recipe schema: a validator from an untyped JSON value to a typed
 * `Recipe`, written as recursive descent over the node grammar, and an encoder
 * that writes a recipe back as a document the validator accepts.
 */
module Schema {
  import opened Wrappers
  import opened Json
  import opened RecipeTypes

  /** A step into a document: an object key or an array index. */
  datatype PathSegment = Key(key: string) | Index(index: nat)

  type Path = seq<PathSegment>

  datatype IssueKind =
    | ExpectedObject
    | ExpectedArray
    | ExpectedNumber
    | ExpectedString
    | WrongLength   // a Vec3 that is not exactly three items long
    | UnknownType   // a `type` discriminant naming no node shape
    | WrongLiteral  // `version` other than the literal 1
    | NotInEnum     // `units` other than mm, cm or m
    | NotPositive
    | NotInteger
    | TooFewItems   // an empty `children` array

  /** The first mismatch found, in field declaration order, and where it is. */
  datatype Issue = Issue(path: Path, kind: IssueKind)

  /** Every discriminant the node schema accepts. */
  const NodeTypeNames: set<string> :=
    {"cuboid", "sphere", "cylinder", "union", "subtract", "intersect", "translate", "rotate", "scale"}

  predicate IsInteger(x: real)
  {
    x.Floor as real == x
  }

  // ---------------------------------------------------------------------------
  // Encoding a typed recipe as a document

  function EncodeVec3(v: Vec3): Json
  {
    JArr([JNum(v.x), JNum(v.y), JNum(v.z)])
  }

  /** Adds an optional Vec3 field; an absent value leaves the key out. */
  function WithVec3(f: map<string, Json>, key: string, v: Option<Vec3>): map<string, Json>
  {
    if v.Some? then f[key := EncodeVec3(v.value)] else f
  }

  function WithSegments(f: map<string, Json>, segments: Option<int>): map<string, Json>
  {
    if segments.Some? then f["segments" := JNum(segments.value as real)] else f
  }

  function EncodeNode(n: Node): Json
  {
    match n
    case Cuboid(size, center) =>
      JObj(WithVec3(map["type" := JStr(TypeName(n)), "size" := EncodeVec3(size)], "center", center))
    case Sphere(radius, center, segments) =>
      JObj(WithSegments(WithVec3(map["type" := JStr(TypeName(n)), "radius" := JNum(radius)],
                                 "center", center), segments))
    case Cylinder(height, radius, center, segments) =>
      JObj(WithSegments(WithVec3(map["type" := JStr(TypeName(n)), "height" := JNum(height),
                                     "radius" := JNum(radius)], "center", center), segments))
    case Combine(_, children) =>
      JObj(map["type" := JStr(TypeName(n)), "children" := JArr(EncodeItems(children))])
    case Translate(offset, child) =>
      JObj(map["type" := JStr(TypeName(n)), "offset" := EncodeVec3(offset), "child" := EncodeNode(child)])
    case Rotate(angles, child) =>
      JObj(map["type" := JStr(TypeName(n)), "angles" := EncodeVec3(angles), "child" := EncodeNode(child)])
    case Scale(factors, child) =>
      JObj(map["type" := JStr(TypeName(n)), "factors" := EncodeVec3(factors), "child" := EncodeNode(child)])
  }

  function EncodeItems(ns: seq<Node>): (items: seq<Json>)
    ensures |items| == |ns|
    ensures forall i | 0 <= i < |ns| :: items[i] == EncodeNode(ns[i])
  {
    if ns == [] then [] else EncodeItems(ns[..|ns| - 1]) + [EncodeNode(ns[|ns| - 1])]
  }

  /** A recipe as a document: version 1, its units spelled out, `name` only when present. */
  function Encode(r: Recipe): Json
  {
    var f := map["version" := JNum(1.0), "units" := JStr(UnitsName(r.units)), "root" := EncodeNode(r.root)];
    JObj(if r.name.Some? then f["name" := JStr(r.name.value)] else f)
  }

  // ---------------------------------------------------------------------------
  // What a document describes, independently of how it is validated

  /** An array of exactly three numbers. */
  predicate ThreeNumbers(j: Json)
  {
    j.JArr? && |j.items| == 3 && j.items[0].JNum? && j.items[1].JNum? && j.items[2].JNum?
  }

  predicate HasNumber(f: map<string, Json>, key: string, x: real)
  {
    key in f && f[key] == JNum(x)
  }

  predicate HasVec3(f: map<string, Json>, key: string, v: Vec3)
  {
    key in f && f[key] == EncodeVec3(v)
  }

  /** An optional Vec3 is present in the document exactly when it is present in the node. */
  predicate HasOptionalVec3(f: map<string, Json>, key: string, v: Option<Vec3>)
  {
    if v.Some? then HasVec3(f, key, v.value) else key !in f
  }

  predicate HasSegments(f: map<string, Json>, segments: Option<int>)
  {
    if segments.Some? then HasNumber(f, "segments", segments.value as real) else "segments" !in f
  }

  /**
   * The document j holds the node n: its `type` names n's shape and every
   * field of n is found under its key. Keys the shape does not declare may be
   * present and say nothing.
   */
  predicate Describes(j: Json, n: Node)
    decreases n, 1
  {
    && j.JObj?
    && "type" in j.fields && j.fields["type"] == JStr(TypeName(n))
    && match n
       case Cuboid(size, center) =>
         HasVec3(j.fields, "size", size) && HasOptionalVec3(j.fields, "center", center)
       case Sphere(radius, center, segments) =>
         && HasNumber(j.fields, "radius", radius)
         && HasOptionalVec3(j.fields, "center", center)
         && HasSegments(j.fields, segments)
       case Cylinder(height, radius, center, segments) =>
         && HasNumber(j.fields, "height", height)
         && HasNumber(j.fields, "radius", radius)
         && HasOptionalVec3(j.fields, "center", center)
         && HasSegments(j.fields, segments)
       case Combine(_, children) =>
         "children" in j.fields && j.fields["children"].JArr? && DescribesEach(j.fields["children"].items, children)
       case Translate(offset, child) =>
         HasVec3(j.fields, "offset", offset) && "child" in j.fields && Describes(j.fields["child"], child)
       case Rotate(angles, child) =>
         HasVec3(j.fields, "angles", angles) && "child" in j.fields && Describes(j.fields["child"], child)
       case Scale(factors, child) =>
         HasVec3(j.fields, "factors", factors) && "child" in j.fields && Describes(j.fields["child"], child)
  }

  /** The i-th item holds the i-th node, for every i. */
  predicate DescribesEach(items: seq<Json>, ns: seq<Node>)
    decreases ns, 0
  {
    |items| == |ns| && forall i | 0 <= i < |ns| :: Describes(items[i], ns[i])
  }

  // ---------------------------------------------------------------------------
  // Field validators

  /** A Vec3 is an array of exactly three numbers. */
  function Vec3Of(j: Json, path: Path): (r: Result<Vec3, Issue>)
    ensures r.Ok? <==> ThreeNumbers(j)
    ensures r.Ok? ==> j == EncodeVec3(r.value)
  {
    if !j.JArr? then Err(Issue(path, ExpectedArray))
    else if |j.items| != 3 then Err(Issue(path, WrongLength))
    else if !j.items[0].JNum? then Err(Issue(path + [Index(0)], ExpectedNumber))
    else if !j.items[1].JNum? then Err(Issue(path + [Index(1)], ExpectedNumber))
    else if !j.items[2].JNum? then Err(Issue(path + [Index(2)], ExpectedNumber))
    else Ok(Vec3(j.items[0].n, j.items[1].n, j.items[2].n))
  }

  function RequiredVec3(f: map<string, Json>, key: string, path: Path): (r: Result<Vec3, Issue>)
    ensures r.Ok? <==> key in f && ThreeNumbers(f[key])
    ensures r.Ok? ==> HasVec3(f, key, r.value)
  {
    if key in f then Vec3Of(f[key], path + [Key(key)]) else Err(Issue(path + [Key(key)], ExpectedArray))
  }

  function OptionalVec3(f: map<string, Json>, key: string, path: Path): (r: Result<Option<Vec3>, Issue>)
    ensures r.Ok? <==> key !in f || ThreeNumbers(f[key])
    ensures r.Ok? ==> HasOptionalVec3(f, key, r.value)
  {
    if key !in f then Ok(None)
    else
      var v :- Vec3Of(f[key], path + [Key(key)]);
      Ok(Some(v))
  }

  /** A required number that must be strictly positive (`radius`, `height`). */
  function PositiveNumber(f: map<string, Json>, key: string, path: Path): (r: Result<real, Issue>)
    ensures r.Ok? <==> key in f && f[key].JNum? && f[key].n > 0.0
    ensures r.Ok? ==> f[key] == JNum(r.value)
  {
    if key !in f || !f[key].JNum? then Err(Issue(path + [Key(key)], ExpectedNumber))
    else if f[key].n <= 0.0 then Err(Issue(path + [Key(key)], NotPositive))
    else Ok(f[key].n)
  }

  /** `segments` is optional; when present it is an integer (checked first) and positive. */
  function OptionalSegments(f: map<string, Json>, path: Path): (r: Result<Option<int>, Issue>)
    ensures r.Ok? <==>
      "segments" !in f || (f["segments"].JNum? && IsInteger(f["segments"].n) && f["segments"].n > 0.0)
    ensures r.Ok? ==> ValidSegments(r.value)
    ensures r.Ok? ==> HasSegments(f, r.value)
  {
    if "segments" !in f then Ok(None)
    else
      var j := f["segments"];
      var p := path + [Key("segments")];
      if !j.JNum? then Err(Issue(p, ExpectedNumber))
      else if !IsInteger(j.n) then Err(Issue(p, NotInteger))
      else if j.n <= 0.0 then Err(Issue(p, NotPositive))
      else Ok(Some(j.n.Floor))
  }

  // ---------------------------------------------------------------------------
  // The node grammar

  /**
   * Validates one node: an object whose `type` selects the shape; the shape's
   * fields are then checked in declaration order and unknown keys are ignored.
   */
  function ValidateNode(j: Json, path: Path): (r: Result<Node, Issue>)
    ensures r.Ok? ==> WellFormed(r.value)
    ensures r.Ok? ==> Describes(j, r.value)
    decreases j, 1
  {
    if !j.JObj? then Err(Issue(path, ExpectedObject))
    else
      var f := j.fields;
      var tag := if "type" in f && f["type"].JStr? then f["type"].s else "";
      if tag == "cuboid" then
        var size :- RequiredVec3(f, "size", path);
        var center :- OptionalVec3(f, "center", path);
        Ok(Cuboid(size, center))
      else if tag == "sphere" then
        var radius :- PositiveNumber(f, "radius", path);
        var center :- OptionalVec3(f, "center", path);
        var segments :- OptionalSegments(f, path);
        Ok(Sphere(radius, center, segments))
      else if tag == "cylinder" then
        var height :- PositiveNumber(f, "height", path);
        var radius :- PositiveNumber(f, "radius", path);
        var center :- OptionalVec3(f, "center", path);
        var segments :- OptionalSegments(f, path);
        Ok(Cylinder(height, radius, center, segments))
      else if tag == "union" || tag == "subtract" || tag == "intersect" then
        var op := if tag == "union" then UnionOp else if tag == "subtract" then SubtractOp else IntersectOp;
        var p := path + [Key("children")];
        if "children" !in f || !f["children"].JArr? then Err(Issue(p, ExpectedArray))
        else if |f["children"].items| == 0 then Err(Issue(p, TooFewItems))
        else
          var children :- ValidateItems(f["children"].items, p);
          Ok(Combine(op, children))
      else if tag == "translate" || tag == "rotate" || tag == "scale" then
        var vecKey := if tag == "translate" then "offset" else if tag == "rotate" then "angles" else "factors";
        var v :- RequiredVec3(f, vecKey, path);
        if "child" !in f then Err(Issue(path + [Key("child")], ExpectedObject))
        else
          var child :- ValidateNode(f["child"], path + [Key("child")]);
          Ok(if tag == "translate" then Translate(v, child)
             else if tag == "rotate" then Rotate(v, child)
             else Scale(v, child))
      else Err(Issue(path + [Key("type")], UnknownType))
  }

  /** Validates array items left to right; the first item that fails decides the issue. */
  function ValidateItems(items: seq<Json>, path: Path): (r: Result<seq<Node>, Issue>)
    ensures r.Ok? ==> AllWellFormed(r.value) && DescribesEach(items, r.value)
    decreases items, 0
  {
    if items == [] then Ok([])
    else
      var init :- ValidateItems(items[..|items| - 1], path);
      var last :- ValidateNode(items[|items| - 1], path + [Index(|items| - 1)]);
      Ok(init + [last])
  }

  // ---------------------------------------------------------------------------
  // The top-level recipe

  /** `units` defaults to mm when absent; otherwise it must be one of the three names. */
  function UnitsOf(f: map<string, Json>): (r: Result<Units, Issue>)
    ensures "units" !in f ==> r == Ok(Mm)
    ensures "units" in f ==> (r.Ok? <==> f["units"] in {JStr("mm"), JStr("cm"), JStr("m")})
    ensures r.Ok? && "units" in f ==> f["units"] == JStr(UnitsName(r.value))
  {
    if "units" !in f then Ok(Mm)
    else if f["units"] == JStr("mm") then Ok(Mm)
    else if f["units"] == JStr("cm") then Ok(Cm)
    else if f["units"] == JStr("m") then Ok(M)
    else Err(Issue([Key("units")], NotInEnum))
  }

  function NameOf(f: map<string, Json>): (r: Result<Option<string>, Issue>)
    ensures r.Ok? <==> "name" !in f || f["name"].JStr?
    ensures r.Ok? ==> (r.value.Some? <==> "name" in f)
    ensures r.Ok? && "name" in f ==> f["name"] == JStr(r.value.value)
  {
    if "name" !in f then Ok(None)
    else if f["name"].JStr? then Ok(Some(f["name"].s))
    else Err(Issue([Key("name")], ExpectedString))
  }

  /** Validates a whole recipe document: version, units, name, then the node tree. */
  function Validate(j: Json): (r: Result<Recipe, Issue>)
    ensures r.Ok? ==> WellFormed(r.value.root)
    ensures r.Ok? ==> j.JObj? && "version" in j.fields && j.fields["version"] == JNum(1.0)
    ensures r.Ok? ==> UnitsOf(j.fields) == Ok(r.value.units) && NameOf(j.fields) == Ok(r.value.name)
    ensures r.Ok? ==> "root" in j.fields && Describes(j.fields["root"], r.value.root)
  {
    if !j.JObj? then Err(Issue([], ExpectedObject))
    else
      var f := j.fields;
      if "version" !in f || f["version"] != JNum(1.0) then Err(Issue([Key("version")], WrongLiteral))
      else
        var units :- UnitsOf(f);
        var name :- NameOf(f);
        if "root" !in f then Err(Issue([Key("root")], ExpectedObject))
        else
          var root :- ValidateNode(f["root"], [Key("root")]);
          Ok(Recipe(units, name, root))
  }
}
