# Recipe compiler for JSCAD shape recipes, in Dafny

This project models the recipe compiler of a JSCAD-based 3D modelling tool. A caller describes a solid as a JSON "recipe". The recipe is a tree of primitives (cuboid, sphere, cylinder), transforms (translate, rotate, scale) and booleans (union, subtract, intersect).

The compiler:
- validates the document against the recipe schema;
- refuses trees of more than 500 nodes;
- lowers the tree to calls into the geometry kernel, converting rotation angles from degrees to radians;
- measures the bounding box of the result.

The exporter turns the recipe's name into a safe file name and picks the extension and MIME type for STL or OBJ.

Modules, one per component:

- `Wrappers`: `Option` and `Result`.
- `Json`: the untyped input document.
- `RecipeTypes`: the validated recipe (`Node`, `Recipe`, `Vec3`, `Units`) and `WellFormed`. `WellFormed` covers the constraints the schema adds beyond shape: positive radius and height, positive integer segments, and at least one child per boolean.
- `Schema` and `SchemaProperties`: the validator `Validate` / `ValidateNode` and an encoder `Encode`. The encoder is the partner for the round-trip lemmas: every well-formed recipe survives encoding and validation unchanged.
- `NodeCount`: `CountNodes`. It is proved equal to the length of an independent pre-order traversal `Subtrees`.
- `Geometry`: the kernel. A kernel is a record of functions `Kernel<G>`, generic in its geometry type `G`, so no mesh mathematics is assumed. `Call` is a record of kernel calls. `TraceKernel` is the kernel whose geometry is that call record, and `Interpret` replays a record against any kernel.
- `Compiler` and `CompilerProperties`: `BuildNode`, `BuildGeometryFromRecipe`, and the lemmas about them:
  - any kernel's result is the replay of the call tree `Lower(n)`;
  - the call tree reads back into the same recipe (`Decompile`), so every field reaches the kernel and children stay in document order;
  - a rotation is one call with all three angles in radians;
  - a subtraction takes its first child as the base;
  - the guard admits exactly 500 nodes and refuses 501.
- `Pipeline`: validation followed by the build step, as the export tool runs them.
- `Export`: the name sanitiser and the format mapping.

Three points about how the code is organised, which the model follows:
- Validation is not part of the build step. The export tool's input schema validates the document (src/tools/scad.ts:18). `buildGeometryFromRecipe` then only counts, guards, builds and measures. `Pipeline.CompileDocument` composes the two in that order.
- A subtraction is one kernel call, `subtract(first, ...rest)` (src/jscad/recipe.ts:154-157). The model records that single call and leaves what it means to the kernel.
- The schema library collects every issue in a document. The model reports one `Issue`: the first found when fields are checked in declaration order and array items from left to right.

What validation accepts is stated without reference to the validator: `Schema.Describes(j, n)` holds when document `j` names `n`'s shape in `type` and holds each of `n`'s fields under its key, whatever other keys it has. Validation returns `n` exactly when `j` describes `n` and `n` is well-formed (`Schema.ValidateNode` one way, `SchemaProperties.DescribedNodeIsAccepted` the other).

## Model

| member | source | states |
|---|---|---|
| `Schema.Vec3Of` | src/jscad/recipe.ts:4 | a Vec3 is accepted exactly when it is an array of three numbers, and the value read is those three numbers |
| `Schema.RequiredVec3` | src/jscad/recipe.ts:8 | a required Vec3 field (`size`, `offset`, `angles`, `factors`) is accepted exactly when present and three numbers, and the value read is the document's |
| `Schema.OptionalVec3` | src/jscad/recipe.ts:9 | `center` is accepted exactly when absent or three numbers; it is read as present exactly when the document has it, with the document's value |
| `Schema.PositiveNumber` | src/jscad/recipe.ts:14 | a radius or height is accepted exactly when present, numeric and strictly positive, and the value read is that number |
| `Schema.OptionalSegments` | src/jscad/recipe.ts:16 | `segments` is accepted exactly when absent or a positive integer; it is read as present exactly when the document has it, and then as the document's number |
| `Schema.ValidateNode` | src/jscad/recipe.ts:39-64 | every accepted node is well-formed and is described by the document: its `type` names the node's shape, and every field of the node, child included, is the document's value at that key |
| `Schema.ValidateItems` | src/jscad/recipe.ts:46 | accepted children are well-formed, one per array item, and the i-th child is described by the i-th item |
| `Schema.UnitsOf` | src/jscad/recipe.ts:68 | a missing `units` gives mm; a present one is accepted exactly when it is "mm", "cm" or "m", and is read as that unit |
| `Schema.NameOf` | src/jscad/recipe.ts:69 | `name` is optional and accepted exactly when it is a string, which is kept verbatim |
| `Schema.Validate` | src/jscad/recipe.ts:66-71 | an accepted document has version 1; the recipe's units and name are those read from the document, and its root is well-formed and described by the document's `root` |
| `SchemaProperties.DescribedNodeIsAccepted` | src/jscad/recipe.ts:39-64 | every document that describes a well-formed node is accepted and read as that node, whatever undeclared keys it also has |
| `SchemaProperties.DescribedItemsAreAccepted` | src/jscad/recipe.ts:46 | array items that describe well-formed nodes are accepted as those nodes, in order |
| `SchemaProperties.DescribedRecipeIsAccepted` | src/jscad/recipe.ts:66-71 | a version 1 document with valid units and name and a root describing a well-formed tree is accepted as that recipe |
| `SchemaProperties.UnknownKeyIsIgnored` | src/jscad/recipe.ts:6-10 | a key no node shape declares is stripped: the node is read as if the key were absent |
| `SchemaProperties.NodeRoundTrip` | src/jscad/recipe.ts:39-64 | every well-formed node, once encoded, is accepted and read back unchanged |
| `SchemaProperties.RecipeRoundTrip` | src/jscad/recipe.ts:66-71 | every recipe with a well-formed tree is accepted and read back unchanged |
| `SchemaProperties.UnitsDefaultToMm` | src/jscad/recipe.ts:67-68 | a version 1 document without `units` is accepted with units mm |
| `SchemaProperties.AcceptedTypeIsKnown` | src/jscad/recipe.ts:40-63 | an accepted node's `type` is one of the nine discriminants |
| `SchemaProperties.RejectsUnknownType` | src/jscad/recipe.ts:40 | an unknown or missing `type` is refused at the `type` key |
| `SchemaProperties.RejectsEmptyChildren` | src/jscad/recipe.ts:46 | a union, subtract or intersect with an empty `children` array is refused at `children` |
| `SchemaProperties.RejectsNonPositiveSphereRadius` | src/jscad/recipe.ts:14 | a sphere with radius at most 0 is refused at `radius` |
| `SchemaProperties.RejectsNonPositiveCylinder` | src/jscad/recipe.ts:21-22 | a cylinder with height or radius at most 0 is refused |
| `SchemaProperties.RejectsBadSegments` | src/jscad/recipe.ts:16-24 | a sphere or cylinder whose `segments` is present but not a positive integer is refused |
| `SchemaProperties.RejectsWrongVersion` | src/jscad/recipe.ts:67 | a missing `version`, or any version other than 1, is refused at `version` |
| `NodeCount.CountNodes` | src/jscad/recipe.ts:79-100 | every tree counts at least 1 |
| `NodeCount.SumCounts` | src/jscad/recipe.ts:92 | the children's counts, added from 0, are at least the number of children |
| `NodeCount.CountIsNumberOfSubtrees` | src/jscad/recipe.ts:79-100 | the count equals the number of nodes a separate pre-order traversal visits |
| `NodeCount.SumIsNumberOfSubtrees` | src/jscad/recipe.ts:89-92 | the children's summed count equals the number of nodes in all their subtrees |
| `NodeCount.CountExamples` | src/jscad/recipe.ts:81-92 | a cuboid counts 1, a translated cuboid 2, a union of three primitives 4 |
| `Compiler.ToRadians` | src/jscad/recipe.ts:77 | each angle is converted on its own; it has no contract of its own, and `RadiansRoundTrip` and `RotateIsOneCallInRadians` state it |
| `Compiler.BuildNode` | src/jscad/recipe.ts:119-166 | compiles one node; it has no contract of its own: `DecompileLower` and `BuildIsReplayOfCalls` state it |
| `Compiler.BuildEach` | src/jscad/recipe.ts:152-159 | the children compile to one geometry each, in document order |
| `Compiler.BuildGeometryFromRecipe` | src/jscad/recipe.ts:102-117 | it fails exactly when the count exceeds 500, and the error names the count and the limit; on success the count lies in 1..500, the geometry is the compiled root, and the box is that geometry's measured box |
| `CompilerProperties.DecompileLower` | src/jscad/recipe.ts:119-166 | the kernel calls made for a tree read back into that same tree: every field reaches the kernel and children keep their order |
| `CompilerProperties.LowerIsInjective` | src/jscad/recipe.ts:119-166 | two different well-formed trees never make the same kernel calls |
| `CompilerProperties.BuildIsReplayOfCalls` | src/jscad/recipe.ts:119-166 | for any kernel, compiling a tree equals replaying its recorded calls against that kernel |
| `CompilerProperties.RadiansRoundTrip` | src/jscad/recipe.ts:77 | over exact reals, the degrees-to-radians conversion of each angle can be inverted, so two different angles never give the same radians |
| `CompilerProperties.RotateIsOneCallInRadians` | src/jscad/recipe.ts:141-149 | a rotate node makes one kernel rotate call, with the three angles each times PI/180, on the compiled child |
| `CompilerProperties.QuarterTurnAboutX` | src/jscad/recipe.ts:141-149 | rotating by [90, 0, 0] degrees passes [PI/2, 0, 0] radians |
| `CompilerProperties.SubtractTakesFirstChildAsBase` | src/jscad/recipe.ts:154-157 | a subtract passes the first child's geometry as the base and the rest of the children's geometries, in order, as what is removed |
| `CompilerProperties.GuardBoundary` | src/jscad/recipe.ts:107-113 | a 500-node tree is built with count 500; a 501-node tree is refused with count 501 and limit 500 |
| `CompilerProperties.UnitsAreInert` | src/jscad/recipe.ts:102-117 | the build result does not depend on `units` |
| `Pipeline.CompileDocument` | src/tools/scad.ts:17-29 | a document fails validation exactly when the validator refuses it, with the validator's issue; a complexity failure happens exactly to a valid document over 500 nodes, with its count and the limit; a valid document of at most 500 nodes succeeds with its root's geometry, that geometry's box and its count |
| `Pipeline.CompileEncodedRecipe` | src/tools/scad.ts:17-29 | a well-formed recipe of at most 500 nodes, as a document, compiles to its tree's geometry, box and count |
| `Pipeline.OversizedRecipeIsRefused` | src/jscad/recipe.ts:107-113 | a well-formed recipe of more than 500 nodes is refused with its count, after validation passes |
| `Export.Sanitize` | src/jscad/export.ts:21 | the sanitised name holds only `[a-zA-Z0-9._-]`, is no longer than the input, and is empty only if the input is |
| `Export.SafeName` | src/jscad/export.ts:19-21 | the name used for the file is never empty and holds only allowed characters; a non-empty name is sanitised, not replaced |
| `Export.SanitizeKeepsAllowed` | src/jscad/export.ts:21 | a name made only of allowed characters is unchanged |
| `Export.SanitizeIdempotent` | src/jscad/export.ts:21 | sanitising twice equals sanitising once |
| `Export.SanitizeCollapsesRun` | src/jscad/export.ts:21 | a maximal run of disallowed characters becomes a single `_` |
| `Export.SanitizeConcat` | src/jscad/export.ts:21 | sanitising distributes over any split that does not cut a disallowed run, so each maximal run is replaced on its own |
| `Export.SanitizeExample` | src/jscad/export.ts:21 | "a  b" becomes "a_b" |
| `Export.MissingNameIsModel` | src/jscad/export.ts:19-21 | a missing name and an empty name both become "model" |
| `Export.Extension` | src/jscad/export.ts:23-41 | each format has a three-letter extension, and only stl has "stl" |
| `Export.ExportGeometryToFile` | src/jscad/export.ts:16-42 | stl gives extension "stl" and obj gives "obj"; the MIME type is "model/" plus the extension; the file name is the recipe's safe name, then "." and the extension; the bytes are the serializer's output for that format |
| `Export.FormatsAreDistinguished` | src/jscad/export.ts:23-41 | an stl export and an obj export never share extension, MIME type or file name |

## Left out

- The geometry kernel's mathematics (primitives, booleans, transforms, `measureBoundingBox`). These belong to the external `@jscad/modeling` library. The kernel is a parameter `Kernel<G>`, and the box measurement is a parameter `measure`.
- Kernel failures. A kernel call that throws propagates in the source unclassified. Here the kernel functions are total.
- `BuildGeometryFromRecipe` and `BuildNode`: both require a well-formed tree. Their argument type in the source is the schema's output, which is their only producer. An empty `subtract` would otherwise destructure `undefined` as its base.
- `BuildGeometryFromRecipe`: the error carries the count and the limit, not the message text "Recipe too complex: N nodes (max 500 for MVP)".
- Floating point. Numbers are exact reals. `PI` is the shortest decimal that prints as `Math.PI`. The rounding of `Math.PI / 180` and of each product is not modelled, so two nearby angles that round to the same radians in the source stay distinct here.
- Number parsing: the rounding of JSON number literals to doubles, and their overflow to `Infinity`, are not modelled.
- Schema.OptionalSegments: a literal such as `1e400` parses to `Infinity` in the source, which `.int()` refuses; here it is the exact integer 10^400 and is accepted. Likewise a huge `radius` or `height` is a finite positive number here, where the source sees `Infinity`.
- The schema library's other behaviour: it collects all issues rather than the first, and it reports exact issue codes. Issues here are a coarse `IssueKind`.
- The serializers and UTF-8 encoding. The byte payload is a parameter function of geometry and format.
- JavaScript strings are UTF-16. A character outside the Basic Multilingual Plane is two code units to the regular expression and one `char` here. Both are outside the allowed set and fall in the same run, so the result is the same.
- Everything else in src/tools/scad.ts (tool registration, key-value storage, user identity, id generation, base64 and JSON output) and src/types/jscad-io.d.ts (type declarations only). These are I/O and declarations. The saved-recipe index update (prepend, keep 25) is not part of this model.
- The `units` field is read and validated but never applied as a scale factor. The model keeps it inert, and `UnitsAreInert` states that.
