/**
 * The whole compile path as the export tool runs it: the tool's input schema
 * validates the document, then the build step counts, guards, compiles and
 * measures. Each stage runs only if the one before it succeeded.
 */
module Pipeline {
  import opened Wrappers
  import opened Json
  import opened RecipeTypes
  import opened Schema
  import opened SchemaProperties
  import opened NodeCount
  import opened Geometry
  import opened Compiler

  /** A validation failure and a complexity failure are never conflated. */
  datatype PipelineError = Invalid(issue: Issue) | Complexity(error: CompileError)

  function CompileDocument<G>(k: Kernel<G>, measure: G -> BoundingBox, doc: Json)
    : (r: Result<Compiled<G>, PipelineError>)
    ensures Validate(doc).Err? ==> r == Err(Invalid(Validate(doc).error))
    ensures r.Err? && r.error.Complexity? ==>
              Validate(doc).Ok? && CountNodes(Validate(doc).value.root) > MAX_NODES
    ensures r.Ok? ==> Validate(doc).Ok? && r.value.nodeCount == CountNodes(Validate(doc).value.root)
    ensures r.Ok? ==> 1 <= r.value.nodeCount <= MAX_NODES
    ensures r.Err? && r.error.Invalid? ==> Validate(doc).Err?
    ensures Validate(doc).Ok? && CountNodes(Validate(doc).value.root) > MAX_NODES ==>
              r == Err(Complexity(TooComplex(CountNodes(Validate(doc).value.root), MAX_NODES)))
    ensures Validate(doc).Ok? && CountNodes(Validate(doc).value.root) <= MAX_NODES ==>
              && r.Ok?
              && r.value.geometry == BuildNode(k, Validate(doc).value.root)
              && r.value.boundingBox == measure(r.value.geometry)
  {
    match Validate(doc)
    case Err(issue) => Err(Invalid(issue))
    case Ok(recipe) =>
      match BuildGeometryFromRecipe(k, measure, recipe)
      case Err(e) => Err(Complexity(e))
      case Ok(compiled) => Ok(compiled)
  }

  /**
   * A well-formed recipe of at most MAX_NODES nodes, written as a document,
   * compiles to the kernel's geometry for its tree, that geometry's bounding
   * box, and its node count.
   */
  lemma CompileEncodedRecipe<G>(k: Kernel<G>, measure: G -> BoundingBox, recipe: Recipe)
    requires WellFormed(recipe.root) && CountNodes(recipe.root) <= MAX_NODES
    ensures CompileDocument(k, measure, Encode(recipe))
         == Ok(Compiled(BuildNode(k, recipe.root), measure(BuildNode(k, recipe.root)), CountNodes(recipe.root)))
  {
    RecipeRoundTrip(recipe);
  }

  /** A well-formed recipe of more than MAX_NODES nodes is refused after validation, with its count. */
  lemma OversizedRecipeIsRefused<G>(k: Kernel<G>, measure: G -> BoundingBox, recipe: Recipe)
    requires WellFormed(recipe.root) && CountNodes(recipe.root) > MAX_NODES
    ensures CompileDocument(k, measure, Encode(recipe))
         == Err(Complexity(TooComplex(CountNodes(recipe.root), MAX_NODES)))
  {
    RecipeRoundTrip(recipe);
  }
}
