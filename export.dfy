/**
 * Exporting a compiled geometry as a file: the recipe's name is made safe for
 * a file name, and the format decides the extension, the MIME type and the
 * file name's suffix. The serializers themselves are a parameter.
 */
module Export {
  import opened Wrappers

  datatype Format = Stl | Obj

  datatype ExportedFile = ExportedFile(extension: string, mime: string, filename: string, bytes: seq<bv8>)

  /** The characters a safe name may keep: ASCII letters and digits, '.', '_' and '-'. */
  predicate AllowedChar(c: char)
  {
    ('a' <= c <= 'z') || ('A' <= c <= 'Z') || ('0' <= c <= '9') || c == '.' || c == '_' || c == '-'
  }

  predicate AllAllowed(s: string)
  {
    forall i | 0 <= i < |s| :: AllowedChar(s[i])
  }

  predicate NoneAllowed(s: string)
  {
    forall i | 0 <= i < |s| :: !AllowedChar(s[i])
  }

  /** The length of the run of disallowed characters at the front of s. */
  function RunLength(s: string): (k: nat)
    ensures k <= |s|
    ensures forall i | 0 <= i < k :: !AllowedChar(s[i])
    ensures k < |s| ==> AllowedChar(s[k])
  {
    if s != [] && !AllowedChar(s[0]) then 1 + RunLength(s[1..]) else 0
  }

  /**
   * Replaces every maximal run of disallowed characters by one '_', scanning
   * left to right as a global regular-expression replace does.
   */
  function Sanitize(s: string): (r: string)
    ensures AllAllowed(r)
    ensures |r| <= |s|
    ensures r == [] <==> s == []
    decreases |s|
  {
    if s == [] then []
    else if AllowedChar(s[0]) then [s[0]] + Sanitize(s[1..])
    else "_" + Sanitize(s[RunLength(s)..])
  }

  /** The name used in the file name: a missing or empty name becomes "model" before sanitising. */
  function SafeName(name: Option<string>): (r: string)
    ensures r != [] && AllAllowed(r)
    ensures name.Some? && name.value != "" ==> r == Sanitize(name.value)
  {
    Sanitize(if name.None? || name.value == "" then "model" else name.value)
  }

  /** The file extension of a format; the two formats never share one. */
  function Extension(format: Format): (e: string)
    ensures |e| == 3
    ensures e == "stl" <==> format == Stl
  {
    match format
    case Stl => "stl"
    case Obj => "obj"
  }

  /**
   * Builds the exported file. `serialize` stands for the format's serializer
   * followed by UTF-8 encoding of the text it produces.
   */
  function ExportGeometryToFile<G>(serialize: (G, Format) -> seq<bv8>, geometry: G, format: Format,
                                   name: Option<string>): (f: ExportedFile)
    ensures (f.extension == "stl" <==> format == Stl) && (f.extension == "obj" <==> format == Obj)
    ensures f.mime == "model/" + f.extension
    ensures AllAllowed(f.filename)
    ensures |f.filename| > |f.extension| + 1
    ensures f.filename[|f.filename| - |f.extension| - 1..] == "." + f.extension
    ensures f.bytes == serialize(geometry, format)
    ensures f.extension == Extension(format) && f.filename == SafeName(name) + "." + f.extension
  {
    var extension := Extension(format);
    ExportedFile(extension, "model/" + extension, SafeName(name) + "." + extension, serialize(geometry, format))
  }

  // ---------------------------------------------------------------------------
  // Properties of the sanitiser

  /** A name made only of allowed characters is left as it is. */
  lemma {:induction false} SanitizeKeepsAllowed(s: string)
    requires AllAllowed(s)
    ensures Sanitize(s) == s
    decreases |s|
  {
    if s != [] {
      SanitizeKeepsAllowed(s[1..]);
    }
  }

  /** Sanitising twice is sanitising once. */
  lemma SanitizeIdempotent(s: string)
    ensures Sanitize(Sanitize(s)) == Sanitize(s)
  {
    SanitizeKeepsAllowed(Sanitize(s));
  }

  /** A non-empty run of disallowed characters, up to an allowed one or the end, becomes one '_'. */
  lemma SanitizeCollapsesRun(run: string, rest: string)
    requires run != [] && NoneAllowed(run)
    requires rest == [] || AllowedChar(rest[0])
    ensures Sanitize(run + rest) == "_" + Sanitize(rest)
  {
    RunLengthOfRun(run, rest);
    assert (run + rest)[|run|..] == rest;
  }

  lemma {:induction false} RunLengthOfRun(run: string, rest: string)
    requires NoneAllowed(run)
    requires rest == [] || AllowedChar(rest[0])
    ensures RunLength(run + rest) == |run|
    decreases |run|
  {
    if run == [] {
      assert run + rest == rest;
    } else {
      assert (run + rest)[1..] == run[1..] + rest;
      RunLengthOfRun(run[1..], rest);
    }
  }

  /**
   * Sanitising distributes over a split that does not cut a run of disallowed
   * characters in two: the replacement is local to each maximal run.
   */
  lemma {:induction false} SanitizeConcat(a: string, b: string)
    requires a == [] || b == [] || AllowedChar(a[|a| - 1]) || AllowedChar(b[0])
    ensures Sanitize(a + b) == Sanitize(a) + Sanitize(b)
    decreases |a|
  {
    if a == [] {
      assert a + b == b;
    } else if b == [] {
      assert a + b == a;
    } else if AllowedChar(a[0]) {
      SanitizeConcat(a[1..], b);
      SanitizeConsAllowed(a, b);
    } else {
      var k := RunLength(a);
      var run, rest := a[..k], a[k..];
      assert a == run + rest;
      assert NoneAllowed(run);
      if rest == [] {
        SanitizeConcatWholeRun(a, b);
      } else {
        SanitizeConcat(rest, b);
        SanitizeRunThenRest(run, rest, b);
      }
    }
  }

  /** The step for a leading allowed character, given the result for the remainder. */
  lemma {:induction false} SanitizeConsAllowed(a: string, b: string)
    requires a != [] && AllowedChar(a[0])
    requires Sanitize(a[1..] + b) == Sanitize(a[1..]) + Sanitize(b)
    ensures Sanitize(a + b) == Sanitize(a) + Sanitize(b)
  {
    assert (a + b)[0] == a[0];
    assert (a + b)[1..] == a[1..] + b;
    assert Sanitize(a + b) == [a[0]] + Sanitize(a[1..] + b);
    assert Sanitize(a) == [a[0]] + Sanitize(a[1..]);
    ConcatAssoc([a[0]], Sanitize(a[1..]), Sanitize(b));
  }

  /** The step for a leading run followed by an allowed character, given the result for the rest. */
  lemma {:induction false} SanitizeRunThenRest(run: string, rest: string, b: string)
    requires run != [] && NoneAllowed(run)
    requires rest != [] && AllowedChar(rest[0])
    requires Sanitize(rest + b) == Sanitize(rest) + Sanitize(b)
    ensures Sanitize(run + rest + b) == Sanitize(run + rest) + Sanitize(b)
  {
    assert run + rest + b == run + (rest + b);
    assert (rest + b)[0] == rest[0];
    SanitizeCollapsesRun(run, rest);
    SanitizeCollapsesRun(run, rest + b);
    ConcatAssoc("_", Sanitize(rest), Sanitize(b));
  }

  lemma ConcatAssoc(x: string, p: string, q: string)
    ensures x + (p + q) == (x + p) + q
  {
  }

  lemma {:induction false} SanitizeConcatWholeRun(a: string, b: string)
    requires a != [] && NoneAllowed(a)
    requires b == [] || AllowedChar(a[|a| - 1]) || AllowedChar(b[0])
    ensures Sanitize(a + b) == Sanitize(a) + Sanitize(b)
  {
    assert a + [] == a;
    SanitizeCollapsesRun(a, []);
    assert Sanitize(a) == "_";
    SanitizeCollapsesRun(a, b);
  }

  /** A missing name and an empty name both become "model". */
  lemma MissingNameIsModel()
    ensures SafeName(None) == "model"
    ensures SafeName(Some("")) == "model"
  {
    SanitizeKeepsAllowed("model");
  }

  /** The two formats never share an extension, a MIME type or a file name. */
  lemma FormatsAreDistinguished<G>(serialize: (G, Format) -> seq<bv8>, g1: G, g2: G,
                                   n1: Option<string>, n2: Option<string>)
    ensures var f1 := ExportGeometryToFile(serialize, g1, Stl, n1);
            var f2 := ExportGeometryToFile(serialize, g2, Obj, n2);
            f1.extension != f2.extension && f1.mime != f2.mime && f1.filename != f2.filename
  {
    var f1 := ExportGeometryToFile(serialize, g1, Stl, n1);
    var f2 := ExportGeometryToFile(serialize, g2, Obj, n2);
    assert f1.mime[6] == 's' && f2.mime[6] == 'o';
    assert f1.filename[|f1.filename| - 1] == 'l' && f2.filename[|f2.filename| - 1] == 'j';
  }

  /** A run of two spaces between allowed characters becomes one '_'. */
  lemma SanitizeExample()
    ensures Sanitize("a  b") == "a_b"
  {
    SanitizeCollapsesRun("  ", "b");
    assert "a  b"[1..] == "  " + "b";
    SanitizeKeepsAllowed("b");
  }
}
