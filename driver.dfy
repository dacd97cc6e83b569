/** modularize(): parses the library modules in a fixed order into the two
    registries, writes a bundle for each module but "common", then writes
    every registered unit and method (gulpfile.js:445-1259). The file
    system and the parser are inputs: each `lib/<module>.js` arrives as its
    text, the comments the parser reported and the top-level statements,
    and each written file is returned, in the order of the writes. */
module Driver {
  import opened Prelude
  import opened Ast
  import opened Sorting
  import opened Namespaces
  import opened Packages
  import opened Operations
  import opened Registry
  import opened Emitter

  /** One parsed library file. */
  datatype SourceFile = SourceFile(text: string, comments: seq<CommentAt>, program: seq<Node>)

  /** The modules in the order they are parsed, and whether each gets a
      bundle package. */
  const MODULES: seq<(string, bool)> := [
    ("common", false), ("regexp", true), ("number", true), ("range", true),
    ("function", true), ("string", true), ("inflections", true),
    ("language", true), ("array", true), ("object", true), ("date", true)]

  /** The modules that get a bundle, in order. */
  const BUNDLED: seq<string> :=
    ["regexp", "number", "range", "function", "string", "inflections", "language", "array", "object", "date"]

  function SourcePath(m: string): string
  {
    "lib/" + m + ".js"
  }

  /** Where writePackage puts a package written under `name`. */
  function PackageFile(name: string, p: Package): string
  {
    PathJoin(PathJoin(NPM_DESTINATION, p.path), name + ".js")
  }

  // ---------------------------------------------------------------------
  // The comment table and namespace ranges of a parsed file.

  /** commentsByEndLine after every comment is reported. */
  function CommentMap(cs: seq<CommentAt>): map<nat, Comment>
  {
    if cs == [] then map[]
    else CommentMap(cs[..|cs| - 1])[cs[|cs| - 1].endLine := cs[|cs| - 1].comment]
  }

  /** Every comment's end line is in the table, and each line holds the
      last comment that ends there. */
  lemma {:induction false} CommentMapLatest(cs: seq<CommentAt>)
    ensures forall i | 0 <= i < |cs| :: cs[i].endLine in CommentMap(cs)
    ensures forall i | 0 <= i < |cs| && (forall j | i < j < |cs| :: cs[j].endLine != cs[i].endLine) ::
      CommentMap(cs)[cs[i].endLine] == cs[i].comment
    decreases |cs|
  {
    if cs != [] {
      var init := cs[..|cs| - 1];
      CommentMapLatest(init);
      assert forall i | 0 <= i < |init| :: init[i] == cs[i];
    }
  }

  /** What parseModule knows once the file is parsed and the last namespace
      range is flushed. */
  function ModuleEnvOf(m: string, file: SourceFile, globals: set<string>): ModuleEnv
  {
    ModuleEnv(m, file.text, globals, TaggedBoundaries(file.comments), CommentMap(file.comments))
  }

  // ---------------------------------------------------------------------
  // The module bundle.

  /** The require line writeModulePackage emits for one method. */
  function BundleLine(p: Package): string
  {
    "require('" + RequirePath(PathJoin(p.path, p.name)) + "');"
  }

  /** The require lines of the methods that belong to module `m`, in
      registry order. */
  function BundleLines(methods: seq<Entry<Package>>, m: string): seq<string>
  {
    if methods == [] then []
    else
      var last := methods[|methods| - 1];
      BundleLines(methods[..|methods| - 1], m) + if last.value.moduleName == m then [BundleLine(last.value)] else []
  }

  /** The bundle has one line for each method of the module and no other. */
  lemma BundleLinesExact(methods: seq<Entry<Package>>, m: string, line: string)
    ensures line in BundleLines(methods, m) <==>
      exists i | 0 <= i < |methods| :: methods[i].value.moduleName == m && line == BundleLine(methods[i].value)
  {
    if line in BundleLines(methods, m) {
      BundleLinesFromModule(methods, m, line);
    }
    if exists i | 0 <= i < |methods| :: methods[i].value.moduleName == m && line == BundleLine(methods[i].value) {
      var i :| 0 <= i < |methods| && methods[i].value.moduleName == m && line == BundleLine(methods[i].value);
      BundleLinesCover(methods, m, i);
    }
  }

  lemma {:induction false} BundleLinesCover(methods: seq<Entry<Package>>, m: string, i: nat)
    requires i < |methods| && methods[i].value.moduleName == m
    ensures BundleLine(methods[i].value) in BundleLines(methods, m)
    decreases |methods|
  {
    var n := |methods| - 1;
    var init := methods[..n];
    if methods[n].value.moduleName == m {
      assert BundleLines(methods, m) == BundleLines(init, m) + [BundleLine(methods[n].value)];
    } else {
      assert BundleLines(methods, m) == BundleLines(init, m) + [];
    }
    if i < n {
      assert init[i] == methods[i];
      BundleLinesCover(init, m, i);
    }
  }

  lemma {:induction false} BundleLinesFromModule(methods: seq<Entry<Package>>, m: string, line: string)
    requires line in BundleLines(methods, m)
    ensures exists i | 0 <= i < |methods| :: methods[i].value.moduleName == m && line == BundleLine(methods[i].value)
    decreases |methods|
  {
    var n := |methods| - 1;
    var init := methods[..n];
    if methods[n].value.moduleName == m && line == BundleLine(methods[n].value) {
    } else {
      if methods[n].value.moduleName == m {
        assert BundleLines(methods, m) == BundleLines(init, m) + [BundleLine(methods[n].value)];
      } else {
        assert BundleLines(methods, m) == BundleLines(init, m) + [];
      }
      BundleLinesFromModule(init, m, line);
      var i :| 0 <= i < |init| && init[i].value.moduleName == m && line == BundleLine(init[i].value);
      assert init[i] == methods[i];
    }
  }

  /** writeModulePackage's package: the sorted require lines, exporting
      the core. */
  function ModuleBundle(methods: seq<Entry<Package>>, m: string): Package
  {
    Package(m, None, None, false, "", JoinSep(SortByChars(BundleLines(methods, m)), "\n"), "", "", Single("core"), [], [], "")
  }

  /** A bundle depends on nothing, so it is always written. */
  lemma BundleWritable(top: seq<Entry<Package>>, methods: seq<Entry<Package>>, m: string, rel: Relative)
    ensures WritePackage(top, methods, m, ModuleBundle(methods, m), rel).Ok?
    ensures WritePackage(top, methods, m, ModuleBundle(methods, m), rel).value
      == Some(OutputFile(NPM_DESTINATION + "/" + m + ".js", OutputBody(top, methods, ModuleBundle(methods, m), rel).value))
  {
    var p := ModuleBundle(methods, m);
    assert SortByLength([]) == [];
    assert PreparedDeps(top, p) == [];
    RequiresBlockFails(top, methods, p, [], rel);
    assert |m + ".js"| >= 3;
    assert PathJoin(NPM_DESTINATION, p.path) == NPM_DESTINATION;
    assert PathJoin(NPM_DESTINATION, m + ".js") == NPM_DESTINATION + "/" + m + ".js";
  }

  // ---------------------------------------------------------------------
  // parseModule.

  /** parseModule: read and parse the file, process its statements, then
      write the bundle if the module has one. The new tables and the files
      written. */
  function Parsed(t: Tables, inputs: map<string, SourceFile>, globals: set<string>, m: string, bundle: bool, rel: Relative)
    : Result<(Tables, seq<OutputFile>)>
  {
    if SourcePath(m) !in inputs then Err(FileNotFound(SourcePath(m)))
    else
      var file := inputs[SourcePath(m)];
      var after :- Operations.ProcessStatements(t, ModuleEnvOf(m, file, globals), file.program);
      if !bundle then Ok((after, []))
      else
        var out :- WritePackage(after.topLevel, after.sugarMethods, m, ModuleBundle(after.sugarMethods, m), rel);
        Ok((after, OptSeq(out)))
  }

  /** A module is parsed exactly when its file exists and every statement
      is processed; a bundled module then writes one file,
      `release/npm/sugar/<module>.js`, and any other writes nothing. */
  lemma ParsedOutput(t: Tables, inputs: map<string, SourceFile>, globals: set<string>, m: string, bundle: bool, rel: Relative)
    ensures Parsed(t, inputs, globals, m, bundle, rel).Ok? <==>
      SourcePath(m) in inputs
      && Operations.ProcessStatements(t, ModuleEnvOf(m, inputs[SourcePath(m)], globals), inputs[SourcePath(m)].program).Ok?
    ensures SourcePath(m) !in inputs ==> Parsed(t, inputs, globals, m, bundle, rel) == Err(FileNotFound(SourcePath(m)))
    ensures Parsed(t, inputs, globals, m, bundle, rel).Ok? ==>
      var (after, out) := Parsed(t, inputs, globals, m, bundle, rel).value;
      after == Operations.ProcessStatements(t, ModuleEnvOf(m, inputs[SourcePath(m)], globals), inputs[SourcePath(m)].program).value
      && (if bundle then |out| == 1 && out[0].path == NPM_DESTINATION + "/" + m + ".js" else out == [])
  {
    if SourcePath(m) in inputs {
      var file := inputs[SourcePath(m)];
      var after := Operations.ProcessStatements(t, ModuleEnvOf(m, file, globals), file.program);
      if after.Ok? {
        BundleWritable(after.value.topLevel, after.value.sugarMethods, m, rel);
      }
    }
  }

  /** The parser reports every comment to onComment, then parseModule
      flushes the last namespace range. */
  method ReadComments(cs: seq<CommentAt>) returns (tracker: NamespaceTracker)
    ensures fresh(tracker)
    ensures tracker.comments == CommentMap(cs) && tracker.ranges == TaggedBoundaries(cs)
  {
    tracker := new NamespaceTracker();
    var i := 0;
    while i < |cs|
      invariant 0 <= i <= |cs|
      invariant tracker.comments == CommentMap(cs[..i])
      invariant tracker.ranges + OptSeq(tracker.current) == TaggedBoundaries(cs[..i])
    {
      assert cs[..i + 1][..i] == cs[..i];
      assert [cs[i]][..0] == [];
      tracker.OnComment(cs[i]);
      i := i + 1;
    }
    assert cs[..i] == cs;
    tracker.NamespaceBoundary(None, 0);
  }

  /** writeModulePackage's iteration over the methods. */
  method CollectBundleLines(methods: seq<Entry<Package>>, m: string) returns (lines: seq<string>)
    ensures lines == BundleLines(methods, m)
  {
    lines := [];
    var j := 0;
    while j < |methods|
      invariant 0 <= j <= |methods|
      invariant lines == BundleLines(methods[..j], m)
    {
      assert methods[..j + 1][..j] == methods[..j];
      if methods[j].value.moduleName == m {
        lines := lines + [BundleLine(methods[j].value)];
      }
      j := j + 1;
    }
    assert methods[..j] == methods;
  }

  /** The outcome of parseModule agrees with the specification and the
      registries hold the specified tables. */
  predicate Produced(r: Result<seq<OutputFile>>, spec: Result<(Tables, seq<OutputFile>)>, now: Tables)
  {
    (r.Ok? <==> spec.Ok?)
    && (r.Err? ==> r.error == spec.error)
    && (spec.Ok? ==> now == spec.value.0 && r.value == spec.value.1)
  }

  /** parseModule as the script runs it, with a fresh comment table and
      namespace tracker for the module. */
  method ParseModule(reg: Registry, inputs: map<string, SourceFile>, globals: set<string>, m: string, bundle: bool, rel: Relative)
    returns (r: Result<seq<OutputFile>>)
    modifies reg
    ensures Produced(r, Parsed(old(reg.Snapshot()), inputs, globals, m, bundle, rel), reg.Snapshot())
  {
    var path := "lib/" + m + ".js";
    if path !in inputs {
      return Err(FileNotFound(path));
    }
    var file := inputs[path];
    var tracker := ReadComments(file.comments);
    var env := ModuleEnv(m, file.text, globals, tracker.ranges, tracker.comments);
    assert env == ModuleEnvOf(m, file, globals);
    var outcome := reg.ProcessStatements(env, tracker, file.program);
    if outcome.Failed? {
      return Err(outcome.error);
    }
    if !bundle {
      return Ok([]);
    }
    var lines := CollectBundleLines(reg.sugarMethods, m);
    var pkg := Package(m, None, None, false, "", JoinSep(SortByChars(lines), "\n"), "", "", Single("core"), [], [], "");
    assert pkg == ModuleBundle(reg.sugarMethods, m);
    var out := EmitPackage(reg.topLevel, reg.sugarMethods, m, pkg, rel);
    if out.Err? {
      return Err(out.error);
    }
    return Ok(OptSeq(out.value));
  }

  /** One call of parseModule, as a function of the registries before it. */
  type Step = (Tables, string, bool) -> Result<(Tables, seq<OutputFile>)>

  function ParseStep(inputs: map<string, SourceFile>, globals: set<string>, rel: Relative): (step: Step)
    ensures forall t, m, bundle :: step(t, m, bundle) == Parsed(t, inputs, globals, m, bundle, rel)
  {
    (t, m, bundle) => Parsed(t, inputs, globals, m, bundle, rel)
  }

  /** What ParsedOutput shows of every call of parseModule: it needs the
      module's file, and writes the bundle's file or nothing. */
  ghost predicate StepShape(step: Step, inputs: map<string, SourceFile>)
  {
    forall t, m, bundle | step(t, m, bundle).Ok? ::
      SourcePath(m) in inputs
      && var out := step(t, m, bundle).value.1;
      if bundle then |out| == 1 && out[0].path == NPM_DESTINATION + "/" + m + ".js" else out == []
  }

  lemma ParseStepShape(inputs: map<string, SourceFile>, globals: set<string>, rel: Relative)
    ensures StepShape(ParseStep(inputs, globals, rel), inputs)
  {
    var step := ParseStep(inputs, globals, rel);
    forall t, m, bundle | step(t, m, bundle).Ok?
      ensures SourcePath(m) in inputs
      ensures var out := step(t, m, bundle).value.1;
        if bundle then |out| == 1 && out[0].path == NPM_DESTINATION + "/" + m + ".js" else out == []
    {
      ParsedOutput(t, inputs, globals, m, bundle, rel);
    }
  }

  /** The modules of `order` parsed one after the other, the files they
      write appended to `acc`. */
  function ParsedAll(step: Step, t: Tables, order: seq<(string, bool)>, acc: seq<OutputFile>): Result<(Tables, seq<OutputFile>)>
    decreases |order|
  {
    if order == [] then Ok((t, acc))
    else
      var (after, out) :- step(t, order[0].0, order[0].1);
      ParsedAll(step, after, order[1..], acc + out)
  }

  /** One module parsed as `step` says moves the whole run on by one. */
  lemma ParsedAllNext(step: Step, t: Tables, order: seq<(string, bool)>, acc: seq<OutputFile>,
                      r: Result<seq<OutputFile>>, now: Tables)
    requires order != []
    requires Produced(r, step(t, order[0].0, order[0].1), now)
    ensures r.Err? ==> ParsedAll(step, t, order, acc) == Err(r.error)
    ensures r.Ok? ==> ParsedAll(step, t, order, acc) == ParsedAll(step, now, order[1..], acc + r.value)
  {
  }

  /** The names of the bundled modules of `order`, in order. */
  function BundledNames(order: seq<(string, bool)>): (r: seq<string>)
    ensures |r| <= |order|
  {
    if order == [] then []
    else (if order[0].1 then [order[0].0] else []) + BundledNames(order[1..])
  }

  /** The bundled modules after the first seven. */
  lemma BundledModulesTail()
    ensures BundledNames(MODULES[7..]) == ["language", "array", "object", "date"]
  {
    assert BundledNames(MODULES[11..]) == [];
    assert BundledNames(MODULES[10..]) == ["date"];
    assert BundledNames(MODULES[9..]) == ["object", "date"];
    assert BundledNames(MODULES[8..]) == ["array", "object", "date"];
    assert BundledNames(MODULES[7..]) == ["language", "array", "object", "date"];
  }

  /** The bundled modules after the first three. */
  lemma BundledModulesMiddle()
    ensures BundledNames(MODULES[3..]) == ["range", "function", "string", "inflections", "language", "array", "object", "date"]
  {
    BundledModulesTail();
    assert BundledNames(MODULES[6..]) == ["inflections", "language", "array", "object", "date"];
    assert BundledNames(MODULES[5..]) == ["string", "inflections", "language", "array", "object", "date"];
    assert BundledNames(MODULES[4..]) == ["function", "string", "inflections", "language", "array", "object", "date"];
    assert BundledNames(MODULES[3..]) == ["range", "function", "string", "inflections", "language", "array", "object", "date"];
  }

  /** Every module but "common" gets a bundle. */
  lemma BundledModules()
    ensures BundledNames(MODULES) == BUNDLED
  {
    BundledModulesMiddle();
    assert BundledNames(MODULES[2..]) == ["number", "range", "function", "string", "inflections", "language", "array", "object", "date"];
    assert BundledNames(MODULES[1..]) == ["regexp", "number", "range", "function", "string", "inflections", "language", "array", "object", "date"];
    assert BundledNames(MODULES[0..]) == ["regexp", "number", "range", "function", "string", "inflections", "language", "array", "object", "date"];
    assert MODULES[0..] == MODULES;
  }

  /** When every module is parsed, every module file was present and the
      files written so far are the bundles of the bundled modules, in
      order. */
  lemma {:induction false} ParsedAllOutput(step: Step, inputs: map<string, SourceFile>, t: Tables,
                                           order: seq<(string, bool)>, acc: seq<OutputFile>)
    requires StepShape(step, inputs)
    requires ParsedAll(step, t, order, acc).Ok?
    ensures forall k | 0 <= k < |order| :: SourcePath(order[k].0) in inputs
    ensures var out := ParsedAll(step, t, order, acc).value.1;
      |out| == |acc| + |BundledNames(order)| && out[..|acc|] == acc
      && forall k | 0 <= k < |BundledNames(order)| :: out[|acc| + k].path == NPM_DESTINATION + "/" + BundledNames(order)[k] + ".js"
    decreases |order|
  {
    if order != [] {
      var m := order[0].0;
      var (after, out) := step(t, m, order[0].1).value;
      ParsedAllOutput(step, inputs, after, order[1..], acc + out);
      assert forall k | 1 <= k < |order| :: order[k] == order[1..][k - 1];
      var all := ParsedAll(step, t, order, acc).value.1;
      assert all[..|acc + out|] == acc + out;
      assert all[..|acc|] == (acc + out)[..|acc|];
      if order[0].1 {
        assert all[|acc|] == out[0];
        forall k | 1 <= k < |BundledNames(order)|
          ensures all[|acc| + k].path == NPM_DESTINATION + "/" + BundledNames(order)[k] + ".js"
        {
          assert BundledNames(order)[k] == BundledNames(order[1..])[k - 1];
          assert |acc| + k == |acc + out| + (k - 1);
        }
      }
    }
  }

  // ---------------------------------------------------------------------
  // Writing the registries.

  /** One call of writePackage against the final registries. */
  type Writer = (string, Package) -> Result<Option<OutputFile>>

  function WriterOf(top: seq<Entry<Package>>, methods: seq<Entry<Package>>, rel: Relative): (write: Writer)
    ensures forall name, p :: write(name, p) == WritePackage(top, methods, name, p, rel)
  {
    (name, p) => WritePackage(top, methods, name, p, rel)
  }

  /** What writePackage promises of every file: an alias is skipped, any
      other package goes to its own path. */
  ghost predicate WriterShape(write: Writer)
  {
    forall name, p | write(name, p).Ok? ::
      (write(name, p).value.Some? <==> p.alias == "")
      && (write(name, p).value.Some? ==> write(name, p).value.value.path == PackageFile(name, p))
  }

  lemma WriterOfShape(top: seq<Entry<Package>>, methods: seq<Entry<Package>>, rel: Relative)
    ensures WriterShape(WriterOf(top, methods, rel))
  {
  }

  /** `iter(topLevel, writePackage)` writes a unit under its key;
      `iter(sugarMethods, writeMethod)` writes a method under its package
      name. */
  function WrittenName(e: Entry<Package>, byKey: bool): string
  {
    if byKey then e.key else e.value.name
  }

  /** The files written for `entries`, in order, appended to `acc`. */
  function Written(write: Writer, entries: seq<Entry<Package>>, byKey: bool, acc: seq<OutputFile>): Result<seq<OutputFile>>
    decreases |entries|
  {
    if entries == [] then Ok(acc)
    else
      var out :- write(WrittenName(entries[0], byKey), entries[0].value);
      Written(write, entries[1..], byKey, acc + OptSeq(out))
  }

  /** Writing succeeds exactly when every entry can be written; then each
      package that is not an alias gets its file and every file written
      belongs to such a package. */
  lemma WrittenFiles(write: Writer, entries: seq<Entry<Package>>, byKey: bool, acc: seq<OutputFile>)
    requires WriterShape(write)
    ensures Written(write, entries, byKey, acc).Ok? <==>
      forall i | 0 <= i < |entries| :: write(WrittenName(entries[i], byKey), entries[i].value).Ok?
    ensures Written(write, entries, byKey, acc).Ok? ==>
      var out := Written(write, entries, byKey, acc).value;
      |acc| <= |out| && out[..|acc|] == acc
      && (forall i | 0 <= i < |entries| && entries[i].value.alias == "" ::
            PackageFile(WrittenName(entries[i], byKey), entries[i].value) in Paths(out[|acc|..]))
      && (forall f | f in out[|acc|..] :: exists i | 0 <= i < |entries| ::
            entries[i].value.alias == "" && f.path == PackageFile(WrittenName(entries[i], byKey), entries[i].value))
  {
    WrittenOk(write, entries, byKey, acc);
    if Written(write, entries, byKey, acc).Ok? {
      WrittenKeepsEarlier(write, entries, byKey, acc);
      WrittenCovers(write, entries, byKey, acc);
      WrittenOnlyEntries(write, entries, byKey, acc);
    }
  }

  lemma {:induction false} WrittenOk(write: Writer, entries: seq<Entry<Package>>, byKey: bool, acc: seq<OutputFile>)
    ensures Written(write, entries, byKey, acc).Ok? <==>
      forall i | 0 <= i < |entries| :: write(WrittenName(entries[i], byKey), entries[i].value).Ok?
    decreases |entries|
  {
    if entries != [] {
      var w := write(WrittenName(entries[0], byKey), entries[0].value);
      assert forall i | 1 <= i < |entries| :: entries[i] == entries[1..][i - 1];
      if w.Ok? {
        WrittenOk(write, entries[1..], byKey, acc + OptSeq(w.value));
      }
    }
  }

  lemma {:induction false} WrittenKeepsEarlier(write: Writer, entries: seq<Entry<Package>>, byKey: bool, acc: seq<OutputFile>)
    requires Written(write, entries, byKey, acc).Ok?
    ensures var out := Written(write, entries, byKey, acc).value;
      |acc| <= |out| && out[..|acc|] == acc
    decreases |entries|
  {
    if entries != [] {
      var w := write(WrittenName(entries[0], byKey), entries[0].value);
      var acc' := acc + OptSeq(w.value);
      WrittenKeepsEarlier(write, entries[1..], byKey, acc');
      var out := Written(write, entries, byKey, acc).value;
      assert out[..|acc|] == acc'[..|acc|];
    }
  }

  lemma {:induction false} WrittenCovers(write: Writer, entries: seq<Entry<Package>>, byKey: bool, acc: seq<OutputFile>)
    requires WriterShape(write)
    requires Written(write, entries, byKey, acc).Ok?
    ensures var out := Written(write, entries, byKey, acc).value;
      |acc| <= |out|
      && forall i | 0 <= i < |entries| && entries[i].value.alias == "" ::
           PackageFile(WrittenName(entries[i], byKey), entries[i].value) in Paths(out[|acc|..])
    decreases |entries|
  {
    WrittenKeepsEarlier(write, entries, byKey, acc);
    if entries != [] {
      var e := entries[0];
      var w := write(WrittenName(e, byKey), e.value);
      var acc' := acc + OptSeq(w.value);
      WrittenCovers(write, entries[1..], byKey, acc');
      WrittenKeepsEarlier(write, entries[1..], byKey, acc');
      var out := Written(write, entries, byKey, acc).value;
      assert out[..|acc'|] == acc';
      forall i | 0 <= i < |entries| && entries[i].value.alias == ""
        ensures PackageFile(WrittenName(entries[i], byKey), entries[i].value) in Paths(out[|acc|..])
      {
        if i == 0 {
          assert out[|acc|..][0] == out[..|acc'|][|acc|] == w.value.value;
          assert Paths(out[|acc|..])[0] == PackageFile(WrittenName(e, byKey), e.value);
        } else {
          assert entries[i] == entries[1..][i - 1];
          PathsSuffix(out[|acc|..], |OptSeq(w.value)|);
          assert out[|acc|..][|OptSeq(w.value)|..] == out[|acc'|..];
        }
      }
    }
  }

  lemma {:induction false} WrittenOnlyEntries(write: Writer, entries: seq<Entry<Package>>, byKey: bool, acc: seq<OutputFile>)
    requires WriterShape(write)
    requires Written(write, entries, byKey, acc).Ok?
    ensures var out := Written(write, entries, byKey, acc).value;
      |acc| <= |out|
      && forall f | f in out[|acc|..] :: exists i | 0 <= i < |entries| ::
           entries[i].value.alias == "" && f.path == PackageFile(WrittenName(entries[i], byKey), entries[i].value)
    decreases |entries|
  {
    WrittenKeepsEarlier(write, entries, byKey, acc);
    if entries != [] {
      var e := entries[0];
      var w := write(WrittenName(e, byKey), e.value);
      var acc' := acc + OptSeq(w.value);
      WrittenOnlyEntries(write, entries[1..], byKey, acc');
      WrittenKeepsEarlier(write, entries[1..], byKey, acc');
      var out := Written(write, entries, byKey, acc).value;
      DropAfterPrefix(out, acc, OptSeq(w.value));
      OnlyEntriesCons(entries, byKey, OptSeq(w.value), out[|acc'|..]);
    }
  }

  /** Past a known prefix `acc + extra`, the tail starts with `extra`. */
  lemma DropAfterPrefix<T>(out: seq<T>, acc: seq<T>, extra: seq<T>)
    requires |acc + extra| <= |out| && out[..|acc + extra|] == acc + extra
    ensures out[|acc|..] == extra + out[|acc + extra|..]
  {
    assert out == acc + extra + out[|acc + extra|..];
  }

  /** The files of the first entry followed by files of the others. */
  lemma OnlyEntriesCons(entries: seq<Entry<Package>>, byKey: bool, first: seq<OutputFile>, later: seq<OutputFile>)
    requires entries != []
    requires forall f | f in first ::
      entries[0].value.alias == "" && f.path == PackageFile(WrittenName(entries[0], byKey), entries[0].value)
    requires forall f | f in later :: exists i | 0 <= i < |entries[1..]| ::
      entries[1..][i].value.alias == "" && f.path == PackageFile(WrittenName(entries[1..][i], byKey), entries[1..][i].value)
    ensures forall f | f in first + later :: exists i | 0 <= i < |entries| ::
      entries[i].value.alias == "" && f.path == PackageFile(WrittenName(entries[i], byKey), entries[i].value)
  {
    forall f | f in first + later
      ensures exists i | 0 <= i < |entries| ::
        entries[i].value.alias == "" && f.path == PackageFile(WrittenName(entries[i], byKey), entries[i].value)
    {
      if f in first {
        assert entries[0].value.alias == "" && f.path == PackageFile(WrittenName(entries[0], byKey), entries[0].value);
      } else {
        var j :| 0 <= j < |entries[1..]| && entries[1..][j].value.alias == ""
          && f.path == PackageFile(WrittenName(entries[1..][j], byKey), entries[1..][j].value);
        assert entries[1..][j] == entries[j + 1];
      }
    }
  }

  /** `acc` put in front of a successful write; a failure passes through. */
  function Appended(acc: seq<OutputFile>, r: Result<seq<OutputFile>>): Result<seq<OutputFile>>
  {
    if r.Ok? then Ok(acc + r.value) else r
  }

  /** Writing onto earlier files only puts them in front. */
  lemma {:induction false} WrittenFrom(write: Writer, entries: seq<Entry<Package>>, byKey: bool, acc: seq<OutputFile>)
    ensures Written(write, entries, byKey, acc) == Appended(acc, Written(write, entries, byKey, []))
    decreases |entries|
  {
    if entries == [] {
      assert acc + [] == acc;
    } else {
      var w := write(WrittenName(entries[0], byKey), entries[0].value);
      if w.Ok? {
        var o := OptSeq(w.value);
        var rest := Written(write, entries[1..], byKey, []);
        assert [] + o == o;
        calc {
          Written(write, entries, byKey, acc);
          Written(write, entries[1..], byKey, acc + o);
          { WrittenFrom(write, entries[1..], byKey, acc + o); }
          Appended(acc + o, rest);
          { AppendedTwice(acc, o, rest); }
          Appended(acc, Appended(o, rest));
          { WrittenFrom(write, entries[1..], byKey, o); }
          Appended(acc, Written(write, entries[1..], byKey, o));
          Appended(acc, Written(write, entries, byKey, []));
        }
      }
    }
  }

  lemma AppendedTwice(acc: seq<OutputFile>, o: seq<OutputFile>, r: Result<seq<OutputFile>>)
    ensures Appended(acc + o, r) == Appended(acc, Appended(o, r))
  {
    if r.Ok? {
      assert (acc + o) + r.value == acc + (o + r.value);
    }
  }

  /** The paths of a run of written files. */
  function Paths(files: seq<OutputFile>): (r: seq<string>)
    ensures |r| == |files| && forall i | 0 <= i < |files| :: r[i] == files[i].path
  {
    seq(|files|, i requires 0 <= i < |files| => files[i].path)
  }

  lemma PathsSuffix(files: seq<OutputFile>, n: nat)
    requires n <= |files|
    ensures forall p | p in Paths(files[n..]) :: p in Paths(files)
  {
    forall p | p in Paths(files[n..])
      ensures p in Paths(files)
    {
      var k :| 0 <= k < |files| - n && Paths(files[n..])[k] == p;
      assert Paths(files)[n + k] == p;
    }
  }

  /** `iter(topLevel, writePackage)` or `iter(sugarMethods, writeMethod)`. */
  method WritePackages(top: seq<Entry<Package>>, methods: seq<Entry<Package>>, entries: seq<Entry<Package>>, byKey: bool, rel: Relative)
    returns (r: Result<seq<OutputFile>>)
    ensures r == Written(WriterOf(top, methods, rel), entries, byKey, [])
  {
    var write := WriterOf(top, methods, rel);
    var files := [];
    var i := 0;
    while i < |entries|
      invariant 0 <= i <= |entries|
      invariant Written(write, entries, byKey, []) == Written(write, entries[i..], byKey, files)
    {
      ghost var rest := entries[i..];
      assert rest[0] == entries[i] && rest[1..] == entries[i + 1..];
      var out := EmitPackage(top, methods, WrittenName(entries[i], byKey), entries[i].value, rel);
      assert out == write(WrittenName(rest[0], byKey), rest[0].value);
      if out.Err? {
        assert Written(write, rest, byKey, files) == Err(out.error);
        return Err(out.error);
      }
      assert Written(write, rest, byKey, files) == Written(write, rest[1..], byKey, files + OptSeq(out.value));
      files := files + OptSeq(out.value);
      i := i + 1;
    }
    assert entries[i..] == [];
    return Ok(files);
  }

  // ---------------------------------------------------------------------
  // modularize.

  /** The whole run: every module parsed in order, then every unit and
      every method written against the final registries. */
  function Modularize(inputs: map<string, SourceFile>, globals: set<string>, rel: Relative): Result<seq<OutputFile>>
  {
    ModularizeWith(ParseStep(inputs, globals, rel), rel)
  }

  /** The run for any way of parsing one module. */
  function ModularizeWith(step: Step, rel: Relative): Result<seq<OutputFile>>
  {
    var (t, bundles) :- ParsedAll(step, Tables([], []), MODULES, []);
    var write := WriterOf(t.topLevel, t.sugarMethods, rel);
    var units :- Written(write, t.topLevel, true, bundles);
    Written(write, t.sugarMethods, false, units)
  }

  /** The registries a successful run ends with. */
  function FinalTables(inputs: map<string, SourceFile>, globals: set<string>, rel: Relative): Tables
    requires ParsedAll(ParseStep(inputs, globals, rel), Tables([], []), MODULES, []).Ok?
  {
    ParsedAll(ParseStep(inputs, globals, rel), Tables([], []), MODULES, []).value.0
  }

  /** Writing the units and then the methods keeps the bundles in front. */
  lemma WritesAfterBundles(write: Writer, t: Tables, bundles: seq<OutputFile>)
    requires WriterShape(write)
    requires Written(write, t.topLevel, true, bundles).Ok?
    requires Written(write, t.sugarMethods, false, Written(write, t.topLevel, true, bundles).value).Ok?
    ensures var out := Written(write, t.sugarMethods, false, Written(write, t.topLevel, true, bundles).value).value;
      |bundles| <= |out| && out[..|bundles|] == bundles
  {
    var units := Written(write, t.topLevel, true, bundles).value;
    var out := Written(write, t.sugarMethods, false, units).value;
    WrittenFiles(write, t.topLevel, true, bundles);
    WrittenFiles(write, t.sugarMethods, false, units);
    assert out[..|bundles|] == out[..|units|][..|bundles|];
  }

  /** A successful run found all eleven module files, and its first ten
      writes are the module bundles, in parse order. */
  lemma ModularizeWritesBundlesFirst(inputs: map<string, SourceFile>, globals: set<string>, rel: Relative)
    requires Modularize(inputs, globals, rel).Ok?
    ensures forall k | 0 <= k < |MODULES| :: SourcePath(MODULES[k].0) in inputs
    ensures var out := Modularize(inputs, globals, rel).value;
      |out| >= 10 && forall k | 0 <= k < 10 :: out[k].path == NPM_DESTINATION + "/" + BUNDLED[k] + ".js"
  {
    ParseStepShape(inputs, globals, rel);
    BundlesFirst(ParseStep(inputs, globals, rel), inputs, rel);
  }

  /** The same for any step with the shape of parseModule. */
  lemma BundlesFirst(step: Step, inputs: map<string, SourceFile>, rel: Relative)
    requires StepShape(step, inputs)
    requires ModularizeWith(step, rel).Ok?
    ensures forall k | 0 <= k < |MODULES| :: SourcePath(MODULES[k].0) in inputs
    ensures var out := ModularizeWith(step, rel).value;
      |out| >= 10 && forall k | 0 <= k < 10 :: out[k].path == NPM_DESTINATION + "/" + BUNDLED[k] + ".js"
  {
    ParsedAllOutput(step, inputs, Tables([], []), MODULES, []);
    var (t, bundles) := ParsedAll(step, Tables([], []), MODULES, []).value;
    BundledModules();
    WriterOfShape(t.topLevel, t.sugarMethods, rel);
    WritesAfterBundles(WriterOf(t.topLevel, t.sugarMethods, rel), t, bundles);
    var out := ModularizeWith(step, rel).value;
    forall k | 0 <= k < 10
      ensures out[k].path == NPM_DESTINATION + "/" + BUNDLED[k] + ".js"
    {
      assert out[k] == out[..|bundles|][k] == bundles[k];
    }
  }

  /** The prefix law for paths. */
  lemma PathsPrefix(files: seq<OutputFile>, n: nat)
    requires n <= |files|
    ensures forall p | p in Paths(files[..n]) :: p in Paths(files)
  {
    forall p | p in Paths(files[..n])
      ensures p in Paths(files)
    {
      var k :| 0 <= k < n && Paths(files[..n])[k] == p;
      assert Paths(files)[k] == p;
    }
  }

  /** Writing the units after the bundles and then the methods leaves a
      file for every unit and every method that is not an alias. */
  lemma WritesEveryEntry(write: Writer, t: Tables, bundles: seq<OutputFile>)
    requires WriterShape(write)
    requires Written(write, t.topLevel, true, bundles).Ok?
    requires Written(write, t.sugarMethods, false, Written(write, t.topLevel, true, bundles).value).Ok?
    ensures var paths := Paths(Written(write, t.sugarMethods, false, Written(write, t.topLevel, true, bundles).value).value);
      (forall i | 0 <= i < |t.topLevel| && t.topLevel[i].value.alias == "" ::
         PackageFile(t.topLevel[i].key, t.topLevel[i].value) in paths)
      && (forall i | 0 <= i < |t.sugarMethods| && t.sugarMethods[i].value.alias == "" ::
         PackageFile(t.sugarMethods[i].value.name, t.sugarMethods[i].value) in paths)
  {
    var units := Written(write, t.topLevel, true, bundles).value;
    var out := Written(write, t.sugarMethods, false, units).value;
    WrittenFiles(write, t.topLevel, true, bundles);
    WrittenFiles(write, t.sugarMethods, false, units);
    PathsSuffix(units, |bundles|);
    PathsPrefix(out, |units|);
    PathsSuffix(out, |units|);
  }

  /** After a successful run every unit and every method that is not an
      alias has been written: a unit under its key, a method under its
      package name. */
  lemma ModularizeWritesEveryPackage(inputs: map<string, SourceFile>, globals: set<string>, rel: Relative)
    requires Modularize(inputs, globals, rel).Ok?
    ensures ParsedAll(ParseStep(inputs, globals, rel), Tables([], []), MODULES, []).Ok?
    ensures var t := FinalTables(inputs, globals, rel);
      var paths := Paths(Modularize(inputs, globals, rel).value);
      (forall i | 0 <= i < |t.topLevel| && t.topLevel[i].value.alias == "" ::
         PackageFile(t.topLevel[i].key, t.topLevel[i].value) in paths)
      && (forall i | 0 <= i < |t.sugarMethods| && t.sugarMethods[i].value.alias == "" ::
         PackageFile(t.sugarMethods[i].value.name, t.sugarMethods[i].value) in paths)
  {
    var (t, bundles) := ParsedAll(ParseStep(inputs, globals, rel), Tables([], []), MODULES, []).value;
    WriterOfShape(t.topLevel, t.sugarMethods, rel);
    WritesEveryEntry(WriterOf(t.topLevel, t.sugarMethods, rel), t, bundles);
  }

  /** The `MODULES.forEach(parseModule)` loop of modularize. */
  method ParseModules(reg: Registry, inputs: map<string, SourceFile>, globals: set<string>, rel: Relative)
    returns (r: Result<seq<OutputFile>>)
    modifies reg
    ensures Produced(r, ParsedAll(ParseStep(inputs, globals, rel), old(reg.Snapshot()), MODULES, []), reg.Snapshot())
  {
    ghost var step := ParseStep(inputs, globals, rel);
    ghost var start := reg.Snapshot();
    var written := [];
    var i := 0;
    while i < |MODULES|
      invariant 0 <= i <= |MODULES|
      invariant ParsedAll(step, start, MODULES, []) == ParsedAll(step, reg.Snapshot(), MODULES[i..], written)
    {
      ghost var before := reg.Snapshot();
      assert MODULES[i..][0] == MODULES[i] && MODULES[i..][1..] == MODULES[i + 1..];
      var out := ParseModule(reg, inputs, globals, MODULES[i].0, MODULES[i].1, rel);
      ParsedAllNext(step, before, MODULES[i..], written, out, reg.Snapshot());
      if out.Err? {
        return Err(out.error);
      }
      written := written + out.value;
      i := i + 1;
    }
    assert MODULES[i..] == [];
    return Ok(written);
  }

  /** modularize as the script runs it. */
  method Run(inputs: map<string, SourceFile>, globals: set<string>, rel: Relative) returns (r: Result<seq<OutputFile>>)
    ensures r == Modularize(inputs, globals, rel)
  {
    var reg := new Registry();
    var parsed := ParseModules(reg, inputs, globals, rel);
    if parsed.Err? {
      return Err(parsed.error);
    }
    var written := parsed.value;
    var write := WriterOf(reg.topLevel, reg.sugarMethods, rel);
    var units := WritePackages(reg.topLevel, reg.sugarMethods, reg.topLevel, true, rel);
    WrittenFrom(write, reg.topLevel, true, written);
    if units.Err? {
      return Err(units.error);
    }
    var methods := WritePackages(reg.topLevel, reg.sugarMethods, reg.sugarMethods, false, rel);
    WrittenFrom(write, reg.sugarMethods, false, written + units.value);
    if methods.Err? {
      return Err(methods.error);
    }
    return Ok(written + units.value + methods.value);
  }
}
