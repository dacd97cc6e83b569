/** Package records and how one is made from a declaration
    (gulpfile.js:469-471, 736-826, 860-863, 1056-1061).

    A package is one unit of the library written to its own file: a
    variable, a constant, an internal function, a group of variables a build
    function fills in, or a public method. The registries are JavaScript
    objects used as dictionaries, so each is a list of entries in insertion
    order. Fields the script leaves unset are modelled by a neutral value
    that every later use treats the same way: "" for a missing body, init,
    path or alias, [] for missing dependency and require lists. */
module Packages {
  import opened Prelude
  import opened Ast
  import opened Namespaces
  import opened Dependencies

  /** `package.type` of a top-level unit; it names the unit's directory. */
  datatype UnitType = VarsUnit | ConstantsUnit | InternalUnit

  function TypeDir(u: UnitType): string
  {
    match u
    case VarsUnit => "vars"
    case ConstantsUnit => "constants"
    case InternalUnit => "internal"
  }

  /** `package.exports`: unset (or deleted), one name, or the list of names a
      build group exports. The single name "core" is the emitter's token for
      the core library. */
  datatype Exports = NoExports | Single(name: string) | Members(names: seq<string>)

  /** Whether `package.exports` is truthy: an array always is, a string when
      it is not empty. */
  predicate ExportsTruthy(e: Exports)
  {
    e.Members? || (e.Single? && e.name != "")
  }

  datatype Package = Package(
    name: string,
    node: Option<Node>,          // the declaration, for top-level units only
    unitType: Option<UnitType>,  // unset for build groups and methods
    core: bool,
    path: string,
    body: string,
    init: string,
    moduleName: string,
    exports: Exports,
    dependencies: seq<string>,
    required: seq<string>,
    alias: string)

  /** The two registries: `topLevel` keyed by unit name and `sugarMethods`
      keyed by `namespace|name`. */
  datatype Tables = Tables(topLevel: seq<Entry<Package>>, sugarMethods: seq<Entry<Package>>)

  /** What parseModule knows while it processes the statements of one
      module: the module name, its source text, the truthy globals, and the
      stored namespace boundaries and comments. */
  datatype ModuleEnv = ModuleEnv(
    moduleName: string,
    source: string,
    globals: set<string>,
    ranges: seq<Boundary>,
    comments: map<nat, Comment>)

  /** The options addSugarMethod is called with. */
  datatype MethodOpts = MethodOpts(body: bool, define: Option<string>, required: seq<string>)

  // ---------------------------------------------------------------------
  // Text helpers.

  /** getNodeBody: the node's text, starting at the beginning of its first
      line so that its indentation is kept. */
  function NodeBody(source: string, n: Node): string
  {
    Slice(source, n.loc.start - n.loc.column, n.loc.end)
  }

  /** getInnerNodeBody: the node's text exactly. */
  function InnerNodeBody(source: string, n: Node): string
  {
    Slice(source, n.loc.start, n.loc.end)
  }

  /** A simplified `path.join` of two relative segments. */
  function PathJoin(a: string, b: string): string
  {
    if a == "" then b else if b == "" then a else a + "/" + b
  }

  /** downcase: the first character lower-cased, the rest untouched. */
  function Downcase(s: string): (r: string)
    ensures |r| == |s|
    ensures s != "" ==> r[0] == LowerChar(s[0]) && r[1..] == s[1..]
  {
    ToLower(Slice(s, 0, 1)) + Slice(s, 1, |s|)
  }

  lemma LowerCharIdempotent(c: char)
    ensures LowerChar(LowerChar(c)) == LowerChar(c)
  {
  }

  /** Down-casing twice is down-casing once. */
  lemma DowncaseIdempotent(s: string)
    ensures Downcase(Downcase(s)) == Downcase(s)
  {
    if s != "" {
      LowerCharIdempotent(s[0]);
      assert Downcase(Downcase(s))[1..] == Downcase(s)[1..];
    }
  }

  /** `name.replace(/^build/, '')`. */
  function StripBuild(name: string): (r: string)
    ensures StartsWith(name, "build") ==> "build" + r == name
    ensures !StartsWith(name, "build") ==> r == name
  {
    if StartsWith(name, "build") then name[5..] else name
  }

  /** The name of the package a build function with several unassigned
      variables creates: `buildDateUnits` groups into `dateUnits`, and a
      name without the `build` prefix is only down-cased. */
  function GroupName(fnName: string): (r: string)
    ensures StartsWith(fnName, "build") ==> |r| == |fnName| - 5
    ensures StartsWith(fnName, "build") && |fnName| > 5 ==> r[0] == LowerChar(fnName[5]) && r[1..] == fnName[6..]
  {
    Downcase(StripBuild(fnName))
  }

  /** appendBlock: a new block goes on its own line after the existing text,
      or replaces it when there is none. */
  function AppendBlock(existing: string, block: string): (r: string)
    ensures existing == "" ==> r == block
    ensures existing != "" ==>
      |r| == |existing| + 1 + |block| && r[..|existing|] == existing && r[|existing|] == '\n' && r[|existing| + 1..] == block
  {
    if existing != "" then existing + "\n" + block else block
  }

  /** getPathForRequire: a path that does not start with "." is made
      explicitly relative. */
  function RequirePath(p: string): (r: string)
    ensures |r| > 0 && r[0] == '.'
    ensures r == p || r == "./" + p
  {
    if Slice(p, 0, 1) != "." then "./" + p else p
  }

  /** A path made relative stays as it is. */
  lemma RequirePathIdempotent(p: string)
    ensures RequirePath(RequirePath(p)) == RequirePath(p)
  {
    var r := RequirePath(p);
    assert Slice(r, 0, 1) == r[..1] == ".";
  }

  // ---------------------------------------------------------------------
  // The regular expressions addTopLevel applies to a variable's text.

  /** Where /\s+=\s+/ matches when tried at offset `i`: a run of white
      space, "=", another run; the match ends after the second run. */
  function AssignMatchAt(s: string, i: nat): (r: Option<nat>)
    requires i <= |s|
    ensures r.Some? ==> i < r.value <= |s|
  {
    if i < |s| && IsSpace(s[i]) then
      var j := SpaceEnd(s, i);
      if j + 1 < |s| && s[j] == '=' && IsSpace(s[j + 1]) then Some(SpaceEnd(s, j + 1)) else None
    else None
  }

  /** The leftmost match of /\s+=\s+/ at or after offset `i`. */
  function FirstAssignFrom(s: string, i: nat): (r: Option<(nat, nat)>)
    requires i <= |s|
    ensures r.Some? ==> i <= r.value.0 < r.value.1 <= |s| && AssignMatchAt(s, r.value.0) == Some(r.value.1)
    ensures r.Some? ==> forall k | i <= k < r.value.0 :: AssignMatchAt(s, k).None?
    ensures r.None? ==> forall k | i <= k <= |s| :: AssignMatchAt(s, k).None?
    decreases |s| - i
  {
    if i == |s| then None
    else
      match AssignMatchAt(s, i)
      case Some(e) => Some((i, e))
      case None => FirstAssignFrom(s, i + 1)
  }

  /** `s.replace(/\s+=\s+/, ' = ')`. */
  function NormalizeAssign(s: string): string
  {
    match FirstAssignFrom(s, 0)
    case None => s
    case Some(m) => s[..m.0] + " = " + s[m.1..]
  }

  /** The class [\w.]. */
  predicate IsPathChar(c: char)
  {
    IsWordChar(c) || c == '.'
  }

  /** A match of [\w.]+. */
  predicate IsPathWord(s: string)
  {
    |s| > 0 && forall k | 0 <= k < |s| :: IsPathChar(s[k])
  }

  predicate IsBlank(s: string)
  {
    |s| > 0 && forall k | 0 <= k < |s| :: IsSpace(s[k])
  }

  function PathCharEnd(s: string, i: nat): (j: nat)
    requires i <= |s|
    ensures i <= j <= |s|
    ensures forall k | i <= k < j :: IsPathChar(s[k])
    ensures j < |s| ==> !IsPathChar(s[j])
    decreases |s| - i
  {
    if i < |s| && IsPathChar(s[i]) then PathCharEnd(s, i + 1) else i
  }

  /** `body.match(/^[\w.]+ = ([\w.]+)$/)[1]`: the right-hand side of a
      plain `name = a.b` binding. */
  function SimpleAliasTarget(s: string): (r: Option<string>)
    ensures r.Some? ==> IsPathWord(r.value) && exists a :: IsPathWord(a) && s == a + " = " + r.value
  {
    var j := PathCharEnd(s, 0);
    if 0 < j && j + 3 < |s| && s[j..j + 3] == " = " && IsPathWord(s[j + 3..]) then
      assert s == s[..j] + " = " + s[j + 3..];
      assert IsPathWord(s[..j]);
      Some(s[j + 3..])
    else None
  }

  /** The pattern reads back the right-hand side of every `a = b` between
      [\w.] words. */
  lemma SimpleAliasTargetOf(a: string, b: string)
    requires IsPathWord(a) && IsPathWord(b)
    ensures SimpleAliasTarget(a + " = " + b) == Some(b)
  {
    var s := a + " = " + b;
    var j := PathCharEnd(s, 0);
    assert s[|a|] == ' ';
    assert forall k | 0 <= k < |a| :: s[k] == a[k];
    assert j == |a|;
    assert s[j..j + 3] == " = ";
    assert s[j + 3..] == b;
  }

  /** However much white space surrounds the `=` of `a = b`, normalising
      leaves exactly one space on each side. */
  lemma NormalizeAssignOf(a: string, s1: string, s2: string, b: string)
    requires IsPathWord(a) && IsPathWord(b) && IsBlank(s1) && IsBlank(s2)
    ensures NormalizeAssign(a + s1 + "=" + s2 + b) == a + " = " + b
  {
    var s := a + s1 + "=" + s2 + b;
    var e: nat := |a| + |s1| + 1 + |s2|;
    AssignLayout(a, s1, s2, b);
    var m := FirstAssignFrom(s, 0);
    assert m == Some((|a|, e));
  }

  /** Where `a = b` with any white space matches the assignment pattern:
      first right after `a`, up to the start of `b`. */
  lemma AssignLayout(a: string, s1: string, s2: string, b: string)
    requires IsPathWord(a) && IsPathWord(b) && IsBlank(s1) && IsBlank(s2)
    ensures var s := a + s1 + "=" + s2 + b;
      var e := |a| + |s1| + 1 + |s2|;
      AssignMatchAt(s, |a|) == Some(e)
      && (forall k | 0 <= k < |a| :: AssignMatchAt(s, k).None?)
      && s[..|a|] == a && s[e..] == b
  {
    var s := a + s1 + "=" + s2 + b;
    var eq := |a| + |s1|;
    var e := eq + 1 + |s2|;
    assert forall k | 0 <= k < |a| :: s[k] == a[k];
    assert forall k | |a| <= k < eq :: s[k] == s1[k - |a|];
    assert s[eq] == '=';
    assert forall k | eq < k < e :: s[k] == s2[k - eq - 1];
    assert s[e] == b[0];
    assert SpaceEnd(s, |a|) == eq;
    assert SpaceEnd(s, eq + 1) == e;
    forall k | 0 <= k < |a|
      ensures AssignMatchAt(s, k).None?
    {
      assert !IsSpace(s[k]);
    }
    assert s[..|a|] == a && s[e..] == b;
  }

  /** /^[A-Z_]+$/: the names of constants. */
  predicate IsConstantName(name: string)
  {
    |name| > 0 && forall k | 0 <= k < |name| :: ('A' <= name[k] <= 'Z') || name[k] == '_'
  }

  // ---------------------------------------------------------------------
  // The packages addTopLevel and addSugarMethod build.

  /** The body and exports of a top-level unit. A variable whose text is a
      plain `name = a.b` has no body and re-exports `a.b`; any other variable
      becomes a `var` statement; functions and constants keep their text. */
  function UnitText(env: ModuleEnv, name: string, node: Node, u: UnitType): (string, Exports)
  {
    if u == VarsUnit then
      var inner := InnerNodeBody(env.source, node);
      match SimpleAliasTarget(NormalizeAssign(inner))
      case Some(target) => ("", Single(target))
      case None => ("var " + inner + ";", Single(name))
    else (NodeBody(env.source, node), Single(name))
  }

  /** The package addTopLevel stores under `name`: the walk's dependency
      list with "Sugar" taken out, which instead marks the unit as needing
      the core library. */
  function UnitPackage(env: ModuleEnv, name: string, node: Node, u: UnitType): (r: Result<Package>)
    ensures r.Err? <==> DependencyList(node, env.globals).Err?
    ensures r.Ok? ==> NoDup(r.value.dependencies) && "Sugar" !in r.value.dependencies
    ensures r.Ok? ==> forall x :: x in r.value.dependencies <==> x in DependencyList(node, env.globals).value && x != "Sugar"
    ensures r.Ok? ==> (r.value.core <==> "Sugar" in DependencyList(node, env.globals).value)
    ensures r.Ok? ==> r.value.name == name && r.value.node == Some(node) && r.value.unitType == Some(u)
    ensures r.Ok? ==> r.value.alias == "" && r.value.init == "" && r.value.required == []
  {
    var deps :- DependencyList(node, env.globals);
    DependencyListExact(node, env.globals, "Sugar");
    RemoveFirstNoDup(deps, "Sugar");
    Ok(UnitPackageFrom(env, name, node, u, deps))
  }

  /** The unit's package once the walk has returned `deps`. */
  function UnitPackageFrom(env: ModuleEnv, name: string, node: Node, u: UnitType, deps: seq<string>): (p: Package)
    ensures p.core <==> "Sugar" in deps
    ensures "Sugar" in deps ==> |p.dependencies| == |deps| - 1
    ensures "Sugar" !in deps ==> p.dependencies == deps
  {
    var (body, exports) := UnitText(env, name, node, u);
    Package(name, Some(node), Some(u), "Sugar" in deps, PathJoin(env.moduleName, TypeDir(u)),
      body, "", env.moduleName, exports, RemoveFirst(deps, "Sugar"), [], "")
  }

  /** A variable declared as `x = a.b` (with any white space around `=`)
      becomes a package with no body that re-exports `a.b`. */
  lemma VariableReexport(env: ModuleEnv, node: Node, name: string, s1: string, s2: string, target: string)
    requires IsPathWord(name) && IsPathWord(target) && IsBlank(s1) && IsBlank(s2)
    requires InnerNodeBody(env.source, node) == name + s1 + "=" + s2 + target
    requires DependencyList(node, env.globals).Ok?
    ensures UnitPackage(env, name, node, VarsUnit).Ok?
    ensures UnitPackage(env, name, node, VarsUnit).value.body == ""
    ensures UnitPackage(env, name, node, VarsUnit).value.exports == Single(target)
  {
    NormalizeAssignOf(name, s1, s2, target);
    SimpleAliasTargetOf(name, target);
  }

  /** The package addSugarMethod stores. A method with a body depends on
      what its definition refers to and, when it comes from a define block,
      is wrapped in that block's call; a method without one only requires
      the packages named in `opts`. Reading `toLowerCase` of an undefined
      namespace is a TypeError, raised after the dependency walk. */
  function MethodPackage(env: ModuleEnv, name: string, node: Node, opts: MethodOpts): (r: Result<Package>)
    ensures opts.body && DependencyList(node, env.globals).Err? ==> r == Err(DependencyList(node, env.globals).error)
    ensures (!opts.body || DependencyList(node, env.globals).Ok?) ==>
      (r.Err? <==> NamespaceAt(env.ranges, node.loc.line).None?)
    ensures r.Ok? ==> r.value.exports == Single("Sugar." + NamespaceAt(env.ranges, node.loc.line).value + "." + name)
    ensures r.Ok? ==> r.value.core && r.value.name == name && r.value.required == opts.required
    ensures r.Ok? ==> r.value.alias == "" && r.value.unitType.None?
    ensures r.Ok? && !opts.body ==> r.value.body == "" && r.value.dependencies == []
    ensures r.Ok? && opts.body ==> r.value.dependencies == DependencyList(node, env.globals).value
  {
    var ns := NamespaceAt(env.ranges, node.loc.line);
    var deps :- if opts.body then DependencyList(node, env.globals) else Ok([]);
    if ns.None? then Err(TypeError("namespace is undefined"))
    else Ok(MethodPackageFrom(env, name, node, opts, ns.value, deps))
  }

  /** The method's package once its namespace `ns` is known and the walk
      (when it has a body) has returned `deps`. */
  function MethodPackageFrom(env: ModuleEnv, name: string, node: Node, opts: MethodOpts, ns: string, deps: seq<string>): (p: Package)
    ensures p.path == ToLower(ns) && p.exports == Single("Sugar." + ns + "." + name)
    ensures opts.body && opts.define.Some? ==>
      StartsWith(p.body, "Sugar." + ns + "." + opts.define.value + "({")
  {
    var text := if opts.body then NodeBody(env.source, node) else "";
    var body := if opts.body && opts.define.Some? then
      "Sugar." + ns + "." + opts.define.value + "({\n\n" + text + "\n\n});"
    else text;
    Package(name, None, None, true, ToLower(ns), body, "", env.moduleName,
      Single("Sugar." + ns + "." + name), deps, opts.required, "")
  }

  /** getFullMethodKey: the key a method is registered under. */
  function MethodKey(env: ModuleEnv, node: Node, name: string): string
  {
    FullMethodKey(NamespaceAt(env.ranges, node.loc.line), name)
  }
}
