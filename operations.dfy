/** What each top-level statement does to the two registries
    (gulpfile.js:677-690, 746-826, 865-1021), stated as functions from the
    registries before to the registries after, or to the error that stops
    the run. The class in registry.dfy carries out the same steps in place
    and is proved to reach exactly these results. */
module Operations {
  import opened Prelude
  import opened Ast
  import opened Namespaces
  import opened Dependencies
  import opened Classifier
  import opened Packages

  // ---------------------------------------------------------------------
  // Top-level units.

  /** addTopLevel: stores the unit's package under its name; a later unit of
      the same name replaces an earlier one. */
  function AddTopLevel(t: Tables, env: ModuleEnv, name: string, node: Node, u: UnitType): (r: Result<Tables>)
    ensures r.Err? <==> UnitPackage(env, name, node, u).Err?
    ensures r.Ok? ==> r.value.sugarMethods == t.sugarMethods
    ensures r.Ok? ==> Lookup(r.value.topLevel, name) == Some(UnitPackage(env, name, node, u).value)
    ensures r.Ok? ==> forall k | k != name :: Lookup(r.value.topLevel, k) == Lookup(t.topLevel, k)
    ensures r.Ok? ==> Keys(t.topLevel) <= Keys(r.value.topLevel) && name in Keys(r.value.topLevel)
  {
    var p :- UnitPackage(env, name, node, u);
    LookupPutAll(t.topLevel, name, p);
    Ok(t.(topLevel := Put(t.topLevel, name, p)))
  }

  /** LookupPut for every other key at once. */
  lemma LookupPutAll<V>(d: seq<Entry<V>>, key: string, value: V)
    ensures Lookup(Put(d, key, value), key) == Some(value)
    ensures forall k | k != key :: Lookup(Put(d, key, value), k) == Lookup(d, k)
  {
    LookupPut(d, key, value, key);
    forall k | k != key
      ensures Lookup(Put(d, key, value), k) == Lookup(d, k)
    {
      LookupPut(d, key, value, k);
    }
  }

  /** The type addVars gives a declared name. */
  function DeclaredUnitType(name: string): UnitType
  {
    if IsConstantName(name) then ConstantsUnit else VarsUnit
  }

  /** addVars over the declarators of one `var` statement, in order. */
  function AddDeclarators(t: Tables, env: ModuleEnv, ds: seq<Node>): Result<Tables>
    decreases |ds|
  {
    if ds == [] then Ok(t)
    else if !ds[0].kind.VariableDeclarator? then Err(TypeError("declarator has no id"))
    else
      var t' :- AddTopLevel(t, env, ds[0].kind.id, ds[0], DeclaredUnitType(ds[0].kind.id));
      AddDeclarators(t', env, ds[1..])
  }

  /** Every declared name ends up registered, after the names registered
      before; the method registry is untouched. */
  lemma {:induction false} AddDeclaratorsRegistersAll(t: Tables, env: ModuleEnv, ds: seq<Node>)
    requires AddDeclarators(t, env, ds).Ok?
    ensures AddDeclarators(t, env, ds).value.sugarMethods == t.sugarMethods
    ensures Keys(t.topLevel) <= Keys(AddDeclarators(t, env, ds).value.topLevel)
    ensures forall i | 0 <= i < |ds| ::
      ds[i].kind.VariableDeclarator? && ds[i].kind.id in Keys(AddDeclarators(t, env, ds).value.topLevel)
    decreases |ds|
  {
    if ds != [] {
      var added := AddTopLevel(t, env, ds[0].kind.id, ds[0], DeclaredUnitType(ds[0].kind.id));
      var t' := added.value;
      assert AddDeclarators(t, env, ds) == AddDeclarators(t', env, ds[1..]);
      AddDeclaratorsRegistersAll(t', env, ds[1..]);
      var r := AddDeclarators(t, env, ds).value;
      assert Keys(t.topLevel) <= Keys(t'.topLevel) <= Keys(r.topLevel);
      assert ds[0].kind.id in Keys(r.topLevel);
      forall i | 0 <= i < |ds|
        ensures ds[i].kind.VariableDeclarator? && ds[i].kind.id in Keys(r.topLevel)
      {
        if i > 0 {
          assert ds[i] == ds[1..][i - 1];
        }
      }
    }
  }

  /** addInternal. */
  function AddInternal(t: Tables, env: ModuleEnv, node: Node): Result<Tables>
    requires IsFunctionDeclaration(node)
  {
    AddTopLevel(t, env, node.kind.id, node, InternalUnit)
  }

  // ---------------------------------------------------------------------
  // Methods.

  /** addSugarMethod: stores the method's package under `namespace|name`. */
  function AddSugarMethod(t: Tables, env: ModuleEnv, name: string, node: Node, opts: MethodOpts): (r: Result<Tables>)
    ensures r.Err? <==> MethodPackage(env, name, node, opts).Err?
    ensures r.Ok? ==> r.value.topLevel == t.topLevel
    ensures r.Ok? ==> Lookup(r.value.sugarMethods, MethodKey(env, node, name)) == Some(MethodPackage(env, name, node, opts).value)
  {
    var p :- MethodPackage(env, name, node, opts);
    LookupPutAll(t.sugarMethods, MethodKey(env, node, name), p);
    Ok(t.(sugarMethods := Put(t.sugarMethods, MethodKey(env, node, name), p)))
  }

  /** A method is registered only under a known namespace, as
      `namespace|name`, and exports `Sugar.namespace.name`. */
  lemma MethodRegisteredUnderNamespace(t: Tables, env: ModuleEnv, name: string, node: Node, opts: MethodOpts)
    requires AddSugarMethod(t, env, name, node, opts).Ok?
    ensures NamespaceAt(env.ranges, node.loc.line).Some?
    ensures var ns := NamespaceAt(env.ranges, node.loc.line).value;
      var stored := Lookup(AddSugarMethod(t, env, name, node, opts).value.sugarMethods, ns + "|" + name);
      stored.Some? && stored.value.exports == Single("Sugar." + ns + "." + name)
  {
  }

  /** `node.expression.arguments[1].properties`; anything but an object
      literal there makes the forEach a TypeError. */
  function BlockProperties(node: Node): (r: Result<seq<Node>>)
    requires IsCallStatement(node)
    ensures r.Ok? <==> |CallArguments(node)| >= 2 && CallArguments(node)[1].kind.ObjectExpression?
  {
    var args := CallArguments(node);
    if |args| >= 2 && args[1].kind.ObjectExpression? then Ok(args[1].kind.properties)
    else Err(TypeError("arguments[1].properties is undefined"))
  }

  /** One addSugarMethod per property of a define block, named by the
      property's key. */
  function AddBlockMethods(t: Tables, env: ModuleEnv, props: seq<Node>, opts: MethodOpts): Result<Tables>
    decreases |props|
  {
    if props == [] then Ok(t)
    else
      var p := props[0];
      if !(p.kind.Property? && StringValueOf(p.kind.key).Some?) then Err(TypeError("method key is not a string"))
      else
        var t' :- AddSugarMethod(t, env, StringValueOf(p.kind.key).value, p, opts);
        AddBlockMethods(t', env, props[1..], opts)
  }

  /** One addSugarMethod per name, all for the same node. */
  function AddNamedMethods(t: Tables, env: ModuleEnv, names: seq<string>, node: Node, opts: MethodOpts): Result<Tables>
    decreases |names|
  {
    if names == [] then Ok(t)
    else
      var t' :- AddSugarMethod(t, env, names[0], node, opts);
      AddNamedMethods(t', env, names[1..], node, opts)
  }

  /** Registering methods never touches the unit registry. */
  lemma {:induction false} AddBlockMethodsKeepsUnits(t: Tables, env: ModuleEnv, props: seq<Node>, opts: MethodOpts)
    requires AddBlockMethods(t, env, props, opts).Ok?
    ensures AddBlockMethods(t, env, props, opts).value.topLevel == t.topLevel
    decreases |props|
  {
    if props != [] {
      var p := props[0];
      var t' := AddSugarMethod(t, env, StringValueOf(p.kind.key).value, p, opts).value;
      AddBlockMethodsKeepsUnits(t', env, props[1..], opts);
    }
  }

  lemma {:induction false} AddNamedMethodsKeepsUnits(t: Tables, env: ModuleEnv, names: seq<string>, node: Node, opts: MethodOpts)
    requires AddNamedMethods(t, env, names, node, opts).Ok?
    ensures AddNamedMethods(t, env, names, node, opts).value.topLevel == t.topLevel
    decreases |names|
  {
    if names != [] {
      var t' := AddSugarMethod(t, env, names[0], node, opts).value;
      AddNamedMethodsKeepsUnits(t', env, names[1..], node, opts);
    }
  }

  /** processMethodBlock: every property becomes a method with a body,
      wrapped in the block's define call. */
  function ProcessMethodBlock(t: Tables, env: ModuleEnv, node: Node): Result<Tables>
    requires IsMethodBlock(node)
  {
    var props :- BlockProperties(node);
    AddBlockMethods(t, env, props, MethodOpts(true, Some(CalleeName(node).value), []))
  }

  /** `arguments[1].value` and `arguments[2].value` of an alias call: the
      new method's name and the name of the method it aliases. */
  function AliasNames(node: Node): (r: Result<(string, string)>)
    requires IsCallStatement(node)
    ensures r.Ok? <==> (|CallArguments(node)| >= 3
      && StringValueOf(CallArguments(node)[1]).Some? && StringValueOf(CallArguments(node)[2]).Some?)
  {
    var args := CallArguments(node);
    if |args| < 3 || StringValueOf(args[1]).None? || StringValueOf(args[2]).None? then
      Err(TypeError("alias name is not a string"))
    else Ok((StringValueOf(args[1]).value, StringValueOf(args[2]).value))
  }

  /** processAliasExpression: `alias(target, name, sourceName)` registers
      `name` with the call as its body, requiring the method it aliases. */
  function ProcessAlias(t: Tables, env: ModuleEnv, node: Node): Result<Tables>
    requires IsAliasExpression(node)
  {
    var (name, source) :- AliasNames(node);
    AddSugarMethod(t, env, name, node, MethodOpts(true, None, [MethodKey(env, node, source)]))
  }

  // ---------------------------------------------------------------------
  // Member assignments.

  /** The object at the root of `a.b.c`: the loop that follows `.object`. */
  function RootObject(n: Node): (r: Node)
    ensures !r.kind.MemberExpression?
    decreases n
  {
    if n.kind.MemberExpression? then RootObject(n.kind.obj) else n
  }

  /** `xs.filter(function(d) { return d !== x; })`. */
  function Without(xs: seq<string>, x: string): (r: seq<string>)
    ensures forall y :: y in r <==> y in xs && y != x
    ensures |r| <= |xs|
  {
    if xs == [] then []
    else if xs[0] == x then Without(xs[1..], x)
    else [xs[0]] + Without(xs[1..], x)
  }

  /** The registry key of the unit a member assignment extends: the root's
      name, or "undefined" (the key `topLevel[undefined]` reads) when the
      root is not an identifier. */
  function AssignedUnitKey(node: Node): string
    requires IsMemberAssignment(node)
  {
    match NameOf(RootObject(node.kind.expression.kind.lhs))
    case Some(name) => name
    case None => "undefined"
  }

  /** processTopLevelMemberAssignment: the assignment's text is appended to
      the body of the unit it assigns into, and the unit gains the
      assignment's dependencies (except itself). The walk comes first; a
      unit that was never declared is a TypeError. */
  function ProcessMemberAssignment(t: Tables, env: ModuleEnv, node: Node): Result<Tables>
    requires IsMemberAssignment(node)
  {
    var root := NameOf(RootObject(node.kind.expression.kind.lhs));
    var deps :- DependencyList(node.kind.expression.kind.rhs, env.globals);
    var extra := if root.Some? then Without(deps, root.value) else deps;
    var key := AssignedUnitKey(node);
    match Lookup(t.topLevel, key)
    case None => Err(TypeError("package is undefined"))
    case Some(p) =>
      Ok(t.(topLevel := Put(t.topLevel, key, p.(dependencies := p.dependencies + extra,
                                                 body := AppendBlock(p.body, NodeBody(env.source, node))))))
  }

  /** A member assignment only extends the unit it assigns into: the old
      dependencies stay first, the new ones are exactly the right-hand
      side's minus the unit itself, the statement follows the old body, and
      every other entry is unchanged. */
  lemma MemberAssignmentExtends(t: Tables, env: ModuleEnv, node: Node)
    requires IsMemberAssignment(node)
    requires ProcessMemberAssignment(t, env, node).Ok?
    ensures var key := AssignedUnitKey(node);
      var before := Lookup(t.topLevel, key);
      var after := Lookup(ProcessMemberAssignment(t, env, node).value.topLevel, key);
      before.Some? && after.Some?
      && before.value.dependencies <= after.value.dependencies
      && (forall d :: d in after.value.dependencies[|before.value.dependencies|..] <==>
            d in DependencyList(node.kind.expression.kind.rhs, env.globals).value && d != key)
      && after.value.body == AppendBlock(before.value.body, NodeBody(env.source, node))
      && after.value.exports == before.value.exports && after.value.name == before.value.name
    ensures forall k | k != AssignedUnitKey(node) ::
      Lookup(ProcessMemberAssignment(t, env, node).value.topLevel, k) == Lookup(t.topLevel, k)
    ensures ProcessMemberAssignment(t, env, node).value.sugarMethods == t.sugarMethods
  {
    var key := AssignedUnitKey(node);
    var p := Lookup(t.topLevel, key).value;
    var deps := DependencyList(node.kind.expression.kind.rhs, env.globals).value;
    var root := NameOf(RootObject(node.kind.expression.kind.lhs));
    var extra := if root.Some? then Without(deps, root.value) else deps;
    var q := p.(dependencies := p.dependencies + extra, body := AppendBlock(p.body, NodeBody(env.source, node)));
    LookupPutAll(t.topLevel, key, q);
    assert q.dependencies[|p.dependencies|..] == extra;
    if root.None? {
      DependencyListExact(node.kind.expression.kind.rhs, env.globals, "undefined");
    }
  }

  // ---------------------------------------------------------------------
  // Build expressions.

  /** A variable declared without an initial value: `var x;`. */
  predicate IsUnassigned(p: Package)
  {
    p.node.Some? && p.node.value.kind.VariableDeclarator? && p.node.value.kind.init.None?
  }

  /** Whether `topLevel[d].node.type` can be read for every dependency `d`. */
  predicate AllDeclared(top: seq<Entry<Package>>, deps: seq<string>)
  {
    forall d | d in deps :: Lookup(top, d).Some? && Lookup(top, d).value.node.Some?
  }

  /** The unassigned variables among `deps`, in order, with their keys. */
  function UnassignedVars(top: seq<Entry<Package>>, deps: seq<string>): (r: seq<Entry<Package>>)
    ensures forall i | 0 <= i < |r| :: r[i].key in deps && Lookup(top, r[i].key) == Some(r[i].value) && IsUnassigned(r[i].value)
    decreases |deps|
  {
    if deps == [] then []
    else
      var init := deps[..|deps| - 1];
      var d := deps[|deps| - 1];
      assert deps == init + [d];
      var vs := UnassignedVars(top, init);
      match Lookup(top, d)
      case Some(p) => if IsUnassigned(p) then vs + [Entry(d, p)] else vs
      case None => vs
  }

  /** Every unassigned variable among the dependencies is collected. */
  lemma {:induction false} UnassignedVarsComplete(top: seq<Entry<Package>>, deps: seq<string>, d: string)
    requires d in deps && Lookup(top, d).Some? && IsUnassigned(Lookup(top, d).value)
    ensures exists i | 0 <= i < |UnassignedVars(top, deps)| :: UnassignedVars(top, deps)[i].key == d
    decreases |deps|
  {
    var n := |deps| - 1;
    var init := deps[..n];
    assert deps == init + [deps[n]];
    var vs := UnassignedVars(top, init);
    if deps[n] == d {
      assert UnassignedVars(top, deps)[|vs|].key == d;
    } else {
      assert d in init;
      UnassignedVarsComplete(top, init, d);
      var i :| 0 <= i < |vs| && vs[i].key == d;
      assert UnassignedVars(top, deps)[i] == vs[i];
    }
  }

  /** The dependencies the build function keeps: all but the unassigned
      variables, in order. */
  function KeptDeps(top: seq<Entry<Package>>, deps: seq<string>): (r: seq<string>)
    ensures forall d :: d in r <==> d in deps && !(Lookup(top, d).Some? && IsUnassigned(Lookup(top, d).value))
    decreases |deps|
  {
    if deps == [] then []
    else
      var init := deps[..|deps| - 1];
      var d := deps[|deps| - 1];
      assert deps == init + [d];
      var kept := KeptDeps(top, init);
      if Lookup(top, d).Some? && IsUnassigned(Lookup(top, d).value) then kept else kept + [d]
  }

  function Names(vs: seq<Entry<Package>>): (r: seq<string>)
    ensures |r| == |vs| && forall i | 0 <= i < |vs| :: r[i] == vs[i].value.name
  {
    seq(|vs|, i requires 0 <= i < |vs| => vs[i].value.name)
  }

  function Bodies(vs: seq<Entry<Package>>): (r: seq<string>)
    ensures |r| == |vs| && forall i | 0 <= i < |vs| :: r[i] == vs[i].value.body
  {
    seq(|vs|, i requires 0 <= i < |vs| => vs[i].value.body)
  }

  /** One more variable marked: the aliases, names and bodies of the longer
      prefix extend those of the shorter one by that variable. */
  lemma AliasStep(top: seq<Entry<Package>>, vs: seq<Entry<Package>>, i: nat, g: string)
    requires i < |vs|
    ensures SetAliases(top, vs[..i + 1], g) == Put(SetAliases(top, vs[..i], g), vs[i].key, vs[i].value.(alias := g))
    ensures Names(vs[..i + 1]) == Names(vs[..i]) + [vs[i].value.name]
    ensures Bodies(vs[..i + 1]) == Bodies(vs[..i]) + [vs[i].value.body]
  {
    var pre, next := vs[..i], vs[..i + 1];
    assert next[..|next| - 1] == pre;
    var ns := Names(pre) + [vs[i].value.name];
    assert |Names(next)| == |ns|;
    forall k | 0 <= k < |ns|
      ensures Names(next)[k] == ns[k]
    {
      if k < i { assert next[k] == pre[k]; }
    }
    var bs := Bodies(pre) + [vs[i].value.body];
    assert |Bodies(next)| == |bs|;
    forall k | 0 <= k < |bs|
      ensures Bodies(next)[k] == bs[k]
    {
      if k < i { assert next[k] == pre[k]; }
    }
  }

  /** `v.alias = groupName` for each unassigned variable, in order. */
  function SetAliases(top: seq<Entry<Package>>, vs: seq<Entry<Package>>, g: string): seq<Entry<Package>>
    decreases |vs|
  {
    if vs == [] then top
    else
      var last := vs[|vs| - 1];
      Put(SetAliases(top, vs[..|vs| - 1], g), last.key, last.value.(alias := g))
  }

  /** Every entry of `vs` is the one stored under its key in `top`. */
  predicate Stored(top: seq<Entry<Package>>, vs: seq<Entry<Package>>)
  {
    forall j | 0 <= j < |vs| :: Lookup(top, vs[j].key) == Some(vs[j].value)
  }

  lemma StoredPrefix(top: seq<Entry<Package>>, vs: seq<Entry<Package>>, n: nat)
    requires n <= |vs|
    requires Stored(top, vs)
    ensures Stored(top, vs[..n])
  {
    assert forall j | 0 <= j < n :: vs[..n][j] == vs[j];
  }

  /** Every variable of the group gets the group's name as its alias and
      otherwise keeps its package. */
  lemma {:induction false} SetAliasesMarks(top: seq<Entry<Package>>, vs: seq<Entry<Package>>, g: string, i: nat)
    requires i < |vs|
    requires Stored(top, vs)
    ensures Lookup(SetAliases(top, vs, g), vs[i].key) == Some(vs[i].value.(alias := g))
    decreases |vs|
  {
    var n := |vs| - 1;
    var init := vs[..n];
    var last := vs[n];
    var key := vs[i].key;
    var before := SetAliases(top, init, g);
    if i == n {
      LookupPut(before, key, vs[i].value.(alias := g), key);
    } else if last.key == key {
      assert Lookup(top, last.key) == Some(last.value);
      assert Lookup(top, key) == Some(vs[i].value);
      LookupPut(before, key, last.value.(alias := g), key);
    } else {
      assert init[i] == vs[i];
      StoredPrefix(top, vs, n);
      SetAliasesMarks(top, init, g, i);
      LookupPut(before, last.key, last.value.(alias := g), key);
    }
  }

  /** No entry outside the group changes. */
  lemma {:induction false} SetAliasesOthers(top: seq<Entry<Package>>, vs: seq<Entry<Package>>, g: string, k: string)
    requires forall j | 0 <= j < |vs| :: vs[j].key != k
    ensures Lookup(SetAliases(top, vs, g), k) == Lookup(top, k)
    decreases |vs|
  {
    if vs != [] {
      var n := |vs| - 1;
      var init := vs[..n];
      LookupPut(SetAliases(top, init, g), vs[n].key, vs[n].value.(alias := g), k);
      assert forall j | 0 <= j < n :: init[j] == vs[j];
      SetAliasesOthers(top, init, g, k);
    }
  }

  /** The package a build function with several unassigned variables
      creates: their declarations, then the build function, then the call,
      exporting every variable. */
  function GroupPackage(env: ModuleEnv, g: string, fn: Package, fnCall: string, vs: seq<Entry<Package>>, keep: seq<string>): Package
  {
    Package(g, None, None, false, PathJoin(env.moduleName, "vars"),
      JoinSep(Bodies(vs), "\n") + "\n\n" + fn.body, fnCall, env.moduleName, Members(Names(vs)), keep, [], "")
  }

  /** The three ways a build call is resolved, by the number of unassigned
      variables among the build function's dependencies: the unit registry
      afterwards and the name of the package the built methods require. */
  function ResolveBuild(top: seq<Entry<Package>>, env: ModuleEnv, fnKey: string, fn: Package, fnCall: string,
                        vs: seq<Entry<Package>>, keep: seq<string>): (seq<Entry<Package>>, string)
  {
    if |vs| == 0 then
      (Put(top, fnKey, fn.(init := AppendBlock(fn.init, fnCall), exports := NoExports)), fn.name)
    else if |vs| == 1 then
      var v := vs[0].value;
      (Put(top, vs[0].key, v.(body := v.body + "\n\n" + fn.body, init := AppendBlock(v.init, fnCall),
                             dependencies := v.dependencies + keep)), v.name)
    else
      var g := GroupName(fn.name);
      (Put(SetAliases(top, vs, g), g, GroupPackage(env, g, fn, fnCall, vs, keep)), g)
  }

  /** Whether a literal argument is truthy. */
  predicate LiteralTruthy(v: Value)
  {
    match v
    case Str(s) => s != ""
    case Num(n) => n != 0
    case Bool(b) => b
    case Null => false
    case RegExp(_) => true
  }

  /** The method names of a "Similar" define call: split from a truthy
      literal argument (only a string can be split), otherwise read from the
      comment above the call. */
  function SimilarNames(env: ModuleEnv, node: Node): (r: Result<seq<string>>)
    requires IsCallStatement(node)
  {
    var args := CallArguments(node);
    if |args| < 2 then Err(TypeError("argNode is undefined"))
    else if args[1].kind.Literal? && LiteralTruthy(args[1].kind.value) then
      if args[1].kind.value.Str? then Ok(Split(args[1].kind.value.s, ","))
      else Err(TypeError("split is not a function"))
    else
      match NearestComment(env.comments, node.loc.line)
      case None => Err(TypeError("comment is undefined"))
      case Some(c) => Ok(CommentMethodNames(c.text))
  }

  /** A "Similar" call with a string argument defines exactly the
      comma-separated names, with no comment consulted. */
  lemma SimilarNamesFromLiteral(env: ModuleEnv, node: Node, names: seq<string>)
    requires IsCallStatement(node) && |CallArguments(node)| >= 2
    requires |names| > 0 && forall i | 0 <= i < |names| :: names[i] != "" && !Contains(names[i], ",")
    requires CallArguments(node)[1].kind == Literal(Str(JoinSep(names, ",")))
    ensures SimilarNames(env, node) == Ok(names)
  {
    SplitJoinPieces(names, ",");
  }

  /** One statement of the build function's body: define blocks,
      "Similar" blocks and alias calls inside it register methods without a
      body that require the package the build resolved to. */
  function ScanStatement(t: Tables, env: ModuleEnv, s: Node, main: string): Result<Tables>
  {
    if IsMethodBlock(s) then
      var props :- BlockProperties(s);
      AddBlockMethods(t, env, props, MethodOpts(false, None, [main]))
    else if IsSimilarMethodBlock(s) then
      var names :- SimilarNames(env, s);
      AddNamedMethods(t, env, names, s, MethodOpts(false, None, [main]))
    else if IsAliasExpression(s) then
      var (name, source) :- AliasNames(s);
      AddSugarMethod(t, env, name, s, MethodOpts(false, None, [MethodKey(env, s, source), main]))
    else Ok(t)
  }

  function ScanBuildBody(t: Tables, env: ModuleEnv, stmts: seq<Node>, main: string): Result<Tables>
    decreases |stmts|
  {
    if stmts == [] then Ok(t)
    else
      var t' :- ScanStatement(t, env, stmts[0], main);
      ScanBuildBody(t', env, stmts[1..], main)
  }

  /** Scanning the build function registers methods only. */
  lemma {:induction false} ScanBuildBodyKeepsUnits(t: Tables, env: ModuleEnv, stmts: seq<Node>, main: string)
    requires ScanBuildBody(t, env, stmts, main).Ok?
    ensures ScanBuildBody(t, env, stmts, main).value.topLevel == t.topLevel
    decreases |stmts|
  {
    if stmts != [] {
      var s := stmts[0];
      var t' := ScanStatement(t, env, s, main).value;
      if IsMethodBlock(s) {
        AddBlockMethodsKeepsUnits(t, env, BlockProperties(s).value, MethodOpts(false, None, [main]));
      } else if IsSimilarMethodBlock(s) {
        AddNamedMethodsKeepsUnits(t, env, SimilarNames(env, s).value, s, MethodOpts(false, None, [main]));
      }
      ScanBuildBodyKeepsUnits(t', env, stmts[1..], main);
    }
  }

  /** processBuildExpression. */
  function ProcessBuild(t: Tables, env: ModuleEnv, node: Node): Result<Tables>
    requires IsBuildExpression(node) == Ok(true)
  {
    var fnKey := CalleeName(node).value;
    var fnCall := NodeBody(env.source, node);
    match Lookup(t.topLevel, fnKey)
    case None => Err(TypeError("fnPackage is undefined"))
    case Some(fn) =>
      if !AllDeclared(t.topLevel, fn.dependencies) then Err(TypeError("package.node is undefined"))
      else
        var vs := UnassignedVars(t.topLevel, fn.dependencies);
        var (top, main) := ResolveBuild(t.topLevel, env, fnKey, fn, fnCall, vs, KeptDeps(t.topLevel, fn.dependencies));
        if !(fn.node.Some? && fn.node.value.kind.FunctionDeclaration?) then Err(TypeError("node.body.body is undefined"))
        else ScanBuildBody(t.(topLevel := top), env, fn.node.value.kind.body, main)
  }

  /** With no unassigned variable the build function itself becomes the
      package the methods require: its initializer gains the call, it
      exports nothing, and nothing else changes. */
  lemma BuildWithoutUnassigned(top: seq<Entry<Package>>, env: ModuleEnv, fnKey: string, fn: Package, fnCall: string, keep: seq<string>)
    ensures var (top', main) := ResolveBuild(top, env, fnKey, fn, fnCall, [], keep);
      main == fn.name
      && Lookup(top', fnKey).Some?
      && Lookup(top', fnKey).value.exports == NoExports
      && Lookup(top', fnKey).value.body == fn.body
      && Lookup(top', fnKey).value.dependencies == fn.dependencies
      && Lookup(top', fnKey).value.init == AppendBlock(fn.init, fnCall)
      && (forall k | k != fnKey :: Lookup(top', k) == Lookup(top, k))
  {
    var p := fn.(init := AppendBlock(fn.init, fnCall), exports := NoExports);
    LookupPutAll(top, fnKey, p);
  }

  /** With exactly one unassigned variable the build function and its call
      move into that variable's package, which keeps its exports and gains
      the build function's other dependencies; nothing else changes. */
  lemma BuildWithOneUnassigned(top: seq<Entry<Package>>, env: ModuleEnv, fnKey: string, fn: Package, fnCall: string,
                               v: Entry<Package>, keep: seq<string>)
    ensures var (top', main) := ResolveBuild(top, env, fnKey, fn, fnCall, [v], keep);
      var after := Lookup(top', v.key);
      main == v.value.name
      && after.Some?
      && after.value.body == v.value.body + "\n\n" + fn.body
      && after.value.init == AppendBlock(v.value.init, fnCall)
      && after.value.exports == v.value.exports
      && v.value.dependencies <= after.value.dependencies
      && (forall d :: d in after.value.dependencies <==> d in v.value.dependencies || d in keep)
      && (forall k | k != v.key :: Lookup(top', k) == Lookup(top, k))
  {
    var q := v.value.(body := v.value.body + "\n\n" + fn.body, init := AppendBlock(v.value.init, fnCall),
                      dependencies := v.value.dependencies + keep);
    LookupPutAll(top, v.key, q);
  }

  /** With several unassigned variables a package named after the build
      function holds them all: its body is the variables' declarations
      followed by the build function, it lives in `<module>/vars`, it
      exports every variable and depends on the build function's other
      dependencies, every variable becomes an alias of it, and every other
      unit is unchanged. */
  lemma {:induction false} BuildWithSeveralUnassigned(top: seq<Entry<Package>>, env: ModuleEnv, fnKey: string, fn: Package,
                                                      fnCall: string, vs: seq<Entry<Package>>, keep: seq<string>)
    requires |vs| > 1 && Stored(top, vs)
    requires forall j | 0 <= j < |vs| :: vs[j].key != GroupName(fn.name)
    ensures var (top', main) := ResolveBuild(top, env, fnKey, fn, fnCall, vs, keep);
      var group := Lookup(top', GroupName(fn.name));
      main == GroupName(fn.name)
      && group.Some?
      && group.value.name == GroupName(fn.name)
      && group.value.body == JoinSep(Bodies(vs), "\n") + "\n\n" + fn.body
      && group.value.path == PathJoin(env.moduleName, "vars")
      && group.value.moduleName == env.moduleName
      && group.value.exports == Members(Names(vs))
      && group.value.dependencies == keep
      && group.value.init == fnCall
      && group.value.alias == ""
      && (forall i | 0 <= i < |vs| :: Lookup(top', vs[i].key) == Some(vs[i].value.(alias := GroupName(fn.name))))
      && (forall k | k != GroupName(fn.name) && (forall j | 0 <= j < |vs| :: vs[j].key != k) ::
            Lookup(top', k) == Lookup(top, k))
  {
    var g := GroupName(fn.name);
    var marked := SetAliases(top, vs, g);
    var pkg := GroupPackage(env, g, fn, fnCall, vs, keep);
    LookupPutAll(marked, g, pkg);
    forall i | 0 <= i < |vs|
      ensures Lookup(Put(marked, g, pkg), vs[i].key) == Some(vs[i].value.(alias := g))
    {
      SetAliasesMarks(top, vs, g, i);
    }
    forall k | k != g && (forall j | 0 <= j < |vs| :: vs[j].key != k)
      ensures Lookup(Put(marked, g, pkg), k) == Lookup(top, k)
    {
      SetAliasesOthers(top, vs, g, k);
    }
  }

  /** Every unassigned variable found among the build function's
      dependencies is the unit the registry holds under its name. */
  lemma UnassignedVarsStored(top: seq<Entry<Package>>, deps: seq<string>)
    ensures Stored(top, UnassignedVars(top, deps))
  {
  }

  /** Everything a build call changes in the unit registry is decided before
      its body is scanned: the scan registers methods only. */
  lemma ProcessBuildUnits(t: Tables, env: ModuleEnv, node: Node)
    requires IsBuildExpression(node) == Ok(true)
    requires ProcessBuild(t, env, node).Ok?
    ensures var fn := Lookup(t.topLevel, CalleeName(node).value).value;
      ProcessBuild(t, env, node).value.topLevel ==
        ResolveBuild(t.topLevel, env, CalleeName(node).value, fn, NodeBody(env.source, node),
                     UnassignedVars(t.topLevel, fn.dependencies), KeptDeps(t.topLevel, fn.dependencies)).0
  {
    var fnKey := CalleeName(node).value;
    var fn := Lookup(t.topLevel, fnKey).value;
    var vs := UnassignedVars(t.topLevel, fn.dependencies);
    var (top, main) := ResolveBuild(t.topLevel, env, fnKey, fn, NodeBody(env.source, node), vs, KeptDeps(t.topLevel, fn.dependencies));
    ScanBuildBodyKeepsUnits(t.(topLevel := top), env, fn.node.value.kind.body, main);
  }

  // ---------------------------------------------------------------------
  // Top-level statements.

  /** processTopLevelNode: the statement is handled by the operation for
      the first shape it matches. */
  function ProcessTopLevelNode(t: Tables, env: ModuleEnv, node: Node): (r: Result<Tables>)
    ensures Classify(node).Err? ==> r.Err? && r.error == Classify(node).error
    ensures IsUseStrict(node) ==> r == Ok(t)
  {
    match Classify(node)
    case Err(e) => Err(e)
    case Ok(shape) =>
      match shape
      case UseStrictShape => Ok(t)
      case VarShape => AddDeclarators(t, env, node.kind.declarations)
      case FunctionShape => AddInternal(t, env, node)
      case MethodBlockShape => ProcessMethodBlock(t, env, node)
      case MemberAssignmentShape => ProcessMemberAssignment(t, env, node)
      case AliasShape => ProcessAlias(t, env, node)
      case BuildShape => ProcessBuild(t, env, node)
  }

  /** Which registry a top-level statement may change: declarations and
      member assignments touch only the units, method blocks and aliases
      only the methods. */
  lemma ProcessTopLevelNodeFrame(t: Tables, env: ModuleEnv, node: Node)
    requires ProcessTopLevelNode(t, env, node).Ok?
    ensures Classify(node) in {Ok(VarShape), Ok(FunctionShape), Ok(MemberAssignmentShape)} ==>
      ProcessTopLevelNode(t, env, node).value.sugarMethods == t.sugarMethods
    ensures Classify(node) in {Ok(MethodBlockShape), Ok(AliasShape)} ==>
      ProcessTopLevelNode(t, env, node).value.topLevel == t.topLevel
  {
    match Classify(node)
    case Ok(VarShape) =>
      AddDeclaratorsRegistersAll(t, env, node.kind.declarations);
    case Ok(MemberAssignmentShape) =>
      MemberAssignmentExtends(t, env, node);
    case Ok(MethodBlockShape) =>
      AddBlockMethodsKeepsUnits(t, env, BlockProperties(node).value, MethodOpts(true, Some(CalleeName(node).value), []));
    case _ =>
  }

  /** `output.body.forEach(processTopLevelNode)`: the statements in order,
      stopping at the first that throws. */
  function ProcessStatements(t: Tables, env: ModuleEnv, stmts: seq<Node>): Result<Tables>
    decreases |stmts|
  {
    if stmts == [] then Ok(t)
    else
      var t' :- ProcessTopLevelNode(t, env, stmts[0]);
      ProcessStatements(t', env, stmts[1..])
  }

  /** Processing two runs of statements one after the other is processing
      their concatenation. */
  lemma {:induction false} ProcessStatementsConcat(t: Tables, env: ModuleEnv, a: seq<Node>, b: seq<Node>)
    ensures ProcessStatements(t, env, a + b) ==
      match ProcessStatements(t, env, a)
      case Err(e) => Err(e)
      case Ok(t') => ProcessStatements(t', env, b)
    decreases |a|
  {
    if a == [] {
      assert a + b == b;
    } else {
      assert (a + b)[0] == a[0];
      assert (a + b)[1..] == a[1..] + b;
      var step := ProcessTopLevelNode(t, env, a[0]);
      if step.Ok? {
        ProcessStatementsConcat(step.value, env, a[1..], b);
        assert ProcessStatements(t, env, a + b) == ProcessStatements(step.value, env, a[1..] + b);
        assert ProcessStatements(t, env, a) == ProcessStatements(step.value, env, a[1..]);
      } else {
        assert ProcessStatements(t, env, a + b) == Err(step.error);
        assert ProcessStatements(t, env, a) == Err(step.error);
      }
    }
  }

  /** A statement of unknown shape stops the module with
      "Unknown Top Level Node", whatever follows it. */
  lemma UnknownStatementStops(t: Tables, env: ModuleEnv, before: seq<Node>, node: Node, after: seq<Node>)
    requires ProcessStatements(t, env, before).Ok?
    requires forall s: Shape :: !Matches(node, s)
    requires IsBuildExpression(node).Ok?
    ensures ProcessStatements(t, env, before + [node] + after) == Err(UnknownTopLevelNode(TypeName(node.kind)))
  {
    ClassifyFailures(node);
    ProcessStatementsConcat(t, env, before, [node] + after);
    assert before + [node] + after == before + ([node] + after);
    assert ([node] + after)[1..] == after;
  }
}
