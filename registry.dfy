/** The two registries parseModule fills in place (gulpfile.js:445-1021):
    `topLevel`, the units keyed by name, and `sugarMethods`, the methods
    keyed by `namespace|name`. Each operation here changes the registries
    step by step as the script does, and is proved to reach exactly the
    tables the corresponding function of Operations computes from the
    tables before the call; when the function fails, the method fails with
    the same error (what it has changed by then is left unspecified, as the
    run stops there). */
module Registry {
  import opened Prelude
  import opened Ast
  import opened Namespaces
  import opened Dependencies
  import opened Classifier
  import opened Packages
  import opened Operations

  /** The method's outcome agrees with the specification's result, and on
      success the registries hold exactly the specified tables. */
  predicate Reached(r: Outcome, spec: Result<Tables>, now: Tables)
  {
    (r.Done? <==> spec.Ok?)
    && (r.Failed? ==> spec.Err? && r.error == spec.error)
    && (spec.Ok? ==> now == spec.value)
  }

  /** The namespace tracker of the module being parsed holds the boundaries
      and comments the specification reads. */
  predicate Tracks(tracker: NamespaceTracker, env: ModuleEnv)
    reads tracker
  {
    tracker.ranges == env.ranges && tracker.comments == env.comments
  }

  class Registry {
    var topLevel: seq<Entry<Package>>
    var sugarMethods: seq<Entry<Package>>

    constructor()
      ensures topLevel == [] && sugarMethods == []
    {
      topLevel := [];
      sugarMethods := [];
    }

    function Snapshot(): Tables
      reads this
    {
      Tables(topLevel, sugarMethods)
    }

    /** addTopLevel: `topLevel[name] = package`. */
    method AddTopLevel(env: ModuleEnv, name: string, node: Node, u: UnitType) returns (r: Outcome)
      modifies this
      ensures Reached(r, Operations.AddTopLevel(old(Snapshot()), env, name, node, u), Snapshot())
    {
      var deps := GetDependencies(node, env.globals);
      if deps.Err? {
        return Failed(deps.error);
      }
      topLevel := Put(topLevel, name, UnitPackageFrom(env, name, node, u, deps.value));
      return Done;
    }

    /** addVars: one unit per declarator, in order. */
    method AddVars(env: ModuleEnv, node: Node) returns (r: Outcome)
      requires IsVariableDeclaration(node)
      modifies this
      ensures Reached(r, AddDeclarators(old(Snapshot()), env, node.kind.declarations), Snapshot())
    {
      var ds := node.kind.declarations;
      var i := 0;
      while i < |ds|
        invariant 0 <= i <= |ds|
        invariant AddDeclarators(old(Snapshot()), env, ds) == AddDeclarators(Snapshot(), env, ds[i..])
      {
        assert ds[i..][0] == ds[i] && ds[i..][1..] == ds[i + 1..];
        if !ds[i].kind.VariableDeclarator? {
          return Failed(TypeError("declarator has no id"));
        }
        var name := ds[i].kind.id;
        r := AddTopLevel(env, name, ds[i], DeclaredUnitType(name));
        if r.Failed? {
          return;
        }
        i := i + 1;
      }
      assert ds[i..] == [];
      return Done;
    }

    /** addInternal. */
    method AddInternal(env: ModuleEnv, node: Node) returns (r: Outcome)
      requires IsFunctionDeclaration(node)
      modifies this
      ensures Reached(r, Operations.AddInternal(old(Snapshot()), env, node), Snapshot())
    {
      r := AddTopLevel(env, node.kind.id, node, InternalUnit);
    }

    /** addSugarMethod: `sugarMethods[namespace + '|' + name] = package`. */
    method AddSugarMethod(env: ModuleEnv, tracker: NamespaceTracker, name: string, node: Node, opts: MethodOpts) returns (r: Outcome)
      requires Tracks(tracker, env)
      modifies this
      ensures Reached(r, Operations.AddSugarMethod(old(Snapshot()), env, name, node, opts), Snapshot())
    {
      var ns := tracker.NamespaceFor(node.loc.line);
      var deps: seq<string> := [];
      if opts.body {
        var walked := GetDependencies(node, env.globals);
        if walked.Err? {
          return Failed(walked.error);
        }
        deps := walked.value;
      }
      if ns.None? {
        return Failed(TypeError("namespace is undefined"));
      }
      sugarMethods := Put(sugarMethods, FullMethodKey(ns, name), MethodPackageFrom(env, name, node, opts, ns.value, deps));
      return Done;
    }

    /** `methods.forEach(...)` over the properties of a define block. */
    method AddBlockMethods(env: ModuleEnv, tracker: NamespaceTracker, props: seq<Node>, opts: MethodOpts) returns (r: Outcome)
      requires Tracks(tracker, env)
      modifies this
      ensures Reached(r, Operations.AddBlockMethods(old(Snapshot()), env, props, opts), Snapshot())
    {
      var i := 0;
      while i < |props|
        invariant 0 <= i <= |props|
        invariant Operations.AddBlockMethods(old(Snapshot()), env, props, opts)
          == Operations.AddBlockMethods(Snapshot(), env, props[i..], opts)
      {
        assert props[i..][0] == props[i] && props[i..][1..] == props[i + 1..];
        var p := props[i];
        if !(p.kind.Property? && StringValueOf(p.kind.key).Some?) {
          return Failed(TypeError("method key is not a string"));
        }
        r := AddSugarMethod(env, tracker, StringValueOf(p.kind.key).value, p, opts);
        if r.Failed? {
          return;
        }
        i := i + 1;
      }
      assert props[i..] == [];
      return Done;
    }

    /** `methodNames.forEach(...)`: one method per name, all for `node`. */
    method AddNamedMethods(env: ModuleEnv, tracker: NamespaceTracker, names: seq<string>, node: Node, opts: MethodOpts) returns (r: Outcome)
      requires Tracks(tracker, env)
      modifies this
      ensures Reached(r, Operations.AddNamedMethods(old(Snapshot()), env, names, node, opts), Snapshot())
    {
      var i := 0;
      while i < |names|
        invariant 0 <= i <= |names|
        invariant Operations.AddNamedMethods(old(Snapshot()), env, names, node, opts)
          == Operations.AddNamedMethods(Snapshot(), env, names[i..], node, opts)
      {
        assert names[i..][0] == names[i] && names[i..][1..] == names[i + 1..];
        r := AddSugarMethod(env, tracker, names[i], node, opts);
        if r.Failed? {
          return;
        }
        i := i + 1;
      }
      assert names[i..] == [];
      return Done;
    }

    /** processMethodBlock. */
    method ProcessMethodBlock(env: ModuleEnv, tracker: NamespaceTracker, node: Node) returns (r: Outcome)
      requires IsMethodBlock(node) && Tracks(tracker, env)
      modifies this
      ensures Reached(r, Operations.ProcessMethodBlock(old(Snapshot()), env, node), Snapshot())
    {
      var props := BlockProperties(node);
      if props.Err? {
        return Failed(props.error);
      }
      r := AddBlockMethods(env, tracker, props.value, MethodOpts(true, Some(CalleeName(node).value), []));
    }

    /** processAliasExpression. */
    method ProcessAlias(env: ModuleEnv, tracker: NamespaceTracker, node: Node) returns (r: Outcome)
      requires IsAliasExpression(node) && Tracks(tracker, env)
      modifies this
      ensures Reached(r, Operations.ProcessAlias(old(Snapshot()), env, node), Snapshot())
    {
      var names := AliasNames(node);
      if names.Err? {
        return Failed(names.error);
      }
      var (name, source) := names.value;
      var ns := tracker.NamespaceFor(node.loc.line);
      r := AddSugarMethod(env, tracker, name, node, MethodOpts(true, None, [FullMethodKey(ns, source)]));
    }

    /** processTopLevelMemberAssignment: follows `.object` down to the
        assigned unit, then extends it. */
    method ProcessMemberAssignment(env: ModuleEnv, node: Node) returns (r: Outcome)
      requires IsMemberAssignment(node)
      modifies this
      ensures Reached(r, Operations.ProcessMemberAssignment(old(Snapshot()), env, node), Snapshot())
    {
      var prop := node.kind.expression.kind.lhs;
      while prop.kind.MemberExpression?
        invariant RootObject(prop) == RootObject(node.kind.expression.kind.lhs)
        decreases prop
      {
        prop := prop.kind.obj;
      }
      var root := NameOf(prop);
      var key := if root.Some? then root.value else "undefined";
      var deps := GetDependencies(node.kind.expression.kind.rhs, env.globals);
      if deps.Err? {
        return Failed(deps.error);
      }
      var extra := if root.Some? then Without(deps.value, root.value) else deps.value;
      var p := Lookup(topLevel, key);
      if p.None? {
        return Failed(TypeError("package is undefined"));
      }
      topLevel := Put(topLevel, key, p.value.(dependencies := p.value.dependencies + extra,
                                               body := AppendBlock(p.value.body, NodeBody(env.source, node))));
      return Done;
    }

    /** The names a "Similar" define call inside a build function defines. */
    method SimilarNames(env: ModuleEnv, tracker: NamespaceTracker, node: Node) returns (r: Result<seq<string>>)
      requires IsCallStatement(node) && Tracks(tracker, env)
      ensures r == Operations.SimilarNames(env, node)
    {
      var args := CallArguments(node);
      if |args| < 2 {
        return Err(TypeError("argNode is undefined"));
      }
      var arg := args[1];
      if arg.kind.Literal? && LiteralTruthy(arg.kind.value) {
        if !arg.kind.value.Str? {
          return Err(TypeError("split is not a function"));
        }
        return Ok(Split(arg.kind.value.s, ","));
      }
      r := tracker.MethodNamesInPreviousComment(node.loc.line);
    }

    /** One statement of a build function's body. */
    method ScanStatement(env: ModuleEnv, tracker: NamespaceTracker, s: Node, main: string) returns (r: Outcome)
      requires Tracks(tracker, env)
      modifies this
      ensures Reached(r, Operations.ScanStatement(old(Snapshot()), env, s, main), Snapshot())
    {
      if IsMethodBlock(s) {
        var props := BlockProperties(s);
        if props.Err? {
          return Failed(props.error);
        }
        r := AddBlockMethods(env, tracker, props.value, MethodOpts(false, None, [main]));
      } else if IsSimilarMethodBlock(s) {
        var names := SimilarNames(env, tracker, s);
        if names.Err? {
          return Failed(names.error);
        }
        r := AddNamedMethods(env, tracker, names.value, s, MethodOpts(false, None, [main]));
      } else if IsAliasExpression(s) {
        var names := AliasNames(s);
        if names.Err? {
          return Failed(names.error);
        }
        var (name, source) := names.value;
        var ns := tracker.NamespaceFor(s.loc.line);
        r := AddSugarMethod(env, tracker, name, s, MethodOpts(false, None, [FullMethodKey(ns, source), main]));
      } else {
        return Done;
      }
    }

    /** `fnPackage.node.body.body.forEach(...)`. */
    method ScanBuildBody(env: ModuleEnv, tracker: NamespaceTracker, stmts: seq<Node>, main: string) returns (r: Outcome)
      requires Tracks(tracker, env)
      modifies this
      ensures Reached(r, Operations.ScanBuildBody(old(Snapshot()), env, stmts, main), Snapshot())
    {
      var i := 0;
      while i < |stmts|
        invariant 0 <= i <= |stmts|
        invariant Operations.ScanBuildBody(old(Snapshot()), env, stmts, main)
          == Operations.ScanBuildBody(Snapshot(), env, stmts[i..], main)
      {
        assert stmts[i..][0] == stmts[i] && stmts[i..][1..] == stmts[i + 1..];
        r := ScanStatement(env, tracker, stmts[i], main);
        if r.Failed? {
          return;
        }
        i := i + 1;
      }
      assert stmts[i..] == [];
      return Done;
    }

    /** The filter over the build function's dependencies: the unassigned
        variables are collected, the rest kept; a dependency that is not a
        declared unit is a TypeError. */
    method PartitionDependencies(deps: seq<string>) returns (r: Result<(seq<Entry<Package>>, seq<string>)>)
      ensures r.Ok? <==> AllDeclared(topLevel, deps)
      ensures r.Err? ==> r.error == TypeError("package.node is undefined")
      ensures r.Ok? ==> r.value == (UnassignedVars(topLevel, deps), KeptDeps(topLevel, deps))
    {
      var vs: seq<Entry<Package>> := [];
      var keep: seq<string> := [];
      var i := 0;
      while i < |deps|
        invariant 0 <= i <= |deps|
        invariant AllDeclared(topLevel, deps[..i])
        invariant vs == UnassignedVars(topLevel, deps[..i]) && keep == KeptDeps(topLevel, deps[..i])
      {
        assert deps[..i + 1][..i] == deps[..i];
        var p := Lookup(topLevel, deps[i]);
        if p.None? || p.value.node.None? {
          assert deps[i] in deps;
          return Err(TypeError("package.node is undefined"));
        }
        if IsUnassigned(p.value) {
          vs := vs + [Entry(deps[i], p.value)];
        } else {
          keep := keep + [deps[i]];
        }
        i := i + 1;
      }
      assert deps[..i] == deps;
      return Ok((vs, keep));
    }

    /** `unassignedVars.forEach(...)` marking every variable as an alias of
        the group, collecting the group's exports and declarations. */
    method MarkGroup(vs: seq<Entry<Package>>, g: string) returns (names: seq<string>, bodies: seq<string>)
      modifies this
      ensures topLevel == SetAliases(old(topLevel), vs, g) && sugarMethods == old(sugarMethods)
      ensures names == Names(vs) && bodies == Bodies(vs)
    {
      names := [];
      bodies := [];
      var i := 0;
      while i < |vs|
        invariant 0 <= i <= |vs|
        invariant topLevel == SetAliases(old(topLevel), vs[..i], g) && sugarMethods == old(sugarMethods)
        invariant names == Names(vs[..i]) && bodies == Bodies(vs[..i])
      {
        AliasStep(old(topLevel), vs, i, g);
        topLevel := Put(topLevel, vs[i].key, vs[i].value.(alias := g));
        names := names + [vs[i].value.name];
        bodies := bodies + [vs[i].value.body];
        i := i + 1;
      }
      assert vs[..i] == vs;
    }

    /** The part of processBuildExpression that decides which package the
        built methods require, by the number of unassigned variables. */
    method Resolve(env: ModuleEnv, fnKey: string, fn: Package, fnCall: string, vs: seq<Entry<Package>>, keep: seq<string>)
      returns (main: string)
      modifies this
      ensures (topLevel, main) == ResolveBuild(old(topLevel), env, fnKey, fn, fnCall, vs, keep)
      ensures sugarMethods == old(sugarMethods)
    {
      if |vs| == 0 {
        topLevel := Put(topLevel, fnKey, fn.(init := AppendBlock(fn.init, fnCall), exports := NoExports));
        main := fn.name;
      } else if |vs| == 1 {
        var v := vs[0].value;
        topLevel := Put(topLevel, vs[0].key, v.(body := v.body + "\n\n" + fn.body, init := AppendBlock(v.init, fnCall),
                                                 dependencies := v.dependencies + keep));
        main := v.name;
      } else {
        var g := GroupName(fn.name);
        var names, bodies := MarkGroup(vs, g);
        topLevel := Put(topLevel, g, Package(g, None, None, false, PathJoin(env.moduleName, "vars"),
          JoinSep(bodies, "\n") + "\n\n" + fn.body, fnCall, env.moduleName, Members(names), keep, [], ""));
        main := g;
      }
    }

    /** processBuildExpression. */
    method ProcessBuild(env: ModuleEnv, tracker: NamespaceTracker, node: Node) returns (r: Outcome)
      requires IsBuildExpression(node) == Ok(true) && Tracks(tracker, env)
      modifies this
      ensures Reached(r, Operations.ProcessBuild(old(Snapshot()), env, node), Snapshot())
    {
      var fnKey := CalleeName(node).value;
      var fnCall := NodeBody(env.source, node);
      var found := Lookup(topLevel, fnKey);
      if found.None? {
        return Failed(TypeError("fnPackage is undefined"));
      }
      var fn := found.value;
      var parts := PartitionDependencies(fn.dependencies);
      if parts.Err? {
        return Failed(parts.error);
      }
      var (vs, keep) := parts.value;
      var main := Resolve(env, fnKey, fn, fnCall, vs, keep);
      if !(fn.node.Some? && fn.node.value.kind.FunctionDeclaration?) {
        return Failed(TypeError("node.body.body is undefined"));
      }
      r := ScanBuildBody(env, tracker, fn.node.value.kind.body, main);
    }

    /** processTopLevelNode. */
    method ProcessTopLevelNode(env: ModuleEnv, tracker: NamespaceTracker, node: Node) returns (r: Outcome)
      requires Tracks(tracker, env)
      modifies this
      ensures Reached(r, Operations.ProcessTopLevelNode(old(Snapshot()), env, node), Snapshot())
    {
      var shape := Classify(node);
      if shape.Err? {
        return Failed(shape.error);
      }
      match shape.value
      case UseStrictShape => r := Done;
      case VarShape => r := AddVars(env, node);
      case FunctionShape => r := AddInternal(env, node);
      case MethodBlockShape => r := ProcessMethodBlock(env, tracker, node);
      case MemberAssignmentShape => r := ProcessMemberAssignment(env, node);
      case AliasShape => r := ProcessAlias(env, tracker, node);
      case BuildShape => r := ProcessBuild(env, tracker, node);
    }

    /** `output.body.forEach(processTopLevelNode)`. */
    method ProcessStatements(env: ModuleEnv, tracker: NamespaceTracker, stmts: seq<Node>) returns (r: Outcome)
      requires Tracks(tracker, env)
      modifies this
      ensures Reached(r, Operations.ProcessStatements(old(Snapshot()), env, stmts), Snapshot())
    {
      var i := 0;
      while i < |stmts|
        invariant 0 <= i <= |stmts|
        invariant Operations.ProcessStatements(old(Snapshot()), env, stmts)
          == Operations.ProcessStatements(Snapshot(), env, stmts[i..])
      {
        assert stmts[i..][0] == stmts[i] && stmts[i..][1..] == stmts[i + 1..];
        r := ProcessTopLevelNode(env, tracker, stmts[i]);
        if r.Failed? {
          return;
        }
        i := i + 1;
      }
      assert stmts[i..] == [];
      return Done;
    }
  }
}
