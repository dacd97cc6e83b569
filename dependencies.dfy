/** The free-identifier walker (getDependencies, gulpfile.js:473-631).

    The walker visits a tree in a fixed order, pushing every identifier it
    meets onto `deps` and every name a declaration binds onto `locals`, both
    without duplicates; at the end it keeps the dependencies that are not
    local, not a truthy global and not whitelisted. Locals are not scoped: a
    name bound anywhere in the tree is removed everywhere.

    The specification is the walk's trace: the steps the walker takes, in
    order (`Trace`). The imperative walker is proved to replay that trace,
    and the properties of the result are proved about the trace. */
module Dependencies {
  import opened Prelude
  import opened Ast

  /** What `locals` holds: normally a bound name, but a catch clause pushes
      its whole parameter node, which no name ever equals. */
  datatype Local = LocalName(name: string) | LocalNode(node: Node)

  /** One step of the walk: an identifier reached, a local bound, or a node
      kind the walker has no rule for (the walk throws there). */
  datatype Step = Ref(name: string) | Bind(local: Local) | Unsupported(nodeType: string)

  const WHITELISTED: seq<string> := ["arguments", "undefined", "NaN", "btoa", "atob"]

  function BindNames(names: seq<string>): (r: seq<Step>)
    ensures |r| == |names|
    ensures forall i | 0 <= i < |names| :: r[i] == Bind(LocalName(names[i]))
  {
    if names == [] then [] else BindNames(names[..|names| - 1]) + [Bind(LocalName(names[|names| - 1]))]
  }

  /** The steps of the walk of one node, following the walker's dispatch. */
  function Trace(n: Node): seq<Step>
    decreases n, 1
  {
    match n.kind
    case Identifier(x) => [Ref(x)]
    case Literal(_) => []
    case VariableDeclaration(ds) => TraceAll(ds)
    case VariableDeclarator(id, init) => [Bind(LocalName(id))] + TraceOpt(init)
    case FunctionDeclaration(id, ps, body) => [Bind(LocalName(id))] + BindNames(ps) + TraceAll(body)
    case FunctionExpression(ps, body) => BindNames(ps) + TraceAll(body)
    case CatchClause(p, body) => [Bind(LocalNode(p))] + Trace(body)
    case MemberExpression(o, p, computed) => Trace(o) + (if computed then Trace(p) else [])
    case ExpressionStatement(e) => Trace(e)
    case SequenceExpression(es) => TraceAll(es)
    case SwitchStatement(d, cs) => Trace(d) + TraceAll(cs)
    case SwitchCase(t, body) => TraceOpt(t) + TraceAll(body)
    case ObjectExpression(ps) => TraceAll(ps)
    case Property(_, v) => Trace(v)
    case ArrayExpression(es) => TraceAll(es)
    case TryStatement(b, h, f) => Trace(b) + TraceOpt(h) + TraceOpt(f)
    case BlockStatement(body) => TraceAll(body)
    case ForStatement(i, t, u, body) => TraceOpt(i) + TraceOpt(t) + TraceOpt(u) + Trace(body)
    case ForInStatement(l, r, body) => Trace(l) + Trace(r) + Trace(body)
    case WhileStatement(t, body) => Trace(t) + Trace(body)
    case DoWhileStatement(body, t) => Trace(body) + Trace(t)
    case Call(_, c, args) => Trace(c) + TraceAll(args)
    case Test(_, t, c, a) => Trace(t) + Trace(c) + TraceOpt(a)
    case Binary(_, l, r) => Trace(l) + Trace(r)
    case Argument(_, a) => TraceOpt(a)
    case Leaf(_) => []
    case Other(t) => [Unsupported(t)]
  }

  /** `walk(x)` where `x` may be null or undefined. */
  function TraceOpt(o: Option<Node>): seq<Step>
    decreases o, 2
  {
    match o
    case None => []
    case Some(n) => Trace(n)
  }

  /** `walk(array)`: the nodes one after the other. */
  function TraceAll(ns: seq<Node>): seq<Step>
    decreases ns, 0
  {
    if ns == [] then [] else TraceAll(ns[..|ns| - 1]) + Trace(ns[|ns| - 1])
  }

  // ---------------------------------------------------------------------
  // Replaying a trace on the walker's two arrays.

  datatype WalkState = WalkState(locals: seq<Local>, deps: seq<string>)

  function Apply(st: WalkState, s: Step): WalkState
  {
    match s
    case Ref(x) => st.(deps := PushUnique(st.deps, x))
    case Bind(l) => st.(locals := PushUnique(st.locals, l))
    case Unsupported(_) => st
  }

  function Replay(st: WalkState, t: seq<Step>): WalkState
    decreases |t|
  {
    if t == [] then st else Apply(Replay(st, t[..|t| - 1]), t[|t| - 1])
  }

  /** The node kind the walk throws on, if any: the first unsupported one. */
  function FirstUnsupported(t: seq<Step>): (r: Option<string>)
    ensures r.None? <==> forall i | 0 <= i < |t| :: !t[i].Unsupported?
    ensures r.Some? ==> Unsupported(r.value) in t
  {
    if t == [] then None
    else if t[0].Unsupported? then Some(t[0].nodeType)
    else FirstUnsupported(t[1..])
  }

  lemma {:induction false} ReplayConcat(st: WalkState, a: seq<Step>, b: seq<Step>)
    ensures Replay(st, a + b) == Replay(Replay(st, a), b)
    decreases |b|
  {
    if b == [] {
      assert a + b == a;
    } else {
      assert (a + b)[..|a + b| - 1] == a + b[..|b| - 1];
      ReplayConcat(st, a, b[..|b| - 1]);
    }
  }

  lemma {:induction false} FirstUnsupportedConcat(a: seq<Step>, b: seq<Step>)
    ensures FirstUnsupported(a + b) == if FirstUnsupported(a).Some? then FirstUnsupported(a) else FirstUnsupported(b)
    decreases |a|
  {
    if a != [] {
      assert (a + b)[0] == a[0] && (a + b)[1..] == a[1..] + b;
      FirstUnsupportedConcat(a[1..], b);
    } else {
      assert a + b == b;
    }
  }

  /** Doing `a` then `b` is doing `a + b`, for the state and for the throw. */
  lemma Chain(st: WalkState, a: seq<Step>, b: seq<Step>)
    ensures Replay(st, a + b) == Replay(Replay(st, a), b)
    ensures FirstUnsupported(a + b) == if FirstUnsupported(a).Some? then FirstUnsupported(a) else FirstUnsupported(b)
  {
    ReplayConcat(st, a, b);
    FirstUnsupportedConcat(a, b);
  }

  lemma {:induction false} ReplayDeps(st: WalkState, t: seq<Step>, x: string)
    ensures x in Replay(st, t).deps <==> x in st.deps || Ref(x) in t
    decreases |t|
  {
    if t != [] {
      var init := t[..|t| - 1];
      ReplayDeps(st, init, x);
      assert t == init + [t[|t| - 1]];
    }
  }

  lemma {:induction false} ReplayLocals(st: WalkState, t: seq<Step>, l: Local)
    ensures l in Replay(st, t).locals <==> l in st.locals || Bind(l) in t
    decreases |t|
  {
    if t != [] {
      var init := t[..|t| - 1];
      ReplayLocals(st, init, l);
      assert t == init + [t[|t| - 1]];
    }
  }

  lemma {:induction false} ReplayNoDup(st: WalkState, t: seq<Step>)
    requires NoDup(st.deps)
    ensures NoDup(Replay(st, t).deps)
    decreases |t|
  {
    if t != [] {
      ReplayNoDup(st, t[..|t| - 1]);
    }
  }

  // ---------------------------------------------------------------------
  // The result.

  predicate IsValidDependency(d: string, locals: seq<Local>, globals: set<string>)
  {
    LocalName(d) !in locals && d !in globals && d !in WHITELISTED
  }

  /** `deps.filter(isValidDependency)`. */
  function KeepValid(deps: seq<string>, locals: seq<Local>, globals: set<string>): (r: seq<string>)
    ensures forall x :: x in r <==> x in deps && IsValidDependency(x, locals, globals)
    ensures NoDup(deps) ==> NoDup(r)
  {
    if deps == [] then []
    else if IsValidDependency(deps[0], locals, globals) then [deps[0]] + KeepValid(deps[1..], locals, globals)
    else KeepValid(deps[1..], locals, globals)
  }

  /** What getDependencies returns for `n`. `globals` holds the names whose
      value on the global object is truthy. */
  function DependencyList(n: Node, globals: set<string>): Result<seq<string>>
  {
    match FirstUnsupported(Trace(n))
    case Some(k) => Err(UnknownNode(k))
    case None =>
      var st := Replay(WalkState([], []), Trace(n));
      Ok(KeepValid(st.deps, st.locals, globals))
  }

  /** The list has no duplicates, and holds exactly the identifiers the walk
      reaches that no declaration anywhere in the tree binds, that are not
      truthy globals and that are not whitelisted. */
  lemma DependencyListExact(n: Node, globals: set<string>, x: string)
    requires DependencyList(n, globals).Ok?
    ensures NoDup(DependencyList(n, globals).value)
    ensures x in DependencyList(n, globals).value <==>
      Ref(x) in Trace(n) && Bind(LocalName(x)) !in Trace(n) && x !in globals && x !in WHITELISTED
  {
    var st0 := WalkState([], []);
    ReplayNoDup(st0, Trace(n));
    ReplayDeps(st0, Trace(n), x);
    ReplayLocals(st0, Trace(n), LocalName(x));
  }

  /** The walk throws "Unknown Node" exactly when it reaches a kind it has no
      rule for, naming the first such kind; a node of such a kind throws. */
  lemma UnknownNodeThrows(n: Node, globals: set<string>)
    ensures DependencyList(n, globals).Err? <==> exists i | 0 <= i < |Trace(n)| :: Trace(n)[i].Unsupported?
    ensures DependencyList(n, globals).Err? ==> DependencyList(n, globals).error.UnknownNode?
    ensures n.kind.Other? ==> DependencyList(n, globals) == Err(UnknownNode(n.kind.nodeType))
  {
  }

  /** A non-computed member access (`a.b`) depends on its object only; a
      computed one (`a[b]`) also on its property. */
  lemma StaticPropertyIgnored(loc: Loc, o: Node, p: Node, globals: set<string>)
    ensures DependencyList(Node(loc, MemberExpression(o, p, false)), globals) == DependencyList(o, globals)
    ensures Trace(Node(loc, MemberExpression(o, p, true))) == Trace(o) + Trace(p)
  {
    assert Trace(o) + [] == Trace(o);
  }

  /** A step of one node's walk is a step of the walk of any list holding it. */
  lemma {:induction false} TraceAllIncludes(ns: seq<Node>, i: nat, s: Step)
    requires i < |ns| && s in Trace(ns[i])
    ensures s in TraceAll(ns)
    decreases |ns|
  {
    var init := ns[..|ns| - 1];
    if i < |ns| - 1 {
      assert init[i] == ns[i];
      TraceAllIncludes(init, i, s);
    }
  }

  /** Replaying a trace builds the same `deps` whatever `locals` it starts from. */
  lemma {:induction false} ReplayDepsIgnoreLocals(l1: seq<Local>, l2: seq<Local>, d: seq<string>, t: seq<Step>)
    ensures Replay(WalkState(l1, d), t).deps == Replay(WalkState(l2, d), t).deps
    decreases |t|
  {
    if t != [] {
      ReplayDepsIgnoreLocals(l1, l2, d, t[..|t| - 1]);
    }
  }

  /** The filter only asks whether a name is among the locals. */
  lemma {:induction false} KeepValidSameNames(deps: seq<string>, l1: seq<Local>, l2: seq<Local>, globals: set<string>)
    requires forall x: string :: LocalName(x) in l1 <==> LocalName(x) in l2
    ensures KeepValid(deps, l1, globals) == KeepValid(deps, l2, globals)
    decreases |deps|
  {
    if deps != [] {
      KeepValidSameNames(deps[1..], l1, l2, globals);
    }
  }

  /** The catch parameter is pushed onto `locals` as a node, which no name
      equals, so it hides nothing: a catch clause has exactly the
      dependencies of its body, and `catch (e) { e; }` reports `e` unless a
      declaration binds `e`, it is a truthy global or it is whitelisted. */
  lemma CatchParameterNotExcluded(loc: Loc, p: Node, body: Node, globals: set<string>)
    ensures DependencyList(Node(loc, CatchClause(p, body)), globals) == DependencyList(body, globals)
  {
    var t := Trace(body);
    var bind := [Bind(LocalNode(p))];
    var st0 := WalkState([], []);
    var start := WalkState([LocalNode(p)], []);
    assert Trace(Node(loc, CatchClause(p, body))) == bind + t;
    Chain(st0, bind, t);
    BindOne(st0, bind);
    assert Apply(st0, bind[0]) == start;
    assert FirstUnsupported(bind + t) == FirstUnsupported(t);
    if FirstUnsupported(t).None? {
      var st1 := Replay(start, t);
      var st2 := Replay(st0, t);
      assert Replay(st0, bind + t) == st1;
      ReplayDepsIgnoreLocals([LocalNode(p)], [], [], t);
      forall x: string
        ensures LocalName(x) in st1.locals <==> LocalName(x) in st2.locals
      {
        ReplayLocals(start, t, LocalName(x));
        ReplayLocals(st0, t, LocalName(x));
      }
      KeepValidSameNames(st1.deps, st1.locals, st2.locals, globals);
    }
  }

  /** A function node that takes a parameter named `x`. */
  predicate HasParam(n: Node, x: string)
  {
    (n.kind.FunctionDeclaration? || n.kind.FunctionExpression?) && x in n.kind.params
  }

  /** A function's walk binds each of its parameters. */
  lemma ParamBound(f: Node, x: string)
    requires HasParam(f, x)
    ensures Bind(LocalName(x)) in Trace(f)
  {
    var ps := f.kind.params;
    var j :| 0 <= j < |ps| && ps[j] == x;
    assert BindNames(ps)[j] == Bind(LocalName(x));
    match f.kind
    case FunctionDeclaration(id, _, body) =>
      assert Trace(f) == [Bind(LocalName(id))] + BindNames(ps) + TraceAll(body);
    case FunctionExpression(_, body) =>
      assert Trace(f) == BindNames(ps) + TraceAll(body);
  }

  /** Locals are not scoped: a parameter of any function in a block hides
      that name in the whole block, uses outside the function included, so
      `function f(a) {} a;` depends on nothing. */
  lemma LocalsAreNotScoped(loc: Loc, stmts: seq<Node>, i: nat, globals: set<string>, x: string)
    requires i < |stmts| && HasParam(stmts[i], x)
    requires DependencyList(Node(loc, BlockStatement(stmts)), globals).Ok?
    ensures x !in DependencyList(Node(loc, BlockStatement(stmts)), globals).value
  {
    ParamBound(stmts[i], x);
    TraceAllIncludes(stmts, i, Bind(LocalName(x)));
    DependencyListExact(Node(loc, BlockStatement(stmts)), globals, x);
  }

  /** A single binding step: its replay is one application, and it throws nothing. */
  lemma BindOne(st: WalkState, a: seq<Step>)
    requires |a| == 1 && a[0].Bind?
    ensures Replay(st, a) == Apply(st, a[0])
    ensures FirstUnsupported(a) == None
  {
    assert a[..0] == [];
  }

  // ---------------------------------------------------------------------
  // The walker itself.

  class DependencyWalker {
    var locals: seq<Local>
    var deps: seq<string>

    function State(): WalkState
      reads this
    {
      WalkState(locals, deps)
    }

    constructor()
      ensures locals == [] && deps == []
    {
      locals := [];
      deps := [];
    }

    method PushLocal(l: Local)
      modifies this
      ensures State() == Apply(old(State()), Bind(l))
    {
      if l !in locals {
        locals := locals + [l];
      }
    }

    /** pushLocals: binds each parameter name in turn. */
    method PushLocals(names: seq<string>)
      modifies this
      ensures State() == Replay(old(State()), BindNames(names))
    {
      var i := 0;
      while i < |names|
        invariant 0 <= i <= |names|
        invariant State() == Replay(old(State()), BindNames(names[..i]))
      {
        assert names[..i + 1][..i] == names[..i];
        PushLocal(LocalName(names[i]));
        i := i + 1;
      }
      assert names[..i] == names;
    }

    method PushDependency(x: string)
      modifies this
      ensures State() == Apply(old(State()), Ref(x))
    {
      if x !in deps {
        deps := deps + [x];
      }
    }

    /** processNode: returns the unsupported node type it stopped on, if any.
        The switch is split by how many fields a case walks. */
    method Walk(n: Node) returns (unsupported: Option<string>)
      modifies this
      ensures unsupported == FirstUnsupported(Trace(n))
      ensures unsupported.None? ==> State() == Replay(old(State()), Trace(n))
      decreases n, 1
    {
      if n.kind.VariableDeclarator? {
        unsupported := WalkDeclarator(n);
      } else if n.kind.FunctionDeclaration? {
        unsupported := WalkFunctionDeclaration(n);
      } else if n.kind.FunctionExpression? {
        unsupported := WalkFunctionExpression(n);
      } else if n.kind.CatchClause? {
        unsupported := WalkCatchClause(n);
      } else if n.kind.MemberExpression? || n.kind.SwitchStatement? || n.kind.SwitchCase? {
        unsupported := WalkMemberOrSwitch(n);
      } else if n.kind.WhileStatement? || n.kind.DoWhileStatement? || n.kind.Call? || n.kind.Binary? {
        unsupported := WalkPair(n);
      } else if n.kind.TryStatement? || n.kind.Test? {
        unsupported := WalkTriple(n);
      } else if n.kind.ForStatement? || n.kind.ForInStatement? {
        unsupported := WalkFor(n);
      } else if n.kind.VariableDeclaration? || n.kind.SequenceExpression? || n.kind.ObjectExpression?
        || n.kind.ArrayExpression? || n.kind.BlockStatement? {
        unsupported := WalkList(n);
      } else {
        unsupported := WalkSingle(n);
      }
    }

    /** The cases that walk at most one field, or throw. */
    method WalkSingle(n: Node) returns (unsupported: Option<string>)
      requires n.kind.Identifier? || n.kind.Literal? || n.kind.ExpressionStatement? || n.kind.Property?
        || n.kind.Argument? || n.kind.Leaf? || n.kind.Other?
      modifies this
      ensures unsupported == FirstUnsupported(Trace(n))
      ensures unsupported.None? ==> State() == Replay(old(State()), Trace(n))
      decreases n, 0
    {
      match n.kind {
        case Identifier(x) =>
          assert Trace(n) == [Ref(x)];
          PushDependency(x);
          unsupported := None;
          assert [Ref(x)][..0] == [];
        case Literal(_) =>
          unsupported := None;
        case ExpressionStatement(e) =>
          assert Trace(n) == Trace(e);
          unsupported := Walk(e);
        case Property(_, v) =>
          assert Trace(n) == Trace(v);
          unsupported := Walk(v);
        case Argument(_, a) =>
          assert Trace(n) == TraceOpt(a);
          unsupported := WalkOpt(a);
        case Leaf(_) =>
          unsupported := None;
        case Other(t) =>
          assert Trace(n) == [Unsupported(t)];
          unsupported := Some(t);
      }
    }

    /** The cases that walk one array field. */
    method WalkList(n: Node) returns (unsupported: Option<string>)
      requires n.kind.VariableDeclaration? || n.kind.SequenceExpression? || n.kind.ObjectExpression?
        || n.kind.ArrayExpression? || n.kind.BlockStatement?
      modifies this
      ensures unsupported == FirstUnsupported(Trace(n))
      ensures unsupported.None? ==> State() == Replay(old(State()), Trace(n))
      decreases n, 0
    {
      match n.kind {
        case VariableDeclaration(ds) =>
          assert Trace(n) == TraceAll(ds);
          unsupported := WalkAll(ds);
        case SequenceExpression(es) =>
          assert Trace(n) == TraceAll(es);
          unsupported := WalkAll(es);
        case ObjectExpression(ps) =>
          assert Trace(n) == TraceAll(ps);
          unsupported := WalkAll(ps);
        case ArrayExpression(es) =>
          assert Trace(n) == TraceAll(es);
          unsupported := WalkAll(es);
        case BlockStatement(body) =>
          assert Trace(n) == TraceAll(body);
          unsupported := WalkAll(body);
      }
    }

    /** A declarator pushes its name, then walks its initializer. */
    method WalkDeclarator(n: Node) returns (unsupported: Option<string>)
      requires n.kind.VariableDeclarator?
      modifies this
      ensures unsupported == FirstUnsupported(Trace(n))
      ensures unsupported.None? ==> State() == Replay(old(State()), Trace(n))
      decreases n, 0
    {
      assert Trace(n) == [Bind(LocalName(n.kind.id))] + TraceOpt(n.kind.init);
      ghost var st0 := State();
      ghost var a := [Bind(LocalName(n.kind.id))];
      PushLocal(LocalName(n.kind.id));
      BindOne(st0, a);
      unsupported := WalkOpt(n.kind.init);
      Chain(st0, a, TraceOpt(n.kind.init));
    }

    /** A function declaration pushes its name and its parameters, then
        walks its body. */
    method WalkFunctionDeclaration(n: Node) returns (unsupported: Option<string>)
      requires n.kind.FunctionDeclaration?
      modifies this
      ensures unsupported == FirstUnsupported(Trace(n))
      ensures unsupported.None? ==> State() == Replay(old(State()), Trace(n))
      decreases n, 0
    {
      assert Trace(n) == [Bind(LocalName(n.kind.id))] + BindNames(n.kind.params) + TraceAll(n.kind.body);
      ghost var st0 := State();
      ghost var a := [Bind(LocalName(n.kind.id))];
      PushLocal(LocalName(n.kind.id));
      BindOne(st0, a);
      PushLocals(n.kind.params);
      Chain(st0, a, BindNames(n.kind.params));
      unsupported := WalkAll(n.kind.body);
      Chain(st0, a + BindNames(n.kind.params), TraceAll(n.kind.body));
    }

    /** A function expression pushes its parameters, then walks its body. */
    method WalkFunctionExpression(n: Node) returns (unsupported: Option<string>)
      requires n.kind.FunctionExpression?
      modifies this
      ensures unsupported == FirstUnsupported(Trace(n))
      ensures unsupported.None? ==> State() == Replay(old(State()), Trace(n))
      decreases n, 0
    {
      assert Trace(n) == BindNames(n.kind.params) + TraceAll(n.kind.body);
      ghost var st0 := State();
      PushLocals(n.kind.params);
      unsupported := WalkAll(n.kind.body);
      Chain(st0, BindNames(n.kind.params), TraceAll(n.kind.body));
    }

    /** A catch clause pushes its parameter node, then walks its body. */
    method WalkCatchClause(n: Node) returns (unsupported: Option<string>)
      requires n.kind.CatchClause?
      modifies this
      ensures unsupported == FirstUnsupported(Trace(n))
      ensures unsupported.None? ==> State() == Replay(old(State()), Trace(n))
      decreases n, 0
    {
      assert Trace(n) == [Bind(LocalNode(n.kind.param))] + Trace(n.kind.handlerBody);
      ghost var st0 := State();
      ghost var a := [Bind(LocalNode(n.kind.param))];
      PushLocal(LocalNode(n.kind.param));
      BindOne(st0, a);
      unsupported := Walk(n.kind.handlerBody);
      Chain(st0, a, Trace(n.kind.handlerBody));
    }

    /** Member expressions and switches: an object and, when computed, its
        property; a discriminant and its cases; a case's test and its body. */
    method WalkMemberOrSwitch(n: Node) returns (unsupported: Option<string>)
      requires n.kind.MemberExpression? || n.kind.SwitchStatement? || n.kind.SwitchCase?
      modifies this
      ensures unsupported == FirstUnsupported(Trace(n))
      ensures unsupported.None? ==> State() == Replay(old(State()), Trace(n))
      decreases n, 0
    {
      ghost var st0 := State();
      match n.kind {
        case MemberExpression(o, p, computed) =>
          assert Trace(n) == Trace(o) + (if computed then Trace(p) else []);
          unsupported := Walk(o);
          if computed {
            if unsupported.None? {
              unsupported := Walk(p);
            }
            Chain(st0, Trace(o), Trace(p));
          } else {
            assert Trace(o) + [] == Trace(o);
          }
        case SwitchStatement(d, cs) =>
          assert Trace(n) == Trace(d) + TraceAll(cs);
          unsupported := Walk(d);
          if unsupported.None? {
            unsupported := WalkAll(cs);
          }
          Chain(st0, Trace(d), TraceAll(cs));
        case SwitchCase(t, body) =>
          assert Trace(n) == TraceOpt(t) + TraceAll(body);
          unsupported := WalkOpt(t);
          if unsupported.None? {
            unsupported := WalkAll(body);
          }
          Chain(st0, TraceOpt(t), TraceAll(body));
      }
    }

    /** The cases that walk two fields, the second only if the first did
        not throw. */
    method WalkPair(n: Node) returns (unsupported: Option<string>)
      requires n.kind.WhileStatement? || n.kind.DoWhileStatement? || n.kind.Call? || n.kind.Binary?
      modifies this
      ensures unsupported == FirstUnsupported(Trace(n))
      ensures unsupported.None? ==> State() == Replay(old(State()), Trace(n))
      decreases n, 0
    {
      ghost var st0 := State();
      match n.kind {
        case WhileStatement(t, body) =>
          assert Trace(n) == Trace(t) + Trace(body);
          unsupported := Walk(t);
          if unsupported.None? {
            unsupported := Walk(body);
          }
          Chain(st0, Trace(t), Trace(body));
        case DoWhileStatement(body, t) =>
          assert Trace(n) == Trace(body) + Trace(t);
          unsupported := Walk(body);
          if unsupported.None? {
            unsupported := Walk(t);
          }
          Chain(st0, Trace(body), Trace(t));
        case Call(_, c, args) =>
          assert Trace(n) == Trace(c) + TraceAll(args);
          unsupported := Walk(c);
          if unsupported.None? {
            unsupported := WalkAll(args);
          }
          Chain(st0, Trace(c), TraceAll(args));
        case Binary(_, l, r) =>
          assert Trace(n) == Trace(l) + Trace(r);
          unsupported := Walk(l);
          if unsupported.None? {
            unsupported := Walk(r);
          }
          Chain(st0, Trace(l), Trace(r));
      }
    }

    /** Try statements and conditionals: three fields, the last one
        optional. */
    method WalkTriple(n: Node) returns (unsupported: Option<string>)
      requires n.kind.TryStatement? || n.kind.Test?
      modifies this
      ensures unsupported == FirstUnsupported(Trace(n))
      ensures unsupported.None? ==> State() == Replay(old(State()), Trace(n))
      decreases n, 0
    {
      ghost var st0 := State();
      match n.kind {
        case TryStatement(b, h, f) =>
          assert Trace(n) == Trace(b) + TraceOpt(h) + TraceOpt(f);
          unsupported := Walk(b);
          if unsupported.None? {
            unsupported := WalkOpt(h);
          }
          Chain(st0, Trace(b), TraceOpt(h));
          if unsupported.None? {
            unsupported := WalkOpt(f);
          }
          Chain(st0, Trace(b) + TraceOpt(h), TraceOpt(f));
        case Test(_, t, c, a) =>
          assert Trace(n) == Trace(t) + Trace(c) + TraceOpt(a);
          unsupported := Walk(t);
          if unsupported.None? {
            unsupported := Walk(c);
          }
          Chain(st0, Trace(t), Trace(c));
          if unsupported.None? {
            unsupported := WalkOpt(a);
          }
          Chain(st0, Trace(t) + Trace(c), TraceOpt(a));
      }
    }

    /** For and for-in loops: their header fields, then their body. */
    method WalkFor(n: Node) returns (unsupported: Option<string>)
      requires n.kind.ForStatement? || n.kind.ForInStatement?
      modifies this
      ensures unsupported == FirstUnsupported(Trace(n))
      ensures unsupported.None? ==> State() == Replay(old(State()), Trace(n))
      decreases n, 0
    {
      ghost var st0 := State();
      match n.kind {
        case ForStatement(i, t, u, body) =>
          assert Trace(n) == TraceOpt(i) + TraceOpt(t) + TraceOpt(u) + Trace(body);
          unsupported := WalkOpt(i);
          if unsupported.None? {
            unsupported := WalkOpt(t);
          }
          Chain(st0, TraceOpt(i), TraceOpt(t));
          if unsupported.None? {
            unsupported := WalkOpt(u);
          }
          Chain(st0, TraceOpt(i) + TraceOpt(t), TraceOpt(u));
          if unsupported.None? {
            unsupported := Walk(body);
          }
          Chain(st0, TraceOpt(i) + TraceOpt(t) + TraceOpt(u), Trace(body));
        case ForInStatement(l, r, body) =>
          assert Trace(n) == Trace(l) + Trace(r) + Trace(body);
          unsupported := Walk(l);
          if unsupported.None? {
            unsupported := Walk(r);
          }
          Chain(st0, Trace(l), Trace(r));
          if unsupported.None? {
            unsupported := Walk(body);
          }
          Chain(st0, Trace(l) + Trace(r), Trace(body));
      }
    }

    /** `walk(x)` for a field that may be null. */
    method WalkOpt(o: Option<Node>) returns (unsupported: Option<string>)
      modifies this
      ensures unsupported == FirstUnsupported(TraceOpt(o))
      ensures unsupported.None? ==> State() == Replay(old(State()), TraceOpt(o))
      decreases o, 2
    {
      match o {
        case None =>
          unsupported := None;
        case Some(n) =>
          unsupported := Walk(n);
      }
    }

    /** `walk(array)`: `array.forEach(processNode)`, stopped by a throw. */
    method WalkAll(ns: seq<Node>) returns (unsupported: Option<string>)
      modifies this
      ensures unsupported == FirstUnsupported(TraceAll(ns))
      ensures unsupported.None? ==> State() == Replay(old(State()), TraceAll(ns))
      decreases ns, 0
    {
      ghost var st0 := State();
      var i := 0;
      unsupported := None;
      while i < |ns| && unsupported.None?
        invariant 0 <= i <= |ns|
        invariant unsupported.None? ==> FirstUnsupported(TraceAll(ns[..i])).None?
        invariant unsupported.None? ==> State() == Replay(st0, TraceAll(ns[..i]))
        invariant unsupported.Some? ==> unsupported == FirstUnsupported(TraceAll(ns[..i]))
        invariant unsupported.Some? ==> i > 0
        decreases |ns| - i
      {
        assert ns[..i + 1][..i] == ns[..i];
        assert TraceAll(ns[..i + 1]) == TraceAll(ns[..i]) + Trace(ns[i]);
        unsupported := Walk(ns[i]);
        Chain(st0, TraceAll(ns[..i]), Trace(ns[i]));
        i := i + 1;
      }
      if unsupported.None? {
        assert ns[..i] == ns;
      } else {
        // A throw stops the walk; the steps after it never matter.
        UnsupportedPrefix(ns, i);
      }
    }
  }

  /** Once a prefix of the nodes throws, so does the whole list, on the same
      kind. */
  lemma {:induction false} UnsupportedPrefix(ns: seq<Node>, i: nat)
    requires i <= |ns|
    requires FirstUnsupported(TraceAll(ns[..i])).Some?
    ensures FirstUnsupported(TraceAll(ns)) == FirstUnsupported(TraceAll(ns[..i]))
    decreases |ns| - i
  {
    if i < |ns| {
      assert ns[..i + 1][..i] == ns[..i];
      FirstUnsupportedConcat(TraceAll(ns[..i]), Trace(ns[i]));
      UnsupportedPrefix(ns, i + 1);
    } else {
      assert ns[..i] == ns;
    }
  }

  /** getDependencies(name, n). The `name` argument only switches on debug
      logging and is not modelled. */
  method GetDependencies(n: Node, globals: set<string>) returns (r: Result<seq<string>>)
    ensures r == DependencyList(n, globals)
  {
    var walker := new DependencyWalker();
    var unsupported := walker.Walk(n);
    if unsupported.Some? {
      return Err(UnknownNode(unsupported.value));
    }
    return Ok(KeepValid(walker.deps, walker.locals, globals));
  }
}
