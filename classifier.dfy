/** The top-level classifier (processTopLevelNode and the is* predicates,
    gulpfile.js:677-734). Each top-level statement of a module is checked
    against seven shapes in a fixed order and handled by the first that
    matches; a statement of no known shape stops the run. */
module Classifier {
  import opened Prelude
  import opened Ast

  /** The names /^define(Static|Instance(AndStatic)?)(WithArguments)?$/ accepts. */
  const METHOD_BLOCK_NAMES: seq<string> := [
    "defineStatic", "defineInstance", "defineInstanceAndStatic",
    "defineStaticWithArguments", "defineInstanceWithArguments", "defineInstanceAndStaticWithArguments"
  ]

  /** The names /^define(Static|Instance(AndStatic)?)Similar$/ accepts. */
  const SIMILAR_BLOCK_NAMES: seq<string> := [
    "defineStaticSimilar", "defineInstanceSimilar", "defineInstanceAndStaticSimilar"
  ]

  /** The call of an expression statement `f(...)`, if it is one. */
  predicate IsCallStatement(n: Node)
  {
    n.kind.ExpressionStatement? && n.kind.expression.kind.Call? && n.kind.expression.kind.callForm == PlainCall
  }

  /** The callee's name, when the statement is a call of a plain identifier. */
  function CalleeName(n: Node): (r: Option<string>)
    ensures r.Some? ==> IsCallStatement(n)
  {
    if IsCallStatement(n) then NameOf(n.kind.expression.kind.callee) else None
  }

  /** The arguments of a call statement. */
  function CallArguments(n: Node): seq<Node>
    requires IsCallStatement(n)
  {
    n.kind.expression.kind.arguments
  }

  predicate IsUseStrict(n: Node)
  {
    n.kind.ExpressionStatement? && n.kind.expression.kind == Literal(Str("use strict"))
  }

  predicate IsVariableDeclaration(n: Node)
  {
    n.kind.VariableDeclaration?
  }

  predicate IsFunctionDeclaration(n: Node)
  {
    n.kind.FunctionDeclaration?
  }

  predicate IsMethodBlock(n: Node)
  {
    CalleeName(n).Some? && CalleeName(n).value in METHOD_BLOCK_NAMES
  }

  predicate IsSimilarMethodBlock(n: Node)
  {
    CalleeName(n).Some? && CalleeName(n).value in SIMILAR_BLOCK_NAMES
  }

  predicate IsMemberAssignment(n: Node)
  {
    n.kind.ExpressionStatement? && n.kind.expression.kind.Binary?
    && n.kind.expression.kind.binaryForm == AssignmentOp
    && n.kind.expression.kind.lhs.kind.MemberExpression?
  }

  predicate IsAliasExpression(n: Node)
  {
    CalleeName(n) == Some("alias")
  }

  /** isBuildExpression reads `callee.name.match(...)` without a guard, so a
      call whose callee is not a plain identifier is a TypeError. */
  function IsBuildExpression(n: Node): (r: Result<bool>)
    ensures r.Err? <==> IsCallStatement(n) && CalleeName(n).None?
    ensures r == Ok(true) <==> CalleeName(n).Some? && StartsWith(CalleeName(n).value, "build")
  {
    if !IsCallStatement(n) then Ok(false)
    else
      match CalleeName(n)
      case None => Err(TypeError("callee.name is undefined"))
      case Some(name) => Ok(StartsWith(name, "build"))
  }

  datatype Shape =
    | UseStrictShape | VarShape | FunctionShape | MethodBlockShape
    | MemberAssignmentShape | AliasShape | BuildShape

  /** The order the switch tries the shapes in. */
  function Rank(s: Shape): nat
  {
    match s
    case UseStrictShape => 0
    case VarShape => 1
    case FunctionShape => 2
    case MethodBlockShape => 3
    case MemberAssignmentShape => 4
    case AliasShape => 5
    case BuildShape => 6
  }

  predicate Matches(n: Node, s: Shape)
  {
    match s
    case UseStrictShape => IsUseStrict(n)
    case VarShape => IsVariableDeclaration(n)
    case FunctionShape => IsFunctionDeclaration(n)
    case MethodBlockShape => IsMethodBlock(n)
    case MemberAssignmentShape => IsMemberAssignment(n)
    case AliasShape => IsAliasExpression(n)
    case BuildShape => IsBuildExpression(n) == Ok(true)
  }

  /** processTopLevelNode's switch (true). */
  function Classify(n: Node): Result<Shape>
  {
    if IsUseStrict(n) then Ok(UseStrictShape)
    else if IsVariableDeclaration(n) then Ok(VarShape)
    else if IsFunctionDeclaration(n) then Ok(FunctionShape)
    else if IsMethodBlock(n) then Ok(MethodBlockShape)
    else if IsMemberAssignment(n) then Ok(MemberAssignmentShape)
    else if IsAliasExpression(n) then Ok(AliasShape)
    else
      match IsBuildExpression(n)
      case Err(e) => Err(e)
      case Ok(true) => Ok(BuildShape)
      case Ok(false) => Err(UnknownTopLevelNode(TypeName(n.kind)))
  }

  /** The first shape that matches wins: a statement is classified as `s`
      exactly when it matches `s` and no shape tried before `s`. */
  lemma ClassifyFirstMatch(n: Node, s: Shape)
    ensures Classify(n) == Ok(s) <==> Matches(n, s) && forall t: Shape | Rank(t) < Rank(s) :: !Matches(n, t)
  {
    if Matches(n, s) && forall t: Shape | Rank(t) < Rank(s) :: !Matches(n, t) {
      assert Rank(UseStrictShape) == 0 && Rank(VarShape) == 1 && Rank(FunctionShape) == 2;
      assert Rank(MethodBlockShape) == 3 && Rank(MemberAssignmentShape) == 4 && Rank(AliasShape) == 5;
    }
  }

  /** A statement of no known shape throws "Unknown Top Level Node"; the
      only other failure is the unguarded `callee.name` of a call whose
      callee is not an identifier and that matched nothing before. */
  lemma ClassifyFailures(n: Node)
    ensures Classify(n).Err? && Classify(n).error.UnknownTopLevelNode? <==>
      (forall s: Shape :: !Matches(n, s)) && IsBuildExpression(n).Ok?
    ensures Classify(n).Err? && Classify(n).error.TypeError? <==>
      (forall s: Shape | s != BuildShape :: !Matches(n, s)) && IsCallStatement(n) && CalleeName(n).None?
    ensures Classify(n).Err? ==> Classify(n).error.UnknownTopLevelNode? || Classify(n).error.TypeError?
  {
    assert Matches(n, UseStrictShape) == IsUseStrict(n);
    assert Matches(n, VarShape) == IsVariableDeclaration(n);
    assert Matches(n, FunctionShape) == IsFunctionDeclaration(n);
    assert Matches(n, MethodBlockShape) == IsMethodBlock(n);
    assert Matches(n, MemberAssignmentShape) == IsMemberAssignment(n);
    assert Matches(n, AliasShape) == IsAliasExpression(n);
    assert Matches(n, BuildShape) == (IsBuildExpression(n) == Ok(true));
  }

  /** The callee of a method block, of an alias call and of a build call is
      always a plain identifier; in particular `Sugar.extend(...)` at top
      level is a TypeError rather than an unknown node. */
  lemma MemberCalleeIsTypeError(loc: Loc, o: Node, p: Node, args: seq<Node>)
    ensures
      var call := Node(loc, ExpressionStatement(Node(loc, Call(PlainCall, Node(loc, MemberExpression(o, p, false)), args))));
      Classify(call) == Err(TypeError("callee.name is undefined"))
  {
  }
}
