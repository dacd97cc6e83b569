/** The syntax tree the modularizer works on: the subset of acorn's ESTree
    nodes that the dependency walker and the top-level classifier look at.
    Every node carries its location (character offsets into the module
    source, and the line and column where it starts); a node kind the walker
    has no rule for is kept as `Other`, with its type name. */
module Ast {
  import opened Prelude

  datatype Loc = Loc(start: nat, end: nat, line: nat, column: nat)

  /** The value of a `Literal` node. */
  datatype Value = Str(s: string) | Num(n: int) | Bool(b: bool) | Null | RegExp(pattern: string)

  datatype Node = Node(loc: Loc, kind: Kind)

  /** NewExpression and CallExpression are one shape, as are the other
      groups below; the first field says which ESTree type the node has. */
  datatype CallForm = NewCall | PlainCall
  datatype TestForm = IfStatementForm | ConditionalForm
  datatype BinaryForm = BinaryOp | LogicalOp | AssignmentOp
  datatype ArgumentForm = ThrowArg | ReturnArg | UnaryArg | UpdateArg
  datatype LeafForm = EmptyLeaf | ThisLeaf | BreakLeaf | ContinueLeaf

  datatype Kind =
    | Identifier(name: string)
    | Literal(value: Value)
    | VariableDeclaration(declarations: seq<Node>)
    | VariableDeclarator(id: string, init: Option<Node>)
    | FunctionDeclaration(id: string, params: seq<string>, body: seq<Node>)
    | FunctionExpression(params: seq<string>, body: seq<Node>)
    | CatchClause(param: Node, handlerBody: Node)
    | MemberExpression(obj: Node, property: Node, computed: bool)
    | ExpressionStatement(expression: Node)
    | SequenceExpression(expressions: seq<Node>)
    | SwitchStatement(discriminant: Node, cases: seq<Node>)
    | SwitchCase(caseTest: Option<Node>, caseBody: seq<Node>)
    | ObjectExpression(properties: seq<Node>)
    | Property(key: Node, propertyValue: Node)
    | ArrayExpression(elements: seq<Node>)
    | TryStatement(block: Node, handler: Option<Node>, finalizer: Option<Node>)
    | BlockStatement(statements: seq<Node>)
    | ForStatement(forInit: Option<Node>, forTest: Option<Node>, update: Option<Node>, forBody: Node)
    | ForInStatement(left: Node, right: Node, forInBody: Node)
    | WhileStatement(whileTest: Node, whileBody: Node)
    | DoWhileStatement(doBody: Node, doTest: Node)
    | Call(callForm: CallForm, callee: Node, arguments: seq<Node>)
    | Test(testForm: TestForm, test: Node, consequent: Node, alternate: Option<Node>)
    | Binary(binaryForm: BinaryForm, lhs: Node, rhs: Node)
    | Argument(argumentForm: ArgumentForm, argument: Option<Node>)
    | Leaf(leafForm: LeafForm)
    | Other(nodeType: string)

  /** The ESTree `type` string of a node. */
  function TypeName(k: Kind): (r: string)
    ensures k.Other? ==> r == k.nodeType
  {
    match k
    case Identifier(_) => "Identifier"
    case Literal(_) => "Literal"
    case VariableDeclaration(_) => "VariableDeclaration"
    case VariableDeclarator(_, _) => "VariableDeclarator"
    case FunctionDeclaration(_, _, _) => "FunctionDeclaration"
    case FunctionExpression(_, _) => "FunctionExpression"
    case CatchClause(_, _) => "CatchClause"
    case MemberExpression(_, _, _) => "MemberExpression"
    case ExpressionStatement(_) => "ExpressionStatement"
    case SequenceExpression(_) => "SequenceExpression"
    case SwitchStatement(_, _) => "SwitchStatement"
    case SwitchCase(_, _) => "SwitchCase"
    case ObjectExpression(_) => "ObjectExpression"
    case Property(_, _) => "Property"
    case ArrayExpression(_) => "ArrayExpression"
    case TryStatement(_, _, _) => "TryStatement"
    case BlockStatement(_) => "BlockStatement"
    case ForStatement(_, _, _, _) => "ForStatement"
    case ForInStatement(_, _, _) => "ForInStatement"
    case WhileStatement(_, _) => "WhileStatement"
    case DoWhileStatement(_, _) => "DoWhileStatement"
    case Call(f, _, _) => if f == NewCall then "NewExpression" else "CallExpression"
    case Test(f, _, _, _) => if f == IfStatementForm then "IfStatement" else "ConditionalExpression"
    case Binary(f, _, _) =>
      (match f
       case BinaryOp => "BinaryExpression"
       case LogicalOp => "LogicalExpression"
       case AssignmentOp => "AssignmentExpression")
    case Argument(f, _) =>
      (match f
       case ThrowArg => "ThrowStatement"
       case ReturnArg => "ReturnStatement"
       case UnaryArg => "UnaryExpression"
       case UpdateArg => "UpdateExpression")
    case Leaf(f) =>
      (match f
       case EmptyLeaf => "EmptyStatement"
       case ThisLeaf => "ThisExpression"
       case BreakLeaf => "BreakStatement"
       case ContinueLeaf => "ContinueStatement")
    case Other(t) => t
  }

  /** `node.name`: only an Identifier has one. */
  function NameOf(n: Node): (r: Option<string>)
    ensures r.Some? <==> n.kind.Identifier?
  {
    if n.kind.Identifier? then Some(n.kind.name) else None
  }

  /** `node.value` read as a string: only a string Literal has one. */
  function StringValueOf(n: Node): (r: Option<string>)
    ensures r.Some? <==> n.kind.Literal? && n.kind.value.Str?
  {
    if n.kind.Literal? && n.kind.value.Str? then Some(n.kind.value.s) else None
  }
}
