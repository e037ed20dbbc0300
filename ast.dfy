/**
 * The parse tree. Each constructor mirrors one of the tagged lists the parser
 * builds: ["INT", v], ["IDENTIFIER", n], ["BINOP", op, l, r],
 * ["RELOP", op, l, r], ["DECLARATION", t, n], ["DECLARATION_INIT", t, n, e],
 * ["ASSIGNMENT", n, e], ["IF", c, then, else-or-None], ["WHILE", c, body],
 * ["BLOCK", items] and ["PROGRAM", statements...].
 */
module Ast {
  import opened Wrappers

  datatype Expr =
    | Int(value: string)
    | Identifier(name: string)
    | BinOp(op: string, left: Expr, right: Expr)

  datatype Cond = RelOp(op: string, left: Expr, right: Expr)

  datatype Stmt =
    | Decl(varType: string, name: string)
    | DeclInit(varType: string, name: string, init: Expr)
    | Assign(name: string, value: Expr)
    | If(cond: Cond, thenBlock: Block, elseBlock: Option<Block>)
    | While(cond: Cond, body: Block)

  datatype Block = Block(items: seq<Stmt>)

  datatype Program = Program(statements: seq<Stmt>)

  /** Names read by an expression (its IDENTIFIER leaves). */
  function ExprUses(e: Expr): set<string> {
    match e
    case Int(_) => {}
    case Identifier(n) => {n}
    case BinOp(_, l, r) => ExprUses(l) + ExprUses(r)
  }

  function CondUses(c: Cond): set<string> {
    ExprUses(c.left) + ExprUses(c.right)
  }

  /** Names a statement reads or assigns, including inside its blocks. */
  function StmtUses(s: Stmt): set<string> {
    match s
    case Decl(_, _) => {}
    case DeclInit(_, _, e) => ExprUses(e)
    case Assign(n, e) => {n} + ExprUses(e)
    case If(c, t, e) => CondUses(c) + BlockUses(t) + (if e.Some? then BlockUses(e.value) else {})
    case While(c, b) => CondUses(c) + BlockUses(b)
  }

  function BlockUses(b: Block): set<string> {
    ItemsUses(b.items)
  }

  function ItemsUses(items: seq<Stmt>): set<string> {
    if items == [] then {} else StmtUses(items[0]) + ItemsUses(items[1..])
  }

  /** Names of the declaration nodes in a statement, in tree order. */
  function StmtDecls(s: Stmt): seq<string> {
    match s
    case Decl(_, n) => [n]
    case DeclInit(_, n, _) => [n]
    case Assign(_, _) => []
    case If(_, t, e) => BlockDecls(t) + (if e.Some? then BlockDecls(e.value) else [])
    case While(_, b) => BlockDecls(b)
  }

  function BlockDecls(b: Block): seq<string> {
    ItemsDecls(b.items)
  }

  function ItemsDecls(items: seq<Stmt>): seq<string> {
    if items == [] then [] else StmtDecls(items[0]) + ItemsDecls(items[1..])
  }

  /** No name occurs twice. */
  predicate Distinct(names: seq<string>) {
    forall i, j :: 0 <= i < j < |names| ==> names[i] != names[j]
  }

  /**
   * The names were declared by one stretch of a parse: pairwise distinct,
   * absent from the symbol set `before` it and present in the set `after` it.
   */
  predicate FreshNames(names: seq<string>, before: set<string>, after: set<string>) {
    Distinct(names) && forall i :: 0 <= i < |names| ==> names[i] !in before && names[i] in after
  }

  /** Two consecutive stretches of a parse declare fresh names together. */
  lemma FreshNamesConcat(a: seq<string>, b: seq<string>, s0: set<string>, s1: set<string>, s2: set<string>)
    requires FreshNames(a, s0, s1) && FreshNames(b, s1, s2) && s0 <= s1 <= s2
    ensures FreshNames(a + b, s0, s2)
  {
    var ab := a + b;
    forall i, j | 0 <= i < j < |ab| ensures ab[i] != ab[j] {
      if j < |a| {
      } else if i >= |a| {
        assert ab[i] == b[i - |a|] && ab[j] == b[j - |a|];
      } else {
        assert ab[i] == a[i] && ab[i] in s1;
        assert ab[j] == b[j - |a|] && ab[j] !in s1;
      }
    }
    forall i | 0 <= i < |ab| ensures ab[i] !in s0 && ab[i] in s2 {
      if i < |a| { assert ab[i] == a[i]; } else { assert ab[i] == b[i - |a|]; }
    }
  }
}
