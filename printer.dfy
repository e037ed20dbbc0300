/**
 * A printer from trees back to tokens, inserting parentheses only where the
 * grammar needs them, and the theorem that the parser reads every printed
 * well-formed tree back as exactly that tree. Expression printing is
 * canonical for the grammar Expression := Term (('+'|'-') Term)*,
 * Term := Factor (('*'|'/') Factor)*, so the round trip pins down
 * precedence (`*`, `/` over `+`, `-`), left associativity of both levels,
 * and that parentheses leave no node of their own.
 */
module Printer {
  import opened Wrappers
  import opened Tokens
  import opened Ast
  import opened Grammar

  /**
   * The termination measure shared by the printers and the round-trip lemmas
   * at level 0 (expression), 1 (term) and 2 (factor): a call that does not
   * descend into a subtree moves to a level of smaller rank.
   */
  function Rank(e: Expr, level: nat): nat {
    if e.BinOp? && IsAddOp(e.op) then (if level == 0 then 0 else if level == 1 then 2 else 1)
    else if e.BinOp? then (if level == 0 then 1 else if level == 1 then 0 else 2)
    else (if level == 0 then 2 else if level == 1 then 1 else 0)
  }

  function PrintExpr(e: Expr): seq<Token>
    decreases e, Rank(e, 0)
  {
    if e.BinOp? && IsAddOp(e.op) then PrintExpr(e.left) + [Token(OPERATOR, e.op)] + PrintTerm(e.right)
    else PrintTerm(e)
  }

  function PrintTerm(e: Expr): seq<Token>
    decreases e, Rank(e, 1)
  {
    if e.BinOp? && !IsAddOp(e.op) then PrintTerm(e.left) + [Token(OPERATOR, e.op)] + PrintFactor(e.right)
    else PrintFactor(e)
  }

  function PrintFactor(e: Expr): seq<Token>
    decreases e, Rank(e, 2)
  {
    match e
    case Int(v) => [Token(INTEGER, v)]
    case Identifier(n) => [Token(IDENTIFIER, n)]
    case BinOp(_, _, _) => [Token(PUNCTUATION, "(")] + PrintExpr(e) + [Token(PUNCTUATION, ")")]
  }

  function PrintCond(c: Cond): seq<Token> {
    PrintExpr(c.left) + [Token(OPERATOR, c.op)] + PrintExpr(c.right)
  }

  function PrintStmt(s: Stmt): seq<Token> {
    match s
    case Decl(t, n) => [Token(KEYWORD, t), Token(IDENTIFIER, n), Token(PUNCTUATION, ";")]
    case DeclInit(t, n, e) =>
      [Token(KEYWORD, t), Token(IDENTIFIER, n), Token(OPERATOR, "=")] + PrintExpr(e) + [Token(PUNCTUATION, ";")]
    case Assign(n, e) => [Token(IDENTIFIER, n), Token(OPERATOR, "=")] + PrintExpr(e) + [Token(PUNCTUATION, ";")]
    case If(c, t, e) =>
      [Token(KEYWORD, "if"), Token(PUNCTUATION, "(")] + PrintCond(c) + [Token(PUNCTUATION, ")")] + PrintBlock(t)
      + (if e.Some? then [Token(KEYWORD, "else")] + PrintBlock(e.value) else [])
    case While(c, b) =>
      [Token(KEYWORD, "while"), Token(PUNCTUATION, "(")] + PrintCond(c) + [Token(PUNCTUATION, ")")] + PrintBlock(b)
  }

  function PrintBlock(b: Block): seq<Token> {
    [Token(PUNCTUATION, "{")] + PrintItems(b.items) + [Token(PUNCTUATION, "}")]
  }

  function PrintItems(items: seq<Stmt>): seq<Token> {
    if items == [] then [] else PrintStmt(items[0]) + PrintItems(items[1..])
  }

  function PrintProgram(prog: Program): seq<Token> {
    PrintItems(prog.statements)
  }

  // ---------------------------------------------------------------------------
  // Which trees a parse can produce: declarations of fresh names of type
  // `int`, uses of declared names, and the operators of the grammar.

  /** The declared names after a statement, threaded in source order. */
  function DeclaredAfter(s: Stmt, syms: set<string>): set<string> {
    match s
    case Decl(_, n) => syms + {n}
    case DeclInit(_, n, _) => syms + {n}
    case Assign(_, _) => syms
    case If(_, t, e) =>
      var s1 := DeclaredAfterItems(t.items, syms);
      if e.Some? then DeclaredAfterItems(e.value.items, s1) else s1
    case While(_, b) => DeclaredAfterItems(b.items, syms)
  }

  function DeclaredAfterItems(items: seq<Stmt>, syms: set<string>): set<string> {
    if items == [] then syms else DeclaredAfterItems(items[1..], DeclaredAfter(items[0], syms))
  }

  predicate WellFormedStmt(s: Stmt, syms: set<string>) {
    match s
    case Decl(t, n) => t == "int" && n !in syms
    case DeclInit(t, n, e) => t == "int" && n !in syms && WellFormedExpr(e, syms)
    case Assign(n, e) => n in syms && WellFormedExpr(e, syms)
    case If(c, t, e) =>
      && WellFormedCond(c, syms)
      && WellFormedItems(t.items, syms)
      && (e.Some? ==> WellFormedItems(e.value.items, DeclaredAfterItems(t.items, syms)))
    case While(c, b) => WellFormedCond(c, syms) && WellFormedItems(b.items, syms)
  }

  predicate WellFormedItems(items: seq<Stmt>, syms: set<string>) {
    items == [] || (WellFormedStmt(items[0], syms) && WellFormedItems(items[1..], DeclaredAfter(items[0], syms)))
  }

  predicate WellFormedProgram(prog: Program) {
    WellFormedItems(prog.statements, {})
  }

  // ---------------------------------------------------------------------------
  // Round trip

  /** The tokens u stand in toks from position p on. */
  predicate Occurs(toks: seq<Token>, p: nat, u: seq<Token>) {
    p + |u| <= |toks| && Matches(toks, p, u)
  }

  /** Token-by-token comparison of u with toks from p on. */
  predicate Matches(toks: seq<Token>, p: nat, u: seq<Token>)
    decreases |u|
  {
    u == [] || (p < |toks| && toks[p] == u[0] && Matches(toks, p + 1, u[1..]))
  }

  lemma {:induction false} Split(toks: seq<Token>, p: nat, a: seq<Token>, b: seq<Token>)
    requires Occurs(toks, p, a + b)
    ensures Occurs(toks, p, a) && Occurs(toks, p + |a|, b)
    decreases |a|
  {
    if a == [] {
      assert a + b == b;
    } else {
      assert (a + b)[0] == a[0] && (a + b)[1..] == a[1..] + b;
      Split(toks, p + 1, a[1..], b);
    }
  }

  /** The token at offset i of an occurrence. */
  lemma {:induction false} TokenOf(toks: seq<Token>, p: nat, u: seq<Token>, i: nat)
    requires Occurs(toks, p, u) && i < |u|
    ensures p + i < |toks| && toks[p + i] == u[i]
    decreases i
  {
    if i > 0 {
      TokenOf(toks, p + 1, u[1..], i - 1);
    }
  }

  lemma TokenAt(toks: seq<Token>, p: nat, t: Token)
    requires Occurs(toks, p, [t])
    ensures p < |toks| && toks[p] == t
  {
    TokenOf(toks, p, [t], 0);
  }

  /** An infix form `a t b` splits into its left side, its operator token and its right side. */
  lemma Infix(toks: seq<Token>, p: nat, a: seq<Token>, t: Token, b: seq<Token>)
    requires Occurs(toks, p, a + [t] + b)
    ensures Occurs(toks, p, a) && Occurs(toks, p + |a| + 1, b)
    ensures p + |a| < |toks| && toks[p + |a|] == t
  {
    Split(toks, p, a + [t], b);
    Split(toks, p, a, [t]);
    TokenAt(toks, p + |a|, t);
  }

  /** Parsing an expression that starts with a printed tree reaches the tail loop holding that tree. */
  lemma {:induction false} ExpressionPrefix(toks: seq<Token>, syms: set<string>, e: Expr, p: nat)
    requires WellFormedExpr(e, syms) && Occurs(toks, p, PrintExpr(e))
    requires !MulOpAt(toks, p + |PrintExpr(e)|)
    ensures ParseExpression(toks, syms, p) == ExpressionTail(toks, syms, e, p + |PrintExpr(e)|)
    decreases e, Rank(e, 0), 1
  {
    if e.BinOp? && IsAddOp(e.op) {
      AdditivePrefix(toks, syms, e, p);
    } else {
      var end := p + |PrintTerm(e)|;
      assert PrintExpr(e) == PrintTerm(e);
      TermPrefix(toks, syms, e, p);
      assert TermTail(toks, syms, e, end) == Parsed(Some(e), end);
    }
  }

  /** The additive case of `ExpressionPrefix`: one more round of the tail loop. */
  lemma {:induction false} AdditivePrefix(toks: seq<Token>, syms: set<string>, e: Expr, p: nat)
    requires e.BinOp? && IsAddOp(e.op)
    requires WellFormedExpr(e, syms) && Occurs(toks, p, PrintExpr(e))
    requires !MulOpAt(toks, p + |PrintExpr(e)|)
    ensures ParseExpression(toks, syms, p) == ExpressionTail(toks, syms, e, p + |PrintExpr(e)|)
    decreases e, Rank(e, 0), 0
  {
    var a, opTok, b := PrintExpr(e.left), Token(OPERATOR, e.op), PrintTerm(e.right);
    assert PrintExpr(e) == a + [opTok] + b;
    Infix(toks, p, a, opTok, b);
    var q := p + |a|;
    var end := q + 1 + |b|;
    assert !MulOpAt(toks, q);
    ExpressionPrefix(toks, syms, e.left, p);
    TermPrefix(toks, syms, e.right, q + 1);
    assert TermTail(toks, syms, e.right, end) == Parsed(Some(e.right), end);
    ExpressionTailStep(toks, syms, e, q, end);
  }

  lemma ExpressionTailStep(toks: seq<Token>, syms: set<string>, e: Expr, q: nat, end: nat)
    requires e.BinOp? && IsAddOp(e.op) && WellFormedExpr(e, syms)
    requires q < |toks| && toks[q] == Token(OPERATOR, e.op)
    requires ParseTerm(toks, syms, q + 1) == Parsed(Some(e.right), end)
    ensures !MulOpAt(toks, end)
    ensures ExpressionTail(toks, syms, e.left, q) == ExpressionTail(toks, syms, e, end)
  {
    assert BinOp(toks[q].value, e.left, e.right) == e;
  }

  /** Parsing a term that starts with a printed tree reaches the tail loop holding that tree. */
  lemma {:induction false} TermPrefix(toks: seq<Token>, syms: set<string>, e: Expr, p: nat)
    requires WellFormedExpr(e, syms) && Occurs(toks, p, PrintTerm(e))
    ensures ParseTerm(toks, syms, p) == TermTail(toks, syms, e, p + |PrintTerm(e)|)
    decreases e, Rank(e, 1), 1
  {
    if e.BinOp? && !IsAddOp(e.op) {
      var a, opTok, b := PrintTerm(e.left), Token(OPERATOR, e.op), PrintFactor(e.right);
      assert PrintTerm(e) == a + [opTok] + b;
      Infix(toks, p, a, opTok, b);
      var q := p + |a|;
      var end := q + 1 + |b|;
      assert MulOpAt(toks, q);
      TermPrefix(toks, syms, e.left, p);
      FactorRoundTrip(toks, syms, e.right, q + 1);
      assert BinOp(toks[q].value, e.left, e.right) == e;
      assert TermTail(toks, syms, e.left, q) == TermTail(toks, syms, e, end);
    } else {
      assert PrintTerm(e) == PrintFactor(e);
      FactorRoundTrip(toks, syms, e, p);
    }
  }

  /** A printed factor parses back to itself; a parenthesised tree comes back without a wrapper. */
  lemma {:induction false} FactorRoundTrip(toks: seq<Token>, syms: set<string>, e: Expr, p: nat)
    requires WellFormedExpr(e, syms) && Occurs(toks, p, PrintFactor(e))
    ensures ParseFactor(toks, syms, p) == Parsed(Some(e), p + |PrintFactor(e)|)
    decreases e, Rank(e, 2), 1
  {
    match e
    case Int(v) =>
      TokenAt(toks, p, Token(INTEGER, v));
    case Identifier(n) =>
      TokenAt(toks, p, Token(IDENTIFIER, n));
    case BinOp(_, _, _) =>
      var open, inner, close := Token(PUNCTUATION, "("), PrintExpr(e), Token(PUNCTUATION, ")");
      assert PrintFactor(e) == [open] + inner + [close];
      Split(toks, p, [open] + inner, [close]);
      Split(toks, p, [open], inner);
      var end := p + 1 + |inner|;
      TokenAt(toks, p, open);
      TokenAt(toks, end, close);
      assert !AddOpAt(toks, end) && !MulOpAt(toks, end);
      ExpressionPrefix(toks, syms, e, p + 1);
      assert ExpressionTail(toks, syms, e, end) == Parsed(Some(e), end);
      assert ParseExpression(toks, syms, p + 1) == Parsed(Some(e), end);
  }

  /**
   * A printed well-formed expression, followed by anything that is not an
   * arithmetic operator, parses back to the same tree and stops right after it.
   */
  lemma ExpressionRoundTrip(toks: seq<Token>, syms: set<string>, e: Expr, p: nat)
    requires WellFormedExpr(e, syms) && Occurs(toks, p, PrintExpr(e))
    requires !AddOpAt(toks, p + |PrintExpr(e)|) && !MulOpAt(toks, p + |PrintExpr(e)|)
    ensures ParseExpression(toks, syms, p) == Parsed(Some(e), p + |PrintExpr(e)|)
  {
    ExpressionPrefix(toks, syms, e, p);
  }

  /** A printed well-formed condition parses back to itself. */
  lemma CondRoundTrip(toks: seq<Token>, syms: set<string>, c: Cond, p: nat)
    requires WellFormedCond(c, syms) && Occurs(toks, p, PrintCond(c))
    requires !AddOpAt(toks, p + |PrintCond(c)|) && !MulOpAt(toks, p + |PrintCond(c)|)
    ensures ParseRel(toks, syms, p) == Parsed(Some(c), p + |PrintCond(c)|)
  {
    var a, opTok, b := PrintExpr(c.left), Token(OPERATOR, c.op), PrintExpr(c.right);
    Infix(toks, p, a, opTok, b);
    var q := p + |a|;
    assert !AddOpAt(toks, q) && !MulOpAt(toks, q);
    ExpressionRoundTrip(toks, syms, c.left, p);
    ExpressionRoundTrip(toks, syms, c.right, q + 1);
    RelStep(toks, syms, p, c.left, q, c.right, q + 1 + |b|);
  }

  lemma RelStep(toks: seq<Token>, syms: set<string>, p: nat, l: Expr, q: nat, r: Expr, end: nat)
    requires p <= |toks| && q < |toks|
    requires ParseExpression(toks, syms, p) == Parsed(Some(l), q)
    requires toks[q].kind == OPERATOR && IsRelOp(toks[q].value)
    requires ParseExpression(toks, syms, q + 1) == Parsed(Some(r), end)
    ensures ParseRel(toks, syms, p) == Parsed(Some(RelOp(toks[q].value, l, r)), end)
  {
  }

  /** A printed well-formed statement starts with a token `_statement` dispatches on. */
  lemma StmtStart(s: Stmt, syms: set<string>)
    requires WellFormedStmt(s, syms)
    ensures |PrintStmt(s)| > 0
    ensures StartsStatement(PrintStmt(s), 0)
    ensures PrintStmt(s)[0] != Token(KEYWORD, "else") && PrintStmt(s)[0].kind != PUNCTUATION
  {
  }

  lemma DeclRoundTrip(toks: seq<Token>, syms: set<string>, t: string, n: string, p: nat)
    requires WellFormedStmt(Decl(t, n), syms) && Occurs(toks, p, PrintStmt(Decl(t, n)))
    ensures ParseDeclaration(toks, syms, p) == Step(Some(Decl(t, n)), p + 3, syms + {n})
  {
    var u := PrintStmt(Decl(t, n));
    TokenOf(toks, p, u, 0);
    TokenOf(toks, p, u, 1);
    TokenOf(toks, p, u, 2);
  }

  lemma DeclInitRoundTrip(toks: seq<Token>, syms: set<string>, t: string, n: string, e: Expr, p: nat)
    requires WellFormedStmt(DeclInit(t, n, e), syms) && Occurs(toks, p, PrintStmt(DeclInit(t, n, e)))
    ensures ParseDeclaration(toks, syms, p) ==
            Step(Some(DeclInit(t, n, e)), p + |PrintStmt(DeclInit(t, n, e))|, syms + {n})
  {
    var head, semi := [Token(KEYWORD, t), Token(IDENTIFIER, n), Token(OPERATOR, "=")], Token(PUNCTUATION, ";");
    assert PrintStmt(DeclInit(t, n, e)) == head + PrintExpr(e) + [semi];
    Split(toks, p, head + PrintExpr(e), [semi]);
    Split(toks, p, head, PrintExpr(e));
    TokenOf(toks, p, head, 0);
    TokenOf(toks, p, head, 1);
    TokenOf(toks, p, head, 2);
    var end := p + 3 + |PrintExpr(e)|;
    TokenAt(toks, end, semi);
    ExpressionRoundTrip(toks, syms, e, p + 3);
  }

  lemma AssignRoundTrip(toks: seq<Token>, syms: set<string>, n: string, e: Expr, p: nat)
    requires WellFormedStmt(Assign(n, e), syms) && Occurs(toks, p, PrintStmt(Assign(n, e)))
    ensures ParseAssignment(toks, syms, p) == Step(Some(Assign(n, e)), p + |PrintStmt(Assign(n, e))|, syms)
  {
    var head, semi := [Token(IDENTIFIER, n), Token(OPERATOR, "=")], Token(PUNCTUATION, ";");
    assert PrintStmt(Assign(n, e)) == head + PrintExpr(e) + [semi];
    Split(toks, p, head + PrintExpr(e), [semi]);
    Split(toks, p, head, PrintExpr(e));
    TokenOf(toks, p, head, 0);
    TokenOf(toks, p, head, 1);
    var end := p + 2 + |PrintExpr(e)|;
    TokenAt(toks, end, semi);
    ExpressionRoundTrip(toks, syms, e, p + 2);
  }

  /** The head `kw ( cond )` of an if or while statement: the condition parses back. */
  lemma HeadRoundTrip(toks: seq<Token>, syms: set<string>, kw: string, c: Cond, p: nat)
    requires WellFormedCond(c, syms)
    requires Occurs(toks, p, [Token(KEYWORD, kw), Token(PUNCTUATION, "(")] + PrintCond(c) + [Token(PUNCTUATION, ")")])
    ensures IsToken(toks, p, KEYWORD, kw) && HasValue(toks, p + 1, "(")
    ensures ParseRel(toks, syms, p + 2) == Parsed(Some(c), p + 2 + |PrintCond(c)|)
    ensures HasValue(toks, p + 2 + |PrintCond(c)|, ")")
  {
    var head, close := [Token(KEYWORD, kw), Token(PUNCTUATION, "(")], Token(PUNCTUATION, ")");
    Split(toks, p, head + PrintCond(c), [close]);
    Split(toks, p, head, PrintCond(c));
    TokenOf(toks, p, head, 0);
    TokenOf(toks, p, head, 1);
    var q := p + 2 + |PrintCond(c)|;
    TokenAt(toks, q, close);
    CondRoundTrip(toks, syms, c, p + 2);
  }

  lemma IfStep(toks: seq<Token>, syms: set<string>, p: nat, c: Cond, q: nat, t: Block, q2: nat, s1: set<string>)
    requires IsToken(toks, p, KEYWORD, "if") && HasValue(toks, p + 1, "(")
    requires p + 2 <= |toks| && ParseRel(toks, syms, p + 2) == Parsed(Some(c), q) && HasValue(toks, q, ")")
    requires ParseBlock(toks, syms, q + 1) == Step(Some(t), q2, s1)
    ensures !IsToken(toks, q2, KEYWORD, "else") ==> ParseIf(toks, syms, p) == Step(Some(If(c, t, None)), q2, s1)
    ensures IsToken(toks, q2, KEYWORD, "else") && q2 + 1 <= |toks| ==>
              var eb := ParseBlock(toks, s1, q2 + 1);
              eb.node.Some? ==> ParseIf(toks, syms, p) == Step(Some(If(c, t, eb.node)), eb.pos, eb.symbols)
  {
    assert ParseIf(toks, syms, p) == IfBody(toks, syms, c, q + 1);
  }

  lemma IfRoundTrip(toks: seq<Token>, syms: set<string>, c: Cond, t: Block, e: Option<Block>, p: nat)
    requires WellFormedStmt(If(c, t, e), syms) && Occurs(toks, p, PrintStmt(If(c, t, e)))
    requires !IsToken(toks, p + |PrintStmt(If(c, t, e))|, KEYWORD, "else")
    ensures ParseIf(toks, syms, p) ==
            Step(Some(If(c, t, e)), p + |PrintStmt(If(c, t, e))|, DeclaredAfter(If(c, t, e), syms))
    decreases If(c, t, e), 0
  {
    var head := [Token(KEYWORD, "if"), Token(PUNCTUATION, "(")] + PrintCond(c) + [Token(PUNCTUATION, ")")];
    var tail := if e.Some? then [Token(KEYWORD, "else")] + PrintBlock(e.value) else [];
    assert PrintStmt(If(c, t, e)) == head + PrintBlock(t) + tail;
    Split(toks, p, head + PrintBlock(t), tail);
    Split(toks, p, head, PrintBlock(t));
    HeadRoundTrip(toks, syms, "if", c, p);
    var q := p + 2 + |PrintCond(c)|;
    BlockRoundTrip(toks, syms, t, q + 1);
    var q2 := q + 1 + |PrintBlock(t)|;
    var s1 := DeclaredAfterItems(t.items, syms);
    IfStep(toks, syms, p, c, q, t, q2, s1);
    if e.Some? {
      Split(toks, q2, [Token(KEYWORD, "else")], PrintBlock(e.value));
      TokenAt(toks, q2, Token(KEYWORD, "else"));
      BlockRoundTrip(toks, s1, e.value, q2 + 1);
    }
  }

  lemma WhileRoundTrip(toks: seq<Token>, syms: set<string>, c: Cond, b: Block, p: nat)
    requires WellFormedStmt(While(c, b), syms) && Occurs(toks, p, PrintStmt(While(c, b)))
    ensures ParseWhile(toks, syms, p) ==
            Step(Some(While(c, b)), p + |PrintStmt(While(c, b))|, DeclaredAfter(While(c, b), syms))
    decreases While(c, b), 0
  {
    var head := [Token(KEYWORD, "while"), Token(PUNCTUATION, "(")] + PrintCond(c) + [Token(PUNCTUATION, ")")];
    assert PrintStmt(While(c, b)) == head + PrintBlock(b);
    Split(toks, p, head, PrintBlock(b));
    HeadRoundTrip(toks, syms, "while", c, p);
    var q := p + 2 + |PrintCond(c)|;
    BlockRoundTrip(toks, syms, b, q + 1);
  }

  /**
   * A printed well-formed statement, not followed by the keyword `else`,
   * parses back to itself and declares the names it declares.
   */
  lemma {:induction false} StatementRoundTrip(toks: seq<Token>, syms: set<string>, s: Stmt, p: nat)
    requires WellFormedStmt(s, syms) && Occurs(toks, p, PrintStmt(s))
    requires !IsToken(toks, p + |PrintStmt(s)|, KEYWORD, "else")
    ensures ParseStatement(toks, syms, p) == Step(Some(s), p + |PrintStmt(s)|, DeclaredAfter(s, syms))
    decreases s, 1
  {
    StmtStart(s, syms);
    TokenOf(toks, p, PrintStmt(s), 0);
    match s
    case Decl(t, n) => DeclRoundTrip(toks, syms, t, n, p);
    case DeclInit(t, n, e) => DeclInitRoundTrip(toks, syms, t, n, e, p);
    case Assign(n, e) => AssignRoundTrip(toks, syms, n, e, p);
    case If(c, t, e) => IfRoundTrip(toks, syms, c, t, e, p);
    case While(c, b) => WhileRoundTrip(toks, syms, c, b, p);
  }

  /** A printed well-formed block parses back to itself. */
  lemma {:induction false} BlockRoundTrip(toks: seq<Token>, syms: set<string>, b: Block, p: nat)
    requires WellFormedItems(b.items, syms) && Occurs(toks, p, PrintBlock(b))
    ensures ParseBlock(toks, syms, p) == Step(Some(b), p + |PrintBlock(b)|, DeclaredAfterItems(b.items, syms))
    decreases b, 0
  {
    var body := PrintItems(b.items);
    Split(toks, p, [Token(PUNCTUATION, "{")] + body, [Token(PUNCTUATION, "}")]);
    Split(toks, p, [Token(PUNCTUATION, "{")], body);
    TokenAt(toks, p, Token(PUNCTUATION, "{"));
    TokenAt(toks, p + 1 + |body|, Token(PUNCTUATION, "}"));
    ItemsRoundTrip(toks, syms, b.items, p + 1);
  }

  /** The first statement of a printed sequence and where the rest begins. */
  lemma FirstOfItems(toks: seq<Token>, syms: set<string>, items: seq<Stmt>, p: nat)
    requires items != [] && WellFormedItems(items, syms) && Occurs(toks, p, PrintItems(items))
    ensures Occurs(toks, p, PrintStmt(items[0]))
    ensures Occurs(toks, p + |PrintStmt(items[0])|, PrintItems(items[1..]))
    ensures StartsStatement(toks, p) && toks[p].kind != PUNCTUATION
  {
    var a := PrintStmt(items[0]);
    Split(toks, p, a, PrintItems(items[1..]));
    StmtStart(items[0], syms);
    TokenOf(toks, p, a, 0);
  }

  /** After a statement comes either a printed statement, which never starts with `else`, or something given. */
  lemma NextNotElse(toks: seq<Token>, items: seq<Stmt>, syms: set<string>, q: nat)
    requires WellFormedItems(items, syms) && Occurs(toks, q, PrintItems(items))
    requires items == [] ==> !IsToken(toks, q, KEYWORD, "else")
    ensures !IsToken(toks, q, KEYWORD, "else")
  {
    if items != [] {
      FirstOfItems(toks, syms, items, q);
    }
  }

  /**
   * The first statement of a printed sequence, followed by the rest of it and
   * then by something other than `else`, parses back to itself; the rest of
   * the sequence is then well formed under the names declared so far.
   */
  lemma {:induction false} ItemsHead(toks: seq<Token>, syms: set<string>, items: seq<Stmt>, p: nat)
    requires items != [] && WellFormedItems(items, syms) && Occurs(toks, p, PrintItems(items))
    requires !IsToken(toks, p + |PrintItems(items)|, KEYWORD, "else")
    ensures p < |toks| && toks[p].kind != PUNCTUATION
    ensures var q := p + |PrintStmt(items[0])|;
            && ParseStatement(toks, syms, p) == Step(Some(items[0]), q, DeclaredAfter(items[0], syms))
            && WellFormedItems(items[1..], DeclaredAfter(items[0], syms))
            && Occurs(toks, q, PrintItems(items[1..]))
            && q + |PrintItems(items[1..])| == p + |PrintItems(items)|
            && DeclaredAfterItems(items[1..], DeclaredAfter(items[0], syms)) == DeclaredAfterItems(items, syms)
    decreases items, 0
  {
    var s1 := DeclaredAfter(items[0], syms);
    var q := p + |PrintStmt(items[0])|;
    FirstOfItems(toks, syms, items, p);
    NextNotElse(toks, items[1..], s1, q);
    StatementRoundTrip(toks, syms, items[0], p);
  }

  /** The statement loop of a block reads printed statements back, up to the closing brace. */
  lemma {:induction false} ItemsRoundTrip(toks: seq<Token>, syms: set<string>, items: seq<Stmt>, p: nat)
    requires WellFormedItems(items, syms) && Occurs(toks, p, PrintItems(items))
    requires IsToken(toks, p + |PrintItems(items)|, PUNCTUATION, "}")
    ensures BlockItems(toks, syms, p) == Items(items, p + |PrintItems(items)|, DeclaredAfterItems(items, syms))
    decreases items, 1
  {
    if items == [] {
      assert BlockItems(toks, syms, p) == Items([], p, syms);
    } else {
      var s1 := DeclaredAfter(items[0], syms);
      var q := p + |PrintStmt(items[0])|;
      var e := p + |PrintItems(items)|;
      ItemsHead(toks, syms, items, p);
      assert ParseStatement(toks, syms, p) == Step(Some(items[0]), q, s1);
      ItemsRoundTrip(toks, s1, items[1..], q);
      assert BlockItems(toks, s1, q) == Items(items[1..], e, DeclaredAfterItems(items, syms));
      BlockItemsStep(toks, syms, p, Some(items[0]), q, s1);
      assert BlockItems(toks, syms, p) == Items([items[0]] + items[1..], e, DeclaredAfterItems(items, syms));
      assert [items[0]] + items[1..] == items;
    }
  }

  /** The statement loop of `_start` reads printed statements back, to the end of the tokens. */
  lemma {:induction false} StartRoundTrip(toks: seq<Token>, syms: set<string>, items: seq<Stmt>, p: nat)
    requires WellFormedItems(items, syms) && Occurs(toks, p, PrintItems(items))
    requires p + |PrintItems(items)| == |toks|
    ensures StartItems(toks, syms, p) == Items(items, |toks|, DeclaredAfterItems(items, syms))
    decreases items
  {
    if items != [] {
      ItemsHead(toks, syms, items, p);
      StartRoundTrip(toks, DeclaredAfter(items[0], syms), items[1..], p + |PrintStmt(items[0])|);
      var s := ParseStatement(toks, syms, p);
      StartItemsStep(toks, syms, p, s.node, s.pos, s.symbols);
      assert [items[0]] + items[1..] == items;
    }
  }

  /** A token sequence occurs in itself. */
  lemma {:induction false} SelfMatches(toks: seq<Token>, p: nat)
    requires p <= |toks|
    ensures Matches(toks, p, toks[p..])
    decreases |toks| - p
  {
    if p < |toks| {
      assert toks[p..][1..] == toks[p + 1..];
      SelfMatches(toks, p + 1);
    }
  }

  /**
   * The parser is a left inverse of the printer: every well-formed program,
   * printed, is parsed by a fresh parser into exactly the same tree.
   */
  lemma ParsePrint(prog: Program)
    requires WellFormedProgram(prog)
    ensures Parse(PrintProgram(prog)) == prog
  {
    var toks := PrintProgram(prog);
    SelfMatches(toks, 0);
    assert toks[0..] == toks;
    StartRoundTrip(toks, {}, prog.statements, 0);
  }
}
