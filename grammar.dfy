/**
 * The parser as pure functions: one function per rule of the recursive-descent
 * parser, taking the token list, the set of declared names and the cursor, and
 * returning the node (or None on failure) together with the cursor and the
 * set of declared names the rule leaves behind. These functions are the
 * specification the imperative Parser class is proved against.
 */
module Grammar {
  import opened Wrappers
  import opened Tokens
  import opened Ast

  /** What an expression-level rule returns: a node or failure, and the new cursor. */
  datatype Parsed<T> = Parsed(node: Option<T>, pos: nat)

  /** What a statement-level rule returns: also the declared names afterwards. */
  datatype Step<T> = Step(node: Option<T>, pos: nat, symbols: set<string>)

  /** What a statement loop returns: the statements it kept. */
  datatype Items = Items(items: seq<Stmt>, pos: nat, symbols: set<string>)

  /** The token `peek()` sees with the cursor at p. */
  function At(toks: seq<Token>, p: nat): Option<Token> {
    if p < |toks| then Some(toks[p]) else None
  }

  /** The cursor after `nextToken()` with the cursor at p. */
  function Advance(toks: seq<Token>, p: nat): nat {
    if p < |toks| then p + 1 else p
  }

  /** A token of the given type and value stands at p. */
  predicate IsToken(toks: seq<Token>, p: nat, kind: string, value: string) {
    p < |toks| && toks[p].kind == kind && toks[p].value == value
  }

  /** A token with the given value, whatever its type, stands at p. */
  predicate HasValue(toks: seq<Token>, p: nat, value: string) {
    p < |toks| && toks[p].value == value
  }

  predicate IsAddOp(op: string) { op == "+" || op == "-" }
  predicate IsMulOp(op: string) { op == "*" || op == "/" }
  predicate IsRelOp(op: string) { op == "==" || op == "<" || op == ">" }

  /** An operator token that the additive loop of `_expression` consumes stands at p. */
  predicate AddOpAt(toks: seq<Token>, p: nat) {
    p < |toks| && toks[p].kind == OPERATOR && IsAddOp(toks[p].value)
  }

  /** An operator token that the multiplicative loop of `_term` consumes stands at p. */
  predicate MulOpAt(toks: seq<Token>, p: nat) {
    p < |toks| && toks[p].kind == OPERATOR && IsMulOp(toks[p].value)
  }

  /** The lookahead `_statement` dispatches on: `int`, `if`, `while` or an identifier. */
  predicate StartsStatement(toks: seq<Token>, p: nat) {
    p < |toks| &&
    ((toks[p].kind == KEYWORD && toks[p].value in {"int", "if", "while"}) || toks[p].kind == IDENTIFIER)
  }

  /**
   * What every expression the parser builds satisfies: its operators are the
   * four arithmetic ones, every identifier in it was declared, and no leaf
   * carries the text "(" (a token with that value is always read as a
   * parenthesis).
   */
  predicate WellFormedExpr(e: Expr, syms: set<string>) {
    match e
    case Int(v) => v != "("
    case Identifier(n) => n in syms && n != "("
    case BinOp(op, l, r) => (IsAddOp(op) || IsMulOp(op)) && WellFormedExpr(l, syms) && WellFormedExpr(r, syms)
  }

  predicate WellFormedCond(c: Cond, syms: set<string>) {
    IsRelOp(c.op) && WellFormedExpr(c.left, syms) && WellFormedExpr(c.right, syms)
  }

  /** A well-formed expression reads declared names only. */
  lemma {:induction false} WellFormedUses(e: Expr, syms: set<string>)
    requires WellFormedExpr(e, syms)
    ensures ExprUses(e) <= syms
  {
    if e.BinOp? {
      WellFormedUses(e.left, syms);
      WellFormedUses(e.right, syms);
    }
  }

  lemma WellFormedCondUses(c: Cond, syms: set<string>)
    requires WellFormedCond(c, syms)
    ensures CondUses(c) <= syms
  {
    WellFormedUses(c.left, syms);
    WellFormedUses(c.right, syms);
  }

  // ---------------------------------------------------------------------------
  // Expressions: Expression := Term (('+'|'-') Term)*, Term := Factor (('*'|'/') Factor)*

  /** `_expression`: a term, then the additive loop. */
  function ParseExpression(toks: seq<Token>, syms: set<string>, p: nat): (r: Parsed<Expr>)
    requires p <= |toks|
    ensures p <= r.pos <= |toks|
    ensures r.node.Some? ==> p < r.pos && WellFormedExpr(r.node.value, syms)
    ensures r.node.Some? ==> !AddOpAt(toks, r.pos) && !MulOpAt(toks, r.pos)
    decreases |toks| - p, 4
  {
    var t := ParseTerm(toks, syms, p);
    if t.node.None? then Parsed(None, t.pos)
    else ExpressionTail(toks, syms, t.node.value, t.pos)
  }

  /** The `while` loop of `_expression`, with `left` the tree built so far. */
  function ExpressionTail(toks: seq<Token>, syms: set<string>, left: Expr, p: nat): (r: Parsed<Expr>)
    requires p <= |toks| && WellFormedExpr(left, syms) && !MulOpAt(toks, p)
    ensures p <= r.pos <= |toks|
    ensures r.node.Some? ==> WellFormedExpr(r.node.value, syms)
    ensures r.node.Some? ==> !AddOpAt(toks, r.pos) && !MulOpAt(toks, r.pos)
    decreases |toks| - p, 3
  {
    if AddOpAt(toks, p) then
      var right := ParseTerm(toks, syms, p + 1);
      if right.node.None? then Parsed(None, right.pos)
      else ExpressionTail(toks, syms, BinOp(toks[p].value, left, right.node.value), right.pos)
    else
      Parsed(Some(left), p)
  }

  /** `_term`: a factor, then the multiplicative loop. */
  function ParseTerm(toks: seq<Token>, syms: set<string>, p: nat): (r: Parsed<Expr>)
    requires p <= |toks|
    ensures p <= r.pos <= |toks|
    ensures r.node.Some? ==> p < r.pos && WellFormedExpr(r.node.value, syms) && !MulOpAt(toks, r.pos)
    decreases |toks| - p, 2
  {
    var f := ParseFactor(toks, syms, p);
    if f.node.None? then Parsed(None, f.pos)
    else TermTail(toks, syms, f.node.value, f.pos)
  }

  /** The `while` loop of `_term`, with `left` the tree built so far. */
  function TermTail(toks: seq<Token>, syms: set<string>, left: Expr, p: nat): (r: Parsed<Expr>)
    requires p <= |toks| && WellFormedExpr(left, syms)
    ensures p <= r.pos <= |toks|
    ensures r.node.Some? ==> WellFormedExpr(r.node.value, syms) && !MulOpAt(toks, r.pos)
    decreases |toks| - p, 1
  {
    if MulOpAt(toks, p) then
      var right := ParseFactor(toks, syms, p + 1);
      if right.node.None? then Parsed(None, right.pos)
      else TermTail(toks, syms, BinOp(toks[p].value, left, right.node.value), right.pos)
    else
      Parsed(Some(left), p)
  }

  /**
   * `_factor`: a parenthesised expression, an integer, or a declared
   * identifier. The parenthesis branch consumes a token for the `)` check
   * even when the inner expression failed, and then returns the inner result.
   */
  function ParseFactor(toks: seq<Token>, syms: set<string>, p: nat): (r: Parsed<Expr>)
    requires p <= |toks|
    ensures p <= r.pos <= |toks|
    ensures r.node.Some? ==> p < r.pos && WellFormedExpr(r.node.value, syms)
    ensures p < |toks| && toks[p].kind == IDENTIFIER && toks[p].value != "(" ==>
              (r.node.Some? <==> toks[p].value in syms)
    ensures p < |toks| && toks[p].kind == IDENTIFIER && toks[p].value != "(" && toks[p].value !in syms ==>
              r == Parsed(None, p)
    decreases |toks| - p, 0
  {
    if p == |toks| then Parsed(None, p)
    else if toks[p].value == "(" then
      var inner := ParseExpression(toks, syms, p + 1);
      if HasValue(toks, inner.pos, ")") then Parsed(inner.node, inner.pos + 1)
      else Parsed(None, Advance(toks, inner.pos))
    else if toks[p].kind == INTEGER then Parsed(Some(Int(toks[p].value)), p + 1)
    else if toks[p].kind == IDENTIFIER then
      if toks[p].value in syms then Parsed(Some(Identifier(toks[p].value)), p + 1)
      else Parsed(None, p)
    else Parsed(None, p)
  }

  /** `_rel`: Condition := Expression RelOp Expression. */
  function ParseRel(toks: seq<Token>, syms: set<string>, p: nat): (r: Parsed<Cond>)
    requires p <= |toks|
    ensures p <= r.pos <= |toks|
    ensures r.node.Some? ==> p < r.pos && WellFormedCond(r.node.value, syms)
  {
    var left := ParseExpression(toks, syms, p);
    if left.node.None? then Parsed(None, left.pos)
    else if !(left.pos < |toks| && toks[left.pos].kind == OPERATOR && IsRelOp(toks[left.pos].value)) then
      Parsed(None, left.pos)
    else
      var right := ParseExpression(toks, syms, left.pos + 1);
      if right.node.None? then Parsed(None, right.pos)
      else Parsed(Some(RelOp(toks[left.pos].value, left.node.value, right.node.value)), right.pos)
  }

  // ---------------------------------------------------------------------------
  // Statements

  /** `_declaration`: 'int' IDENT ['=' Expression] ';'. Its caller has seen the keyword. */
  function ParseDeclaration(toks: seq<Token>, syms: set<string>, p: nat): (r: Step<Stmt>)
    requires p < |toks|
    ensures p < r.pos <= |toks|
    ensures r.node.None? ==> r.symbols == syms
    ensures r.node.Some? ==>
              && (r.node.value.Decl? || r.node.value.DeclInit?)
              && p + 1 < |toks| && toks[p + 1].kind == IDENTIFIER
              && r.node.value.varType == toks[p].value
              && r.node.value.name == toks[p + 1].value
              && r.node.value.name !in syms
              && r.symbols == syms + {r.node.value.name}
              && (r.node.value.DeclInit? <==> IsToken(toks, p + 2, OPERATOR, "="))
              && (r.node.value.DeclInit? ==> WellFormedExpr(r.node.value.init, syms))
              && StmtUses(r.node.value) <= syms
              && HasValue(toks, r.pos - 1, ";")
    ensures p + 1 < |toks| && toks[p + 1].kind == IDENTIFIER && toks[p + 1].value in syms ==>
              r == Step(None, p + 2, syms)
  {
    var varType := toks[p].value;
    var q := p + 1;
    if !(q < |toks| && toks[q].kind == IDENTIFIER) then Step(None, Advance(toks, q), syms)
    else
      var name := toks[q].value;
      if name in syms then Step(None, q + 1, syms)
      else if IsToken(toks, q + 1, OPERATOR, "=") then
        var init := ParseExpression(toks, syms, q + 2);
        if init.node.None? then Step(None, init.pos, syms)
        else if HasValue(toks, init.pos, ";") then
          WellFormedUses(init.node.value, syms);
          Step(Some(DeclInit(varType, name, init.node.value)), init.pos + 1, syms + {name})
        else Step(None, Advance(toks, init.pos), syms)
      else if HasValue(toks, q + 1, ";") then
        Step(Some(Decl(varType, name)), q + 2, syms + {name})
      else Step(None, Advance(toks, q + 1), syms)
  }

  /** `_assignment`: IDENT '=' Expression ';'. Its caller has seen the identifier. */
  function ParseAssignment(toks: seq<Token>, syms: set<string>, p: nat): (r: Step<Stmt>)
    requires p < |toks|
    ensures p < r.pos <= |toks| && r.symbols == syms
    ensures toks[p].value !in syms ==> r == Step(None, p + 1, syms)
    ensures r.node.Some? ==>
              && r.node.value.Assign?
              && r.node.value.name == toks[p].value
              && r.node.value.name in syms
              && WellFormedExpr(r.node.value.value, syms)
              && StmtUses(r.node.value) <= syms
              && HasValue(toks, r.pos - 1, ";")
  {
    var name := toks[p].value;
    if name !in syms then Step(None, p + 1, syms)
    else if !HasValue(toks, p + 1, "=") then Step(None, Advance(toks, p + 1), syms)
    else
      var value := ParseExpression(toks, syms, p + 2);
      if value.node.None? then Step(None, value.pos, syms)
      else if !HasValue(toks, value.pos, ";") then Step(None, Advance(toks, value.pos), syms)
      else
        WellFormedUses(value.node.value, syms);
        Step(Some(Assign(name, value.node.value)), value.pos + 1, syms)
  }

  /**
   * `_statement`: dispatch on the lookahead. A statement that succeeds has
   * consumed input and is of the kind its first token selects; the cursor
   * stays put exactly when the lookahead starts no statement. Declared names
   * only grow.
   */
  function ParseStatement(toks: seq<Token>, syms: set<string>, p: nat): (r: Step<Stmt>)
    requires p <= |toks|
    ensures p <= r.pos <= |toks| && syms <= r.symbols
    ensures r.pos == p <==> !StartsStatement(toks, p)
    ensures !StartsStatement(toks, p) ==> r == Step(None, p, syms)
    ensures r.node.Some? ==>
              ((r.node.value.Decl? || r.node.value.DeclInit?) <==> IsToken(toks, p, KEYWORD, "int")) &&
              (r.node.value.If? <==> IsToken(toks, p, KEYWORD, "if")) &&
              (r.node.value.While? <==> IsToken(toks, p, KEYWORD, "while")) &&
              (r.node.value.Assign? <==> (p < |toks| && toks[p].kind == IDENTIFIER))
    decreases |toks| - p, 2
  {
    if p == |toks| then Step(None, p, syms)
    else if toks[p].kind == KEYWORD && toks[p].value == "int" then ParseDeclaration(toks, syms, p)
    else if toks[p].kind == KEYWORD && toks[p].value == "if" then ParseIf(toks, syms, p)
    else if toks[p].kind == KEYWORD && toks[p].value == "while" then ParseWhile(toks, syms, p)
    else if toks[p].kind == IDENTIFIER then ParseAssignment(toks, syms, p)
    else Step(None, p, syms)
  }

  /** `_if_stmt`: 'if' '(' Condition ')' Block ['else' Block]. */
  function ParseIf(toks: seq<Token>, syms: set<string>, p: nat): (r: Step<Stmt>)
    requires p <= |toks|
    ensures p <= r.pos <= |toks| && syms <= r.symbols
    ensures p < |toks| ==> p < r.pos
    ensures r.node.Some? ==> r.node.value.If? && IsToken(toks, p, KEYWORD, "if")
    decreases |toks| - p, 1
  {
    if !IsToken(toks, p, KEYWORD, "if") then Step(None, Advance(toks, p), syms)
    else if !HasValue(toks, p + 1, "(") then Step(None, Advance(toks, p + 1), syms)
    else
      var cond := ParseRel(toks, syms, p + 2);
      if cond.node.None? then Step(None, cond.pos, syms)
      else if !HasValue(toks, cond.pos, ")") then Step(None, Advance(toks, cond.pos), syms)
      else IfBody(toks, syms, cond.node.value, cond.pos + 1)
  }

  /** The rest of `_if_stmt` after the `)`: the then-block and an optional `else` block. */
  function IfBody(toks: seq<Token>, syms: set<string>, c: Cond, p: nat): (r: Step<Stmt>)
    requires p <= |toks|
    ensures p <= r.pos <= |toks| && syms <= r.symbols
    ensures p < |toks| ==> p < r.pos
    ensures r.node.Some? ==> r.node.value.If? && r.node.value.cond == c
    ensures r.node.Some? ==>
              (r.node.value.elseBlock.Some? <==> IsToken(toks, ParseBlock(toks, syms, p).pos, KEYWORD, "else"))
    decreases |toks| - p, 1
  {
    var thenB := ParseBlock(toks, syms, p);
    if thenB.node.None? then Step(None, thenB.pos, thenB.symbols)
    else if IsToken(toks, thenB.pos, KEYWORD, "else") then
      var elseB := ParseBlock(toks, thenB.symbols, thenB.pos + 1);
      if elseB.node.None? then Step(None, elseB.pos, elseB.symbols)
      else Step(Some(If(c, thenB.node.value, Some(elseB.node.value))), elseB.pos, elseB.symbols)
    else Step(Some(If(c, thenB.node.value, None)), thenB.pos, thenB.symbols)
  }

  /** `_while_stmt`: 'while' '(' Condition ')' Block. */
  function ParseWhile(toks: seq<Token>, syms: set<string>, p: nat): (r: Step<Stmt>)
    requires p <= |toks|
    ensures p <= r.pos <= |toks| && syms <= r.symbols
    ensures p < |toks| ==> p < r.pos
    ensures r.node.Some? ==> r.node.value.While? && IsToken(toks, p, KEYWORD, "while")
    decreases |toks| - p, 1
  {
    if !IsToken(toks, p, KEYWORD, "while") then Step(None, Advance(toks, p), syms)
    else if !HasValue(toks, p + 1, "(") then Step(None, Advance(toks, p + 1), syms)
    else
      var cond := ParseRel(toks, syms, p + 2);
      if cond.node.None? then Step(None, cond.pos, syms)
      else if !HasValue(toks, cond.pos, ")") then Step(None, Advance(toks, cond.pos), syms)
      else
        var body := ParseBlock(toks, syms, cond.pos + 1);
        if body.node.None? then Step(None, body.pos, body.symbols)
        else Step(Some(While(cond.node.value, body.node.value)), body.pos, body.symbols)
  }

  /**
   * `_block`: '{' Statement* '}'. A block is returned only after its opening
   * and closing braces have both been consumed.
   */
  function ParseBlock(toks: seq<Token>, syms: set<string>, p: nat): (r: Step<Block>)
    requires p <= |toks|
    ensures p <= r.pos <= |toks| && syms <= r.symbols
    ensures p < |toks| ==> p < r.pos
    ensures r.node.Some? ==> p + 2 <= r.pos && HasValue(toks, p, "{") && HasValue(toks, r.pos - 1, "}")
    decreases |toks| - p, 0
  {
    if !HasValue(toks, p, "{") then Step(None, Advance(toks, p), syms)
    else
      var body := BlockItems(toks, syms, p + 1);
      if HasValue(toks, body.pos, "}") then Step(Some(Block(body.items)), body.pos + 1, body.symbols)
      else Step(None, Advance(toks, body.pos), body.symbols)
  }

  /**
   * The statement loop of `_block`: stops at a PUNCTUATION `}` or at the end
   * of input; a failed statement is followed by skipping one token.
   */
  function BlockItems(toks: seq<Token>, syms: set<string>, p: nat): (r: Items)
    requires p <= |toks|
    ensures p <= r.pos <= |toks| && syms <= r.symbols
    ensures r.pos == |toks| || IsToken(toks, r.pos, PUNCTUATION, "}")
    decreases |toks| - p, 3
  {
    if p == |toks| || IsToken(toks, p, PUNCTUATION, "}") then Items([], p, syms)
    else
      var s := ParseStatement(toks, syms, p);
      if s.node.Some? then
        var rest := BlockItems(toks, s.symbols, s.pos);
        Items([s.node.value] + rest.items, rest.pos, rest.symbols)
      else if s.pos < |toks| then BlockItems(toks, s.symbols, s.pos + 1)
      else Items([], s.pos, s.symbols)
  }

  /**
   * The statement loop of `_start`: runs until the cursor reaches the end of
   * the tokens, keeping every statement that parsed and skipping one token
   * after every statement that failed.
   */
  function StartItems(toks: seq<Token>, syms: set<string>, p: nat): (r: Items)
    requires p <= |toks|
    ensures r.pos == |toks| && syms <= r.symbols
    decreases |toks| - p
  {
    if p == |toks| then Items([], p, syms)
    else
      var s := ParseStatement(toks, syms, p);
      if s.node.Some? then
        var rest := StartItems(toks, s.symbols, s.pos);
        Items([s.node.value] + rest.items, rest.pos, rest.symbols)
      else if s.pos < |toks| then StartItems(toks, s.symbols, s.pos + 1)
      else Items([], s.pos, s.symbols)
  }

  // ---------------------------------------------------------------------------
  // Scoping: every node a parse returns declares names that are pairwise
  // distinct and new to the symbol set it started with, all of which are in
  // the symbol set it ends with, and uses only names in that final set.

  lemma {:induction false} StatementScoping(toks: seq<Token>, syms: set<string>, p: nat)
    requires p <= |toks|
    ensures var r := ParseStatement(toks, syms, p);
            r.node.Some? ==> FreshNames(StmtDecls(r.node.value), syms, r.symbols) && StmtUses(r.node.value) <= r.symbols
    decreases |toks| - p, 2
  {
    if p < |toks| && toks[p].kind == KEYWORD && toks[p].value == "if" {
      IfScoping(toks, syms, p);
    } else if p < |toks| && toks[p].kind == KEYWORD && toks[p].value == "while" {
      WhileScoping(toks, syms, p);
    } else if p < |toks| && toks[p].kind == KEYWORD && toks[p].value == "int" {
      var r := ParseDeclaration(toks, syms, p);
      if r.node.Some? {
        assert StmtDecls(r.node.value) == [r.node.value.name];
      }
    }
  }

  lemma {:induction false} IfScoping(toks: seq<Token>, syms: set<string>, p: nat)
    requires p <= |toks|
    ensures var r := ParseIf(toks, syms, p);
            r.node.Some? ==> FreshNames(StmtDecls(r.node.value), syms, r.symbols) && StmtUses(r.node.value) <= r.symbols
    decreases |toks| - p, 1
  {
    if ParseIf(toks, syms, p).node.Some? {
      var cond := ParseRel(toks, syms, p + 2);
      WellFormedCondUses(cond.node.value, syms);
      IfBodyScoping(toks, syms, cond.node.value, cond.pos + 1);
    }
  }

  lemma {:induction false} IfBodyScoping(toks: seq<Token>, syms: set<string>, c: Cond, p: nat)
    requires p <= |toks| && CondUses(c) <= syms
    ensures var r := IfBody(toks, syms, c, p);
            r.node.Some? ==> FreshNames(StmtDecls(r.node.value), syms, r.symbols) && StmtUses(r.node.value) <= r.symbols
    decreases |toks| - p, 1
  {
    var r := IfBody(toks, syms, c, p);
    if r.node.Some? {
      var thenB := ParseBlock(toks, syms, p);
      BlockScoping(toks, syms, p);
      if IsToken(toks, thenB.pos, KEYWORD, "else") {
        var elseB := ParseBlock(toks, thenB.symbols, thenB.pos + 1);
        BlockScoping(toks, thenB.symbols, thenB.pos + 1);
        FreshNamesConcat(BlockDecls(thenB.node.value), BlockDecls(elseB.node.value), syms, thenB.symbols, elseB.symbols);
      } else {
        assert StmtDecls(r.node.value) == BlockDecls(thenB.node.value) + [];
      }
    }
  }

  lemma {:induction false} WhileScoping(toks: seq<Token>, syms: set<string>, p: nat)
    requires p <= |toks|
    ensures var r := ParseWhile(toks, syms, p);
            r.node.Some? ==> FreshNames(StmtDecls(r.node.value), syms, r.symbols) && StmtUses(r.node.value) <= r.symbols
    decreases |toks| - p, 1
  {
    var r := ParseWhile(toks, syms, p);
    if r.node.Some? {
      var cond := ParseRel(toks, syms, p + 2);
      WellFormedCondUses(cond.node.value, syms);
      BlockScoping(toks, syms, cond.pos + 1);
    }
  }

  lemma {:induction false} BlockScoping(toks: seq<Token>, syms: set<string>, p: nat)
    requires p <= |toks|
    ensures var r := ParseBlock(toks, syms, p);
            r.node.Some? ==> FreshNames(BlockDecls(r.node.value), syms, r.symbols) && BlockUses(r.node.value) <= r.symbols
    decreases |toks| - p, 0
  {
    if HasValue(toks, p, "{") {
      BlockItemsScoping(toks, syms, p + 1);
    }
  }

  lemma {:induction false} BlockItemsScoping(toks: seq<Token>, syms: set<string>, p: nat)
    requires p <= |toks|
    ensures var r := BlockItems(toks, syms, p);
            FreshNames(ItemsDecls(r.items), syms, r.symbols) && ItemsUses(r.items) <= r.symbols
    decreases |toks| - p, 3
  {
    if !(p == |toks| || IsToken(toks, p, PUNCTUATION, "}")) {
      var s := ParseStatement(toks, syms, p);
      StatementScoping(toks, syms, p);
      if s.node.Some? {
        var rest := BlockItems(toks, s.symbols, s.pos);
        BlockItemsScoping(toks, s.symbols, s.pos);
        ItemsConcat(s.node.value, rest.items, syms, s.symbols, rest.symbols);
      } else if s.pos < |toks| {
        BlockItemsScoping(toks, s.symbols, s.pos + 1);
      }
    }
  }

  lemma {:induction false} StartScoping(toks: seq<Token>, syms: set<string>, p: nat)
    requires p <= |toks|
    ensures var r := StartItems(toks, syms, p);
            FreshNames(ItemsDecls(r.items), syms, r.symbols) && ItemsUses(r.items) <= r.symbols
    decreases |toks| - p
  {
    if p < |toks| {
      var s := ParseStatement(toks, syms, p);
      StatementScoping(toks, syms, p);
      if s.node.Some? {
        var rest := StartItems(toks, s.symbols, s.pos);
        StartScoping(toks, s.symbols, s.pos);
        ItemsConcat(s.node.value, rest.items, syms, s.symbols, rest.symbols);
      } else if s.pos < |toks| {
        StartScoping(toks, s.symbols, s.pos + 1);
      }
    }
  }

  /** A statement followed by a run of statements, each scoped in turn, is scoped as a whole. */
  lemma ItemsConcat(s: Stmt, rest: seq<Stmt>, s0: set<string>, s1: set<string>, s2: set<string>)
    requires FreshNames(StmtDecls(s), s0, s1) && StmtUses(s) <= s1 && s0 <= s1 <= s2
    requires FreshNames(ItemsDecls(rest), s1, s2) && ItemsUses(rest) <= s2
    ensures FreshNames(ItemsDecls([s] + rest), s0, s2) && ItemsUses([s] + rest) <= s2
  {
    assert ([s] + rest)[1..] == rest;
    FreshNamesConcat(StmtDecls(s), ItemsDecls(rest), s0, s1, s2);
  }

  /**
   * One round of the statement loop of `_block`, away from a closing brace and
   * the end, given the statement's result `Step(node, q, s1)`.
   */
  lemma BlockItemsStep(toks: seq<Token>, syms: set<string>, p: nat, node: Option<Stmt>, q: nat, s1: set<string>)
    requires p < |toks| && !IsToken(toks, p, PUNCTUATION, "}")
    requires Step(node, q, s1) == ParseStatement(toks, syms, p)
    ensures node.Some? ==>
              var rest := BlockItems(toks, s1, q);
              BlockItems(toks, syms, p) == Items([node.value] + rest.items, rest.pos, rest.symbols)
    ensures node.None? && q < |toks| ==> BlockItems(toks, syms, p) == BlockItems(toks, s1, q + 1)
    ensures node.None? && q == |toks| ==> BlockItems(toks, syms, p) == Items([], q, s1)
  {
  }

  /**
   * One round of the `_start` loop, given the statement's result `Step(node, q, s1)`:
   * a statement is kept, or one token is skipped after a failure.
   */
  lemma StartItemsStep(toks: seq<Token>, syms: set<string>, p: nat, node: Option<Stmt>, q: nat, s1: set<string>)
    requires p < |toks|
    requires Step(node, q, s1) == ParseStatement(toks, syms, p)
    ensures node.Some? ==>
              var rest := StartItems(toks, s1, q);
              StartItems(toks, syms, p) == Items([node.value] + rest.items, rest.pos, rest.symbols)
    ensures node.None? && q < |toks| ==> StartItems(toks, syms, p) == StartItems(toks, s1, q + 1)
    ensures node.None? && q == |toks| ==> StartItems(toks, syms, p) == Items([], q, s1)
  {
  }

  /**
   * A whole parse by a fresh parser (cursor 0, no names declared): no two
   * declaration nodes in the tree carry the same name.
   */
  function Parse(toks: seq<Token>): (prog: Program)
    ensures Distinct(ItemsDecls(prog.statements))
  {
    StartScoping(toks, {}, 0);
    Program(StartItems(toks, {}, 0).items)
  }
}
