/**
 * The recursive-descent parser as the object it is: a token list, a cursor
 * and a grow-only set of declared names, with one method per grammar rule.
 * Every rule method is proved to leave the cursor and the declared names,
 * and to return the node, exactly as the matching function of Grammar says.
 */
module Parsing {
  import opened Wrappers
  import opened Tokens
  import opened Ast
  import opened Grammar

  class Parser {
    const tokens: seq<Token>
    var pos: nat
    var symbols: set<string>

    /** The cursor never passes the end of the tokens. */
    ghost predicate Valid()
      reads this
    {
      pos <= |tokens|
    }

    constructor (tokens: seq<Token>)
      ensures Valid()
      ensures this.tokens == tokens && pos == 0 && symbols == {}
    {
      this.tokens := tokens;
      pos := 0;
      symbols := {};
    }

    /** Return the token under the cursor and advance past it, if one remains. */
    method NextToken() returns (t: Option<Token>)
      requires Valid()
      modifies this`pos
      ensures Valid()
      ensures old(pos) < |tokens| ==> t == Some(tokens[old(pos)]) && pos == old(pos) + 1
      ensures old(pos) == |tokens| ==> t == None && pos == old(pos)
    {
      if pos < |tokens| {
        t := Some(tokens[pos]);
        pos := pos + 1;
        return;
      }
      return None;
    }

    /** The same as NextToken: the token list holds no comments. */
    method GetNextToken() returns (t: Option<Token>)
      requires Valid()
      modifies this`pos
      ensures Valid()
      ensures old(pos) < |tokens| ==> t == Some(tokens[old(pos)]) && pos == old(pos) + 1
      ensures old(pos) == |tokens| ==> t == None && pos == old(pos)
    {
      t := NextToken();
    }

    /** The token under the cursor, if any; reading it changes nothing. */
    function Peek(): (t: Option<Token>)
      reads this
      ensures t.Some? <==> pos < |tokens|
      ensures t.Some? ==> t.value == tokens[pos]
    {
      if pos < |tokens| then Some(tokens[pos]) else None
    }

    /** Whether a name has been declared. */
    function IdentifierExists(name: string): (b: bool)
      reads this
      ensures b <==> name in symbols
    {
      name in symbols
    }

    /** `_start`: parse statements until the cursor reaches the end. */
    method Start() returns (tree: Program)
      requires Valid()
      modifies this`pos, this`symbols
      ensures Valid() && pos == |tokens|
      ensures Items(tree.statements, pos, symbols) == StartItems(tokens, old(symbols), old(pos))
    {
      ghost var start, declared := pos, symbols;
      var statements: seq<Stmt> := [];
      while pos < |tokens|
        invariant Valid()
        invariant var rest := StartItems(tokens, symbols, pos);
          StartItems(tokens, declared, start) == Items(statements + rest.items, rest.pos, rest.symbols)
        decreases |tokens| - pos
      {
        ghost var here, known := pos, symbols;
        var node := Statement();
        StartItemsStep(tokens, known, here, node, pos, symbols);
        if node.Some? {
          ghost var rest := StartItems(tokens, symbols, pos);
          assert StartItems(tokens, known, here) == Items([node.value] + rest.items, rest.pos, rest.symbols);
          assert statements + ([node.value] + rest.items) == (statements + [node.value]) + rest.items;
          statements := statements + [node.value];
        } else {
          // skip one token so that the loop makes progress
          if Peek().Some? {
            assert StartItems(tokens, known, here) == StartItems(tokens, symbols, pos + 1);
            pos := pos + 1;
          } else {
            assert StartItems(tokens, known, here) == Items([], pos, symbols);
            assert statements + [] == statements;
            break;
          }
        }
      }
      assert StartItems(tokens, symbols, pos) == Items([], pos, symbols);
      assert statements + [] == statements;
      tree := Program(statements);
    }

    /** `_statement`: dispatch on the lookahead token. */
    method Statement() returns (s: Option<Stmt>)
      requires Valid()
      modifies this`pos, this`symbols
      ensures Valid()
      ensures Step(s, pos, symbols) == ParseStatement(tokens, old(symbols), old(pos))
      decreases |tokens| - pos, 2
    {
      var token := Peek();
      if token.None? {
        return None;
      }
      var t := token.value;
      if t.kind == KEYWORD && t.value == "int" {
        s := Declaration();
        return;
      }
      if t.kind == KEYWORD && t.value == "if" {
        s := IfStmt();
        return;
      }
      if t.kind == KEYWORD && t.value == "while" {
        s := WhileStmt();
        return;
      }
      if t.kind == IDENTIFIER {
        s := Assignment();
        return;
      }
      return None;
    }

    /** `_declaration`: 'int' IDENT ['=' Expression] ';'. */
    method Declaration() returns (s: Option<Stmt>)
      requires Valid() && pos < |tokens|
      modifies this`pos, this`symbols
      ensures Valid()
      ensures Step(s, pos, symbols) == ParseDeclaration(tokens, old(symbols), old(pos))
    {
      var typeToken := NextToken();
      var varType := typeToken.value.value;
      var identToken := NextToken();
      if identToken.None? || identToken.value.kind != IDENTIFIER {
        return None;
      }
      var varName := identToken.value.value;
      if IdentifierExists(varName) {
        return None;
      }
      var initializer: Option<Expr> := None;
      if Peek().Some? && Peek().value.kind == OPERATOR && Peek().value.value == "=" {
        var _ := NextToken();
        initializer := Expression();
        if initializer.None? {
          return None;
        }
      }
      var semi := NextToken();
      if semi.None? || semi.value.value != ";" {
        return None;
      }
      symbols := symbols + {varName};
      if initializer.None? {
        return Some(Decl(varType, varName));
      }
      return Some(DeclInit(varType, varName, initializer.value));
    }

    /** `_assignment`: IDENT '=' Expression ';'. */
    method Assignment() returns (s: Option<Stmt>)
      requires Valid() && pos < |tokens|
      modifies this`pos
      ensures Valid()
      ensures Step(s, pos, symbols) == ParseAssignment(tokens, symbols, old(pos))
    {
      var varToken := NextToken();
      var name := varToken.value.value;
      if !IdentifierExists(name) {
        return None;
      }
      var eq := NextToken();
      if eq.None? || eq.value.value != "=" {
        return None;
      }
      var exprTree := Expression();
      if exprTree.None? {
        return None;
      }
      var semi := NextToken();
      if semi.None? || semi.value.value != ";" {
        return None;
      }
      return Some(Assign(name, exprTree.value));
    }

    /** `_expression`: a term followed by any number of `+` or `-` terms, grouped to the left. */
    method Expression() returns (e: Option<Expr>)
      requires Valid()
      modifies this`pos
      ensures Valid()
      ensures Parsed(e, pos) == ParseExpression(tokens, symbols, old(pos))
      decreases |tokens| - pos, 4
    {
      var first := Term();
      if first.None? {
        return None;
      }
      var left := first.value;
      while Peek().Some? && Peek().value.kind == OPERATOR
        invariant Valid() && WellFormedExpr(left, symbols) && !MulOpAt(tokens, pos)
        invariant ParseExpression(tokens, symbols, old(pos)) == ExpressionTail(tokens, symbols, left, pos)
        decreases |tokens| - pos
      {
        var opToken := Peek().value;
        if IsAddOp(opToken.value) {
          var _ := NextToken();
          var right := Term();
          if right.None? {
            return None;
          }
          left := BinOp(opToken.value, left, right.value);
        } else {
          break;
        }
      }
      return Some(left);
    }

    /** `_term`: a factor followed by any number of `*` or `/` factors, grouped to the left. */
    method Term() returns (e: Option<Expr>)
      requires Valid()
      modifies this`pos
      ensures Valid()
      ensures Parsed(e, pos) == ParseTerm(tokens, symbols, old(pos))
      decreases |tokens| - pos, 2
    {
      var first := Factor();
      if first.None? {
        return None;
      }
      var left := first.value;
      while Peek().Some? && Peek().value.kind == OPERATOR
        invariant Valid() && WellFormedExpr(left, symbols)
        invariant ParseTerm(tokens, symbols, old(pos)) == TermTail(tokens, symbols, left, pos)
        decreases |tokens| - pos
      {
        var opToken := Peek().value;
        if IsMulOp(opToken.value) {
          var _ := NextToken();
          var right := Factor();
          if right.None? {
            return None;
          }
          left := BinOp(opToken.value, left, right.value);
        } else {
          break;
        }
      }
      return Some(left);
    }

    /** `_factor`: '(' Expression ')', an integer, or a declared identifier. */
    method Factor() returns (e: Option<Expr>)
      requires Valid()
      modifies this`pos
      ensures Valid()
      ensures Parsed(e, pos) == ParseFactor(tokens, symbols, old(pos))
      decreases |tokens| - pos, 0
    {
      var token := Peek();
      if token.None? {
        return None;
      }
      var t := token.value;
      if t.value == "(" {
        var _ := NextToken();
        var expr := Expression();
        var closeParen := NextToken();
        if closeParen.None? || closeParen.value.value != ")" {
          return None;
        }
        // the inner result is returned unchecked, as the source does
        return expr;
      }
      if t.kind == INTEGER {
        var _ := NextToken();
        return Some(Int(t.value));
      }
      if t.kind == IDENTIFIER {
        if !IdentifierExists(t.value) {
          return None;
        }
        var _ := NextToken();
        return Some(Identifier(t.value));
      }
      return None;
    }

    /** `_rel`: Expression RelOp Expression, with RelOp one of `==`, `<`, `>`. */
    method Rel() returns (c: Option<Cond>)
      requires Valid()
      modifies this`pos
      ensures Valid()
      ensures Parsed(c, pos) == ParseRel(tokens, symbols, old(pos))
    {
      var left := Expression();
      if left.None? {
        return None;
      }
      var op := Peek();
      if op.None? || op.value.kind != OPERATOR || !IsRelOp(op.value.value) {
        return None;
      }
      var _ := NextToken();
      var right := Expression();
      if right.None? {
        return None;
      }
      return Some(RelOp(op.value.value, left.value, right.value));
    }

    /** `_if_stmt`: 'if' '(' Condition ')' Block ['else' Block]. */
    method IfStmt() returns (s: Option<Stmt>)
      requires Valid()
      modifies this`pos, this`symbols
      ensures Valid()
      ensures Step(s, pos, symbols) == ParseIf(tokens, old(symbols), old(pos))
      decreases |tokens| - pos, 1
    {
      var ifTok := NextToken();
      if ifTok.None? || ifTok.value.kind != KEYWORD || ifTok.value.value != "if" {
        return None;
      }
      var lp := NextToken();
      if lp.None? || lp.value.value != "(" {
        return None;
      }
      var cond := Rel();
      if cond.None? {
        return None;
      }
      var rp := NextToken();
      if rp.None? || rp.value.value != ")" {
        return None;
      }
      s := IfBranches(cond.value);
    }

    /**
     * The rest of `_if_stmt` once the condition and its ')' are read: the
     * then-block, and an else-block when the lookahead is the keyword 'else'.
     */
    method IfBranches(cond: Cond) returns (s: Option<Stmt>)
      requires Valid()
      modifies this`pos, this`symbols
      ensures Valid()
      ensures Step(s, pos, symbols) == IfBody(tokens, old(symbols), cond, old(pos))
      decreases |tokens| - pos, 1
    {
      ghost var body := IfBody(tokens, symbols, cond, pos);
      ghost var tb := ParseBlock(tokens, symbols, pos);
      var thenBlock := Block();
      assert thenBlock == tb.node && pos == tb.pos && symbols == tb.symbols;
      if thenBlock.None? {
        assert body == Step(None, pos, symbols);
        return None;
      }
      var elseBlock: Option<Ast.Block> := None;
      if Peek().Some? && Peek().value.kind == KEYWORD && Peek().value.value == "else" {
        assert IsToken(tokens, tb.pos, KEYWORD, "else");
        var _ := NextToken();
        ghost var eb := ParseBlock(tokens, tb.symbols, tb.pos + 1);
        elseBlock := Block();
        assert elseBlock == eb.node && pos == eb.pos && symbols == eb.symbols;
        if elseBlock.None? {
          assert body == Step(None, pos, symbols);
          return None;
        }
        assert body == Step(Some(If(cond, thenBlock.value, Some(eb.node.value))), eb.pos, eb.symbols);
      } else {
        assert body == Step(Some(If(cond, thenBlock.value, None)), pos, symbols);
      }
      return Some(If(cond, thenBlock.value, elseBlock));
    }

    /** `_while_stmt`: 'while' '(' Condition ')' Block. */
    method WhileStmt() returns (s: Option<Stmt>)
      requires Valid()
      modifies this`pos, this`symbols
      ensures Valid()
      ensures Step(s, pos, symbols) == ParseWhile(tokens, old(symbols), old(pos))
      decreases |tokens| - pos, 1
    {
      var wTok := NextToken();
      if wTok.None? || wTok.value.kind != KEYWORD || wTok.value.value != "while" {
        return None;
      }
      var lp := NextToken();
      if lp.None? || lp.value.value != "(" {
        return None;
      }
      var cond := Rel();
      if cond.None? {
        return None;
      }
      var rp := NextToken();
      if rp.None? || rp.value.value != ")" {
        return None;
      }
      var body := Block();
      if body.None? {
        return None;
      }
      return Some(While(cond.value, body.value));
    }

    /** `_block`: '{' Statement* '}'. */
    method Block() returns (b: Option<Ast.Block>)
      requires Valid()
      modifies this`pos, this`symbols
      ensures Valid()
      ensures Step(b, pos, symbols) == ParseBlock(tokens, old(symbols), old(pos))
      decreases |tokens| - pos, 0
    {
      var lb := NextToken();
      if lb.None? || lb.value.value != "{" {
        return None;
      }
      var items := BlockBody();
      var rb := NextToken();
      if rb.None? || rb.value.value != "}" {
        return None;
      }
      return Some(Ast.Block(items));
    }

    /**
     * The statement loop of `_block`: parse statements until the lookahead
     * is a PUNCTUATION '}' or the tokens run out, skipping one token after
     * every statement that failed.
     */
    method BlockBody() returns (items: seq<Stmt>)
      requires Valid()
      modifies this`pos, this`symbols
      ensures Valid()
      ensures Items(items, pos, symbols) == BlockItems(tokens, old(symbols), old(pos))
      decreases |tokens| - pos, 3
    {
      ghost var start, declared := pos, symbols;
      items := [];
      // the lookahead is a token, and not the PUNCTUATION '}'
      while Peek().Some? && !IsToken(tokens, pos, PUNCTUATION, "}")
        invariant Valid() && start <= pos
        invariant var rest := BlockItems(tokens, symbols, pos);
          BlockItems(tokens, declared, start) == Items(items + rest.items, rest.pos, rest.symbols)
        decreases |tokens| - pos
      {
        ghost var here, known := pos, symbols;
        var node := Statement();
        BlockItemsStep(tokens, known, here, node, pos, symbols);
        if node.Some? {
          ghost var rest := BlockItems(tokens, symbols, pos);
          assert BlockItems(tokens, known, here) == Items([node.value] + rest.items, rest.pos, rest.symbols);
          assert items + ([node.value] + rest.items) == (items + [node.value]) + rest.items;
          items := items + [node.value];
        } else {
          // skip one token so that the loop makes progress
          if Peek().Some? {
            assert BlockItems(tokens, known, here) == BlockItems(tokens, symbols, pos + 1);
            pos := pos + 1;
          } else {
            assert BlockItems(tokens, known, here) == Items([], pos, symbols);
            assert items + [] == items;
            break;
          }
        }
      }
      assert BlockItems(tokens, symbols, pos) == Items([], pos, symbols);
      assert items + [] == items;
    }
  }

  /**
   * A fresh parser over the tokens, run from the start: the tree it returns
   * is Parse(tokens), and all of the input is consumed.
   */
  method ParseTokens(tokens: seq<Token>) returns (tree: Program)
    ensures tree == Parse(tokens)
    ensures Distinct(ItemsDecls(tree.statements))
  {
    var parser := new Parser(tokens);
    tree := parser.Start();
  }
}
