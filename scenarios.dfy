/**
 * Worked examples: concrete token lists and what the parser makes of them,
 * and one run of the integer scanner. They pin the model to particular
 * behaviours of the parser: precedence, left associativity, parentheses,
 * the symbol table, and the recovery that skips a token after a failure.
 *
 * The shorter lists are written as literals. The longer ones are given as a
 * parameter `toks` whose every element, and whose length, a `requires` fixes:
 * that describes exactly one list, and lets the verifier look up one token at
 * a time where a long literal would make each step expensive.
 */
module Scenarios {
  import opened Wrappers
  import opened Tokens
  import opened Ast
  import opened Grammar
  import SclScanner

  function Kw(v: string): Token { Token(KEYWORD, v) }
  function Id(v: string): Token { Token(IDENTIFIER, v) }
  function Op(v: string): Token { Token(OPERATOR, v) }
  function Pu(v: string): Token { Token(PUNCTUATION, v) }
  function Num(v: string): Token { Token(INTEGER, v) }

  /** `2 + 3 * 4`: multiplication binds tighter than addition. */
  lemma Precedence()
    ensures ParseExpression([Num("2"), Op("+"), Num("3"), Op("*"), Num("4")], {}, 0)
         == Parsed(Some(BinOp("+", Int("2"), BinOp("*", Int("3"), Int("4")))), 5)
  {
    var toks := [Num("2"), Op("+"), Num("3"), Op("*"), Num("4")];
    assert ParseTerm(toks, {}, 2) == Parsed(Some(BinOp("*", Int("3"), Int("4"))), 5);
  }

  /** `( 2 + 3 ) * 4`: parentheses override precedence. */
  lemma Parentheses()
    ensures ParseExpression([Pu("("), Num("2"), Op("+"), Num("3"), Pu(")"), Op("*"), Num("4")], {}, 0)
         == Parsed(Some(BinOp("*", BinOp("+", Int("2"), Int("3")), Int("4"))), 7)
  {
    var toks := [Pu("("), Num("2"), Op("+"), Num("3"), Pu(")"), Op("*"), Num("4")];
    assert ParseExpression(toks, {}, 1) == Parsed(Some(BinOp("+", Int("2"), Int("3"))), 4);
  }

  /** `a - b - c`: operators of one level group to the left. */
  lemma LeftAssociative()
    ensures ParseExpression([Id("a"), Op("-"), Id("b"), Op("-"), Id("c")], {"a", "b", "c"}, 0)
         == Parsed(Some(BinOp("-", BinOp("-", Identifier("a"), Identifier("b")), Identifier("c"))), 5)
  {
  }

  /** `( )`: the inner expression fails, yet the `)` is consumed. */
  lemma EmptyParentheses()
    ensures ParseFactor([Pu("("), Pu(")")], {}, 0) == Parsed(None, 2)
  {
  }

  /** `int x ; x = 2 + 3 * 4 ;`: a declaration, then an assignment to it. */
  lemma DeclareThenAssign(toks: seq<Token>)
    requires |toks| == 11
    requires toks[0] == Kw("int") && toks[1] == Id("x") && toks[2] == Pu(";")
    requires toks[3] == Id("x") && toks[4] == Op("=") && toks[5] == Num("2") && toks[6] == Op("+")
    requires toks[7] == Num("3") && toks[8] == Op("*") && toks[9] == Num("4") && toks[10] == Pu(";")
    ensures Parse(toks)
         == Program([Decl("int", "x"),
                     Assign("x", BinOp("+", Int("2"), BinOp("*", Int("3"), Int("4"))))])
  {
    var e := BinOp("+", Int("2"), BinOp("*", Int("3"), Int("4")));
    assert ParseStatement(toks, {}, 0) == Step(Some(Decl("int", "x")), 3, {"x"});
    assert ParseTerm(toks, {"x"}, 5) == Parsed(Some(Int("2")), 6);
    var m := BinOp("*", Int("3"), Int("4"));
    assert ParseFactor(toks, {"x"}, 7) == Parsed(Some(Int("3")), 8);
    assert ParseFactor(toks, {"x"}, 9) == Parsed(Some(Int("4")), 10);
    assert TermTail(toks, {"x"}, m, 10) == Parsed(Some(m), 10);
    assert TermTail(toks, {"x"}, Int("3"), 8) == Parsed(Some(m), 10);
    assert ParseTerm(toks, {"x"}, 7) == Parsed(Some(m), 10);
    assert ExpressionTail(toks, {"x"}, e, 10) == Parsed(Some(e), 10);
    assert ExpressionTail(toks, {"x"}, Int("2"), 6) == Parsed(Some(e), 10);
    assert ParseExpression(toks, {"x"}, 5) == Parsed(Some(e), 10);
    assert ParseStatement(toks, {"x"}, 3) == Step(Some(Assign("x", e)), 11, {"x"});
    assert StartItems(toks, {"x"}, 3) == Items([Assign("x", e)], 11, {"x"});
  }

  /**
   * `x = 1 ; int x ;`: the assignment to an undeclared name fails, the
   * tokens up to the declaration are skipped one at a time, and only the
   * declaration is kept.
   */
  lemma UndeclaredAssignmentDropped(toks: seq<Token>)
    requires |toks| == 7
    requires toks[0] == Id("x") && toks[1] == Op("=") && toks[2] == Num("1") && toks[3] == Pu(";")
    requires toks[4] == Kw("int") && toks[5] == Id("x") && toks[6] == Pu(";")
    ensures Parse(toks) == Program([Decl("int", "x")])
  {
    assert ParseStatement(toks, {}, 0) == Step(None, 1, {});
    assert StartItems(toks, {"x"}, 7) == Items([], 7, {"x"});
    assert ParseStatement(toks, {}, 4) == Step(Some(Decl("int", "x")), 7, {"x"});
    assert StartItems(toks, {}, 4) == Items([Decl("int", "x")], 7, {"x"});
    assert StartItems(toks, {}, 3) == StartItems(toks, {}, 4);
    assert StartItems(toks, {}, 2) == StartItems(toks, {}, 3);
    assert StartItems(toks, {}, 1) == StartItems(toks, {}, 2);
  }

  /**
   * `int x ; int x ; x = 1 ;`: the second declaration of `x` is refused
   * after its name, the `;` after it is skipped, and the assignment parses.
   */
  lemma Redeclaration()
    ensures Parse([Kw("int"), Id("x"), Pu(";"), Kw("int"), Id("x"), Pu(";"),
                   Id("x"), Op("="), Num("1"), Pu(";")])
         == Program([Decl("int", "x"), Assign("x", Int("1"))])
  {
    var toks := [Kw("int"), Id("x"), Pu(";"), Kw("int"), Id("x"), Pu(";"),
                 Id("x"), Op("="), Num("1"), Pu(";")];
    assert StartItems(toks, {"x"}, 6) == Items([Assign("x", Int("1"))], 10, {"x"});
    assert ParseStatement(toks, {"x"}, 3) == Step(None, 5, {"x"});
  }

  /** The block `{ x = v ; }` starting at p, followed by more tokens or none. */
  lemma AssignBlock(toks: seq<Token>, p: nat, v: string)
    requires p + 6 <= |toks| && v != "("
    requires toks[p] == Pu("{") && toks[p + 1] == Id("x") && toks[p + 2] == Op("=")
    requires toks[p + 3] == Num(v) && toks[p + 4] == Pu(";") && toks[p + 5] == Pu("}")
    ensures ParseBlock(toks, {"x"}, p) == Step(Some(Block([Assign("x", Int(v))])), p + 6, {"x"})
  {
    assert ParseFactor(toks, {"x"}, p + 3) == Parsed(Some(Int(v)), p + 4);
    assert ParseTerm(toks, {"x"}, p + 3) == Parsed(Some(Int(v)), p + 4);
    assert ParseExpression(toks, {"x"}, p + 3) == Parsed(Some(Int(v)), p + 4);
    assert ParseStatement(toks, {"x"}, p + 1) == Step(Some(Assign("x", Int(v))), p + 5, {"x"});
    assert BlockItems(toks, {"x"}, p + 5) == Items([], p + 5, {"x"});
    assert BlockItems(toks, {"x"}, p + 1) == Items([Assign("x", Int(v))], p + 5, {"x"});
  }

  /**
   * `if ( x < 1 ) { x = 1 ; } else { x = 2 ; }`, with `x` declared: the
   * if-statement keeps both of its blocks and consumes all 19 tokens.
   */
  lemma IfElse(toks: seq<Token>)
    requires |toks| == 19
    requires toks[0] == Kw("if") && toks[1] == Pu("(") && toks[2] == Id("x")
    requires toks[3] == Op("<") && toks[4] == Num("1") && toks[5] == Pu(")")
    requires toks[6] == Pu("{") && toks[7] == Id("x") && toks[8] == Op("=")
    requires toks[9] == Num("1") && toks[10] == Pu(";") && toks[11] == Pu("}")
    requires toks[12] == Kw("else")
    requires toks[13] == Pu("{") && toks[14] == Id("x") && toks[15] == Op("=")
    requires toks[16] == Num("2") && toks[17] == Pu(";") && toks[18] == Pu("}")
    ensures ParseStatement(toks, {"x"}, 0)
         == Step(Some(If(RelOp("<", Identifier("x"), Int("1")),
                         Block([Assign("x", Int("1"))]),
                         Some(Block([Assign("x", Int("2"))])))), 19, {"x"})
  {
    var c := RelOp("<", Identifier("x"), Int("1"));
    assert ParseFactor(toks, {"x"}, 2) == Parsed(Some(Identifier("x")), 3);
    assert ParseTerm(toks, {"x"}, 2) == Parsed(Some(Identifier("x")), 3);
    assert ParseExpression(toks, {"x"}, 2) == Parsed(Some(Identifier("x")), 3);
    assert ParseFactor(toks, {"x"}, 4) == Parsed(Some(Int("1")), 5);
    assert ParseTerm(toks, {"x"}, 4) == Parsed(Some(Int("1")), 5);
    assert ParseExpression(toks, {"x"}, 4) == Parsed(Some(Int("1")), 5);
    assert ParseRel(toks, {"x"}, 2) == Parsed(Some(c), 5);
    assert ParseIf(toks, {"x"}, 0) == IfBody(toks, {"x"}, c, 6);
    AssignBlock(toks, 6, "1");
    AssignBlock(toks, 13, "2");
  }

  /**
   * `int x ; while ( x < 1 ) { x = 1 ;`: the block never closes, so the
   * whole loop is lost and only the declaration is kept.
   */
  lemma UnclosedBlock(toks: seq<Token>)
    requires |toks| == 14
    requires toks[0] == Kw("int") && toks[1] == Id("x") && toks[2] == Pu(";")
    requires toks[3] == Kw("while") && toks[4] == Pu("(") && toks[5] == Id("x")
    requires toks[6] == Op("<") && toks[7] == Num("1") && toks[8] == Pu(")")
    requires toks[9] == Pu("{") && toks[10] == Id("x") && toks[11] == Op("=")
    requires toks[12] == Num("1") && toks[13] == Pu(";")
    ensures Parse(toks) == Program([Decl("int", "x")])
  {
    var c := RelOp("<", Identifier("x"), Int("1"));
    assert ParseStatement(toks, {}, 0) == Step(Some(Decl("int", "x")), 3, {"x"});
    assert ParseFactor(toks, {"x"}, 5) == Parsed(Some(Identifier("x")), 6);
    assert ParseTerm(toks, {"x"}, 5) == Parsed(Some(Identifier("x")), 6);
    assert ParseExpression(toks, {"x"}, 5) == Parsed(Some(Identifier("x")), 6);
    assert ParseFactor(toks, {"x"}, 7) == Parsed(Some(Int("1")), 8);
    assert ParseTerm(toks, {"x"}, 7) == Parsed(Some(Int("1")), 8);
    assert ParseExpression(toks, {"x"}, 7) == Parsed(Some(Int("1")), 8);
    assert ParseRel(toks, {"x"}, 5) == Parsed(Some(c), 8);
    assert ParseFactor(toks, {"x"}, 12) == Parsed(Some(Int("1")), 13);
    assert ParseTerm(toks, {"x"}, 12) == Parsed(Some(Int("1")), 13);
    assert ParseExpression(toks, {"x"}, 12) == Parsed(Some(Int("1")), 13);
    assert ParseStatement(toks, {"x"}, 10) == Step(Some(Assign("x", Int("1"))), 14, {"x"});
    assert BlockItems(toks, {"x"}, 14) == Items([], 14, {"x"});
    assert BlockItems(toks, {"x"}, 10) == Items([Assign("x", Int("1"))], 14, {"x"});
    assert ParseBlock(toks, {"x"}, 9) == Step(None, 14, {"x"});
    assert ParseWhile(toks, {"x"}, 3) == Step(None, 14, {"x"});
    assert StartItems(toks, {"x"}, 3) == Items([], 14, {"x"});
  }

  /**
   * `int x ; while ( x < 1 ) { int y ;`: the loop is lost because its block
   * never closes, yet `y`, declared inside it, stays in the symbol table.
   */
  lemma LostDeclarationKeepsName(toks: seq<Token>)
    requires |toks| == 13
    requires toks[0] == Kw("int") && toks[1] == Id("x") && toks[2] == Pu(";")
    requires toks[3] == Kw("while") && toks[4] == Pu("(") && toks[5] == Id("x")
    requires toks[6] == Op("<") && toks[7] == Num("1") && toks[8] == Pu(")")
    requires toks[9] == Pu("{") && toks[10] == Kw("int") && toks[11] == Id("y") && toks[12] == Pu(";")
    ensures StartItems(toks, {}, 0) == Items([Decl("int", "x")], 13, {"x", "y"})
    ensures Parse(toks) == Program([Decl("int", "x")])
  {
    var c := RelOp("<", Identifier("x"), Int("1"));
    assert ParseStatement(toks, {}, 0) == Step(Some(Decl("int", "x")), 3, {"x"});
    assert ParseFactor(toks, {"x"}, 5) == Parsed(Some(Identifier("x")), 6);
    assert ParseTerm(toks, {"x"}, 5) == Parsed(Some(Identifier("x")), 6);
    assert ParseExpression(toks, {"x"}, 5) == Parsed(Some(Identifier("x")), 6);
    assert ParseFactor(toks, {"x"}, 7) == Parsed(Some(Int("1")), 8);
    assert ParseTerm(toks, {"x"}, 7) == Parsed(Some(Int("1")), 8);
    assert ParseExpression(toks, {"x"}, 7) == Parsed(Some(Int("1")), 8);
    assert ParseRel(toks, {"x"}, 5) == Parsed(Some(c), 8);
    assert ParseStatement(toks, {"x"}, 10) == Step(Some(Decl("int", "y")), 13, {"x", "y"});
    assert BlockItems(toks, {"x", "y"}, 13) == Items([], 13, {"x", "y"});
    assert BlockItems(toks, {"x"}, 10) == Items([Decl("int", "y")], 13, {"x", "y"});
    assert ParseBlock(toks, {"x"}, 9) == Step(None, 13, {"x", "y"});
    assert ParseWhile(toks, {"x"}, 3) == Step(None, 13, {"x", "y"});
    assert StartItems(toks, {"x"}, 3) == Items([], 13, {"x", "y"});
  }

  /** `a12 b3`: two digit runs, two INTEGER tokens. */
  lemma ScanExample()
    ensures SclScanner.IntegerTokens("a12 b3") == [Num("12"), Num("3")]
  {
    var s := "a12 b3";
    assert SclScanner.RunEnd(s, 3) == 3 && SclScanner.RunEnd(s, 1) == 3;
    assert SclScanner.RunEnd(s, 6) == 6 && SclScanner.RunEnd(s, 5) == 6;
    assert s[1..3] == "12" && s[5..6] == "3";
    assert SclScanner.Spans(s, 5) == [SclScanner.Span(5, 6)];
    assert SclScanner.Spans(s, 3) == [SclScanner.Span(5, 6)];
    assert SclScanner.Spans(s, 0) == [SclScanner.Span(1, 3), SclScanner.Span(5, 6)];
  }
}
