/** Properties of the parsing rules: what `consts` accepts, when a statement
    is empty, how `outexp` treats strings, the empty `for` condition, and that
    the operator loops stop only at a token they cannot extend with. */
module GrammarFacts {
  import opened Tokens
  import opened Results
  import opened ExprGrammar
  import opened StmtGrammar
  import opened DeclGrammar
  import A = Ast

  /** The loop of `consts` never ends normally: every path through it panics. */
  lemma {:induction false} ConstsLoopNeverEnds(toks: seq<Token>, pos: nat, acc: seq<A.Const>)
    requires pos <= |toks|
    ensures ConstsLoop(toks, pos, acc).Fail?
    decreases |toks| - pos
  {
    match ConstExpr(toks, pos)
    case Fail(_) =>
    case Done(c, p) =>
      if p < |toks| && toks[p] == Comma {
        ConstsLoopNeverEnds(toks, p + 1, acc + [c]);
      }
  }

  /** `consts` succeeds exactly when there is no `const` section, and then
      yields no constants and consumes nothing. */
  lemma ConstsOnlyEmpty(toks: seq<Token>, pos: nat)
    requires pos <= |toks|
    ensures Consts(toks, pos).Done? <==> pos < |toks| && toks[pos] != Keyword(Const)
    ensures Consts(toks, pos).Done? ==> Consts(toks, pos) == Done(A.Consts([]), pos)
  {
    if pos < |toks| && toks[pos] == Keyword(Const) {
      ConstsLoopNeverEnds(toks, pos + 1, []);
    }
  }

  /** The form the grammar comment describes, `const a = 1 ;`, is rejected. */
  lemma ConstsRejectsSemicolon(toks: seq<Token>)
    requires toks == [Keyword(Const), Identifier("a"), Operator(Equal), Integer(1), Semicolon]
    ensures Consts(toks, 0) == Fail("Expected ',' or ';'")
  {
    assert ConstExpr(toks, 1) == Done(A.Const("a", A.ConstValue.Integer(1)), 4);
  }

  /** The statement forms each come from their own arm. */
  predicate Shaped(t: Token, s: A.Statement) {
    if t == Keyword(Output) then s.Output?
    else if t == Keyword(If) then s.If?
    else if t == Keyword(While) then s.While?
    else if t == Keyword(Repeat) then s.Repeat?
    else if t == Keyword(For) then s.For?
    else if t == Keyword(Loop) then s.Loop?
    else if t == Keyword(Case) then s.Case?
    else if t == Keyword(Read) then s.Read?
    else if t == Keyword(Exit) then s.Exit?
    else if t == Keyword(Return) then s.Return?
    else if t == Keyword(Begin) then s.Body?
    else if t.Identifier? then s.Assign?
    else s.Null?
  }

  /** The token at the cursor decides the form of a statement; a token that
      starts no form yields the empty statement without being consumed, and
      every other form consumes at least one token. */
  lemma StatementShape(toks: seq<Token>, pos: nat)
    requires pos < |toks|
    ensures var r := Statement(toks, pos);
      && (r.Done? ==> Shaped(toks[pos], r.value))
      && (r.Done? ==> (r.next == pos <==> r.value.Null?))
      && (!IsStatementStart(toks[pos]) ==> r == Done(A.Statement.Null, pos))
  {
    var t := toks[pos];
    if t == Keyword(Output) {
      assert OutputRest(toks, pos + 1).Done? ==> OutputRest(toks, pos + 1).value.Output?;
    } else if t == Keyword(If) {
      assert IfRest(toks, pos + 1).Done? ==> IfRest(toks, pos + 1).value.If?;
    } else if t == Keyword(While) {
      assert WhileRest(toks, pos + 1).Done? ==> WhileRest(toks, pos + 1).value.While?;
    } else if t == Keyword(Repeat) {
      assert RepeatRest(toks, pos + 1).Done? ==> RepeatRest(toks, pos + 1).value.Repeat?;
    } else if t == Keyword(For) {
      assert ForRest(toks, pos + 1).Done? ==> ForRest(toks, pos + 1).value.For?;
    } else if t == Keyword(Loop) {
      assert LoopRest(toks, pos + 1).Done? ==> LoopRest(toks, pos + 1).value.Loop?;
    } else if t == Keyword(Case) {
      assert CaseRest(toks, pos + 1).Done? ==> CaseRest(toks, pos + 1).value.Case?;
    } else if t == Keyword(Read) {
      assert ReadRest(toks, pos + 1).Done? ==> ReadRest(toks, pos + 1).value.Read?;
    }
  }

  /** A string token where an output item starts is rejected: `outexp`
      always parses an expression first, and a string is no primary. */
  lemma OutExpRejectsLeadingString(toks: seq<Token>, pos: nat)
    requires pos < |toks| && toks[pos].String?
    ensures OutExp(toks, pos) == Fail("Expected primary")
  {
    assert Primary(toks, pos) == Fail("Expected primary");
    assert Factor(toks, pos) == Fail("Expected primary");
    assert Term(toks, pos) == Fail("Expected primary");
  }

  /** An output item is a string exactly when a string token follows a
      complete expression; that expression is parsed and then dropped.
      Otherwise the item is the expression, ending where it ends. */
  lemma OutExpShape(toks: seq<Token>, pos: nat)
    requires pos <= |toks|
    ensures var r := OutExp(toks, pos);
      r.Done? ==>
        && Expression(toks, pos).Done?
        && var q := Expression(toks, pos).next;
           q < |toks|
           && match r.value
              case String(s) => toks[q] == String(s) && r.next == q + 1
              case Integer(e) => !toks[q].String? && e == Expression(toks, pos).value && r.next == q
  {
  }

  /** In a `for` header an immediate `;` is the empty condition, read as
      `true`; otherwise the condition is an expression and its `;`. */
  lemma ForConditionShape(toks: seq<Token>, pos: nat)
    requires pos <= |toks|
    ensures var r := ForCondition(toks, pos);
      && (pos < |toks| && toks[pos] == Semicolon ==> r == Done(A.True, pos + 1))
      && (r.Done? && r.value.True? ==> toks[pos] == Semicolon)
      && (r.Done? && r.value.Expression? ==>
            Expression(toks, pos).Done? && toks[r.next - 1] == Semicolon
            && r.value.exp == Expression(toks, pos).value)
  {
  }

  /** `for ( ; ; )` has no initialiser, the condition `true` and no update. */
  lemma EmptyForHeader(toks: seq<Token>, pos: nat)
    requires pos + 4 <= |toks|
    requires toks[pos..pos + 4] == [LeftParen, Semicolon, Semicolon, RightParen]
    ensures ForHeaderAt(toks, pos) == Done(ForHeader(A.ForStat.Null, A.True, A.ForStat.Null), pos + 4)
  {
    assert toks[pos] == LeftParen && toks[pos + 1] == Semicolon;
    assert toks[pos + 2] == Semicolon && toks[pos + 3] == RightParen;
  }

  /** The `+`/`-`/`or` loop stops only at a token that is none of them. */
  lemma {:induction false} TermTailStops(toks: seq<Token>, pos: nat, acc: A.Term)
    requires pos <= |toks|
    ensures var r := TermTail(toks, pos, acc);
      r.Done? ==> r.next < |toks| && !IsTermOperator(toks[r.next])
    decreases |toks| - pos
  {
    if pos < |toks| && IsTermOperator(toks[pos]) {
      match Factor(toks, pos + 1)
      case Fail(_) =>
      case Done(f, p) => TermTailStops(toks, p, TermNode(toks[pos], acc, f));
    }
  }

  /** The `*`/`/`/`and`/`mod` loop stops only at a token that is none of them. */
  lemma {:induction false} FactorTailStops(toks: seq<Token>, pos: nat, acc: A.Factor)
    requires pos <= |toks|
    ensures var r := FactorTail(toks, pos, acc);
      r.Done? ==> r.next < |toks| && !IsFactorOperator(toks[r.next])
    decreases |toks| - pos
  {
    if pos < |toks| && IsFactorOperator(toks[pos]) {
      match Primary(toks, pos + 1)
      case Fail(_) =>
      case Done(p, q) => FactorTailStops(toks, q, FactorNode(toks[pos], acc, p));
    }
  }

  /** A term ends only at a token that cannot continue it, and an expression
      without a comparison ends only at a token that is no comparison:
      comparisons do not chain, so in `a < b < c` the second `<` is left over. */
  lemma ExpressionStops(toks: seq<Token>, pos: nat)
    requires pos <= |toks|
    ensures var r := Term(toks, pos);
      r.Done? ==> r.next < |toks| && !IsTermOperator(toks[r.next])
    ensures var r := Expression(toks, pos);
      r.Done? && r.value.Term? ==> r.next < |toks| && !IsComparison(toks[r.next]) && !IsTermOperator(toks[r.next])
  {
    match Factor(toks, pos)
    case Fail(_) =>
    case Done(f, p) => TermTailStops(toks, p, A.Term.Factor(f));
  }

  /** The smallest program, `program n1 : begin end n2 .`: its body holds one
      empty statement, the end name is not compared with the program name,
      and whatever follows the `.` is not looked at. */
  lemma SmallestProgram(toks: seq<Token>, n1: string, n2: string, rest: seq<Token>)
    requires toks == [Keyword(Program), Identifier(n1), Colon, Keyword(Begin), Keyword(End), Identifier(n2), Dot] + rest
    ensures Winzig(toks, 0) == Done(A.Program(A.Identifier(n1), A.Consts([]), A.Types([]), A.Dclns([]), A.SubProgs([]),
                                              A.Body.Body([A.Statement.Null]), A.Identifier(n2)), 7)
  {
    assert toks[0] == Keyword(Program) && toks[1] == Identifier(n1) && toks[2] == Colon;
    assert toks[3] == Keyword(Begin) && toks[4] == Keyword(End) && toks[5] == Identifier(n2) && toks[6] == Dot;
    assert Consts(toks, 3) == Done(A.Consts([]), 3);
    assert Types(toks, 3) == Done(A.Types([]), 3);
    assert Dclns(toks, 3) == Done(A.Dclns([]), 3);
    assert SubProgsLoop(toks, 3, []) == Done([], 3);
    assert !IsStatementStart(toks[4]);
    StatementShape(toks, 4);
    assert Statement(toks, 4) == Done(A.Statement.Null, 4);
    assert [] + [A.Statement.Null] == [A.Statement.Null];
    assert StatementList(toks, 4, []) == Done([A.Statement.Null], 4);
    assert Body(toks, 3) == Done(Some(A.Body.Body([A.Statement.Null])), 5);
  }
}
