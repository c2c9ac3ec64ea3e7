/** The parser (src/parser/parser.rs) as a class over its token vector and
    cursor. Every method is proved to agree with the rule of the same name in
    `ExprGrammar`, `StmtGrammar` or `DeclGrammar`: the same node and the same
    cursor afterwards, or the same failure. */
module Parsing {
  import opened Tokens
  import opened Results
  import E = ExprGrammar
  import S = StmtGrammar
  import D = DeclGrammar
  import A = Ast

  /** The tokens `Parser::new` drops (src/parser/parser.rs:12-19). */
  predicate IsTrivia(t: Token) {
    t == Comment || t == Whitespace || t == Newline
  }

  /** The filter of `Parser::new` (src/parser/parser.rs:9-26). */
  function Significant(ts: seq<Token>): (r: seq<Token>)
    ensures |r| <= |ts|
    ensures forall i :: 0 <= i < |r| ==> !IsTrivia(r[i])
  {
    if ts == [] then []
    else (if IsTrivia(ts[0]) then [] else [ts[0]]) + Significant(ts[1..])
  }

  /** Filtering distributes over concatenation: the kept tokens of a stream
      are the kept tokens of its parts, in order. */
  lemma {:induction false} SignificantAppend(a: seq<Token>, b: seq<Token>)
    ensures Significant(a + b) == Significant(a) + Significant(b)
  {
    if a == [] {
      assert a + b == b;
    } else {
      assert (a + b)[1..] == a[1..] + b;
      SignificantAppend(a[1..], b);
    }
  }

  /** A token survives the filter exactly when it occurs and is not a
      comment, whitespace or newline. */
  lemma {:induction false} SignificantKeeps(ts: seq<Token>, t: Token)
    ensures t in Significant(ts) <==> t in ts && !IsTrivia(t)
  {
    if ts != [] {
      SignificantKeeps(ts[1..], t);
      assert ts == [ts[0]] + ts[1..];
    }
  }

  /** A stream without trivia passes the filter unchanged, so filtering
      twice is filtering once. */
  lemma {:induction false} SignificantKeepsAll(ts: seq<Token>)
    requires forall i :: 0 <= i < |ts| ==> !IsTrivia(ts[i])
    ensures Significant(ts) == ts
  {
    if ts != [] {
      SignificantKeepsAll(ts[1..]);
    }
  }

  lemma SignificantIdempotent(ts: seq<Token>)
    ensures Significant(Significant(ts)) == Significant(ts)
  {
    SignificantKeepsAll(Significant(ts));
  }

  /** `Option::expect(msg)` inside a method. */
  function Expected<T>(o: Option<T>, msg: string): (r: Result<T>)
    ensures r.Ok? <==> o.Some?
    ensures r.Ok? ==> r.value == o.value
  {
    match o
    case Some(v) => Ok(v)
    case None => Err(msg)
  }

  /** What an underflowing `current - 1` panics with. */
  const SubtractOverflowMsg: string := "attempt to subtract with overflow"

  class Parser {
    const tokens: seq<Token>
    var current: nat
    /** Always false: `new` sets it and nothing changes it. */
    const verbose: bool

    predicate Valid()
      reads this
    {
      current <= |tokens|
    }

    /** `Parser::new` (src/parser/parser.rs:9-26). */
    constructor (input: seq<Token>)
      ensures tokens == Significant(input) && current == 0 && !verbose
      ensures Valid()
    {
      tokens := Significant(input);
      current := 0;
      verbose := false;
    }

    /** `peek` (src/parser/parser.rs:32-34): the token at the cursor; past the
        last token, the bounds-check panic. */
    function Peek(): (r: Result<Token>)
      reads this
      ensures r.Ok? <==> current < |tokens|
      ensures r.Ok? ==> r.value == tokens[current]
      ensures r.Err? ==> r.msg == E.PeekFailure(tokens, current)
    {
      if current < |tokens| then Ok(tokens[current]) else Err(E.PeekFailure(tokens, current))
    }

    /** `previous` (src/parser/parser.rs:36-38). */
    function Previous(): (r: Result<Token>)
      reads this
      ensures r.Ok? <==> 0 < current <= |tokens|
      ensures r.Ok? ==> r.value == tokens[current - 1]
    {
      if current == 0 then Err(SubtractOverflowMsg)
      else if current - 1 < |tokens| then Ok(tokens[current - 1])
      else Err(E.OutOfBounds(|tokens|, current - 1))
    }

    /** `is_at_end` (src/parser/parser.rs:40-42). */
    function IsAtEnd(): (b: bool)
      reads this
      ensures b <==> Peek().Err?
    {
      current >= |tokens|
    }

    /** `advance` (src/parser/parser.rs:44-52): moves past the current token,
        unless at the end, and returns the token before the cursor. */
    method Advance() returns (r: Result<Token>)
      requires Valid()
      modifies this`current
      ensures Valid()
      ensures current == if old(current) < |tokens| then old(current) + 1 else old(current)
      ensures r == Previous()
    {
      if !IsAtEnd() {
        current := current + 1;
      }
      r := Previous();
    }

    /** `if self.peek() == t { self.advance() } else { panic!(msg) }`. */
    method Consume(t: Token, msg: string) returns (r: Result<()>)
      requires Valid()
      modifies this`current
      ensures Valid() && Agrees(r, current, E.Punct(tokens, old(current), t, msg))
    {
      var u :- Peek();
      if u != t {
        return Err(msg);
      }
      var _ := Advance();
      return Ok(());
    }

    /** `name` (src/parser/parser.rs:94-102). */
    method Name() returns (r: Result<Option<A.Identifier>>)
      requires Valid()
      modifies this`current
      ensures Valid() && Agrees(r, current, E.Name(tokens, old(current)))
    {
      var t :- Peek();
      if t.Identifier? {
        var _ := Advance();
        return Ok(Some(A.Identifier(t.name)));
      }
      return Ok(None);
    }

    /** `expression` (src/parser/parser.rs:314-367). */
    method Expression() returns (r: Result<A.Expression>)
      requires Valid()
      modifies this`current
      ensures Valid() && Agrees(r, current, E.Expression(tokens, old(current)))
      decreases |tokens| - current, 5
    {
      var left :- Term();
      var t :- Peek();
      if E.IsComparison(t) {
        var _ := Advance();
        var right :- Term();
        return Ok(E.Comparison(t.op, left, right));
      }
      return Ok(A.Expression.Term(left));
    }

    /** `term` (src/parser/parser.rs:371-374). */
    method Term() returns (r: Result<A.Term>)
      requires Valid()
      modifies this`current
      ensures Valid() && Agrees(r, current, E.Term(tokens, old(current)))
      decreases |tokens| - current, 4
    {
      var f :- Factor();
      r := TermTail(A.Term.Factor(f));
    }

    /** `term_` (src/parser/parser.rs:380-408). */
    method TermTail(t: A.Term) returns (r: Result<A.Term>)
      requires Valid()
      modifies this`current
      ensures Valid() && Agrees(r, current, E.TermTail(tokens, old(current), t))
      decreases |tokens| - current, 4
    {
      var op :- Peek();
      if E.IsTermOperator(op) {
        var _ := Advance();
        var f :- Factor();
        r := TermTail(E.TermNode(op, t, f));
      } else {
        r := Ok(t);
      }
    }

    /** `factor` (src/parser/parser.rs:411-414). */
    method Factor() returns (r: Result<A.Factor>)
      requires Valid()
      modifies this`current
      ensures Valid() && Agrees(r, current, E.Factor(tokens, old(current)))
      decreases |tokens| - current, 3
    {
      var p :- Primary();
      r := FactorTail(A.Factor.Primary(p));
    }

    /** `factor_` (src/parser/parser.rs:421-457). */
    method FactorTail(f: A.Factor) returns (r: Result<A.Factor>)
      requires Valid()
      modifies this`current
      ensures Valid() && Agrees(r, current, E.FactorTail(tokens, old(current), f))
      decreases |tokens| - current, 3
    {
      var op :- Peek();
      if E.IsFactorOperator(op) {
        var _ := Advance();
        var p :- Primary();
        r := FactorTail(E.FactorNode(op, f, p));
      } else {
        r := Ok(f);
      }
    }

    /** `primary` (src/parser/parser.rs:472-610). */
    method Primary() returns (r: Result<A.Primary>)
      requires Valid()
      modifies this`current
      ensures Valid() && Agrees(r, current, E.Primary(tokens, old(current)))
      decreases |tokens| - current, 2
    {
      var t :- Peek();
      if t == Operator(Minus) {
        var _ := Advance();
        var p :- Primary();
        r := Ok(A.Negate(p));
      } else if t == Operator(Plus) {
        var _ := Advance();
        r := Primary();
      } else if t == Keyword(Not) {
        var _ := Advance();
        var p :- Primary();
        r := Ok(A.Not(p));
      } else if t == Keyword(Eof) {
        var _ := Advance();
        r := Ok(A.Eof);
      } else if t.Identifier? {
        r := NameOrCall();
      } else if t.Integer? {
        var _ := Advance();
        r := Ok(A.Primary.Integer(t.value));
      } else if t.Char? {
        var _ := Advance();
        r := Ok(A.Primary.Char(t.ch));
      } else if t == LeftParen {
        var _ := Advance();
        var e :- Parenthesised();
        r := Ok(A.Primary.Expression(e));
      } else if E.IsBuiltin(t) {
        r := Builtin();
      } else {
        r := Err("Expected primary");
      }
    }

    /** The identifier arm of `primary` (src/parser/parser.rs:501-529). */
    method NameOrCall() returns (r: Result<A.Primary>)
      requires Valid() && current < |tokens| && tokens[current].Identifier?
      modifies this`current
      ensures Valid() && Agrees(r, current, E.NameOrCall(tokens, old(current)))
      decreases |tokens| - current, 1
    {
      // At an identifier `name` cannot fail and its `expect` never fires.
      ghost var id := A.Identifier(tokens[current].name);
      var o := Name();
      assert o == Ok(Some(id));
      var name := o.value.value;
      var t :- Peek();
      if t == LeftParen {
        var _ := Advance();
        var exps :- CallArgs();
        r := Ok(A.Call(name, exps));
      } else {
        r := Ok(A.Primary.Name(name));
      }
    }

    /** The argument loop of a call (src/parser/parser.rs:512-523). */
    method CallArgs() returns (r: Result<seq<A.Expression>>)
      requires Valid()
      modifies this`current
      ensures Valid() && Agrees(r, current, E.CallArgs(tokens, old(current), []))
      decreases |tokens| - current, 6
    {
      var exprs: seq<A.Expression> := [];
      while true
        invariant Valid() && old(current) <= current
        invariant E.CallArgs(tokens, current, exprs) == E.CallArgs(tokens, old(current), [])
        decreases |tokens| - current
      {
        var e :- Expression();
        exprs := exprs + [e];
        var t :- Peek();
        if t == Comma {
          var _ := Advance();
        } else if t == RightParen {
          var _ := Advance();
          return Ok(exprs);
        } else {
          return Err("Expected ',' or ')'");
        }
      }
    }

    /** An expression and its closing `)`. */
    method Parenthesised() returns (r: Result<A.Expression>)
      requires Valid()
      modifies this`current
      ensures Valid() && Agrees(r, current, E.Parenthesised(tokens, old(current)))
      decreases |tokens| - current, 6
    {
      var e :- Expression();
      var _ :- Consume(RightParen, "Expected ')'");
      r := Ok(e);
    }

    /** The `succ`, `pred`, `chr` and `ord` arms of `primary`
        (src/parser/parser.rs:540-609). */
    method Builtin() returns (r: Result<A.Primary>)
      requires Valid() && current < |tokens| && E.IsBuiltin(tokens[current])
      modifies this`current
      ensures Valid() && Agrees(r, current, E.Builtin(tokens, old(current)))
      decreases |tokens| - current, 1
    {
      var kw := tokens[current];
      var _ := Advance();
      var _ :- Consume(LeftParen, "Expected '('");
      var e :- Parenthesised();
      r := Ok(E.BuiltinNode(kw, e));
    }

    /** `const_value` (src/parser/parser.rs:154-168). */
    method ConstValue() returns (r: Result<A.ConstValue>)
      requires Valid()
      modifies this`current
      ensures Valid() && Agrees(r, current, S.ConstValue(tokens, old(current)))
    {
      var t :- Peek();
      if t.Integer? {
        var _ := Advance();
        r := Ok(A.ConstValue.Integer(t.value));
      } else if t.Char? {
        var _ := Advance();
        r := Ok(A.ConstValue.Char(t.ch));
      } else if t.Identifier? {
        var o := Name();
        assert o == Ok(Some(A.Identifier(t.name)));
        r := Ok(A.ConstValue.Name(o.value.value));
      } else {
        r := Err("Expected const value");
      }
    }

    /** `case_expression` (src/parser/parser.rs:1003-1012). */
    method CaseExpression() returns (r: Result<A.CaseExpression>)
      requires Valid()
      modifies this`current
      ensures Valid() && Agrees(r, current, S.CaseExpression(tokens, old(current)))
    {
      var low :- ConstValue();
      var t :- Peek();
      if t == Dots {
        var _ := Advance();
        var high :- ConstValue();
        r := Ok(A.Range(low, high));
      } else {
        r := Ok(A.Value(low));
      }
    }

    /** `assignment` (src/parser/parser.rs:948-977). */
    method Assignment() returns (r: Result<Option<A.Assignment>>)
      requires Valid()
      modifies this`current
      ensures Valid() && Agrees(r, current, S.Assignment(tokens, old(current)))
    {
      var t :- Peek();
      if !t.Identifier? {
        return Ok(None);
      }
      var name1 := A.Identifier(t.name);
      var _ := Advance();
      var op :- Peek();
      if op == Operator(Tokens.Assignment) {
        var _ := Advance();
        var e :- Expression();
        r := Ok(Some(A.Assignment.Assignment(name1, e)));
      } else if op == Operator(Swap) {
        var _ := Advance();
        var u :- Peek();
        if !u.Identifier? {
          return Err("Expected identifier");
        }
        var _ := Advance();
        r := Ok(Some(A.Swap(name1, A.Identifier(u.name))));
      } else {
        r := Err("Expected ':=' or ':=:'");
      }
    }

    /** `outexp` (src/parser/parser.rs:931-944). */
    method OutExp() returns (r: Result<A.OutExp>)
      requires Valid()
      modifies this`current
      ensures Valid() && Agrees(r, current, S.OutExp(tokens, old(current)))
    {
      var e :- Expression();
      var t :- Peek();
      if t.String? {
        var _ := Advance();
        r := Ok(A.OutExp.String(t.text));
      } else {
        r := Ok(A.OutExp.Integer(e));
      }
    }

    /** `_statement_outexp_list` (src/parser/parser.rs:887-899). */
    method OutExpList() returns (r: Result<seq<A.OutExp>>)
      requires Valid()
      modifies this`current
      ensures Valid() && Agrees(r, current, S.OutExpList(tokens, old(current), []))
    {
      var outexps: seq<A.OutExp> := [];
      while true
        invariant Valid() && old(current) <= current
        invariant S.OutExpList(tokens, current, outexps) == S.OutExpList(tokens, old(current), [])
        decreases |tokens| - current
      {
        var o :- OutExp();
        outexps := outexps + [o];
        var t :- Peek();
        if t == Comma {
          var _ := Advance();
        } else {
          return Ok(outexps);
        }
      }
    }

    /** `_name_list` (src/parser/parser.rs:915-927). */
    method NameList() returns (r: Result<seq<A.Identifier>>)
      requires Valid()
      modifies this`current
      ensures Valid() && Agrees(r, current, S.NameList(tokens, old(current), []))
    {
      var names: seq<A.Identifier> := [];
      while true
        invariant Valid() && old(current) <= current
        invariant S.NameList(tokens, current, names) == S.NameList(tokens, old(current), [])
        decreases |tokens| - current
      {
        var o :- Name();
        var n :- Expected(o, "Expected name");
        names := names + [n];
        var t :- Peek();
        if t == Comma {
          var _ := Advance();
        } else {
          return Ok(names);
        }
      }
    }

    /** `statement` (src/parser/parser.rs:668-885). */
    method Statement() returns (r: Result<A.Statement>)
      requires Valid()
      modifies this`current
      ensures Valid() && Agrees(r, current, S.Statement(tokens, old(current)))
      decreases |tokens| - current, 3
    {
      var t :- Peek();
      if t == Keyword(Output) {
        var _ := Advance();
        r := OutputRest();
      } else if t == Keyword(If) {
        var _ := Advance();
        r := IfRest();
      } else if t == Keyword(While) {
        var _ := Advance();
        r := WhileRest();
      } else if t == Keyword(Repeat) {
        var _ := Advance();
        r := RepeatRest();
      } else if t == Keyword(For) {
        var _ := Advance();
        r := ForRest();
      } else if t == Keyword(Loop) {
        var _ := Advance();
        r := LoopRest();
      } else if t == Keyword(Case) {
        var _ := Advance();
        r := CaseRest();
      } else if t == Keyword(Read) {
        var _ := Advance();
        r := ReadRest();
      } else if t == Keyword(Exit) {
        var _ := Advance();
        r := Ok(A.Exit);
      } else if t == Keyword(Return) {
        var _ := Advance();
        var e :- Expression();
        r := Ok(A.Return(e));
      } else if t == Keyword(Begin) {
        // At `begin` the body is there or fails; its `expect` never fires.
        var o :- Body();
        r := Ok(A.Statement.Body(o.value));
      } else if t.Identifier? {
        // At an identifier the assignment is there or fails.
        var o :- Assignment();
        r := Ok(A.Assign(o.value));
      } else {
        r := Ok(A.Statement.Null);
      }
    }

    /** `body` (src/parser/parser.rs:631-653). */
    method Body() returns (r: Result<Option<A.Body>>)
      requires Valid()
      modifies this`current
      ensures Valid() && Agrees(r, current, S.Body(tokens, old(current)))
      decreases |tokens| - current, 2
    {
      var t :- Peek();
      if t != Keyword(Begin) {
        return Ok(None);
      }
      var _ := Advance();
      var statements :- StatementList();
      var _ :- Consume(Keyword(End), "Expected 'end'");
      r := Ok(Some(A.Body.Body(statements)));
    }

    /** `_statement_list` (src/parser/parser.rs:901-913). */
    method StatementList() returns (r: Result<seq<A.Statement>>)
      requires Valid()
      modifies this`current
      ensures Valid() && Agrees(r, current, S.StatementList(tokens, old(current), []))
      decreases |tokens| - current, 4
    {
      var stmts: seq<A.Statement> := [];
      while true
        invariant Valid() && old(current) <= current
        invariant S.StatementList(tokens, current, stmts) == S.StatementList(tokens, old(current), [])
        decreases |tokens| - current
      {
        ghost var here := current;
        ghost var before := stmts;
        var s :- Statement();
        ghost var p := current;
        S.StatementListRound(tokens, here, before, s, p);
        stmts := stmts + [s];
        var t :- Peek();
        if t == Semicolon {
          var _ := Advance();
          assert current == p + 1;
          assert S.StatementList(tokens, current, stmts) == S.StatementList(tokens, here, before);
        } else {
          return Ok(stmts);
        }
      }
    }

    /** The `output` arm (src/parser/parser.rs:670-686), after the keyword. */
    method OutputRest() returns (r: Result<A.Statement>)
      requires Valid()
      modifies this`current
      ensures Valid() && Agrees(r, current, S.OutputRest(tokens, old(current)))
      decreases |tokens| - current, 3
    {
      var _ :- Consume(LeftParen, "Expected '('");
      var outexps :- OutExpList();
      var _ :- Consume(RightParen, "Expected ')'");
      r := Ok(A.Output(outexps));
    }

    /** The `if` arm (src/parser/parser.rs:687-707), after the keyword. */
    method IfRest() returns (r: Result<A.Statement>)
      requires Valid()
      modifies this`current
      ensures Valid() && Agrees(r, current, S.IfRest(tokens, old(current)))
      decreases |tokens| - current, 3
    {
      var cond :- Expression();
      var _ :- Consume(Keyword(Then), "Expected 'then'");
      var stmt :- Statement();
      var t :- Peek();
      if t == Keyword(Else) {
        var _ := Advance();
        var elseStmt :- Statement();
        r := Ok(A.If(cond, stmt, Some(elseStmt)));
      } else {
        r := Ok(A.If(cond, stmt, None));
      }
    }

    /** The `while` arm (src/parser/parser.rs:708-721), after the keyword. */
    method WhileRest() returns (r: Result<A.Statement>)
      requires Valid()
      modifies this`current
      ensures Valid() && Agrees(r, current, S.WhileRest(tokens, old(current)))
      decreases |tokens| - current, 3
    {
      var cond :- Expression();
      var _ :- Consume(Keyword(Do), "Expected 'do'");
      var stmt :- Statement();
      r := Ok(A.While(cond, stmt));
    }

    /** The `repeat` arm (src/parser/parser.rs:722-746), after the keyword. */
    method RepeatRest() returns (r: Result<A.Statement>)
      requires Valid()
      modifies this`current
      ensures Valid() && Agrees(r, current, S.RepeatRest(tokens, old(current)))
      decreases |tokens| - current, 5
    {
      var stmts :- StatementList();
      var _ :- Consume(Keyword(Until), "Expected 'until'");
      var cond :- Expression();
      r := Ok(A.Repeat(stmts, cond));
    }

    /** The condition part of a `for` header (src/parser/parser.rs:762-772). */
    method ForCondition() returns (r: Result<A.ForExp>)
      requires Valid()
      modifies this`current
      ensures Valid() && Agrees(r, current, S.ForCondition(tokens, old(current)))
    {
      var t :- Peek();
      if t == Semicolon {
        var _ := Advance();
        return Ok(A.True);
      }
      var cond :- Expression();
      var _ :- Consume(Semicolon, "Expected ';'");
      r := Ok(A.ForExp.Expression(cond));
    }

    /** The header of a `for` statement (src/parser/parser.rs:749-787). */
    method ForHeader() returns (r: Result<S.ForHeader>)
      requires Valid()
      modifies this`current
      ensures Valid() && Agrees(r, current, S.ForHeaderAt(tokens, old(current)))
    {
      var _ :- Consume(LeftParen, "Expected '('");
      var init :- Assignment();
      var _ :- Consume(Semicolon, "Expected ';'");
      var cond :- ForCondition();
      var update :- Assignment();
      var _ :- Consume(RightParen, "Expected ')'");
      r := Ok(S.ForHeader(S.ForStat(init), cond, S.ForStat(update)));
    }

    /** The `for` arm (src/parser/parser.rs:747-791), after the keyword. */
    method ForRest() returns (r: Result<A.Statement>)
      requires Valid()
      modifies this`current
      ensures Valid() && Agrees(r, current, S.ForRest(tokens, old(current)))
      decreases |tokens| - current, 3
    {
      var h :- ForHeader();
      var stmt :- Statement();
      r := Ok(A.For(h.init, h.cond, h.update, stmt));
    }

    /** The `loop` arm (src/parser/parser.rs:792-803), after the keyword. */
    method LoopRest() returns (r: Result<A.Statement>)
      requires Valid()
      modifies this`current
      ensures Valid() && Agrees(r, current, S.LoopRest(tokens, old(current)))
      decreases |tokens| - current, 5
    {
      var stmts :- StatementList();
      var _ :- Consume(Keyword(Pool), "Expected 'pool'");
      r := Ok(A.Loop(stmts));
    }

    /** The `case` arm (src/parser/parser.rs:804-844), after the keyword. */
    method CaseRest() returns (r: Result<A.Statement>)
      requires Valid()
      modifies this`current
      ensures Valid() && Agrees(r, current, S.CaseRest(tokens, old(current)))
      decreases |tokens| - current, 3
    {
      var e :- Expression();
      var _ :- Consume(Keyword(Of), "Expected 'of'");
      var clauses :- CaseClauses();
      var otherwise :- OtherwiseClause();
      var _ :- Consume(Keyword(End), "Expected 'end'");
      r := Ok(A.Case(e, clauses, otherwise));
    }

    /** The clause loop of the `case` arm (src/parser/parser.rs:815-827). */
    method CaseClauses() returns (r: Result<seq<A.CaseClause>>)
      requires Valid()
      modifies this`current
      ensures Valid() && Agrees(r, current, S.CaseClauses(tokens, old(current), []))
      decreases |tokens| - current, 4
    {
      var clauses: seq<A.CaseClause> := [];
      while true
        invariant Valid() && old(current) <= current
        invariant S.CaseClauses(tokens, current, clauses) == S.CaseClauses(tokens, old(current), [])
        decreases |tokens| - current
      {
        ghost var here := current;
        ghost var before := clauses;
        var c :- CaseClause();
        ghost var p := current;
        clauses := clauses + [c];
        var t :- Peek();
        if t == Semicolon {
          var _ := Advance();
        }
        S.CaseClausesRound(tokens, here, before, c, p, current);
        var u :- Peek();
        if u == Keyword(End) || u == Keyword(Otherwise) {
          return Ok(clauses);
        }
      }
    }

    /** `case_clause` (src/parser/parser.rs:980-999). */
    method CaseClause() returns (r: Result<A.CaseClause>)
      requires Valid()
      modifies this`current
      ensures Valid() && Agrees(r, current, S.CaseClause(tokens, old(current)))
      decreases |tokens| - current, 3
    {
      var exprs: seq<A.CaseExpression> := [];
      while true
        invariant Valid() && old(current) <= current
        invariant S.CaseLabels(tokens, current, exprs) == S.CaseLabels(tokens, old(current), [])
        decreases |tokens| - current
      {
        var e :- CaseExpression();
        exprs := exprs + [e];
        var t :- Peek();
        if t == Comma {
          var _ := Advance();
        } else if t == Colon {
          var _ := Advance();
          break;
        } else {
          return Err("Expected ',' or ':'");
        }
      }
      var stmt :- Statement();
      r := Ok(A.CaseClause(exprs, stmt));
    }

    /** `otherwise_clause` (src/parser/parser.rs:1016-1026). */
    method OtherwiseClause() returns (r: Result<Option<A.OtherwiseClause>>)
      requires Valid()
      modifies this`current
      ensures Valid() && Agrees(r, current, S.OtherwiseClause(tokens, old(current)))
      decreases |tokens| - current, 3
    {
      var t :- Peek();
      if t != Keyword(Otherwise) {
        return Ok(None);
      }
      var _ := Advance();
      var stmt :- Statement();
      r := Ok(Some(A.OtherwiseClause(stmt)));
    }

    /** The `read` arm (src/parser/parser.rs:845-861), after the keyword. */
    method ReadRest() returns (r: Result<A.Statement>)
      requires Valid()
      modifies this`current
      ensures Valid() && Agrees(r, current, S.ReadRest(tokens, old(current)))
    {
      var _ :- Consume(LeftParen, "Expected '('");
      var names :- NameList();
      var _ :- Consume(RightParen, "Expected ')'");
      r := Ok(A.Read(names));
    }

    /** `const_expr` (src/parser/parser.rs:136-149). */
    method ConstExpr() returns (r: Result<A.Const>)
      requires Valid()
      modifies this`current
      ensures Valid() && Agrees(r, current, D.ConstExpr(tokens, old(current)))
    {
      var o :- Name();
      var name :- Expected(o, "Expected const name");
      var _ :- Consume(Operator(Equal), "Expected '='");
      var value :- ConstValue();
      r := Ok(A.Const(name.name, value));
    }

    /** `consts` (src/parser/parser.rs:106-133). */
    method Consts() returns (r: Result<A.Consts>)
      requires Valid()
      modifies this`current
      ensures Valid() && Agrees(r, current, D.Consts(tokens, old(current)))
    {
      var t :- Peek();
      if t != Keyword(Const) {
        return Ok(A.Consts([]));
      }
      var _ := Advance();
      var consts: seq<A.Const> := [];
      while true
        invariant Valid() && old(current) < current
        invariant D.ConstsLoop(tokens, current, consts) == D.ConstsLoop(tokens, old(current) + 1, [])
        decreases |tokens| - current
      {
        var c :- ConstExpr();
        var u :- Peek();
        if u == Comma {
          var _ := Advance();
          consts := consts + [c];
        } else if u == Comma {
          // The second test repeats the first (src/parser/parser.rs:117), so
          // this arm, meant for the closing `;`, is never taken.
          assert false;
        } else {
          return Err("Expected ',' or ';'");
        }
      }
      r := Ok(A.Consts(consts));
    }

    /** `lit_list` (src/parser/parser.rs:221-243). */
    method LitList() returns (r: Result<A.LitList>)
      requires Valid()
      modifies this`current
      ensures Valid() && Agrees(r, current, D.LitList(tokens, old(current)))
    {
      var _ :- Consume(LeftParen, "Expected '('");
      ghost var start := current;
      var names: seq<A.Identifier> := [];
      while true
        invariant Valid() && start <= current
        invariant D.LitNames(tokens, current, names) == D.LitNames(tokens, start, [])
        decreases |tokens| - current
      {
        var o :- Name();
        var name :- Expected(o, "Expected name");
        names := names + [name];
        var t :- Peek();
        if t == Comma {
          var _ := Advance();
        } else if t == RightParen {
          var _ := Advance();
          break;
        } else {
          return Err("Expected ',' or ')'");
        }
      }
      r := Ok(A.LitList(names));
    }

    /** `type_expr` (src/parser/parser.rs:202-218). */
    method TypeExpr() returns (r: Result<Option<A.Type>>)
      requires Valid()
      modifies this`current
      ensures Valid() && Agrees(r, current, D.TypeExpr(tokens, old(current)))
    {
      var o :- Name();
      if o.None? {
        return Ok(None);
      }
      var _ :- Consume(Operator(Equal), "Expected '='");
      var litList :- LitList();
      r := Ok(Some(A.Type(o.value, litList)));
    }

    /** `types` (src/parser/parser.rs:172-199). */
    method Types() returns (r: Result<A.Types>)
      requires Valid()
      modifies this`current
      ensures Valid() && Agrees(r, current, D.Types(tokens, old(current)))
    {
      var t :- Peek();
      if t != Keyword(Type) {
        return Ok(A.Types([]));
      }
      var _ := Advance();
      var types: seq<A.Type> := [];
      while true
        invariant Valid() && old(current) < current
        invariant D.TypesLoop(tokens, current, types) == D.TypesLoop(tokens, old(current) + 1, [])
        decreases |tokens| - current
      {
        var o :- TypeExpr();
        if o.None? {
          break;
        }
        types := types + [o.value];
        var _ :- Consume(Semicolon, "Expected ';'");
      }
      r := Ok(A.Types(types));
    }

    /** `dcln` (src/parser/parser.rs:276-305). */
    method Dcln() returns (r: Result<Option<A.Var>>)
      requires Valid()
      modifies this`current
      ensures Valid() && Agrees(r, current, D.Dcln(tokens, old(current)))
    {
      var t :- Peek();
      if !t.Identifier? {
        return Ok(None);
      }
      var names: seq<A.Identifier> := [];
      while true
        invariant Valid() && old(current) <= current
        invariant D.DclnNames(tokens, current, names) == D.DclnNames(tokens, old(current), [])
        decreases |tokens| - current
      {
        var o :- Name();
        var name :- Expected(o, "Expected name");
        names := names + [name];
        var u :- Peek();
        if u == Comma {
          var _ := Advance();
        } else if u == Colon {
          var _ := Advance();
          break;
        } else {
          return Err("Expected ',' or ':'");
        }
      }
      var o :- Name();
      var typename :- Expected(o, "Expected name");
      r := Ok(Some(A.Var(names, typename)));
    }

    /** `dclns` (src/parser/parser.rs:247-273). */
    method Dclns() returns (r: Result<A.Dclns>)
      requires Valid()
      modifies this`current
      ensures Valid() && Agrees(r, current, D.Dclns(tokens, old(current)))
    {
      var t :- Peek();
      if t != Keyword(Var) {
        return Ok(A.Dclns([]));
      }
      var _ := Advance();
      var vars: seq<A.Var> := [];
      while true
        invariant Valid() && old(current) < current
        invariant D.DclnsLoop(tokens, current, vars) == D.DclnsLoop(tokens, old(current) + 1, [])
        decreases |tokens| - current
      {
        var o :- Dcln();
        if o.None? {
          break;
        }
        vars := vars + [o.value];
        var _ :- Consume(Semicolon, "Expected ';'");
      }
      r := Ok(A.Dclns(vars));
    }

    /** `params` (src/parser/parser.rs:613-628). */
    method Params() returns (r: Result<A.Params>)
      requires Valid()
      modifies this`current
      ensures Valid() && Agrees(r, current, D.Params(tokens, old(current)))
    {
      var params: seq<A.Var> := [];
      while true
        invariant Valid() && old(current) <= current
        invariant D.ParamsLoop(tokens, current, params) == D.ParamsLoop(tokens, old(current), [])
        decreases |tokens| - current
      {
        var o :- Dcln();
        if o.None? {
          break;
        }
        params := params + [o.value];
        var t :- Peek();
        if t == Semicolon {
          var _ := Advance();
        } else {
          break;
        }
      }
      r := Ok(A.Params(params));
    }

    /** `func` (src/parser/parser.rs:1043-1086). */
    method Func() returns (r: Result<Option<A.Func>>)
      requires Valid()
      modifies this`current
      ensures Valid() && Agrees(r, current, D.Func(tokens, old(current)))
    {
      var t :- Peek();
      if t != Keyword(Function) {
        return Ok(None);
      }
      var _ := Advance();
      var sig :- Signature();
      var b :- Block("Expected body");
      var o :- Name();
      var endName :- Expected(o, "Expected name");
      var _ :- Consume(Semicolon, "Expected ';'");
      r := Ok(Some(A.Func(sig.name, sig.params, sig.returnType, b.consts, b.types, b.dclns, b.body, endName)));
    }

    /** The signature of a function, after `function` (src/parser/parser.rs:1047-1066). */
    method Signature() returns (r: Result<D.Signature>)
      requires Valid()
      modifies this`current
      ensures Valid() && Agrees(r, current, D.SignatureAt(tokens, old(current)))
    {
      var o :- Name();
      var name :- Expected(o, "Expected name");
      var _ :- Consume(LeftParen, "Expected '('");
      var params :- Params();
      var _ :- Consume(RightParen, "Expected ')'");
      var _ :- Consume(Colon, "Expected ':'");
      var o2 :- Name();
      var returnType :- Expected(o2, "Expected name");
      var _ :- Consume(Semicolon, "Expected ';'");
      r := Ok(D.Signature(name, params, returnType));
    }

    /** Constants, types, declarations and a body (src/parser/parser.rs:1067-1070). */
    method Block(bodyMsg: string) returns (r: Result<D.Block>)
      requires Valid()
      modifies this`current
      ensures Valid() && Agrees(r, current, D.BlockAt(tokens, old(current), bodyMsg))
    {
      var consts :- Consts();
      var types :- Types();
      var dclns :- Dclns();
      var o :- Body();
      var body :- Expected(o, bodyMsg);
      r := Ok(D.Block(consts, types, dclns, body));
    }

    /** `sub_progs` (src/parser/parser.rs:1029-1040). */
    method SubProgs() returns (r: Result<A.SubProgs>)
      requires Valid()
      modifies this`current
      ensures Valid() && Agrees(r, current, D.SubProgs(tokens, old(current)))
    {
      var subProgs: seq<A.Func> := [];
      while true
        invariant Valid() && old(current) <= current
        invariant D.SubProgsLoop(tokens, current, subProgs) == D.SubProgsLoop(tokens, old(current), [])
        decreases |tokens| - current
      {
        var o :- Func();
        if o.None? {
          break;
        }
        subProgs := subProgs + [o.value];
      }
      r := Ok(A.SubProgs(subProgs));
    }

    /** `winzig` (src/parser/parser.rs:55-91). */
    method Winzig() returns (r: Result<A.Program>)
      requires Valid()
      modifies this`current
      ensures Valid() && Agrees(r, current, D.Winzig(tokens, old(current)))
    {
      var _ :- Consume(Keyword(Program), "Expected program");
      var o :- Name();
      var name :- Expected(o, "Expected program name");
      var _ :- Consume(Colon, "Expected ':'");
      var consts :- Consts();
      var types :- Types();
      var dclns :- Dclns();
      var subProgs :- SubProgs();
      var ob :- Body();
      var body :- Expected(ob, "Expected program body");
      var oe :- Name();
      var endName :- Expected(oe, "Expected program end name");
      var _ :- Consume(Dot, "Expected '.'");
      r := Ok(A.Program(name, consts, types, dclns, subProgs, body, endName));
    }

    /** `parse` (src/parser/parser.rs:28-30). */
    method Parse() returns (r: Result<A.Program>)
      requires Valid()
      modifies this`current
      ensures Valid() && Agrees(r, current, D.Winzig(tokens, old(current)))
    {
      r := Winzig();
    }
  }
}
