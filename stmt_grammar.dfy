/** The statement rules of the parser (src/parser/parser.rs:631-1026) as pure
    functions of the token sequence and a cursor position. The loops of the
    source (`loop { push; if separator { advance } else { break } }`) become
    functions that carry the list read so far. */
module StmtGrammar {
  import opened Tokens
  import opened Results
  import opened ExprGrammar
  import A = Ast

  /** `const_value` (src/parser/parser.rs:154-168). */
  function ConstValue(toks: seq<Token>, pos: nat): (r: PResult<A.ConstValue>)
    requires pos <= |toks|
    ensures r.Done? ==> r.next == pos + 1 <= |toks|
  {
    if pos == |toks| then Fail(PeekFailure(toks, pos))
    else match toks[pos]
      case Integer(i) => Done(A.ConstValue.Integer(i), pos + 1)
      case Char(c) => Done(A.ConstValue.Char(c), pos + 1)
      case Identifier(n) => Done(A.ConstValue.Name(A.Identifier(n)), pos + 1)
      case _ => Fail("Expected const value")
  }

  /** `case_expression` (src/parser/parser.rs:1003-1012): a value, or a range
      `low .. high`. */
  function CaseExpression(toks: seq<Token>, pos: nat): (r: PResult<A.CaseExpression>)
    requires pos <= |toks|
    ensures r.Done? ==> pos < r.next <= |toks|
  {
    match ConstValue(toks, pos)
    case Fail(m) => Fail(m)
    case Done(low, p) =>
      if p == |toks| then Fail(PeekFailure(toks, p))
      else if toks[p] == Dots then
        match ConstValue(toks, p + 1)
        case Fail(m) => Fail(m)
        case Done(high, q) => Done(A.Range(low, high), q)
      else Done(A.Value(low), p)
  }

  /** The label loop of `case_clause` (src/parser/parser.rs:982-993): case
      expressions separated by `,` up to and including `:`. */
  function CaseLabels(toks: seq<Token>, pos: nat, acc: seq<A.CaseExpression>): (r: PResult<seq<A.CaseExpression>>)
    requires pos <= |toks|
    ensures r.Done? ==> pos < r.next <= |toks| && |r.value| > |acc|
    decreases |toks| - pos
  {
    match CaseExpression(toks, pos)
    case Fail(m) => Fail(m)
    case Done(e, p) =>
      if p == |toks| then Fail(PeekFailure(toks, p))
      else if toks[p] == Comma then CaseLabels(toks, p + 1, acc + [e])
      else if toks[p] == Colon then Done(acc + [e], p + 1)
      else Fail("Expected ',' or ':'")
  }

  /** `assignment` (src/parser/parser.rs:948-977): `name := expression` or
      `name :=: name`; a token other than an identifier is left for the caller. */
  function Assignment(toks: seq<Token>, pos: nat): (r: PResult<Option<A.Assignment>>)
    requires pos <= |toks|
    ensures r.Done? ==> pos <= r.next <= |toks|
    ensures r.Done? ==> (r.value.None? <==> r.next == pos)
    ensures r.Done? && r.value.None? ==> pos < |toks| && !toks[pos].Identifier?
    ensures r.Done? && pos < |toks| && toks[pos].Identifier? ==> r.value.Some?
  {
    if pos == |toks| then Fail(PeekFailure(toks, pos))
    else if !toks[pos].Identifier? then Done(None, pos)
    else
      var name1 := A.Identifier(toks[pos].name);
      var p := pos + 1;
      if p == |toks| then Fail(PeekFailure(toks, p))
      else if toks[p] == Operator(Tokens.Assignment) then
        match Expression(toks, p + 1)
        case Fail(m) => Fail(m)
        case Done(e, q) => Done(Some(A.Assignment.Assignment(name1, e)), q)
      else if toks[p] == Operator(Swap) then
        if p + 1 == |toks| then Fail(PeekFailure(toks, p + 1))
        else if toks[p + 1].Identifier? then
          Done(Some(A.Swap(name1, A.Identifier(toks[p + 1].name))), p + 2)
        else Fail("Expected identifier")
      else Fail("Expected ':=' or ':=:'")
  }

  /** `outexp` (src/parser/parser.rs:931-944): an expression is always parsed
      first; when a string token follows it, the expression is dropped and
      the string is the result. */
  function OutExp(toks: seq<Token>, pos: nat): (r: PResult<A.OutExp>)
    requires pos <= |toks|
    ensures r.Done? ==> pos < r.next <= |toks|
  {
    match Expression(toks, pos)
    case Fail(m) => Fail(m)
    case Done(e, p) =>
      if p == |toks| then Fail(PeekFailure(toks, p))
      else if toks[p].String? then Done(A.OutExp.String(toks[p].text), p + 1)
      else Done(A.OutExp.Integer(e), p)
  }

  /** `_statement_outexp_list` (src/parser/parser.rs:887-899). */
  function OutExpList(toks: seq<Token>, pos: nat, acc: seq<A.OutExp>): (r: PResult<seq<A.OutExp>>)
    requires pos <= |toks|
    ensures r.Done? ==> pos < r.next <= |toks| && |r.value| > |acc|
    decreases |toks| - pos
  {
    match OutExp(toks, pos)
    case Fail(m) => Fail(m)
    case Done(o, p) =>
      if p == |toks| then Fail(PeekFailure(toks, p))
      else if toks[p] == Comma then OutExpList(toks, p + 1, acc + [o])
      else Done(acc + [o], p)
  }

  /** `_name_list` (src/parser/parser.rs:915-927). */
  function NameList(toks: seq<Token>, pos: nat, acc: seq<A.Identifier>): (r: PResult<seq<A.Identifier>>)
    requires pos <= |toks|
    ensures r.Done? ==> pos < r.next <= |toks| && |r.value| > |acc|
    decreases |toks| - pos
  {
    match Expect(Name(toks, pos), "Expected name")
    case Fail(m) => Fail(m)
    case Done(n, p) =>
      if p == |toks| then Fail(PeekFailure(toks, p))
      else if toks[p] == Comma then NameList(toks, p + 1, acc + [n])
      else Done(acc + [n], p)
  }

  /** Tokens that start a statement other than the empty one. */
  predicate IsStatementStart(t: Token) {
    || t in {Keyword(Output), Keyword(If), Keyword(While), Keyword(Repeat), Keyword(For),
             Keyword(Loop), Keyword(Case), Keyword(Read), Keyword(Exit), Keyword(Return),
             Keyword(Begin)}
    || t.Identifier?
  }

  /** `statement` (src/parser/parser.rs:668-885): the token at the cursor
      chooses the form; any token that starts no form gives the empty
      statement and is not consumed. */
  function Statement(toks: seq<Token>, pos: nat): (r: PResult<A.Statement>)
    requires pos <= |toks|
    ensures r.Done? ==> pos <= r.next <= |toks|
    decreases |toks| - pos, 3
  {
    if pos == |toks| then Fail(PeekFailure(toks, pos))
    else
      var t := toks[pos];
      if t == Keyword(Output) then OutputRest(toks, pos + 1)
      else if t == Keyword(If) then IfRest(toks, pos + 1)
      else if t == Keyword(While) then WhileRest(toks, pos + 1)
      else if t == Keyword(Repeat) then RepeatRest(toks, pos + 1)
      else if t == Keyword(For) then ForRest(toks, pos + 1)
      else if t == Keyword(Loop) then LoopRest(toks, pos + 1)
      else if t == Keyword(Case) then CaseRest(toks, pos + 1)
      else if t == Keyword(Read) then ReadRest(toks, pos + 1)
      else if t == Keyword(Exit) then Done(A.Exit, pos + 1)
      else if t == Keyword(Return) then
        match Expression(toks, pos + 1)
        case Fail(m) => Fail(m)
        case Done(e, q) => Done(A.Return(e), q)
      else if t == Keyword(Begin) then
        match Expect(Body(toks, pos), "Expected body")
        case Fail(m) => Fail(m)
        case Done(b, q) => Done(A.Statement.Body(b), q)
      else if t.Identifier? then
        match Expect(Assignment(toks, pos), "Expected assignment")
        case Fail(m) => Fail(m)
        case Done(a, q) => Done(A.Assign(a), q)
      else Done(A.Statement.Null, pos)
  }

  /** `body` (src/parser/parser.rs:631-653): `begin`, statements separated by
      `;`, `end`; without `begin` there is no body and nothing is consumed. */
  function Body(toks: seq<Token>, pos: nat): (r: PResult<Option<A.Body>>)
    requires pos <= |toks|
    ensures r.Done? ==> pos <= r.next <= |toks|
    ensures r.Done? ==> (r.value.None? <==> r.next == pos)
    ensures pos == |toks| ==> r.Fail?
    ensures pos < |toks| && toks[pos] != Keyword(Begin) ==> r == Done(None, pos)
    ensures r.Done? && pos < |toks| && toks[pos] == Keyword(Begin) ==> r.value.Some?
    decreases |toks| - pos, 2
  {
    if pos == |toks| then Fail(PeekFailure(toks, pos))
    else if toks[pos] != Keyword(Begin) then Done(None, pos)
    else
      match StatementList(toks, pos + 1, [])
      case Fail(m) => Fail(m)
      case Done(ss, p) =>
        match Punct(toks, p, Keyword(End), "Expected 'end'")
        case Fail(m) => Fail(m)
        case Done(_, q) => Done(Some(A.Body.Body(ss)), q)
  }

  /** `_statement_list` (src/parser/parser.rs:901-913), also written out inline
      in `body` and in the `repeat` arm: statements separated by `;`. */
  function StatementList(toks: seq<Token>, pos: nat, acc: seq<A.Statement>): (r: PResult<seq<A.Statement>>)
    requires pos <= |toks|
    ensures r.Done? ==> pos <= r.next <= |toks| && |r.value| > |acc|
    decreases |toks| - pos, 4
  {
    match Statement(toks, pos)
    case Fail(m) => Fail(m)
    case Done(s, p) =>
      if p == |toks| then Fail(PeekFailure(toks, p))
      else if toks[p] == Semicolon then StatementList(toks, p + 1, acc + [s])
      else Done(acc + [s], p)
  }

  /** One round of the statement loop: after a statement ending at `p`, a
      `;` starts the next statement, any other token closes the list, and no
      token at all fails. */
  lemma StatementListRound(toks: seq<Token>, pos: nat, acc: seq<A.Statement>, s: A.Statement, p: nat)
    requires pos <= |toks| && Statement(toks, pos) == Done(s, p)
    ensures p == |toks| ==> StatementList(toks, pos, acc) == Fail(PeekFailure(toks, p))
    ensures p < |toks| && toks[p] == Semicolon ==>
      StatementList(toks, pos, acc) == StatementList(toks, p + 1, acc + [s])
    ensures p < |toks| && toks[p] != Semicolon ==> StatementList(toks, pos, acc) == Done(acc + [s], p)
  {
  }

  /** The `output` arm (src/parser/parser.rs:670-686), after the keyword. */
  function OutputRest(toks: seq<Token>, pos: nat): (r: PResult<A.Statement>)
    requires pos <= |toks|
    ensures r.Done? ==> pos < r.next <= |toks|
    decreases |toks| - pos, 3
  {
    match Punct(toks, pos, LeftParen, "Expected '('")
    case Fail(m) => Fail(m)
    case Done(_, p) =>
      match OutExpList(toks, p, [])
      case Fail(m) => Fail(m)
      case Done(os, q) =>
        match Punct(toks, q, RightParen, "Expected ')'")
        case Fail(m) => Fail(m)
        case Done(_, r) => Done(A.Output(os), r)
  }

  /** The `if` arm (src/parser/parser.rs:687-707), after the keyword; the
      `else` part is optional and binds to the nearest `if`. */
  function IfRest(toks: seq<Token>, pos: nat): (r: PResult<A.Statement>)
    requires pos <= |toks|
    ensures r.Done? ==> pos < r.next <= |toks|
    decreases |toks| - pos, 3
  {
    match Expression(toks, pos)
    case Fail(m) => Fail(m)
    case Done(cond, p) =>
      match Punct(toks, p, Keyword(Then), "Expected 'then'")
      case Fail(m) => Fail(m)
      case Done(_, p1) =>
        match Statement(toks, p1)
        case Fail(m) => Fail(m)
        case Done(s, q) =>
          if q == |toks| then Fail(PeekFailure(toks, q))
          else if toks[q] == Keyword(Else) then
            match Statement(toks, q + 1)
            case Fail(m) => Fail(m)
            case Done(s2, q2) => Done(A.If(cond, s, Some(s2)), q2)
          else Done(A.If(cond, s, None), q)
  }

  /** The `while` arm (src/parser/parser.rs:708-721), after the keyword. */
  function WhileRest(toks: seq<Token>, pos: nat): (r: PResult<A.Statement>)
    requires pos <= |toks|
    ensures r.Done? ==> pos < r.next <= |toks|
    decreases |toks| - pos, 3
  {
    match Expression(toks, pos)
    case Fail(m) => Fail(m)
    case Done(cond, p) =>
      match Punct(toks, p, Keyword(Do), "Expected 'do'")
      case Fail(m) => Fail(m)
      case Done(_, p1) =>
        match Statement(toks, p1)
        case Fail(m) => Fail(m)
        case Done(s, q) => Done(A.While(cond, s), q)
  }

  /** The `repeat` arm (src/parser/parser.rs:722-746), after the keyword. */
  function RepeatRest(toks: seq<Token>, pos: nat): (r: PResult<A.Statement>)
    requires pos <= |toks|
    ensures r.Done? ==> pos < r.next <= |toks|
    decreases |toks| - pos, 5
  {
    match StatementList(toks, pos, [])
    case Fail(m) => Fail(m)
    case Done(ss, p) =>
      match Punct(toks, p, Keyword(Until), "Expected 'until'")
      case Fail(m) => Fail(m)
      case Done(_, p1) =>
        match Expression(toks, p1)
        case Fail(m) => Fail(m)
        case Done(cond, q) => Done(A.Repeat(ss, cond), q)
  }

  /** `for` init and update parts: an assignment, or nothing. */
  function ForStat(a: Option<A.Assignment>): A.ForStat {
    match a
    case Some(x) => A.ForStat.Assignment(x)
    case None => A.ForStat.Null
  }

  /** The condition part of a `for` header, up to and including its `;`: an
      empty condition means `true`. */
  function ForCondition(toks: seq<Token>, pos: nat): (r: PResult<A.ForExp>)
    requires pos <= |toks|
    ensures r.Done? ==> pos < r.next <= |toks|
  {
    if pos == |toks| then Fail(PeekFailure(toks, pos))
    else if toks[pos] == Semicolon then Done(A.True, pos + 1)
    else
      match Expression(toks, pos)
      case Fail(m) => Fail(m)
      case Done(e, p) =>
        match Punct(toks, p, Semicolon, "Expected ';'")
        case Fail(m) => Fail(m)
        case Done(_, q) => Done(A.ForExp.Expression(e), q)
  }

  datatype ForHeader = ForHeader(init: A.ForStat, cond: A.ForExp, update: A.ForStat)

  /** The header `( init ; cond ; update )` of a `for` statement
      (src/parser/parser.rs:749-787). */
  function ForHeaderAt(toks: seq<Token>, pos: nat): (r: PResult<ForHeader>)
    requires pos <= |toks|
    ensures r.Done? ==> pos < r.next <= |toks|
  {
    match Punct(toks, pos, LeftParen, "Expected '('")
    case Fail(m) => Fail(m)
    case Done(_, p) =>
      match Assignment(toks, p)
      case Fail(m) => Fail(m)
      case Done(init, p1) =>
        match Punct(toks, p1, Semicolon, "Expected ';'")
        case Fail(m) => Fail(m)
        case Done(_, p2) =>
          match ForCondition(toks, p2)
          case Fail(m) => Fail(m)
          case Done(cond, p3) =>
            match Assignment(toks, p3)
            case Fail(m) => Fail(m)
            case Done(update, p4) =>
              match Punct(toks, p4, RightParen, "Expected ')'")
              case Fail(m) => Fail(m)
              case Done(_, q) => Done(ForHeader(ForStat(init), cond, ForStat(update)), q)
  }

  /** The `for` arm (src/parser/parser.rs:747-791), after the keyword. */
  function ForRest(toks: seq<Token>, pos: nat): (r: PResult<A.Statement>)
    requires pos <= |toks|
    ensures r.Done? ==> pos < r.next <= |toks|
    decreases |toks| - pos, 3
  {
    match ForHeaderAt(toks, pos)
    case Fail(m) => Fail(m)
    case Done(h, p) =>
      match Statement(toks, p)
      case Fail(m) => Fail(m)
      case Done(s, q) => Done(A.For(h.init, h.cond, h.update, s), q)
  }

  /** The `loop` arm (src/parser/parser.rs:792-803), after the keyword. */
  function LoopRest(toks: seq<Token>, pos: nat): (r: PResult<A.Statement>)
    requires pos <= |toks|
    ensures r.Done? ==> pos < r.next <= |toks|
    decreases |toks| - pos, 5
  {
    match StatementList(toks, pos, [])
    case Fail(m) => Fail(m)
    case Done(ss, p) =>
      match Punct(toks, p, Keyword(Pool), "Expected 'pool'")
      case Fail(m) => Fail(m)
      case Done(_, q) => Done(A.Loop(ss), q)
  }

  /** The `case` arm (src/parser/parser.rs:804-844), after the keyword. */
  function CaseRest(toks: seq<Token>, pos: nat): (r: PResult<A.Statement>)
    requires pos <= |toks|
    ensures r.Done? ==> pos < r.next <= |toks|
    decreases |toks| - pos, 3
  {
    match Expression(toks, pos)
    case Fail(m) => Fail(m)
    case Done(e, p) =>
      match Punct(toks, p, Keyword(Of), "Expected 'of'")
      case Fail(m) => Fail(m)
      case Done(_, p1) =>
        match CaseClauses(toks, p1, [])
        case Fail(m) => Fail(m)
        case Done(cs, p2) =>
          match OtherwiseClause(toks, p2)
          case Fail(m) => Fail(m)
          case Done(o, p3) =>
            match Punct(toks, p3, Keyword(End), "Expected 'end'")
            case Fail(m) => Fail(m)
            case Done(_, q) => Done(A.Case(e, cs, o), q)
  }

  /** The clause loop of the `case` arm (src/parser/parser.rs:815-827): after
      each clause an optional `;`, then `end` or `otherwise` stops the loop and
      anything else starts another clause. */
  function CaseClauses(toks: seq<Token>, pos: nat, acc: seq<A.CaseClause>): (r: PResult<seq<A.CaseClause>>)
    requires pos <= |toks|
    ensures r.Done? ==> pos < r.next <= |toks| && |r.value| > |acc|
    decreases |toks| - pos, 4
  {
    match CaseClause(toks, pos)
    case Fail(m) => Fail(m)
    case Done(c, p) =>
      if p == |toks| then Fail(PeekFailure(toks, p))
      else
        var p1 := if toks[p] == Semicolon then p + 1 else p;
        if p1 == |toks| then Fail(PeekFailure(toks, p1))
        else if toks[p1] == Keyword(End) || toks[p1] == Keyword(Otherwise) then Done(acc + [c], p1)
        else CaseClauses(toks, p1, acc + [c])
  }

  /** One round of the clause loop: after a clause ending at `p` and an
      optional `;`, `end` or `otherwise` closes the loop, any other token
      starts the next clause, and no token at all fails. */
  lemma CaseClausesRound(toks: seq<Token>, pos: nat, acc: seq<A.CaseClause>, c: A.CaseClause, p: nat, p1: nat)
    requires pos <= |toks| && CaseClause(toks, pos) == Done(c, p)
    requires p < |toks| && p1 == if toks[p] == Semicolon then p + 1 else p
    ensures p1 == |toks| ==> CaseClauses(toks, pos, acc) == Fail(PeekFailure(toks, p1))
    ensures p1 < |toks| && (toks[p1] == Keyword(End) || toks[p1] == Keyword(Otherwise)) ==>
      CaseClauses(toks, pos, acc) == Done(acc + [c], p1)
    ensures p1 < |toks| && toks[p1] != Keyword(End) && toks[p1] != Keyword(Otherwise) ==>
      CaseClauses(toks, pos, acc) == CaseClauses(toks, p1, acc + [c])
  {
  }

  /** `case_clause` (src/parser/parser.rs:980-999): labels, `:`, a statement. */
  function CaseClause(toks: seq<Token>, pos: nat): (r: PResult<A.CaseClause>)
    requires pos <= |toks|
    ensures r.Done? ==> pos < r.next <= |toks|
    decreases |toks| - pos, 3
  {
    match CaseLabels(toks, pos, [])
    case Fail(m) => Fail(m)
    case Done(es, p) =>
      match Statement(toks, p)
      case Fail(m) => Fail(m)
      case Done(s, q) => Done(A.CaseClause(es, s), q)
  }

  /** `otherwise_clause` (src/parser/parser.rs:1016-1026). */
  function OtherwiseClause(toks: seq<Token>, pos: nat): (r: PResult<Option<A.OtherwiseClause>>)
    requires pos <= |toks|
    ensures r.Done? ==> pos <= r.next <= |toks|
    ensures r.Done? ==> (r.value.None? <==> r.next == pos)
    ensures pos == |toks| ==> r.Fail?
    ensures pos < |toks| && toks[pos] != Keyword(Otherwise) ==> r == Done(None, pos)
    ensures r.Done? && pos < |toks| && toks[pos] == Keyword(Otherwise) ==> r.value.Some?
    decreases |toks| - pos, 3
  {
    if pos == |toks| then Fail(PeekFailure(toks, pos))
    else if toks[pos] != Keyword(Otherwise) then Done(None, pos)
    else
      match Statement(toks, pos + 1)
      case Fail(m) => Fail(m)
      case Done(s, q) => Done(Some(A.OtherwiseClause(s)), q)
  }

  /** The `read` arm (src/parser/parser.rs:845-861), after the keyword. */
  function ReadRest(toks: seq<Token>, pos: nat): (r: PResult<A.Statement>)
    requires pos <= |toks|
    ensures r.Done? ==> pos < r.next <= |toks|
  {
    match Punct(toks, pos, LeftParen, "Expected '('")
    case Fail(m) => Fail(m)
    case Done(_, p) =>
      match NameList(toks, p, [])
      case Fail(m) => Fail(m)
      case Done(ns, q) =>
        match Punct(toks, q, RightParen, "Expected ')'")
        case Fail(m) => Fail(m)
        case Done(_, r) => Done(A.Read(ns), r)
  }
}
