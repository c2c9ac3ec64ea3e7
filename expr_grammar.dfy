/** The expression rules of the recursive-descent parser
    (src/parser/parser.rs:94-102 and 314-610) as pure functions of the token
    sequence and a cursor position. Each returns the node it builds and the
    cursor after it, or the message the parser panics with. The `Parser` class
    is proved to compute exactly these. */
module ExprGrammar {
  import opened Tokens
  import opened Results
  import opened Decimal
  import A = Ast

  /** Rust's bounds-check panic for `tokens[index]` on a vector of length `len`:
      the parser's `peek` past the last token. */
  function OutOfBounds(len: nat, index: nat): string {
    "index out of bounds: the len is " + NatToString(len) + " but the index is " + NatToString(index)
  }

  /** The failure of `peek` at `pos`. */
  function PeekFailure(toks: seq<Token>, pos: nat): string {
    OutOfBounds(|toks|, pos)
  }

  /** `if self.peek() == t { self.advance() } else { panic!(msg) }`. */
  function Punct(toks: seq<Token>, pos: nat, t: Token, msg: string): (r: PResult<()>)
    ensures r.Done? <==> pos < |toks| && toks[pos] == t
    ensures r.Done? ==> r.next == pos + 1
    ensures r.Fail? ==> r.msg == if pos < |toks| then msg else PeekFailure(toks, pos)
  {
    if pos >= |toks| then Fail(PeekFailure(toks, pos))
    else if toks[pos] == t then Done((), pos + 1)
    else Fail(msg)
  }

  /** `name` (src/parser/parser.rs:94-102): an identifier token becomes an
      `Identifier` and is consumed; any other token is left for the caller. */
  function Name(toks: seq<Token>, pos: nat): (r: PResult<Option<A.Identifier>>)
    requires pos <= |toks|
    ensures r.Fail? <==> pos == |toks|
    ensures r.Done? ==> (r.value.Some? <==> toks[pos].Identifier?)
    ensures r.Done? && r.value.Some? ==> r.value.value.name == toks[pos].name && r.next == pos + 1
    ensures r.Done? && r.value.None? ==> r.next == pos
  {
    if pos == |toks| then Fail(PeekFailure(toks, pos))
    else match toks[pos]
      case Identifier(n) => Done(Some(A.Identifier(n)), pos + 1)
      case _ => Done(None, pos)
  }

  /** `Option::expect(msg)` applied to the result of a rule. */
  function Expect<T>(r: PResult<Option<T>>, msg: string): (s: PResult<T>)
    ensures s.Done? <==> r.Done? && r.value.Some?
    ensures s.Done? ==> s.value == r.value.value && s.next == r.next
  {
    match r
    case Fail(m) => Fail(m)
    case Done(None, _) => Fail(msg)
    case Done(Some(v), p) => Done(v, p)
  }

  /** The comparison operators that `expression` accepts between two terms. */
  predicate IsComparison(t: Token) {
    t.Operator? && t.op in {LessEqual, LessThan, GreaterEqual, GreaterThan, Equal, NotEqual}
  }

  function Comparison(op: Operator, left: A.Term, right: A.Term): A.Expression
    requires op in {LessEqual, LessThan, GreaterEqual, GreaterThan, Equal, NotEqual}
  {
    match op
    case LessEqual => A.Le(left, right)
    case LessThan => A.Lt(left, right)
    case GreaterEqual => A.Ge(left, right)
    case GreaterThan => A.Gt(left, right)
    case Equal => A.Eq(left, right)
    case NotEqual => A.Ne(left, right)
  }

  predicate IsTermOperator(t: Token) {
    t == Operator(Plus) || t == Operator(Minus) || t == Keyword(Or)
  }

  function TermNode(op: Token, left: A.Term, right: A.Factor): A.Term
    requires IsTermOperator(op)
  {
    if op == Operator(Plus) then A.Add(left, right)
    else if op == Operator(Minus) then A.Subtract(left, right)
    else A.Or(left, right)
  }

  predicate IsFactorOperator(t: Token) {
    t == Operator(Multiply) || t == Operator(Divide) || t == Keyword(And) || t == Keyword(Mod)
  }

  function FactorNode(op: Token, left: A.Factor, right: A.Primary): A.Factor
    requires IsFactorOperator(op)
  {
    if op == Operator(Multiply) then A.Multiply(left, right)
    else if op == Operator(Divide) then A.Divide(left, right)
    else if op == Keyword(And) then A.And(left, right)
    else A.Mod(left, right)
  }

  /** The built-in functions written `kw '(' Expression ')'`. */
  predicate IsBuiltin(t: Token) {
    t == Keyword(Succ) || t == Keyword(Pred) || t == Keyword(Chr) || t == Keyword(Ord)
  }

  function BuiltinNode(kw: Token, e: A.Expression): A.Primary
    requires IsBuiltin(kw)
  {
    if kw == Keyword(Succ) then A.Succ(e)
    else if kw == Keyword(Pred) then A.Pred(e)
    else if kw == Keyword(Chr) then A.Chr(e)
    else A.Ord(e)
  }

  /** `expression` (src/parser/parser.rs:314-367): a term, and when a
      comparison operator follows, that operator and a second term. Comparisons
      do not chain. */
  function Expression(toks: seq<Token>, pos: nat): (r: PResult<A.Expression>)
    requires pos <= |toks|
    ensures r.Done? ==> pos < r.next <= |toks|
    decreases |toks| - pos, 5
  {
    match Term(toks, pos)
    case Fail(m) => Fail(m)
    case Done(left, p) =>
      if p == |toks| then Fail(PeekFailure(toks, p))
      else if IsComparison(toks[p]) then
        match Term(toks, p + 1)
        case Fail(m) => Fail(m)
        case Done(right, q) => Done(Comparison(toks[p].op, left, right), q)
      else Done(A.Expression.Term(left), p)
  }

  /** `term` (src/parser/parser.rs:371-374). */
  function Term(toks: seq<Token>, pos: nat): (r: PResult<A.Term>)
    requires pos <= |toks|
    ensures r.Done? ==> pos < r.next <= |toks|
    decreases |toks| - pos, 4
  {
    match Factor(toks, pos)
    case Fail(m) => Fail(m)
    case Done(f, p) => TermTail(toks, p, A.Term.Factor(f))
  }

  /** `term_` (src/parser/parser.rs:380-408): `+`, `-` and `or` fold to the
      left onto the term built so far. */
  function TermTail(toks: seq<Token>, pos: nat, acc: A.Term): (r: PResult<A.Term>)
    requires pos <= |toks|
    ensures r.Done? ==> pos <= r.next <= |toks|
    decreases |toks| - pos, 4
  {
    if pos == |toks| then Fail(PeekFailure(toks, pos))
    else if IsTermOperator(toks[pos]) then
      match Factor(toks, pos + 1)
      case Fail(m) => Fail(m)
      case Done(f, p) => TermTail(toks, p, TermNode(toks[pos], acc, f))
    else Done(acc, pos)
  }

  /** `factor` (src/parser/parser.rs:411-414). */
  function Factor(toks: seq<Token>, pos: nat): (r: PResult<A.Factor>)
    requires pos <= |toks|
    ensures r.Done? ==> pos < r.next <= |toks|
    decreases |toks| - pos, 3
  {
    match Primary(toks, pos)
    case Fail(m) => Fail(m)
    case Done(p, q) => FactorTail(toks, q, A.Factor.Primary(p))
  }

  /** `factor_` (src/parser/parser.rs:421-457): `*`, `/`, `and` and `mod`
      fold to the left onto the factor built so far. */
  function FactorTail(toks: seq<Token>, pos: nat, acc: A.Factor): (r: PResult<A.Factor>)
    requires pos <= |toks|
    ensures r.Done? ==> pos <= r.next <= |toks|
    decreases |toks| - pos, 3
  {
    if pos == |toks| then Fail(PeekFailure(toks, pos))
    else if IsFactorOperator(toks[pos]) then
      match Primary(toks, pos + 1)
      case Fail(m) => Fail(m)
      case Done(p, q) => FactorTail(toks, q, FactorNode(toks[pos], acc, p))
    else Done(acc, pos)
  }

  /** `primary` (src/parser/parser.rs:472-610). A leading `+` is skipped and
      leaves no node. */
  function Primary(toks: seq<Token>, pos: nat): (r: PResult<A.Primary>)
    requires pos <= |toks|
    ensures r.Done? ==> pos < r.next <= |toks|
    decreases |toks| - pos, 2
  {
    if pos == |toks| then Fail(PeekFailure(toks, pos))
    else
      var t := toks[pos];
      if t == Operator(Minus) then
        match Primary(toks, pos + 1)
        case Fail(m) => Fail(m)
        case Done(p, q) => Done(A.Negate(p), q)
      else if t == Operator(Plus) then Primary(toks, pos + 1)
      else if t == Keyword(Not) then
        match Primary(toks, pos + 1)
        case Fail(m) => Fail(m)
        case Done(p, q) => Done(A.Not(p), q)
      else if t == Keyword(Eof) then Done(A.Eof, pos + 1)
      else if t.Identifier? then NameOrCall(toks, pos)
      else if t.Integer? then Done(A.Primary.Integer(t.value), pos + 1)
      else if t.Char? then Done(A.Primary.Char(t.ch), pos + 1)
      else if t == LeftParen then
        match Parenthesised(toks, pos + 1)
        case Fail(m) => Fail(m)
        case Done(e, q) => Done(A.Primary.Expression(e), q)
      else if IsBuiltin(t) then Builtin(toks, pos)
      else Fail("Expected primary")
  }

  /** The identifier arm of `primary` (src/parser/parser.rs:501-529): a name
      followed by `(` is a call, otherwise a plain name. */
  function NameOrCall(toks: seq<Token>, pos: nat): (r: PResult<A.Primary>)
    requires pos < |toks| && toks[pos].Identifier?
    ensures r.Done? ==> pos < r.next <= |toks|
    decreases |toks| - pos, 1
  {
    var id := A.Identifier(toks[pos].name);
    if pos + 1 == |toks| then Fail(PeekFailure(toks, pos + 1))
    else if toks[pos + 1] == LeftParen then
      match CallArgs(toks, pos + 2, [])
      case Fail(m) => Fail(m)
      case Done(es, q) => Done(A.Call(id, es), q)
    else Done(A.Primary.Name(id), pos + 1)
  }

  /** The `succ`, `pred`, `chr` and `ord` arms of `primary`
      (src/parser/parser.rs:540-609). */
  function Builtin(toks: seq<Token>, pos: nat): (r: PResult<A.Primary>)
    requires pos < |toks| && IsBuiltin(toks[pos])
    ensures r.Done? ==> pos < r.next <= |toks|
    decreases |toks| - pos, 1
  {
    match Punct(toks, pos + 1, LeftParen, "Expected '('")
    case Fail(m) => Fail(m)
    case Done(_, p) =>
      match Parenthesised(toks, p)
      case Fail(m) => Fail(m)
      case Done(e, q) => Done(BuiltinNode(toks[pos], e), q)
  }

  /** An expression and the `)` that closes it (the `(` is already consumed). */
  function Parenthesised(toks: seq<Token>, pos: nat): (r: PResult<A.Expression>)
    requires pos <= |toks|
    ensures r.Done? ==> pos < r.next <= |toks|
    decreases |toks| - pos, 6
  {
    match Expression(toks, pos)
    case Fail(m) => Fail(m)
    case Done(e, p) =>
      match Punct(toks, p, RightParen, "Expected ')'")
      case Fail(m) => Fail(m)
      case Done(_, q) => Done(e, q)
  }

  /** The argument loop of a call (src/parser/parser.rs:512-523): expressions
      separated by `,` up to `)`; `acc` holds those already read. */
  function CallArgs(toks: seq<Token>, pos: nat, acc: seq<A.Expression>): (r: PResult<seq<A.Expression>>)
    requires pos <= |toks|
    ensures r.Done? ==> pos < r.next <= |toks| && |r.value| > |acc|
    decreases |toks| - pos, 6
  {
    match Expression(toks, pos)
    case Fail(m) => Fail(m)
    case Done(e, p) =>
      if p == |toks| then Fail(PeekFailure(toks, p))
      else if toks[p] == Comma then CallArgs(toks, p + 1, acc + [e])
      else if toks[p] == RightParen then Done(acc + [e], p + 1)
      else Fail("Expected ',' or ')'")
  }
}
