/** Expressions written back as tokens, and the proof that the expression
    rules read any such token sequence back as the same tree: the parser
    builds `+ - or` and `* / and mod` chains to the left, binds the
    multiplying operators tighter than the adding ones, and a comparison
    looser than both. */
module ExprRoundTrip {
  import opened Tokens
  import opened Results
  import opened ExprGrammar
  import A = Ast

  function ComparisonOperator(e: A.Expression): Operator
    requires !e.Term?
  {
    match e
    case Le(_, _) => LessEqual
    case Lt(_, _) => LessThan
    case Ge(_, _) => GreaterEqual
    case Gt(_, _) => GreaterThan
    case Eq(_, _) => Equal
    case Ne(_, _) => NotEqual
  }

  /** The tokens of an expression, as a program would spell it. */
  function ExpressionTokens(e: A.Expression): seq<Token>
    decreases e, 0
  {
    match e
    case Term(t) => TermTokens(t)
    case _ => TermTokens(e.left) + [Operator(ComparisonOperator(e))] + TermTokens(e.right)
  }

  function TermTokens(t: A.Term): seq<Token>
    decreases t, 0
  {
    match t
    case Factor(f) => FactorTokens(f)
    case Add(l, r) => TermTokens(l) + [Operator(Plus)] + FactorTokens(r)
    case Subtract(l, r) => TermTokens(l) + [Operator(Minus)] + FactorTokens(r)
    case Or(l, r) => TermTokens(l) + [Keyword(Or)] + FactorTokens(r)
  }

  function FactorTokens(f: A.Factor): seq<Token>
    decreases f, 0
  {
    match f
    case Primary(p) => PrimaryTokens(p)
    case Multiply(l, r) => FactorTokens(l) + [Operator(Multiply)] + PrimaryTokens(r)
    case Divide(l, r) => FactorTokens(l) + [Operator(Divide)] + PrimaryTokens(r)
    case And(l, r) => FactorTokens(l) + [Keyword(And)] + PrimaryTokens(r)
    case Mod(l, r) => FactorTokens(l) + [Keyword(Mod)] + PrimaryTokens(r)
  }

  function PrimaryTokens(p: A.Primary): seq<Token>
    decreases p, 1
  {
    match p
    case Negate(q) => [Operator(Minus)] + PrimaryTokens(q)
    case Not(q) => [Keyword(Not)] + PrimaryTokens(q)
    case Eof => [Keyword(Eof)]
    case Name(id) => [Identifier(id.name)]
    case Integer(i) => [Integer(i)]
    case Char(c) => [Char(c)]
    case Call(id, es) => [Identifier(id.name), LeftParen] + (if es == [] then [] else ArgumentTokens(p, 0)) + [RightParen]
    case Expression(e) => [LeftParen] + ExpressionTokens(e) + [RightParen]
    case Succ(e) => [Keyword(Succ), LeftParen] + ExpressionTokens(e) + [RightParen]
    case Pred(e) => [Keyword(Pred), LeftParen] + ExpressionTokens(e) + [RightParen]
    case Chr(e) => [Keyword(Chr), LeftParen] + ExpressionTokens(e) + [RightParen]
    case Ord(e) => [Keyword(Ord), LeftParen] + ExpressionTokens(e) + [RightParen]
  }

  /** The arguments of call `p` from the `i`-th on, separated by commas. */
  function ArgumentTokens(p: A.Primary, i: nat): seq<Token>
    requires p.Call? && i < |p.exps|
    decreases p, 0, |p.exps| - i
  {
    ExpressionTokens(p.exps[i]) + (if i + 1 < |p.exps| then [Comma] + ArgumentTokens(p, i + 1) else [])
  }

  /** Trees the parser can build: every call has at least one argument. */
  predicate WellFormed(e: A.Expression)
    decreases e, 0
  {
    match e
    case Term(t) => WellFormedTerm(t)
    case _ => WellFormedTerm(e.left) && WellFormedTerm(e.right)
  }

  predicate WellFormedTerm(t: A.Term)
    decreases t, 0
  {
    match t
    case Factor(f) => WellFormedFactor(f)
    case _ => WellFormedTerm(t.left) && WellFormedFactor(t.right)
  }

  predicate WellFormedFactor(f: A.Factor)
    decreases f, 0
  {
    match f
    case Primary(p) => WellFormedPrimary(p)
    case _ => WellFormedFactor(f.left) && WellFormedPrimary(f.right)
  }

  predicate WellFormedPrimary(p: A.Primary)
    decreases p, 1
  {
    match p
    case Negate(q) => WellFormedPrimary(q)
    case Not(q) => WellFormedPrimary(q)
    case Call(_, es) => es != [] && WellFormedArguments(p, 0)
    case Expression(e) => WellFormed(e)
    case Succ(e) => WellFormed(e)
    case Pred(e) => WellFormed(e)
    case Chr(e) => WellFormed(e)
    case Ord(e) => WellFormed(e)
    case _ => true
  }

  predicate WellFormedArguments(p: A.Primary, i: nat)
    requires p.Call? && i <= |p.exps|
    decreases p, 0, |p.exps| - i
  {
    i < |p.exps| ==> WellFormed(p.exps[i]) && WellFormedArguments(p, i + 1)
  }

  /** A token after which no expression rule continues. */
  predicate Ends(t: Token) {
    !IsComparison(t) && !IsTermOperator(t) && !IsFactorOperator(t) && t != LeftParen
  }

  /** `u` is in `toks` at `pos`, and a token follows it. */
  predicate Sits(toks: seq<Token>, pos: nat, u: seq<Token>) {
    pos + |u| < |toks| && toks[pos..pos + |u|] == u
  }

  lemma Split(toks: seq<Token>, pos: nat, a: seq<Token>, b: seq<Token>)
    requires pos + |a + b| <= |toks| && toks[pos..pos + |a + b|] == a + b
    ensures toks[pos..pos + |a|] == a
    ensures toks[pos + |a|..pos + |a| + |b|] == b
  {
    forall i | 0 <= i < |a| ensures toks[pos + i] == a[i] {
      assert toks[pos..pos + |a + b|][i] == (a + b)[i];
    }
    forall i | 0 <= i < |b| ensures toks[pos + |a| + i] == b[i] {
      assert toks[pos..pos + |a + b|][|a| + i] == (a + b)[|a| + i];
    }
  }

  /** A token sequence `a + [t] + b` in place: each part in its place. */
  lemma Split3(toks: seq<Token>, pos: nat, a: seq<Token>, t: Token, b: seq<Token>)
    requires pos + |a + [t] + b| <= |toks| && toks[pos..pos + |a + [t] + b|] == a + [t] + b
    ensures toks[pos..pos + |a|] == a
    ensures toks[pos + |a|] == t
    ensures toks[pos + |a| + 1..pos + |a| + 1 + |b|] == b
  {
    Split(toks, pos, a + [t], b);
    Split(toks, pos, a, [t]);
    assert toks[pos + |a|..pos + |a| + 1][0] == t;
  }

  /** `a op b` in place: `a` in place followed by `op`, and `b` in place after it. */
  lemma BinaryInPlace(toks: seq<Token>, pos: nat, a: seq<Token>, op: Token, b: seq<Token>)
    requires Sits(toks, pos, a + [op] + b)
    ensures Sits(toks, pos, a) && toks[pos + |a|] == op && Sits(toks, pos + |a| + 1, b)
    ensures pos + |a + [op] + b| == pos + |a| + 1 + |b|
  {
    Split3(toks, pos, a, op, b);
  }

  /** One step of `expression`: a term not followed by a comparison. */
  lemma ExpressionOfTerm(toks: seq<Token>, pos: nat, left: A.Term, mid: nat)
    requires pos <= |toks| && Term(toks, pos) == Done(left, mid)
    requires mid < |toks| && !IsComparison(toks[mid])
    ensures Expression(toks, pos) == Done(A.Expression.Term(left), mid)
  {
  }

  /** One step of `expression`: two terms around a comparison. */
  lemma ExpressionOfComparison(toks: seq<Token>, pos: nat, left: A.Term, mid: nat, right: A.Term, end: nat)
    requires pos <= |toks| && Term(toks, pos) == Done(left, mid)
    requires mid < |toks| && IsComparison(toks[mid]) && Term(toks, mid + 1) == Done(right, end)
    ensures Expression(toks, pos) == Done(Comparison(toks[mid].op, left, right), end)
  {
  }

  /** The tokens of a comparison: its left term, its operator, its right term. */
  lemma ComparisonSpells(e: A.Expression)
    requires !e.Term? && WellFormed(e)
    ensures WellFormedTerm(e.left) && WellFormedTerm(e.right)
    ensures ExpressionTokens(e) == TermTokens(e.left) + [Operator(ComparisonOperator(e))] + TermTokens(e.right)
  {
  }

  /** `Comparison` rebuilds a comparison from its operator and operands. */
  lemma ComparisonRebuilds(e: A.Expression)
    requires !e.Term?
    ensures var op := Operator(ComparisonOperator(e));
      && IsComparison(op) && !IsTermOperator(op) && !IsFactorOperator(op) && op != LeftParen
      && Comparison(op.op, e.left, e.right) == e
  {
  }

  /** The token of an adding operator node. */
  function TermOperator(t: A.Term): (op: Token)
    requires !t.Factor?
    ensures IsTermOperator(op) && TermNode(op, t.left, t.right) == t
  {
    if t.Add? then Operator(Plus) else if t.Subtract? then Operator(Minus) else Keyword(Or)
  }

  lemma TermSpells(t: A.Term)
    requires !t.Factor?
    ensures TermTokens(t) == TermTokens(t.left) + [TermOperator(t)] + FactorTokens(t.right)
  {
  }

  /** The token of a multiplying operator node. */
  function FactorOperator(f: A.Factor): (op: Token)
    requires !f.Primary?
    ensures IsFactorOperator(op) && FactorNode(op, f.left, f.right) == f
  {
    if f.Multiply? then Operator(Multiply) else if f.Divide? then Operator(Divide)
    else if f.And? then Keyword(And) else Keyword(Mod)
  }

  lemma FactorSpells(f: A.Factor)
    requires !f.Primary?
    ensures FactorTokens(f) == FactorTokens(f.left) + [FactorOperator(f)] + PrimaryTokens(f.right)
  {
  }

  /** `expression` and the `)` after it. */
  lemma ParenthesisedStep(toks: seq<Token>, pos: nat, e: A.Expression, mid: nat)
    requires pos <= |toks| && Expression(toks, pos) == Done(e, mid)
    requires mid < |toks| && toks[mid] == RightParen
    ensures Parenthesised(toks, pos) == Done(e, mid + 1)
  {
  }

  /** The `(` arm of `primary`. */
  lemma PrimaryParenthesisedStep(toks: seq<Token>, pos: nat, e: A.Expression, end: nat)
    requires pos < |toks| && toks[pos] == LeftParen && Parenthesised(toks, pos + 1) == Done(e, end)
    ensures Primary(toks, pos) == Done(A.Primary.Expression(e), end)
  {
  }

  /** The built-in arms of `primary`. */
  lemma PrimaryBuiltinStep(toks: seq<Token>, pos: nat, e: A.Expression, end: nat)
    requires pos + 1 < |toks| && IsBuiltin(toks[pos]) && toks[pos + 1] == LeftParen
    requires Parenthesised(toks, pos + 2) == Done(e, end)
    ensures Primary(toks, pos) == Done(BuiltinNode(toks[pos], e), end)
  {
  }

  /** One step of `term_`: an adding operator and the factor after it. */
  lemma TermTailStep(toks: seq<Token>, pos: nat, acc: A.Term, f: A.Factor, end: nat)
    requires pos < |toks| && IsTermOperator(toks[pos]) && Factor(toks, pos + 1) == Done(f, end)
    ensures TermTail(toks, pos, acc) == TermTail(toks, end, TermNode(toks[pos], acc, f))
  {
  }

  /** One step of `factor_`: a multiplying operator and the primary after it. */
  lemma FactorTailStep(toks: seq<Token>, pos: nat, acc: A.Factor, p: A.Primary, end: nat)
    requires pos < |toks| && IsFactorOperator(toks[pos]) && Primary(toks, pos + 1) == Done(p, end)
    ensures FactorTail(toks, pos, acc) == FactorTail(toks, end, FactorNode(toks[pos], acc, p))
  {
  }

  /** A well-formed expression in place, followed by a token that ends it,
      is read back whole. */
  lemma {:induction false} ExpressionReads(e: A.Expression, toks: seq<Token>, pos: nat)
    requires WellFormed(e) && Sits(toks, pos, ExpressionTokens(e))
    requires Ends(toks[pos + |ExpressionTokens(e)|])
    ensures Expression(toks, pos) == Done(e, pos + |ExpressionTokens(e)|)
    decreases e, 3
  {
    if e.Term? {
      ExpressionTermReads(e, toks, pos);
    } else {
      ComparisonParts(e, toks, pos);
      ComparisonReads(e, toks, pos, pos + |TermTokens(e.left)|, pos + |ExpressionTokens(e)|);
    }
  }

  /** An expression without a comparison. */
  lemma {:induction false} ExpressionTermReads(e: A.Expression, toks: seq<Token>, pos: nat)
    requires e.Term? && WellFormed(e) && Sits(toks, pos, ExpressionTokens(e))
    requires Ends(toks[pos + |ExpressionTokens(e)|])
    ensures Expression(toks, pos) == Done(e, pos + |ExpressionTokens(e)|)
    decreases e, 2
  {
    var end := pos + |TermTokens(e.term)|;
    assert ExpressionTokens(e) == TermTokens(e.term);
    TermReads(e.term, toks, pos);
    TermTailStops(toks, end, e.term);
    ExpressionOfTerm(toks, pos, e.term, end);
  }

  /** The parts of `l op r` with a comparison, in place. */
  lemma ComparisonParts(e: A.Expression, toks: seq<Token>, pos: nat)
    requires !e.Term? && WellFormed(e) && Sits(toks, pos, ExpressionTokens(e))
    ensures var mid := pos + |TermTokens(e.left)|;
      && WellFormedTerm(e.left) && Sits(toks, pos, TermTokens(e.left))
      && IsComparison(toks[mid]) && Comparison(toks[mid].op, e.left, e.right) == e
      && !IsTermOperator(toks[mid]) && !IsFactorOperator(toks[mid]) && toks[mid] != LeftParen
      && WellFormedTerm(e.right) && Sits(toks, mid + 1, TermTokens(e.right))
      && pos + |ExpressionTokens(e)| == mid + 1 + |TermTokens(e.right)|
  {
    ComparisonSpells(e);
    BinaryInPlace(toks, pos, TermTokens(e.left), Operator(ComparisonOperator(e)), TermTokens(e.right));
    ComparisonRebuilds(e);
  }

  /** `l op r` with a comparison: `l` from `pos` to `mid`, the comparison at
      `mid`, `r` from `mid + 1` to `end`. */
  lemma {:induction false} ComparisonReads(e: A.Expression, toks: seq<Token>, pos: nat, mid: nat, end: nat)
    requires !e.Term? && mid == pos + |TermTokens(e.left)| && end == mid + 1 + |TermTokens(e.right)|
    requires WellFormedTerm(e.left) && Sits(toks, pos, TermTokens(e.left))
    requires IsComparison(toks[mid]) && Comparison(toks[mid].op, e.left, e.right) == e
    requires !IsTermOperator(toks[mid]) && !IsFactorOperator(toks[mid]) && toks[mid] != LeftParen
    requires WellFormedTerm(e.right) && Sits(toks, mid + 1, TermTokens(e.right)) && Ends(toks[end])
    ensures Expression(toks, pos) == Done(e, end)
    decreases e, 2
  {
    TermReads(e.left, toks, pos);
    TermTailStops(toks, mid, e.left);
    assert Term(toks, pos) == Done(e.left, mid);
    TermReads(e.right, toks, mid + 1);
    TermTailStops(toks, end, e.right);
    assert Term(toks, mid + 1) == Done(e.right, end);
    ExpressionOfComparison(toks, pos, e.left, mid, e.right, end);
  }

  /** A `term_` at a token that is no adding operator returns what it has. */
  lemma TermTailStops(toks: seq<Token>, pos: nat, t: A.Term)
    requires pos < |toks| && !IsTermOperator(toks[pos])
    ensures TermTail(toks, pos, t) == Done(t, pos)
  {
  }

  /** A `factor_` at a token that is no multiplying operator returns what it has. */
  lemma FactorTailStops(toks: seq<Token>, pos: nat, f: A.Factor)
    requires pos < |toks| && !IsFactorOperator(toks[pos])
    ensures FactorTail(toks, pos, f) == Done(f, pos)
  {
  }

  /** `term` starts with a factor. */
  lemma TermOfFactor(toks: seq<Token>, pos: nat, f: A.Factor, end: nat)
    requires pos <= |toks| && Factor(toks, pos) == Done(f, end)
    ensures Term(toks, pos) == TermTail(toks, end, A.Term.Factor(f))
  {
  }

  /** `factor` starts with a primary. */
  lemma FactorOfPrimary(toks: seq<Token>, pos: nat, p: A.Primary, end: nat)
    requires pos <= |toks| && Primary(toks, pos) == Done(p, end)
    ensures Factor(toks, pos) == FactorTail(toks, end, A.Factor.Primary(p))
  {
  }

  /** A term in place is read as the term, with the adding loop left to run
      from its end. */
  lemma {:induction false} TermReads(t: A.Term, toks: seq<Token>, pos: nat)
    requires WellFormedTerm(t) && Sits(toks, pos, TermTokens(t))
    requires var f := toks[pos + |TermTokens(t)|]; !IsFactorOperator(f) && f != LeftParen
    ensures Term(toks, pos) == TermTail(toks, pos + |TermTokens(t)|, t)
    decreases t, 3
  {
    if t.Factor? {
      TermFactorReads(t, toks, pos);
    } else {
      TermPairParts(t, toks, pos);
      TermPairReads(t, toks, pos, pos + |TermTokens(t.left)|, pos + |TermTokens(t)|);
    }
  }

  /** A term that is a single factor. */
  lemma {:induction false} TermFactorReads(t: A.Term, toks: seq<Token>, pos: nat)
    requires t.Factor? && WellFormedTerm(t) && Sits(toks, pos, TermTokens(t))
    requires var f := toks[pos + |TermTokens(t)|]; !IsFactorOperator(f) && f != LeftParen
    ensures Term(toks, pos) == TermTail(toks, pos + |TermTokens(t)|, t)
    decreases t, 2
  {
    var end := pos + |FactorTokens(t.factor)|;
    assert TermTokens(t) == FactorTokens(t.factor);
    FactorReads(t.factor, toks, pos);
    FactorTailStops(toks, end, t.factor);
    TermOfFactor(toks, pos, t.factor, end);
  }

  /** The parts of `l op r` with an adding operator, in place. */
  lemma TermPairParts(t: A.Term, toks: seq<Token>, pos: nat)
    requires !t.Factor? && WellFormedTerm(t) && Sits(toks, pos, TermTokens(t))
    requires var f := toks[pos + |TermTokens(t)|]; !IsFactorOperator(f) && f != LeftParen
    ensures var mid := pos + |TermTokens(t.left)|;
      && WellFormedTerm(t.left) && Sits(toks, pos, TermTokens(t.left))
      && toks[mid] == TermOperator(t) && !IsFactorOperator(toks[mid]) && toks[mid] != LeftParen
      && WellFormedFactor(t.right) && Sits(toks, mid + 1, FactorTokens(t.right))
      && pos + |TermTokens(t)| == mid + 1 + |FactorTokens(t.right)|
  {
    TermSpells(t);
    BinaryInPlace(toks, pos, TermTokens(t.left), TermOperator(t), FactorTokens(t.right));
  }

  /** `l op r` with an adding operator: `l` from `pos` to `mid`, the operator
      at `mid`, `r` from `mid + 1` to `end`. */
  lemma {:induction false} TermPairReads(t: A.Term, toks: seq<Token>, pos: nat, mid: nat, end: nat)
    requires !t.Factor? && mid == pos + |TermTokens(t.left)| && end == mid + 1 + |FactorTokens(t.right)|
    requires WellFormedTerm(t.left) && Sits(toks, pos, TermTokens(t.left))
    requires toks[mid] == TermOperator(t) && !IsFactorOperator(toks[mid]) && toks[mid] != LeftParen
    requires WellFormedFactor(t.right) && Sits(toks, mid + 1, FactorTokens(t.right))
    requires !IsFactorOperator(toks[end]) && toks[end] != LeftParen
    ensures Term(toks, pos) == TermTail(toks, end, t)
    decreases t, 2
  {
    TermReads(t.left, toks, pos);
    FactorReads(t.right, toks, mid + 1);
    FactorTailStops(toks, end, t.right);
    TermTailStep(toks, mid, t.left, t.right, end);
  }

  /** A factor in place is read as the factor, with the multiplying loop left
      to run from its end. */
  lemma {:induction false} FactorReads(f: A.Factor, toks: seq<Token>, pos: nat)
    requires WellFormedFactor(f) && Sits(toks, pos, FactorTokens(f))
    requires toks[pos + |FactorTokens(f)|] != LeftParen
    ensures Factor(toks, pos) == FactorTail(toks, pos + |FactorTokens(f)|, f)
    decreases f, 3
  {
    if f.Primary? {
      FactorPrimaryReads(f, toks, pos);
    } else {
      FactorPairParts(f, toks, pos);
      FactorPairReads(f, toks, pos, pos + |FactorTokens(f.left)|, pos + |FactorTokens(f)|);
    }
  }

  /** A factor that is a single primary. */
  lemma {:induction false} FactorPrimaryReads(f: A.Factor, toks: seq<Token>, pos: nat)
    requires f.Primary? && WellFormedFactor(f) && Sits(toks, pos, FactorTokens(f))
    requires toks[pos + |FactorTokens(f)|] != LeftParen
    ensures Factor(toks, pos) == FactorTail(toks, pos + |FactorTokens(f)|, f)
    decreases f, 2
  {
    assert FactorTokens(f) == PrimaryTokens(f.primary);
    PrimaryReads(f.primary, toks, pos);
    FactorOfPrimary(toks, pos, f.primary, pos + |PrimaryTokens(f.primary)|);
  }

  /** The parts of `l op r` with a multiplying operator, in place. */
  lemma FactorPairParts(f: A.Factor, toks: seq<Token>, pos: nat)
    requires !f.Primary? && WellFormedFactor(f) && Sits(toks, pos, FactorTokens(f))
    requires toks[pos + |FactorTokens(f)|] != LeftParen
    ensures var mid := pos + |FactorTokens(f.left)|;
      && WellFormedFactor(f.left) && Sits(toks, pos, FactorTokens(f.left))
      && toks[mid] == FactorOperator(f) && toks[mid] != LeftParen
      && WellFormedPrimary(f.right) && Sits(toks, mid + 1, PrimaryTokens(f.right))
      && pos + |FactorTokens(f)| == mid + 1 + |PrimaryTokens(f.right)|
  {
    FactorSpells(f);
    BinaryInPlace(toks, pos, FactorTokens(f.left), FactorOperator(f), PrimaryTokens(f.right));
  }

  /** `l op r` with a multiplying operator: `l` from `pos` to `mid`, the
      operator at `mid`, `r` from `mid + 1` to `end`. */
  lemma {:induction false} FactorPairReads(f: A.Factor, toks: seq<Token>, pos: nat, mid: nat, end: nat)
    requires !f.Primary? && mid == pos + |FactorTokens(f.left)| && end == mid + 1 + |PrimaryTokens(f.right)|
    requires WellFormedFactor(f.left) && Sits(toks, pos, FactorTokens(f.left))
    requires toks[mid] == FactorOperator(f) && toks[mid] != LeftParen
    requires WellFormedPrimary(f.right) && Sits(toks, mid + 1, PrimaryTokens(f.right)) && toks[end] != LeftParen
    ensures Factor(toks, pos) == FactorTail(toks, end, f)
    decreases f, 2
  {
    FactorReads(f.left, toks, pos);
    PrimaryReads(f.right, toks, mid + 1);
    FactorTailStep(toks, mid, f.left, f.right, end);
  }

  /** A primary in place, not followed by `(`, is read whole. */
  lemma {:induction false} PrimaryReads(p: A.Primary, toks: seq<Token>, pos: nat)
    requires WellFormedPrimary(p) && Sits(toks, pos, PrimaryTokens(p))
    requires toks[pos + |PrimaryTokens(p)|] != LeftParen
    ensures Primary(toks, pos) == Done(p, pos + |PrimaryTokens(p)|)
    decreases p, 3
  {
    if p.Negate? || p.Not? {
      PrefixedParts(p, toks, pos);
      PrefixedReads(p, toks, pos, pos + |PrimaryTokens(p)|);
    } else if p.Call? {
      CallReads(p, toks, pos);
    } else if p.Expression? || p.Succ? || p.Pred? || p.Chr? || p.Ord? {
      BracketedReads(p, toks, pos);
    } else {
      AtomReads(p, toks, pos);
    }
  }

  /** A name, a literal or `eof`: one token. */
  lemma AtomReads(p: A.Primary, toks: seq<Token>, pos: nat)
    requires p.Eof? || p.Name? || p.Integer? || p.Char?
    requires Sits(toks, pos, PrimaryTokens(p)) && toks[pos + |PrimaryTokens(p)|] != LeftParen
    ensures Primary(toks, pos) == Done(p, pos + |PrimaryTokens(p)|)
  {
    var u := PrimaryTokens(p);
    assert |u| == 1;
    assert toks[pos] == u[0] by { assert toks[pos..pos + |u|][0] == u[0]; }
  }

  /** The prefix arms of `primary`: `-` or `not`, then a primary. */
  lemma PrefixStep(toks: seq<Token>, pos: nat, q: A.Primary, end: nat)
    requires pos < |toks| && (toks[pos] == Operator(Minus) || toks[pos] == Keyword(Not))
    requires Primary(toks, pos + 1) == Done(q, end)
    ensures Primary(toks, pos) == Done(if toks[pos] == Operator(Minus) then A.Negate(q) else A.Not(q), end)
  {
  }

  /** The parts of `- p` and `not p`, in place. */
  lemma PrefixedParts(p: A.Primary, toks: seq<Token>, pos: nat)
    requires (p.Negate? || p.Not?) && WellFormedPrimary(p) && Sits(toks, pos, PrimaryTokens(p))
    ensures toks[pos] == (if p.Negate? then Operator(Minus) else Keyword(Not))
    ensures WellFormedPrimary(p.operand) && Sits(toks, pos + 1, PrimaryTokens(p.operand))
    ensures |PrimaryTokens(p)| == 1 + |PrimaryTokens(p.operand)|
  {
    var head := if p.Negate? then Operator(Minus) else Keyword(Not);
    assert PrimaryTokens(p) == [head] + PrimaryTokens(p.operand);
    Split(toks, pos, [head], PrimaryTokens(p.operand));
    assert toks[pos..pos + 1][0] == head;
  }

  /** `- p` and `not p`, ending at `end`. */
  lemma {:induction false} PrefixedReads(p: A.Primary, toks: seq<Token>, pos: nat, end: nat)
    requires (p.Negate? || p.Not?) && end == pos + 1 + |PrimaryTokens(p.operand)|
    requires WellFormedPrimary(p.operand) && Sits(toks, pos + 1, PrimaryTokens(p.operand))
    requires toks[pos] == (if p.Negate? then Operator(Minus) else Keyword(Not))
    requires toks[end] != LeftParen
    ensures Primary(toks, pos) == Done(p, end)
    decreases p, 2
  {
    PrimaryReads(p.operand, toks, pos + 1);
    PrefixStep(toks, pos, p.operand, end);
  }

  /** The call arm of `primary`: a name, `(`, and the argument loop. */
  lemma CallStep(toks: seq<Token>, pos: nat, es: seq<A.Expression>, end: nat)
    requires pos + 2 <= |toks| && toks[pos].Identifier? && toks[pos + 1] == LeftParen
    requires CallArgs(toks, pos + 2, []) == Done(es, end)
    ensures Primary(toks, pos) == Done(A.Call(A.Identifier(toks[pos].name), es), end)
  {
    assert NameOrCall(toks, pos) == Done(A.Call(A.Identifier(toks[pos].name), es), end);
  }

  lemma CallSpells(p: A.Primary)
    requires p.Call? && WellFormedPrimary(p)
    ensures PrimaryTokens(p) == [Identifier(p.name.name), LeftParen] + ArgumentTokens(p, 0) + [RightParen]
  {
  }

  /** The tokens of a call in place: its name, `(`, its arguments, `)`. */
  lemma CallInPlace(p: A.Primary, toks: seq<Token>, pos: nat)
    requires p.Call? && WellFormedPrimary(p) && Sits(toks, pos, PrimaryTokens(p))
    ensures var n := |ArgumentTokens(p, 0)|;
      && toks[pos] == Identifier(p.name.name) && toks[pos + 1] == LeftParen
      && Sits(toks, pos + 2, ArgumentTokens(p, 0)) && toks[pos + 2 + n] == RightParen
      && |PrimaryTokens(p)| == n + 3
  {
    var head := [Identifier(p.name.name), LeftParen];
    var args := ArgumentTokens(p, 0);
    CallSpells(p);
    Split(toks, pos, head + args, [RightParen]);
    Split(toks, pos, head, args);
    var n := |args|;
    assert toks[pos..pos + 2] == head;
    assert toks[pos] == head[0] by { assert toks[pos..pos + 2][0] == toks[pos]; }
    assert toks[pos + 1] == head[1] by { assert toks[pos..pos + 2][1] == toks[pos + 1]; }
    assert toks[pos + 2 + n..pos + 2 + n + 1] == [RightParen];
    assert toks[pos + 2 + n] == RightParen by { assert toks[pos + 2 + n..pos + 2 + n + 1][0] == toks[pos + 2 + n]; }
  }

  /** `name ( e1 , ... , en )`. */
  lemma {:induction false} CallReads(p: A.Primary, toks: seq<Token>, pos: nat)
    requires p.Call?
    requires WellFormedPrimary(p) && Sits(toks, pos, PrimaryTokens(p))
    ensures Primary(toks, pos) == Done(p, pos + |PrimaryTokens(p)|)
    decreases p, 2
  {
    var n := |ArgumentTokens(p, 0)|;
    CallInPlace(p, toks, pos);
    ArgumentsRead(p, 0, toks, pos + 2);
    assert p.exps[..0] == [];
    CallStep(toks, pos, p.exps, pos + 2 + n + 1);
  }

  /** The opening tokens of a bracketed primary: `(`, or a built-in's
      keyword and `(`. */
  function Opening(p: A.Primary): seq<Token>
    requires p.Expression? || p.Succ? || p.Pred? || p.Chr? || p.Ord?
  {
    if p.Expression? then [LeftParen]
    else if p.Succ? then [Keyword(Succ), LeftParen]
    else if p.Pred? then [Keyword(Pred), LeftParen]
    else if p.Chr? then [Keyword(Chr), LeftParen]
    else [Keyword(Ord), LeftParen]
  }

  /** The parts of `head e )`, in place. */
  lemma BracketedParts(p: A.Primary, toks: seq<Token>, pos: nat)
    requires p.Expression? || p.Succ? || p.Pred? || p.Chr? || p.Ord?
    requires WellFormedPrimary(p) && Sits(toks, pos, PrimaryTokens(p))
    ensures p.Expression? ==> toks[pos] == LeftParen
    ensures !p.Expression? ==> IsBuiltin(toks[pos]) && toks[pos + 1] == LeftParen && BuiltinNode(toks[pos], p.exp) == p
    ensures var head := Opening(p);
      && WellFormed(p.exp) && Sits(toks, pos + |head|, ExpressionTokens(p.exp))
      && toks[pos + |head| + |ExpressionTokens(p.exp)|] == RightParen
      && |PrimaryTokens(p)| == |head| + |ExpressionTokens(p.exp)| + 1
  {
    var head, u := Opening(p), ExpressionTokens(p.exp);
    assert PrimaryTokens(p) == head + u + [RightParen];
    Split(toks, pos, head + u, [RightParen]);
    Split(toks, pos, head, u);
    assert toks[pos + |head + u|..pos + |head + u| + 1][0] == RightParen;
    assert toks[pos] == head[0] by { assert toks[pos..pos + |head|][0] == head[0]; }
    if !p.Expression? {
      assert toks[pos + 1] == head[1] by { assert toks[pos..pos + |head|][1] == head[1]; }
    }
  }

  /** `( e )` and the built-ins `succ ( e )`, `pred ( e )`, `chr ( e )`,
      `ord ( e )`. */
  lemma {:induction false} BracketedReads(p: A.Primary, toks: seq<Token>, pos: nat)
    requires p.Expression? || p.Succ? || p.Pred? || p.Chr? || p.Ord?
    requires WellFormedPrimary(p) && Sits(toks, pos, PrimaryTokens(p))
    ensures Primary(toks, pos) == Done(p, pos + |PrimaryTokens(p)|)
    decreases p, 2
  {
    BracketedParts(p, toks, pos);
    var inner := pos + |Opening(p)|;
    InnerReads(p, toks, inner, inner + |ExpressionTokens(p.exp)|);
    var end := pos + |PrimaryTokens(p)|;
    if p.Expression? {
      PrimaryParenthesisedStep(toks, pos, p.exp, end);
    } else {
      PrimaryBuiltinStep(toks, pos, p.exp, end);
    }
  }

  /** The expression of a bracketed primary and its `)`. */
  lemma {:induction false} InnerReads(p: A.Primary, toks: seq<Token>, inner: nat, close: nat)
    requires p.Expression? || p.Succ? || p.Pred? || p.Chr? || p.Ord?
    requires WellFormed(p.exp) && Sits(toks, inner, ExpressionTokens(p.exp))
    requires close == inner + |ExpressionTokens(p.exp)| && toks[close] == RightParen
    ensures Parenthesised(toks, inner) == Done(p.exp, close + 1)
    decreases p, 1
  {
    assert Ends(RightParen);
    ExpressionReads(p.exp, toks, inner);
    ParenthesisedStep(toks, inner, p.exp, close);
  }

  /** One round of the argument loop: an expression and a `,`. */
  lemma CallArgsComma(toks: seq<Token>, pos: nat, acc: seq<A.Expression>, e: A.Expression, mid: nat)
    requires pos <= |toks| && Expression(toks, pos) == Done(e, mid)
    requires mid < |toks| && toks[mid] == Comma
    ensures CallArgs(toks, pos, acc) == CallArgs(toks, mid + 1, acc + [e])
  {
  }

  /** The last round of the argument loop: an expression and the `)`. */
  lemma CallArgsClose(toks: seq<Token>, pos: nat, acc: seq<A.Expression>, e: A.Expression, mid: nat)
    requires pos <= |toks| && Expression(toks, pos) == Done(e, mid)
    requires mid < |toks| && toks[mid] == RightParen
    ensures CallArgs(toks, pos, acc) == Done(acc + [e], mid + 1)
  {
  }

  /** The parts of the arguments from the `i`-th on, when more follow. */
  lemma ArgumentsParts(p: A.Primary, i: nat, toks: seq<Token>, pos: nat)
    requires p.Call? && i + 1 < |p.exps| && WellFormedArguments(p, i) && Sits(toks, pos, ArgumentTokens(p, i))
    ensures var u := ExpressionTokens(p.exps[i]);
      && WellFormed(p.exps[i]) && Sits(toks, pos, u) && toks[pos + |u|] == Comma
      && WellFormedArguments(p, i + 1) && Sits(toks, pos + |u| + 1, ArgumentTokens(p, i + 1))
      && |ArgumentTokens(p, i)| == |u| + 1 + |ArgumentTokens(p, i + 1)|
  {
    var u, rest := ExpressionTokens(p.exps[i]), ArgumentTokens(p, i + 1);
    assert ArgumentTokens(p, i) == u + [Comma] + rest;
    BinaryInPlace(toks, pos, u, Comma, rest);
  }

  /** The arguments of a call from the `i`-th on, in place and followed by
      `)`, complete the argument list read so far. */
  lemma {:induction false} ArgumentsRead(p: A.Primary, i: nat, toks: seq<Token>, pos: nat)
    requires p.Call? && i < |p.exps| && WellFormedArguments(p, i)
    requires Sits(toks, pos, ArgumentTokens(p, i)) && toks[pos + |ArgumentTokens(p, i)|] == RightParen
    ensures CallArgs(toks, pos, p.exps[..i]) == Done(p.exps, pos + |ArgumentTokens(p, i)| + 1)
    decreases p, 1, |p.exps| - i, 1
  {
    if i + 1 < |p.exps| {
      ArgumentsParts(p, i, toks, pos);
      MoreArgumentsRead(p, i, toks, pos, pos + |ExpressionTokens(p.exps[i])|);
    } else {
      LastArgumentRead(p, i, toks, pos);
    }
  }

  /** An argument, the `,` at `mid` after it, and the arguments after that. */
  lemma {:induction false} MoreArgumentsRead(p: A.Primary, i: nat, toks: seq<Token>, pos: nat, mid: nat)
    requires p.Call? && i + 1 < |p.exps| && mid == pos + |ExpressionTokens(p.exps[i])|
    requires WellFormed(p.exps[i]) && Sits(toks, pos, ExpressionTokens(p.exps[i])) && toks[mid] == Comma
    requires WellFormedArguments(p, i + 1) && Sits(toks, mid + 1, ArgumentTokens(p, i + 1))
    requires toks[mid + 1 + |ArgumentTokens(p, i + 1)|] == RightParen
    ensures CallArgs(toks, pos, p.exps[..i]) == Done(p.exps, mid + 1 + |ArgumentTokens(p, i + 1)| + 1)
    decreases p, 1, |p.exps| - i, 0
  {
    var e := p.exps[i];
    assert Ends(Comma);
    ExpressionReads(e, toks, pos);
    CallArgsComma(toks, pos, p.exps[..i], e, mid);
    assert p.exps[..i] + [e] == p.exps[..i + 1];
    ArgumentsRead(p, i + 1, toks, mid + 1);
  }

  /** The last argument of a call and the `)` after it. */
  lemma {:induction false} LastArgumentRead(p: A.Primary, i: nat, toks: seq<Token>, pos: nat)
    requires p.Call? && i + 1 == |p.exps| && WellFormedArguments(p, i)
    requires Sits(toks, pos, ArgumentTokens(p, i)) && toks[pos + |ArgumentTokens(p, i)|] == RightParen
    ensures CallArgs(toks, pos, p.exps[..i]) == Done(p.exps, pos + |ArgumentTokens(p, i)| + 1)
    decreases p, 1, 0
  {
    var e := p.exps[i];
    var u := ExpressionTokens(e);
    assert ArgumentTokens(p, i) == u;
    assert Ends(RightParen);
    ExpressionReads(e, toks, pos);
    CallArgsClose(toks, pos, p.exps[..i], e, pos + |u|);
    assert p.exps[..i] + [e] == p.exps;
  }

  /** Parsing inverts writing out: a well-formed expression followed by a
      token that ends expressions is read back as itself. */
  lemma ExpressionRoundTrip(e: A.Expression, follow: Token)
    requires WellFormed(e) && Ends(follow)
    ensures Expression(ExpressionTokens(e) + [follow], 0) == Done(e, |ExpressionTokens(e)|)
  {
    var toks := ExpressionTokens(e) + [follow];
    assert toks[0..|ExpressionTokens(e)|] == ExpressionTokens(e);
    ExpressionReads(e, toks, 0);
  }

  function Num(i: Int64): A.Term {
    A.Term.Factor(A.Factor.Primary(A.Primary.Integer(i)))
  }

  function Var(n: string): A.Term {
    A.Term.Factor(A.Factor.Primary(A.Primary.Name(A.Identifier(n))))
  }

  /** `1 + 2 * 3 ;`: the product binds tighter than the sum. */
  lemma MultiplyBindsTighter()
    ensures Expression([Integer(1), Operator(Plus), Integer(2), Operator(Multiply), Integer(3), Semicolon], 0)
         == Done(A.Expression.Term(A.Add(Num(1), A.Multiply(A.Factor.Primary(A.Primary.Integer(2)), A.Primary.Integer(3)))), 5)
  {
    var m := A.Multiply(A.Factor.Primary(A.Primary.Integer(2)), A.Primary.Integer(3));
    var e := A.Expression.Term(A.Add(Num(1), m));
    assert FactorTokens(m) == [Integer(2), Operator(Multiply), Integer(3)];
    assert WellFormedFactor(m);
    var u := ExpressionTokens(e);
    assert u == [Integer(1), Operator(Plus)] + FactorTokens(m);
    assert u + [Semicolon] == [Integer(1), Operator(Plus), Integer(2), Operator(Multiply), Integer(3), Semicolon];
    ExpressionRoundTrip(e, Semicolon);
  }

  /** `a - b - c ;` is `(a - b) - c`. */
  lemma SubtractAssociatesLeft()
    ensures Expression([Identifier("a"), Operator(Minus), Identifier("b"), Operator(Minus), Identifier("c"), Semicolon], 0)
         == Done(A.Expression.Term(A.Subtract(A.Subtract(Var("a"), A.Factor.Primary(A.Primary.Name(A.Identifier("b")))),
                                              A.Factor.Primary(A.Primary.Name(A.Identifier("c"))))), 5)
  {
    var e := A.Expression.Term(A.Subtract(A.Subtract(Var("a"), A.Factor.Primary(A.Primary.Name(A.Identifier("b")))),
                                          A.Factor.Primary(A.Primary.Name(A.Identifier("c")))));
    var ab := A.Subtract(Var("a"), A.Factor.Primary(A.Primary.Name(A.Identifier("b"))));
    assert TermTokens(ab) == [Identifier("a"), Operator(Minus), Identifier("b")];
    assert WellFormedTerm(ab);
    var u := ExpressionTokens(e);
    assert u == TermTokens(ab) + [Operator(Minus), Identifier("c")];
    assert u + [Semicolon] == [Identifier("a"), Operator(Minus), Identifier("b"), Operator(Minus), Identifier("c"), Semicolon];
    ExpressionRoundTrip(e, Semicolon);
  }

  /** `a < b < c`: comparisons do not chain; `expression` stops before the
      second `<` and leaves it to the caller. */
  lemma ComparisonsDoNotChain()
    ensures Expression([Identifier("a"), Operator(LessThan), Identifier("b"), Operator(LessThan), Identifier("c")], 0)
         == Done(A.Lt(Var("a"), Var("b")), 3)
  {
    var toks := [Identifier("a"), Operator(LessThan), Identifier("b"), Operator(LessThan), Identifier("c")];
    assert toks[0..1] == TermTokens(Var("a"));
    assert toks[2..3] == TermTokens(Var("b"));
    TermReads(Var("a"), toks, 0);
    TermTailStops(toks, 1, Var("a"));
    TermReads(Var("b"), toks, 2);
    TermTailStops(toks, 3, Var("b"));
    ExpressionOfComparison(toks, 0, Var("a"), 1, Var("b"), 3);
  }
}
