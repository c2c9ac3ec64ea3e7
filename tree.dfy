/** The tree dump (src/parser/tree.rs): every `get_string_tree` as a function
    of the node and the indent level, returning the lines in order. A node
    prints `label(count)` after `level` copies of `. ` and its children one
    level deeper; some variants print nothing of their own and hand their
    level to the node inside them. */
module Tree {
  import opened Decimal
  import opened Tokens
  import A = Ast
  import Dump

  /** `format!("{}{}({})", ". ".repeat(level), label, count)`. */
  function Head(level: nat, tag: string, count: nat): string {
    Dump.Indent(level) + tag + "(" + NatToString(count) + ")"
  }

  /** `format!("{}{}(0)", ". ".repeat(level), text)`: a printed value. */
  function Leaf(level: nat, text: string): string {
    Dump.Indent(level) + text + "(0)"
  }

  /** src/parser/tree.rs:7-20. */
  function ProgramTree(p: A.Program, level: nat): (r: seq<string>)
    ensures |r| >= 10
  {
    [Head(level, "program", 7)]
      + IdentifierTree(p.name, level + 1)
      + ConstsTree(p.consts, level + 1)
      + TypesTree(p.types, level + 1)
      + DclnsTree(p.dclns, level + 1)
      + SubProgsTree(p.subProgs, level + 1)
      + BodyTree(p.body, level + 1)
      + IdentifierTree(p.endName, level + 1)
  }

  /** src/parser/tree.rs:22-29. */
  function IdentifierTree(id: A.Identifier, level: nat): (r: seq<string>)
    ensures |r| == 2
  {
    [Head(level, "<identifier>", 1), Leaf(level + 1, id.name)]
  }

  function IdentifiersTree(ids: seq<A.Identifier>, level: nat): (r: seq<string>)
    ensures |r| == 2 * |ids|
  {
    if ids == [] then [] else IdentifierTree(ids[0], level) + IdentifiersTree(ids[1..], level)
  }

  /** src/parser/tree.rs:31-43: the count of constants, and no line for any
      of them. */
  function ConstsTree(c: A.Consts, level: nat): (r: seq<string>)
    ensures |r| == 1
  {
    [Head(level, "consts", |c.consts|)]
  }

  /** src/parser/tree.rs:45-57. */
  function TypesTree(t: A.Types, level: nat): (r: seq<string>)
    ensures |r| >= 1
  {
    [Head(level, "types", |t.types|)] + TypeListTree(t.types, level + 1)
  }

  function TypeListTree(ts: seq<A.Type>, level: nat): seq<string> {
    if ts == [] then [] else TypeTree(ts[0], level) + TypeListTree(ts[1..], level)
  }

  /** src/parser/tree.rs:59-70. */
  function TypeTree(t: A.Type, level: nat): (r: seq<string>)
    ensures |r| >= 4
  {
    [Head(level, "type", 2)] + IdentifierTree(t.name, level + 1) + LitListTree(t.litList, level + 1)
  }

  /** src/parser/tree.rs:72-84. */
  function LitListTree(l: A.LitList, level: nat): (r: seq<string>)
    ensures |r| == 1 + 2 * |l.names|
  {
    [Head(level, "lit", |l.names|)] + IdentifiersTree(l.names, level + 1)
  }

  /** src/parser/tree.rs:86-98. */
  function DclnsTree(d: A.Dclns, level: nat): (r: seq<string>)
    ensures |r| >= 1
  {
    [Head(level, "dclns", |d.vars|)] + VarsTree(d.vars, level + 1)
  }

  function VarsTree(vs: seq<A.Var>, level: nat): seq<string> {
    if vs == [] then [] else VarTree(vs[0], level) + VarsTree(vs[1..], level)
  }

  /** src/parser/tree.rs:100-113. */
  function VarTree(v: A.Var, level: nat): (r: seq<string>)
    ensures |r| == 3 + 2 * |v.names|
  {
    [Head(level, "var", |v.names| + 1)] + IdentifiersTree(v.names, level + 1) + IdentifierTree(v.typename, level + 1)
  }

  /** src/parser/tree.rs:115-127. */
  function SubProgsTree(s: A.SubProgs, level: nat): (r: seq<string>)
    ensures |r| >= 1
  {
    [Head(level, "subprogs", |s.subProgs|)] + FuncsTree(s.subProgs, level + 1)
  }

  function FuncsTree(fs: seq<A.Func>, level: nat): seq<string> {
    if fs == [] then [] else FuncTree(fs[0], level) + FuncsTree(fs[1..], level)
  }

  /** src/parser/tree.rs:129-146. */
  function FuncTree(f: A.Func, level: nat): (r: seq<string>)
    ensures |r| >= 12
  {
    [Head(level, "fcn", 8)]
      + IdentifierTree(f.name, level + 1)
      + ParamsTree(f.params, level + 1)
      + IdentifierTree(f.returnType, level + 1)
      + ConstsTree(f.consts, level + 1)
      + TypesTree(f.types, level + 1)
      + DclnsTree(f.dclns, level + 1)
      + BodyTree(f.body, level + 1)
      + IdentifierTree(f.endName, level + 1)
  }

  /** src/parser/tree.rs:148-160. */
  function ParamsTree(p: A.Params, level: nat): (r: seq<string>)
    ensures |r| >= 1
  {
    [Head(level, "params", |p.params|)] + VarsTree(p.params, level + 1)
  }

  /** src/parser/tree.rs:162-174. */
  function BodyTree(b: A.Body, level: nat): (r: seq<string>)
    ensures |r| >= 1
  {
    [Head(level, "block", |b.statements|)] + StatementsTree(b.statements, level + 1)
  }

  function StatementsTree(ss: seq<A.Statement>, level: nat): (r: seq<string>)
    ensures |r| >= |ss|
  {
    if ss == [] then [] else StatementTree(ss[0], level) + StatementsTree(ss[1..], level)
  }

  /** src/parser/tree.rs:176-264. An assignment and a nested body print as
      themselves, at the statement's level. */
  function StatementTree(s: A.Statement, level: nat): (r: seq<string>)
    ensures |r| >= 1
  {
    match s
    case Assign(a) => AssignmentTree(a, level)
    case Output(es) => [Head(level, "output", |es|)] + OutExpsTree(es, level + 1)
    case If(c, t, e) =>
      [Head(level, "if", if e.Some? then 3 else 2)]
        + ExpressionTree(c, level + 1)
        + StatementTree(t, level + 1)
        + (match e case Some(x) => StatementTree(x, level + 1) case None => [])
    case While(c, body) =>
      [Head(level, "while", 2)] + ExpressionTree(c, level + 1) + StatementTree(body, level + 1)
    case Repeat(ss, c) =>
      [Head(level, "repeat", |ss| + 1)] + StatementsTree(ss, level + 1) + ExpressionTree(c, level + 1)
    case For(i, c, u, body) =>
      [Head(level, "for", 4)]
        + ForStatTree(i, level + 1)
        + ForExpTree(c, level + 1)
        + ForStatTree(u, level + 1)
        + StatementTree(body, level + 1)
    case Loop(ss) => [Head(level, "loop", |ss|)] + StatementsTree(ss, level + 1)
    case Case(e, cs, o) =>
      [Head(level, "case", |cs| + (if o.Some? then 1 else 0) + 1)]
        + ExpressionTree(e, level + 1)
        + CaseClausesTree(cs, level + 1)
        + (match o case Some(x) => OtherwiseClauseTree(x, level + 1) case None => [])
    case Read(ns) => [Head(level, "read", |ns|)] + IdentifiersTree(ns, level + 1)
    case Exit => [Head(level, "exit", 0)]
    case Return(e) => [Head(level, "return", 1)] + ExpressionTree(e, level + 1)
    case Body(b) => BodyTree(b, level)
    case Null => [Head(level, "<null>", 0)]
  }

  function OutExpsTree(es: seq<A.OutExp>, level: nat): seq<string> {
    if es == [] then [] else OutExpTree(es[0], level) + OutExpsTree(es[1..], level)
  }

  function CaseClausesTree(cs: seq<A.CaseClause>, level: nat): seq<string> {
    if cs == [] then [] else CaseClauseTree(cs[0], level) + CaseClausesTree(cs[1..], level)
  }

  /** src/parser/tree.rs:266-279. */
  function CaseClauseTree(c: A.CaseClause, level: nat): (r: seq<string>)
    ensures |r| >= 2
  {
    [Head(level, "case_clause", |c.expressions| + 1)]
      + CaseExpressionsTree(c.expressions, level + 1)
      + StatementTree(c.statement, level + 1)
  }

  function CaseExpressionsTree(es: seq<A.CaseExpression>, level: nat): seq<string> {
    if es == [] then [] else CaseExpressionTree(es[0], level) + CaseExpressionsTree(es[1..], level)
  }

  /** src/parser/tree.rs:281-298. A single value prints as itself. */
  function CaseExpressionTree(e: A.CaseExpression, level: nat): (r: seq<string>)
    ensures |r| >= 2
  {
    match e
    case Value(v) => ConstValueTree(v, level)
    case Range(lo, hi) => [Head(level, "..", 2)] + ConstValueTree(lo, level + 1) + ConstValueTree(hi, level + 1)
  }

  /** src/parser/tree.rs:300-321. */
  function ConstValueTree(v: A.ConstValue, level: nat): (r: seq<string>)
    ensures |r| == 2
  {
    match v
    case Integer(i) => [Head(level, "<integer>", 1), Leaf(level + 1, IntToString(i))]
    case Char(c) => [Head(level, "<char>", 1), Leaf(level + 1, [c])]
    case Name(id) => IdentifierTree(id, level)
  }

  /** src/parser/tree.rs:323-331. */
  function OtherwiseClauseTree(o: A.OtherwiseClause, level: nat): (r: seq<string>)
    ensures |r| >= 2
  {
    [Head(level, "otherwise", 1)] + StatementTree(o.stmt, level + 1)
  }

  /** src/parser/tree.rs:334-347. */
  function ForStatTree(f: A.ForStat, level: nat): (r: seq<string>)
    ensures |r| >= 1
  {
    match f
    case Assignment(a) => AssignmentTree(a, level)
    case Null => [Head(level, "<null>", 0)]
  }

  /** src/parser/tree.rs:349-362. */
  function ForExpTree(f: A.ForExp, level: nat): (r: seq<string>)
    ensures |r| >= 1
  {
    match f
    case Expression(e) => ExpressionTree(e, level)
    case True => [Head(level, "true", 0)]
  }

  /** src/parser/tree.rs:364-382. */
  function AssignmentTree(a: A.Assignment, level: nat): (r: seq<string>)
    ensures |r| >= 4
  {
    match a
    case Assignment(n, e) => [Head(level, "assign", 2)] + IdentifierTree(n, level + 1) + ExpressionTree(e, level + 1)
    case Swap(n1, n2) => [Head(level, "swap", 2)] + IdentifierTree(n1, level + 1) + IdentifierTree(n2, level + 1)
  }

  /** The label of a comparison. */
  function ComparisonTag(e: A.Expression): string
    requires !e.Term?
  {
    match e
    case Le(_, _) => "<="
    case Lt(_, _) => "<"
    case Ge(_, _) => ">="
    case Gt(_, _) => ">"
    case Eq(_, _) => "="
    case Ne(_, _) => "<>"
  }

  /** src/parser/tree.rs:384-431. */
  function ExpressionTree(e: A.Expression, level: nat): (r: seq<string>)
    ensures |r| >= 1
  {
    match e
    case Term(t) => TermTree(t, level)
    case _ => [Head(level, ComparisonTag(e), 2)] + TermTree(e.left, level + 1) + TermTree(e.right, level + 1)
  }

  /** src/parser/tree.rs:433-462. */
  function TermTree(t: A.Term, level: nat): (r: seq<string>)
    ensures |r| >= 1
  {
    match t
    case Add(l, f) => [Head(level, "+", 2)] + TermTree(l, level + 1) + FactorTree(f, level + 1)
    case Subtract(l, f) => [Head(level, "-", 2)] + TermTree(l, level + 1) + FactorTree(f, level + 1)
    case Or(l, f) => [Head(level, "or", 2)] + TermTree(l, level + 1) + FactorTree(f, level + 1)
    case Factor(f) => FactorTree(f, level)
  }

  /** src/parser/tree.rs:464-499. The `/` line is printed without indent. */
  function FactorTree(f: A.Factor, level: nat): (r: seq<string>)
    ensures |r| >= 1
  {
    match f
    case Multiply(l, p) => [Head(level, "*", 2)] + FactorTree(l, level + 1) + PrimaryTree(p, level + 1)
    case Divide(l, p) => ["/(" + NatToString(2) + ")"] + FactorTree(l, level + 1) + PrimaryTree(p, level + 1)
    case And(l, p) => [Head(level, "and", 2)] + FactorTree(l, level + 1) + PrimaryTree(p, level + 1)
    case Mod(l, p) => [Head(level, "mod", 2)] + FactorTree(l, level + 1) + PrimaryTree(p, level + 1)
    case Primary(p) => PrimaryTree(p, level)
  }

  /** src/parser/tree.rs:501-567. The `-` line is printed without indent. */
  function PrimaryTree(p: A.Primary, level: nat): (r: seq<string>)
    ensures |r| >= 1
  {
    match p
    case Negate(q) => ["-(" + NatToString(1) + ")"] + PrimaryTree(q, level + 1)
    case Not(q) => [Head(level, "not", 1)] + PrimaryTree(q, level + 1)
    case Eof => [Head(level, "eof", 0)]
    case Name(id) => IdentifierTree(id, level)
    case Integer(i) => [Head(level, "<integer>", 1), Leaf(level + 1, IntToString(i))]
    case Char(c) => [Head(level, "<char>", 1), Leaf(level + 1, [c])]
    case Call(id, es) => [Head(level, "call", |es| + 1)] + IdentifierTree(id, level + 1) + ExpressionsTree(es, level + 1)
    case Expression(e) => ExpressionTree(e, level)
    case Succ(e) => [Head(level, "succ", 1)] + ExpressionTree(e, level + 1)
    case Pred(e) => [Head(level, "pred", 1)] + ExpressionTree(e, level + 1)
    case Chr(e) => [Head(level, "chr", 1)] + ExpressionTree(e, level + 1)
    case Ord(e) => [Head(level, "ord", 1)] + ExpressionTree(e, level + 1)
  }

  function ExpressionsTree(es: seq<A.Expression>, level: nat): seq<string> {
    if es == [] then [] else ExpressionTree(es[0], level) + ExpressionsTree(es[1..], level)
  }

  /** src/parser/tree.rs:569-586. */
  function OutExpTree(o: A.OutExp, level: nat): (r: seq<string>)
    ensures |r| >= 2
  {
    match o
    case Integer(e) => [Head(level, "integer", 1)] + ExpressionTree(e, level + 1)
    case String(v) => [Head(level, "<string>", 1), Leaf(level + 1, v)]
  }
}
