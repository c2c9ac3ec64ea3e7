/** The dump each node of the syntax tree prints (src/parser/tree.rs), and the
    proof that every renderer in `Tree` prints exactly `Render` of it. The
    variants that print nothing of their own are the dump of what they hold. */
module TreeShape {
  import opened Decimal
  import opened Tokens
  import A = Ast
  import T = Tree
  import opened Dump

  function ProgramDump(p: A.Program): Dump {
    Node("program", [IdentifierDump(p.name), ConstsDump(p.consts), TypesDump(p.types), DclnsDump(p.dclns),
                     SubProgsDump(p.subProgs), BodyDump(p.body), IdentifierDump(p.endName)])
  }

  function IdentifierDump(id: A.Identifier): Dump {
    Node("<identifier>", [Leaf(id.name)])
  }

  function IdentifierDumps(ids: seq<A.Identifier>): (r: seq<Dump>)
    ensures |r| == |ids|
  {
    if ids == [] then [] else [IdentifierDump(ids[0])] + IdentifierDumps(ids[1..])
  }

  /** The one node whose count is not the number of its children: it prints
      how many constants there are and none of them. */
  function ConstsDump(c: A.Consts): Dump {
    Dump("consts", |c.consts|, [], false)
  }

  function TypesDump(t: A.Types): Dump {
    Node("types", TypeDumps(t.types))
  }

  function TypeDumps(ts: seq<A.Type>): (r: seq<Dump>)
    ensures |r| == |ts|
  {
    if ts == [] then [] else [TypeDump(ts[0])] + TypeDumps(ts[1..])
  }

  function TypeDump(t: A.Type): Dump {
    Node("type", [IdentifierDump(t.name), LitListDump(t.litList)])
  }

  function LitListDump(l: A.LitList): Dump {
    Node("lit", IdentifierDumps(l.names))
  }

  function DclnsDump(d: A.Dclns): Dump {
    Node("dclns", VarDumps(d.vars))
  }

  function VarDumps(vs: seq<A.Var>): (r: seq<Dump>)
    ensures |r| == |vs|
  {
    if vs == [] then [] else [VarDump(vs[0])] + VarDumps(vs[1..])
  }

  function VarDump(v: A.Var): Dump {
    Node("var", IdentifierDumps(v.names) + [IdentifierDump(v.typename)])
  }

  function SubProgsDump(s: A.SubProgs): Dump {
    Node("subprogs", FuncDumps(s.subProgs))
  }

  function FuncDumps(fs: seq<A.Func>): (r: seq<Dump>)
    ensures |r| == |fs|
  {
    if fs == [] then [] else [FuncDump(fs[0])] + FuncDumps(fs[1..])
  }

  function FuncDump(f: A.Func): Dump {
    Node("fcn", [IdentifierDump(f.name), ParamsDump(f.params), IdentifierDump(f.returnType), ConstsDump(f.consts),
                 TypesDump(f.types), DclnsDump(f.dclns), BodyDump(f.body), IdentifierDump(f.endName)])
  }

  function ParamsDump(p: A.Params): Dump {
    Node("params", VarDumps(p.params))
  }

  function BodyDump(b: A.Body): Dump {
    Node("block", StatementDumps(b.statements))
  }

  function StatementDumps(ss: seq<A.Statement>): (r: seq<Dump>)
    ensures |r| == |ss|
  {
    if ss == [] then [] else [StatementDump(ss[0])] + StatementDumps(ss[1..])
  }

  function StatementDump(s: A.Statement): Dump {
    match s
    case Assign(a) => AssignmentDump(a)
    case Output(es) => Node("output", OutExpDumps(es))
    case If(c, t, e) =>
      Node("if", [ExpressionDump(c), StatementDump(t)] + (match e case Some(x) => [StatementDump(x)] case None => []))
    case While(c, body) => Node("while", [ExpressionDump(c), StatementDump(body)])
    case Repeat(ss, c) => Node("repeat", StatementDumps(ss) + [ExpressionDump(c)])
    case For(i, c, u, body) => Node("for", [ForStatDump(i), ForExpDump(c), ForStatDump(u), StatementDump(body)])
    case Loop(ss) => Node("loop", StatementDumps(ss))
    case Case(e, cs, o) =>
      Node("case", [ExpressionDump(e)] + CaseClauseDumps(cs)
                   + (match o case Some(x) => [OtherwiseClauseDump(x)] case None => []))
    case Read(ns) => Node("read", IdentifierDumps(ns))
    case Exit => Node("exit", [])
    case Return(e) => Node("return", [ExpressionDump(e)])
    case Body(b) => BodyDump(b)
    case Null => Node("<null>", [])
  }

  function OutExpDumps(es: seq<A.OutExp>): (r: seq<Dump>)
    ensures |r| == |es|
  {
    if es == [] then [] else [OutExpDump(es[0])] + OutExpDumps(es[1..])
  }

  function CaseClauseDumps(cs: seq<A.CaseClause>): (r: seq<Dump>)
    ensures |r| == |cs|
  {
    if cs == [] then [] else [CaseClauseDump(cs[0])] + CaseClauseDumps(cs[1..])
  }

  function CaseClauseDump(c: A.CaseClause): Dump {
    Node("case_clause", CaseExpressionDumps(c.expressions) + [StatementDump(c.statement)])
  }

  function CaseExpressionDumps(es: seq<A.CaseExpression>): (r: seq<Dump>)
    ensures |r| == |es|
  {
    if es == [] then [] else [CaseExpressionDump(es[0])] + CaseExpressionDumps(es[1..])
  }

  function CaseExpressionDump(e: A.CaseExpression): Dump {
    match e
    case Value(v) => ConstValueDump(v)
    case Range(lo, hi) => Node("..", [ConstValueDump(lo), ConstValueDump(hi)])
  }

  function ConstValueDump(v: A.ConstValue): Dump {
    match v
    case Integer(i) => Node("<integer>", [Leaf(IntToString(i))])
    case Char(c) => Node("<char>", [Leaf([c])])
    case Name(id) => IdentifierDump(id)
  }

  function OtherwiseClauseDump(o: A.OtherwiseClause): Dump {
    Node("otherwise", [StatementDump(o.stmt)])
  }

  function ForStatDump(f: A.ForStat): Dump {
    match f
    case Assignment(a) => AssignmentDump(a)
    case Null => Node("<null>", [])
  }

  function ForExpDump(f: A.ForExp): Dump {
    match f
    case Expression(e) => ExpressionDump(e)
    case True => Node("true", [])
  }

  function AssignmentDump(a: A.Assignment): Dump {
    match a
    case Assignment(n, e) => Node("assign", [IdentifierDump(n), ExpressionDump(e)])
    case Swap(n1, n2) => Node("swap", [IdentifierDump(n1), IdentifierDump(n2)])
  }

  function ExpressionDump(e: A.Expression): Dump {
    match e
    case Term(t) => TermDump(t)
    case _ => Node(T.ComparisonTag(e), [TermDump(e.left), TermDump(e.right)])
  }

  function TermDump(t: A.Term): Dump {
    match t
    case Add(l, f) => Node("+", [TermDump(l), FactorDump(f)])
    case Subtract(l, f) => Node("-", [TermDump(l), FactorDump(f)])
    case Or(l, f) => Node("or", [TermDump(l), FactorDump(f)])
    case Factor(f) => FactorDump(f)
  }

  /** `/` is the one binary operator printed flush. */
  function FactorDump(f: A.Factor): Dump {
    match f
    case Multiply(l, p) => Node("*", [FactorDump(l), PrimaryDump(p)])
    case Divide(l, p) => Dump("/", 2, [FactorDump(l), PrimaryDump(p)], true)
    case And(l, p) => Node("and", [FactorDump(l), PrimaryDump(p)])
    case Mod(l, p) => Node("mod", [FactorDump(l), PrimaryDump(p)])
    case Primary(p) => PrimaryDump(p)
  }

  /** `-` is the one unary operator printed flush. */
  function PrimaryDump(p: A.Primary): Dump {
    match p
    case Negate(q) => Dump("-", 1, [PrimaryDump(q)], true)
    case Not(q) => Node("not", [PrimaryDump(q)])
    case Eof => Node("eof", [])
    case Name(id) => IdentifierDump(id)
    case Integer(i) => Node("<integer>", [Leaf(IntToString(i))])
    case Char(c) => Node("<char>", [Leaf([c])])
    case Call(id, es) => Node("call", [IdentifierDump(id)] + ExpressionDumps(es))
    case Expression(e) => ExpressionDump(e)
    case Succ(e) => Node("succ", [ExpressionDump(e)])
    case Pred(e) => Node("pred", [ExpressionDump(e)])
    case Chr(e) => Node("chr", [ExpressionDump(e)])
    case Ord(e) => Node("ord", [ExpressionDump(e)])
  }

  function ExpressionDumps(es: seq<A.Expression>): (r: seq<Dump>)
    ensures |r| == |es|
  {
    if es == [] then [] else [ExpressionDump(es[0])] + ExpressionDumps(es[1..])
  }

  function OutExpDump(o: A.OutExp): Dump {
    match o
    case Integer(e) => Node("integer", [ExpressionDump(e)])
    case String(v) => Node("<string>", [Leaf(v)])
  }

  // ---- Every renderer prints its node's dump.

  lemma LeafLine(text: string, level: nat)
    ensures Render(Leaf(text), level) == [T.Leaf(level, text)]
  {
    assert NatToString(0) == "0";
    assert "(" + "0" + ")" == "(0)";
    assert HeaderLine(Leaf(text), level) == Indent(level) + text + "(0)";
    assert RenderAll([], level + 1) == [];
  }

  /** The lines of a node with two children. */
  lemma Pair(d: Dump, a: Dump, b: Dump, level: nat)
    requires d.kids == [a, b]
    ensures Render(d, level) == [HeaderLine(d, level)] + Render(a, level + 1) + Render(b, level + 1)
  {
    var i := level + 1;
    var ra, rb := Render(a, i), Render(b, i);
    assert [a, b] == [a] + [b];
    RenderAllAppend([a], [b], i);
    RenderAllOne(a, i);
    RenderAllOne(b, i);
    assert RenderAll(d.kids, i) == ra + rb;
    Assoc([HeaderLine(d, level)], ra, rb);
  }

  /** The lines of a node with one child. */
  lemma Single(d: Dump, a: Dump, level: nat)
    requires d.kids == [a]
    ensures Render(d, level) == [HeaderLine(d, level)] + Render(a, level + 1)
  {
    RenderAllOne(a, level + 1);
  }

  lemma IdentifierRenders(id: A.Identifier, level: nat)
    ensures T.IdentifierTree(id, level) == Render(IdentifierDump(id), level)
  {
    Single(IdentifierDump(id), Leaf(id.name), level);
    LeafLine(id.name, level + 1);
  }

  lemma {:induction false} IdentifiersRender(ids: seq<A.Identifier>, level: nat)
    ensures T.IdentifiersTree(ids, level) == RenderAll(IdentifierDumps(ids), level)
  {
    if ids != [] {
      IdentifierRenders(ids[0], level);
      IdentifiersRender(ids[1..], level);
      RenderAllAppend([IdentifierDump(ids[0])], IdentifierDumps(ids[1..]), level);
      RenderAllOne(IdentifierDump(ids[0]), level);
    }
  }

  lemma ConstValueRenders(v: A.ConstValue, level: nat)
    ensures T.ConstValueTree(v, level) == Render(ConstValueDump(v), level)
  {
    match v
    case Integer(i) =>
      Single(ConstValueDump(v), Leaf(IntToString(i)), level);
      LeafLine(IntToString(i), level + 1);
    case Char(c) =>
      Single(ConstValueDump(v), Leaf([c]), level);
      LeafLine([c], level + 1);
    case Name(id) =>
      IdentifierRenders(id, level);
  }

  lemma CaseExpressionRenders(e: A.CaseExpression, level: nat)
    ensures T.CaseExpressionTree(e, level) == Render(CaseExpressionDump(e), level)
  {
    match e
    case Value(v) =>
      ConstValueRenders(v, level);
    case Range(lo, hi) =>
      Pair(CaseExpressionDump(e), ConstValueDump(lo), ConstValueDump(hi), level);
      ConstValueRenders(lo, level + 1);
      ConstValueRenders(hi, level + 1);
  }

  lemma {:induction false} CaseExpressionsRender(es: seq<A.CaseExpression>, level: nat)
    ensures T.CaseExpressionsTree(es, level) == RenderAll(CaseExpressionDumps(es), level)
  {
    if es != [] {
      CaseExpressionRenders(es[0], level);
      CaseExpressionsRender(es[1..], level);
      RenderAllAppend([CaseExpressionDump(es[0])], CaseExpressionDumps(es[1..]), level);
      RenderAllOne(CaseExpressionDump(es[0]), level);
    }
  }

  lemma {:induction false} ExpressionRenders(e: A.Expression, level: nat)
    ensures T.ExpressionTree(e, level) == Render(ExpressionDump(e), level)
  {
    if e.Term? {
      TermRenders(e.term, level);
    } else {
      Pair(ExpressionDump(e), TermDump(e.left), TermDump(e.right), level);
      ExpressionHeader(e, level);
      TermRenders(e.left, level + 1);
      TermRenders(e.right, level + 1);
    }
  }

  lemma {:induction false} TermRenders(t: A.Term, level: nat)
    ensures T.TermTree(t, level) == Render(TermDump(t), level)
  {
    if t.Factor? {
      FactorRenders(t.factor, level);
    } else {
      Pair(TermDump(t), TermDump(t.left), FactorDump(t.right), level);
      TermHeader(t, level);
      TermRenders(t.left, level + 1);
      FactorRenders(t.right, level + 1);
    }
  }

  lemma {:induction false} FactorRenders(f: A.Factor, level: nat)
    ensures T.FactorTree(f, level) == Render(FactorDump(f), level)
  {
    if f.Primary? {
      PrimaryRenders(f.primary, level);
    } else {
      Pair(FactorDump(f), FactorDump(f.left), PrimaryDump(f.right), level);
      FactorHeader(f, level);
      FactorRenders(f.left, level + 1);
      PrimaryRenders(f.right, level + 1);
    }
  }

  /** The lines of a comparison node: its header, then its two operands. */
  lemma ExpressionHeader(e: A.Expression, level: nat)
    requires !e.Term?
    ensures T.ExpressionTree(e, level)
         == [HeaderLine(ExpressionDump(e), level)] + T.TermTree(e.left, level + 1) + T.TermTree(e.right, level + 1)
  {
  }

  /** The lines of an adding node: its header, then its two operands. */
  lemma TermHeader(t: A.Term, level: nat)
    requires !t.Factor?
    ensures T.TermTree(t, level)
         == [HeaderLine(TermDump(t), level)] + T.TermTree(t.left, level + 1) + T.FactorTree(t.right, level + 1)
  {
  }

  /** The lines of a multiplying node: its header (flush for `/`), then its two operands. */
  lemma FactorHeader(f: A.Factor, level: nat)
    requires !f.Primary?
    ensures T.FactorTree(f, level)
         == [HeaderLine(FactorDump(f), level)] + T.FactorTree(f.left, level + 1) + T.PrimaryTree(f.right, level + 1)
  {
    if f.Divide? {
      assert "" + "/" + "(" == "/(";
    }
  }

  lemma {:induction false} PrimaryRenders(p: A.Primary, level: nat)
    ensures T.PrimaryTree(p, level) == Render(PrimaryDump(p), level)
    decreases p, 1
  {
    match p
    case Negate(_) => UnaryRenders(p, level);
    case Not(_) => UnaryRenders(p, level);
    case Eof =>
    case Name(id) => IdentifierRenders(id, level);
    case Integer(_) => LiteralRenders(p, level);
    case Char(_) => LiteralRenders(p, level);
    case Call(_, _) => CallRenders(p, level);
    case Expression(e) => ExpressionRenders(e, level);
    case _ => BuiltinRenders(p, level);
  }

  lemma {:induction false} UnaryRenders(p: A.Primary, level: nat)
    requires p.Negate? || p.Not?
    ensures T.PrimaryTree(p, level) == Render(PrimaryDump(p), level)
    decreases p, 0
  {
    Single(PrimaryDump(p), PrimaryDump(p.operand), level);
    if p.Negate? {
      assert "" + "-" + "(" == "-(";
    }
    PrimaryRenders(p.operand, level + 1);
  }

  lemma LiteralRenders(p: A.Primary, level: nat)
    requires p.Integer? || p.Char?
    ensures T.PrimaryTree(p, level) == Render(PrimaryDump(p), level)
  {
    var text := if p.Integer? then IntToString(p.i) else [p.c];
    Single(PrimaryDump(p), Leaf(text), level);
    LeafLine(text, level + 1);
  }

  lemma {:induction false} CallRenders(p: A.Primary, level: nat)
    requires p.Call?
    ensures T.PrimaryTree(p, level) == Render(PrimaryDump(p), level)
    decreases p, 0
  {
    var inner := level + 1;
    var id, es := p.name, p.exps;
    var kids := [IdentifierDump(id)] + ExpressionDumps(es);
    var x, y := T.IdentifierTree(id, inner), T.ExpressionsTree(es, inner);
    IdentifierRenders(id, inner);
    ExpressionsRender(es, inner);
    RenderAllAppend([IdentifierDump(id)], ExpressionDumps(es), inner);
    RenderAllOne(IdentifierDump(id), inner);
    NodeLines("call", kids, level, x + y);
    var h := [T.Head(level, "call", |es| + 1)];
    assert T.PrimaryTree(p, level) == h + x + y;
    Assoc(h, x, y);
  }

  /** `succ`, `pred`, `chr` and `ord`: a header over their argument. */
  lemma {:induction false} BuiltinRenders(p: A.Primary, level: nat)
    requires p.Succ? || p.Pred? || p.Chr? || p.Ord?
    ensures T.PrimaryTree(p, level) == Render(PrimaryDump(p), level)
    decreases p, 0
  {
    Single(PrimaryDump(p), ExpressionDump(p.exp), level);
    ExpressionRenders(p.exp, level + 1);
  }

  lemma {:induction false} ExpressionsRender(es: seq<A.Expression>, level: nat)
    ensures T.ExpressionsTree(es, level) == RenderAll(ExpressionDumps(es), level)
  {
    if es != [] {
      ExpressionRenders(es[0], level);
      ExpressionsRender(es[1..], level);
      RenderAllAppend([ExpressionDump(es[0])], ExpressionDumps(es[1..]), level);
      RenderAllOne(ExpressionDump(es[0]), level);
    }
  }

  /** The lines of children given one by one. */
  lemma Cons(d: Dump, ds: seq<Dump>, level: nat)
    ensures RenderAll([d] + ds, level) == Render(d, level) + RenderAll(ds, level)
  {
    assert ([d] + ds)[1..] == ds;
  }

  lemma Three(a: Dump, b: Dump, c: Dump, level: nat)
    ensures RenderAll([a, b, c], level) == Render(a, level) + Render(b, level) + Render(c, level)
  {
    assert [a, b, c] == [a] + [b] + [c];
    RenderAllAppend([a] + [b], [c], level);
    RenderAllAppend([a], [b], level);
    RenderAllOne(a, level);
    RenderAllOne(b, level);
    RenderAllOne(c, level);
  }

  lemma Four(a: Dump, b: Dump, c: Dump, d: Dump, level: nat)
    ensures RenderAll([a, b, c, d], level) == Render(a, level) + Render(b, level) + Render(c, level) + Render(d, level)
  {
    assert [a, b, c, d] == [a] + [b, c, d];
    Cons(a, [b, c, d], level);
    Three(b, c, d, level);
  }

  /** The lines of a node with three children. */
  lemma Triple(n: Dump, a: Dump, b: Dump, c: Dump, level: nat)
    requires n.kids == [a, b, c]
    ensures Render(n, level) == [HeaderLine(n, level)] + Render(a, level + 1) + Render(b, level + 1) + Render(c, level + 1)
  {
    var i := level + 1;
    Three(a, b, c, i);
    var h, ra, rb, rc := [HeaderLine(n, level)], Render(a, i), Render(b, i), Render(c, i);
    assert Render(n, level) == h + (ra + rb + rc);
    Assoc(h, ra + rb, rc);
    Assoc(h, ra, rb);
  }

  lemma Assoc(x: seq<string>, y: seq<string>, z: seq<string>)
    ensures x + (y + z) == x + y + z
  {
  }

  /** The lines of a node with four children. */
  lemma Quadruple(n: Dump, a: Dump, b: Dump, c: Dump, d: Dump, level: nat)
    requires n.kids == [a, b, c, d]
    ensures Render(n, level)
         == [HeaderLine(n, level)] + Render(a, level + 1) + Render(b, level + 1) + Render(c, level + 1) + Render(d, level + 1)
  {
    var i := level + 1;
    Four(a, b, c, d, i);
    var h, ra, rb, rc, rd := [HeaderLine(n, level)], Render(a, i), Render(b, i), Render(c, i), Render(d, i);
    assert Render(n, level) == h + (ra + rb + rc + rd);
    Assoc(h, ra + rb + rc, rd);
    Assoc(h, ra + rb, rc);
    Assoc(h, ra, rb);
  }

  /** The lines of a node with seven children. */
  lemma Septuple(n: Dump, a: Dump, b: Dump, c: Dump, d: Dump, e: Dump, f: Dump, g: Dump, level: nat)
    requires n.kids == [a, b, c, d, e, f, g]
    ensures Render(n, level)
         == [HeaderLine(n, level)] + Render(a, level + 1) + Render(b, level + 1) + Render(c, level + 1)
            + Render(d, level + 1) + Render(e, level + 1) + Render(f, level + 1) + Render(g, level + 1)
  {
    var i := level + 1;
    assert n.kids == [a, b, c, d] + [e, f, g];
    RenderAllAppend([a, b, c, d], [e, f, g], i);
    Four(a, b, c, d, i);
    Three(e, f, g, i);
    var h, ra, rb, rc, rd, re, rf, rg := [HeaderLine(n, level)], Render(a, i), Render(b, i), Render(c, i), Render(d, i), Render(e, i), Render(f, i), Render(g, i);
    var x := ra + rb + rc + rd;
    assert Render(n, level) == h + (x + (re + rf + rg));
    Assoc(h, x, re + rf + rg);
    Assoc(h + x, re + rf, rg);
    Assoc(h + x, re, rf);
    Assoc(h, ra + rb + rc, rd);
    Assoc(h, ra + rb, rc);
    Assoc(h, ra, rb);
  }

  /** The lines of a node with eight children. */
  lemma Octuple(n: Dump, a: Dump, b: Dump, c: Dump, d: Dump, e: Dump, f: Dump, g: Dump, k: Dump, level: nat)
    requires n.kids == [a, b, c, d, e, f, g, k]
    ensures Render(n, level)
         == [HeaderLine(n, level)] + Render(a, level + 1) + Render(b, level + 1) + Render(c, level + 1)
            + Render(d, level + 1) + Render(e, level + 1) + Render(f, level + 1) + Render(g, level + 1)
            + Render(k, level + 1)
  {
    var i := level + 1;
    assert n.kids == [a, b, c, d] + [e, f, g, k];
    RenderAllAppend([a, b, c, d], [e, f, g, k], i);
    Four(a, b, c, d, i);
    Four(e, f, g, k, i);
    var h, ra, rb, rc, rd, re, rf, rg, rk := [HeaderLine(n, level)], Render(a, i), Render(b, i), Render(c, i), Render(d, i), Render(e, i), Render(f, i), Render(g, i), Render(k, i);
    var x := ra + rb + rc + rd;
    assert Render(n, level) == h + (x + (re + rf + rg + rk));
    Assoc(h, x, re + rf + rg + rk);
    Assoc(h + x, re + rf + rg, rk);
    Assoc(h + x, re + rf, rg);
    Assoc(h + x, re, rf);
    Assoc(h, ra + rb + rc, rd);
    Assoc(h, ra + rb, rc);
    Assoc(h, ra, rb);
  }

  lemma AssignmentRenders(a: A.Assignment, level: nat)
    ensures T.AssignmentTree(a, level) == Render(AssignmentDump(a), level)
  {
    match a
    case Assignment(n, e) =>
      Pair(AssignmentDump(a), IdentifierDump(n), ExpressionDump(e), level);
      IdentifierRenders(n, level + 1);
      ExpressionRenders(e, level + 1);
    case Swap(n1, n2) =>
      Pair(AssignmentDump(a), IdentifierDump(n1), IdentifierDump(n2), level);
      IdentifierRenders(n1, level + 1);
      IdentifierRenders(n2, level + 1);
  }

  lemma ForStatRenders(f: A.ForStat, level: nat)
    ensures T.ForStatTree(f, level) == Render(ForStatDump(f), level)
  {
    if f.Assignment? {
      AssignmentRenders(f.assignment, level);
    }
  }

  lemma ForExpRenders(f: A.ForExp, level: nat)
    ensures T.ForExpTree(f, level) == Render(ForExpDump(f), level)
  {
    if f.Expression? {
      ExpressionRenders(f.exp, level);
    }
  }

  lemma OutExpRenders(o: A.OutExp, level: nat)
    ensures T.OutExpTree(o, level) == Render(OutExpDump(o), level)
  {
    match o
    case Integer(e) =>
      Single(OutExpDump(o), ExpressionDump(e), level);
      ExpressionRenders(e, level + 1);
    case String(v) =>
      Single(OutExpDump(o), Leaf(v), level);
      LeafLine(v, level + 1);
  }

  lemma {:induction false} OutExpsRender(es: seq<A.OutExp>, level: nat)
    ensures T.OutExpsTree(es, level) == RenderAll(OutExpDumps(es), level)
  {
    if es != [] {
      OutExpRenders(es[0], level);
      OutExpsRender(es[1..], level);
      RenderAllAppend([OutExpDump(es[0])], OutExpDumps(es[1..]), level);
      RenderAllOne(OutExpDump(es[0]), level);
    }
  }

  lemma {:induction false} StatementRenders(s: A.Statement, level: nat)
    ensures T.StatementTree(s, level) == Render(StatementDump(s), level)
    decreases s, 2
  {
    match s
    case Assign(a) => AssignmentRenders(a, level);
    case If(_, _, _) => IfRenders(s, level);
    case For(_, _, _, _) => ForRenders(s, level);
    case Case(_, _, _) => CaseRenders(s, level);
    case Body(b) => BodyRenders(b, level);
    case Output(_) => ListRenders(s, level);
    case Loop(_) => ListRenders(s, level);
    case Read(_) => ListRenders(s, level);
    case Repeat(_, _) => RepeatRenders(s, level);
    case _ => PlainRenders(s, level);
  }

  /** `output`, `loop` and `read`: a header and one line group per item. */
  lemma {:induction false} ListRenders(s: A.Statement, level: nat)
    requires s.Output? || s.Loop? || s.Read?
    ensures T.StatementTree(s, level) == Render(StatementDump(s), level)
    decreases s, 1
  {
    match s
    case Output(es) => OutExpsRender(es, level + 1);
    case Loop(ss) => StatementsRender(ss, level + 1);
    case Read(ns) => IdentifiersRender(ns, level + 1);
  }

  lemma {:induction false} RepeatRenders(s: A.Statement, level: nat)
    requires s.Repeat?
    ensures T.StatementTree(s, level) == Render(StatementDump(s), level)
    decreases s, 1
  {
    var inner := level + 1;
    var ss, c := s.stmts, s.cond;
    var kids := StatementDumps(ss) + [ExpressionDump(c)];
    var x, y := T.StatementsTree(ss, inner), T.ExpressionTree(c, inner);
    StatementsRender(ss, inner);
    ExpressionRenders(c, inner);
    RenderAllAppend(StatementDumps(ss), [ExpressionDump(c)], inner);
    RenderAllOne(ExpressionDump(c), inner);
    NodeLines("repeat", kids, level, x + y);
    assert StatementDump(s) == Node("repeat", kids);
    var h := [T.Head(level, "repeat", |ss| + 1)];
    assert T.StatementTree(s, level) == h + x + y;
    Assoc(h, x, y);
  }

  /** `while`, `return`, `exit` and the empty statement. */
  lemma {:induction false} PlainRenders(s: A.Statement, level: nat)
    requires s.While? || s.Return? || s.Exit? || s.Null?
    ensures T.StatementTree(s, level) == Render(StatementDump(s), level)
    decreases s, 1
  {
    var d := StatementDump(s);
    var inner := level + 1;
    match s
    case While(c, body) =>
      Pair(d, ExpressionDump(c), StatementDump(body), level);
      ExpressionRenders(c, inner);
      StatementRenders(body, inner);
    case Return(e) =>
      Single(d, ExpressionDump(e), level);
      ExpressionRenders(e, inner);
    case Exit =>
    case Null =>
  }

  lemma {:induction false} IfRenders(s: A.Statement, level: nat)
    requires s.If?
    ensures T.StatementTree(s, level) == Render(StatementDump(s), level)
    decreases s, 0
  {
    var inner := level + 1;
    ExpressionRenders(s.cond, inner);
    StatementRenders(s.thenStmt, inner);
    match s.elseStmt
    case Some(x) =>
      Triple(StatementDump(s), ExpressionDump(s.cond), StatementDump(s.thenStmt), StatementDump(x), level);
      StatementRenders(x, inner);
    case None =>
      Pair(StatementDump(s), ExpressionDump(s.cond), StatementDump(s.thenStmt), level);
  }

  lemma {:induction false} ForRenders(s: A.Statement, level: nat)
    requires s.For?
    ensures T.StatementTree(s, level) == Render(StatementDump(s), level)
    decreases s, 0
  {
    var inner := level + 1;
    Quadruple(StatementDump(s), ForStatDump(s.init), ForExpDump(s.forCond), ForStatDump(s.update), StatementDump(s.stmt), level);
    ForStatRenders(s.init, inner);
    ForExpRenders(s.forCond, inner);
    ForStatRenders(s.update, inner);
    StatementRenders(s.stmt, inner);
  }

  lemma {:induction false} CaseRenders(s: A.Statement, level: nat)
    requires s.Case?
    ensures T.StatementTree(s, level) == Render(StatementDump(s), level)
    decreases s, 0
  {
    var inner := level + 1;
    var e, cs, o := s.expr, s.cases, s.otherwise;
    var rest := match o case Some(x) => [OtherwiseClauseDump(x)] case None => [];
    var restLines := match o case Some(x) => T.OtherwiseClauseTree(x, inner) case None => [];
    var kids := [ExpressionDump(e)] + CaseClauseDumps(cs) + rest;
    var lines := T.ExpressionTree(e, inner) + T.CaseClausesTree(cs, inner) + restLines;
    ExpressionRenders(e, inner);
    CaseClausesRender(cs, inner);
    if o.Some? {
      RenderAllOne(OtherwiseClauseDump(o.value), inner);
      OtherwiseClauseRenders(o.value, inner);
    }
    RenderAllAppend([ExpressionDump(e)] + CaseClauseDumps(cs), rest, inner);
    Cons(ExpressionDump(e), CaseClauseDumps(cs), inner);
    assert RenderAll(kids, inner) == lines;
    NodeLines("case", kids, level, lines);
    assert StatementDump(s) == Node("case", kids);
    CaseLines(s, level);
  }

  /** A node's lines are its own header and then its children's lines. */
  lemma NodeLines(tag: string, kids: seq<Dump>, level: nat, lines: seq<string>)
    requires RenderAll(kids, level + 1) == lines
    ensures Render(Node(tag, kids), level) == [T.Head(level, tag, |kids|)] + lines
  {
  }

  /** The lines `Tree` prints for a `case` statement, grouped after the header. */
  lemma CaseLines(s: A.Statement, level: nat)
    requires s.Case?
    ensures var o := s.otherwise;
      T.StatementTree(s, level)
      == [T.Head(level, "case", 1 + |CaseClauseDumps(s.cases)| + (if o.Some? then 1 else 0))]
         + (T.ExpressionTree(s.expr, level + 1) + T.CaseClausesTree(s.cases, level + 1)
            + (match o case Some(x) => T.OtherwiseClauseTree(x, level + 1) case None => []))
  {
    var h := [T.Head(level, "case", 1 + |s.cases| + (if s.otherwise.Some? then 1 else 0))];
    var x := T.ExpressionTree(s.expr, level + 1);
    var y := T.CaseClausesTree(s.cases, level + 1);
    var z := match s.otherwise case Some(w) => T.OtherwiseClauseTree(w, level + 1) case None => [];
    assert T.StatementTree(s, level) == h + x + y + z;
    Assoc(h, x + y, z);
    Assoc(h, x, y);
  }

  lemma {:induction false} StatementsRender(ss: seq<A.Statement>, level: nat)
    ensures T.StatementsTree(ss, level) == RenderAll(StatementDumps(ss), level)
    decreases ss, 1
  {
    if ss != [] {
      StatementRenders(ss[0], level);
      StatementsRender(ss[1..], level);
      RenderAllAppend([StatementDump(ss[0])], StatementDumps(ss[1..]), level);
      RenderAllOne(StatementDump(ss[0]), level);
    }
  }

  lemma {:induction false} BodyRenders(b: A.Body, level: nat)
    ensures T.BodyTree(b, level) == Render(BodyDump(b), level)
    decreases b, 1
  {
    StatementsRender(b.statements, level + 1);
  }

  lemma {:induction false} CaseClauseRenders(c: A.CaseClause, level: nat)
    ensures T.CaseClauseTree(c, level) == Render(CaseClauseDump(c), level)
    decreases c, 1
  {
    var inner := level + 1;
    var kids := CaseExpressionDumps(c.expressions) + [StatementDump(c.statement)];
    var x, y := T.CaseExpressionsTree(c.expressions, inner), T.StatementTree(c.statement, inner);
    CaseExpressionsRender(c.expressions, inner);
    StatementRenders(c.statement, inner);
    RenderAllAppend(CaseExpressionDumps(c.expressions), [StatementDump(c.statement)], inner);
    RenderAllOne(StatementDump(c.statement), inner);
    NodeLines("case_clause", kids, level, x + y);
    var h := [T.Head(level, "case_clause", |c.expressions| + 1)];
    assert T.CaseClauseTree(c, level) == h + x + y;
    Assoc(h, x, y);
  }

  lemma {:induction false} CaseClausesRender(cs: seq<A.CaseClause>, level: nat)
    ensures T.CaseClausesTree(cs, level) == RenderAll(CaseClauseDumps(cs), level)
    decreases cs, 1
  {
    if cs != [] {
      CaseClauseRenders(cs[0], level);
      CaseClausesRender(cs[1..], level);
      RenderAllAppend([CaseClauseDump(cs[0])], CaseClauseDumps(cs[1..]), level);
      RenderAllOne(CaseClauseDump(cs[0]), level);
    }
  }

  lemma {:induction false} OtherwiseClauseRenders(o: A.OtherwiseClause, level: nat)
    ensures T.OtherwiseClauseTree(o, level) == Render(OtherwiseClauseDump(o), level)
    decreases o, 1
  {
    Single(OtherwiseClauseDump(o), StatementDump(o.stmt), level);
    StatementRenders(o.stmt, level + 1);
  }

  lemma ConstsRenders(c: A.Consts, level: nat)
    ensures T.ConstsTree(c, level) == Render(ConstsDump(c), level)
  {
  }

  lemma LitListRenders(l: A.LitList, level: nat)
    ensures T.LitListTree(l, level) == Render(LitListDump(l), level)
  {
    IdentifiersRender(l.names, level + 1);
  }

  lemma TypeRenders(t: A.Type, level: nat)
    ensures T.TypeTree(t, level) == Render(TypeDump(t), level)
  {
    Pair(TypeDump(t), IdentifierDump(t.name), LitListDump(t.litList), level);
    IdentifierRenders(t.name, level + 1);
    LitListRenders(t.litList, level + 1);
  }

  lemma {:induction false} TypeListRenders(ts: seq<A.Type>, level: nat)
    ensures T.TypeListTree(ts, level) == RenderAll(TypeDumps(ts), level)
  {
    if ts != [] {
      TypeRenders(ts[0], level);
      TypeListRenders(ts[1..], level);
      RenderAllAppend([TypeDump(ts[0])], TypeDumps(ts[1..]), level);
      RenderAllOne(TypeDump(ts[0]), level);
    }
  }

  lemma TypesRenders(t: A.Types, level: nat)
    ensures T.TypesTree(t, level) == Render(TypesDump(t), level)
  {
    TypeListRenders(t.types, level + 1);
  }

  lemma VarRenders(v: A.Var, level: nat)
    ensures T.VarTree(v, level) == Render(VarDump(v), level)
  {
    var inner := level + 1;
    var kids := IdentifierDumps(v.names) + [IdentifierDump(v.typename)];
    var x, y := T.IdentifiersTree(v.names, inner), T.IdentifierTree(v.typename, inner);
    IdentifiersRender(v.names, inner);
    IdentifierRenders(v.typename, inner);
    RenderAllAppend(IdentifierDumps(v.names), [IdentifierDump(v.typename)], inner);
    RenderAllOne(IdentifierDump(v.typename), inner);
    NodeLines("var", kids, level, x + y);
    var h := [T.Head(level, "var", |v.names| + 1)];
    assert T.VarTree(v, level) == h + x + y;
    Assoc(h, x, y);
  }

  lemma {:induction false} VarsRender(vs: seq<A.Var>, level: nat)
    ensures T.VarsTree(vs, level) == RenderAll(VarDumps(vs), level)
  {
    if vs != [] {
      VarRenders(vs[0], level);
      VarsRender(vs[1..], level);
      RenderAllAppend([VarDump(vs[0])], VarDumps(vs[1..]), level);
      RenderAllOne(VarDump(vs[0]), level);
    }
  }

  lemma DclnsRenders(d: A.Dclns, level: nat)
    ensures T.DclnsTree(d, level) == Render(DclnsDump(d), level)
  {
    VarsRender(d.vars, level + 1);
  }

  lemma ParamsRenders(p: A.Params, level: nat)
    ensures T.ParamsTree(p, level) == Render(ParamsDump(p), level)
  {
    VarsRender(p.params, level + 1);
  }

  lemma FuncRenders(f: A.Func, level: nat)
    ensures T.FuncTree(f, level) == Render(FuncDump(f), level)
  {
    var i := level + 1;
    var d := FuncDump(f);
    Octuple(d, IdentifierDump(f.name), ParamsDump(f.params), IdentifierDump(f.returnType), ConstsDump(f.consts),
            TypesDump(f.types), DclnsDump(f.dclns), BodyDump(f.body), IdentifierDump(f.endName), level);
    assert T.Head(level, "fcn", 8) == HeaderLine(d, level);
    IdentifierRenders(f.name, i);
    ParamsRenders(f.params, i);
    IdentifierRenders(f.returnType, i);
    ConstsRenders(f.consts, i);
    TypesRenders(f.types, i);
    DclnsRenders(f.dclns, i);
    BodyRenders(f.body, i);
    IdentifierRenders(f.endName, i);
  }

  lemma {:induction false} FuncsRender(fs: seq<A.Func>, level: nat)
    ensures T.FuncsTree(fs, level) == RenderAll(FuncDumps(fs), level)
  {
    if fs != [] {
      FuncRenders(fs[0], level);
      FuncsRender(fs[1..], level);
      RenderAllAppend([FuncDump(fs[0])], FuncDumps(fs[1..]), level);
      RenderAllOne(FuncDump(fs[0]), level);
    }
  }

  lemma SubProgsRenders(s: A.SubProgs, level: nat)
    ensures T.SubProgsTree(s, level) == Render(SubProgsDump(s), level)
  {
    FuncsRender(s.subProgs, level + 1);
  }

  /** The dump of a whole program is `Render` of its dump: every property of
      `Render` is a property of the program's dump. */
  lemma ProgramRenders(p: A.Program, level: nat)
    ensures T.ProgramTree(p, level) == Render(ProgramDump(p), level)
  {
    var i := level + 1;
    var d := ProgramDump(p);
    Septuple(d, IdentifierDump(p.name), ConstsDump(p.consts), TypesDump(p.types), DclnsDump(p.dclns),
             SubProgsDump(p.subProgs), BodyDump(p.body), IdentifierDump(p.endName), level);
    assert T.Head(level, "program", 7) == HeaderLine(d, level);
    IdentifierRenders(p.name, i);
    ConstsRenders(p.consts, i);
    TypesRenders(p.types, i);
    DclnsRenders(p.dclns, i);
    SubProgsRenders(p.subProgs, i);
    BodyRenders(p.body, i);
    IdentifierRenders(p.endName, i);
  }
}
