/** What the tree dump promises a reader (src/parser/tree.rs): the count on a
    line is the number of children printed under it everywhere but in
    `consts`, which a parsed program never has entries in; and every line
    carries its indent except the `/` and `-` operator lines. */
module TreeFacts {
  import opened Tokens
  import opened Results
  import opened Decimal
  import A = Ast
  import T = Tree
  import opened Dump
  import opened TreeShape
  import D = DeclGrammar
  import GrammarFacts
  import E = ExprGrammar

  // ---- Counts.

  lemma IdentifierCounted(id: A.Identifier)
    ensures Counted(IdentifierDump(id))
  {
  }

  lemma {:induction false} IdentifiersCounted(ids: seq<A.Identifier>)
    ensures forall k | k in IdentifierDumps(ids) :: Counted(k)
  {
    if ids != [] {
      IdentifiersCounted(ids[1..]);
    }
  }

  lemma ConstValueCounted(v: A.ConstValue)
    ensures Counted(ConstValueDump(v))
  {
  }

  lemma {:induction false} ExpressionCounted(e: A.Expression)
    ensures Counted(ExpressionDump(e))
  {
    if e.Term? {
      TermCounted(e.term);
    } else {
      TermCounted(e.left);
      TermCounted(e.right);
    }
  }

  lemma {:induction false} TermCounted(t: A.Term)
    ensures Counted(TermDump(t))
  {
    if t.Factor? {
      FactorCounted(t.factor);
    } else {
      TermCounted(t.left);
      FactorCounted(t.right);
    }
  }

  lemma {:induction false} FactorCounted(f: A.Factor)
    ensures Counted(FactorDump(f))
  {
    if f.Primary? {
      PrimaryCounted(f.primary);
    } else {
      FactorCounted(f.left);
      PrimaryCounted(f.right);
    }
  }

  lemma {:induction false} PrimaryCounted(p: A.Primary)
    ensures Counted(PrimaryDump(p))
  {
    match p
    case Negate(q) => PrimaryCounted(q);
    case Not(q) => PrimaryCounted(q);
    case Call(_, es) => ExpressionsCounted(es);
    case Expression(e) => ExpressionCounted(e);
    case Succ(e) => ExpressionCounted(e);
    case Pred(e) => ExpressionCounted(e);
    case Chr(e) => ExpressionCounted(e);
    case Ord(e) => ExpressionCounted(e);
    case _ =>
  }

  lemma {:induction false} ExpressionsCounted(es: seq<A.Expression>)
    ensures forall k | k in ExpressionDumps(es) :: Counted(k)
  {
    if es != [] {
      ExpressionCounted(es[0]);
      ExpressionsCounted(es[1..]);
    }
  }

  lemma AssignmentCounted(a: A.Assignment)
    ensures Counted(AssignmentDump(a))
  {
    if a.Assignment? {
      ExpressionCounted(a.exp);
    }
  }

  lemma {:induction false} StatementCounted(s: A.Statement)
    ensures Counted(StatementDump(s))
  {
    match s
    case Assign(a) => AssignmentCounted(a);
    case Output(os) => OutExpsCounted(os);
    case If(c, t, e) =>
      ExpressionCounted(c);
      StatementCounted(t);
      if e.Some? {
        StatementCounted(e.value);
      }
    case While(c, body) =>
      ExpressionCounted(c);
      StatementCounted(body);
    case Repeat(ss, c) =>
      StatementsCounted(ss);
      ExpressionCounted(c);
    case For(i, c, u, body) =>
      if i.Assignment? {
        AssignmentCounted(i.assignment);
      }
      if c.Expression? {
        ExpressionCounted(c.exp);
      }
      if u.Assignment? {
        AssignmentCounted(u.assignment);
      }
      StatementCounted(body);
    case Loop(ss) => StatementsCounted(ss);
    case Case(e, cs, o) =>
      ExpressionCounted(e);
      CaseClausesCounted(cs);
      if o.Some? {
        StatementCounted(o.value.stmt);
      }
    case Read(ns) => IdentifiersCounted(ns);
    case Exit =>
    case Return(e) => ExpressionCounted(e);
    case Body(b) => StatementsCounted(b.statements);
    case Null =>
  }

  lemma {:induction false} StatementsCounted(ss: seq<A.Statement>)
    ensures forall k | k in StatementDumps(ss) :: Counted(k)
  {
    if ss != [] {
      StatementCounted(ss[0]);
      StatementsCounted(ss[1..]);
    }
  }

  lemma {:induction false} OutExpsCounted(os: seq<A.OutExp>)
    ensures forall k | k in OutExpDumps(os) :: Counted(k)
  {
    if os != [] {
      if os[0].Integer? {
        ExpressionCounted(os[0].exp);
      }
      OutExpsCounted(os[1..]);
    }
  }

  lemma {:induction false} CaseClausesCounted(cs: seq<A.CaseClause>)
    ensures forall k | k in CaseClauseDumps(cs) :: Counted(k)
  {
    if cs != [] {
      CaseExpressionsCounted(cs[0].expressions);
      StatementCounted(cs[0].statement);
      CaseClausesCounted(cs[1..]);
    }
  }

  lemma CaseExpressionCounted(e: A.CaseExpression)
    ensures Counted(CaseExpressionDump(e))
  {
    if e.Range? {
      ConstValueCounted(e.low);
      ConstValueCounted(e.high);
    } else {
      ConstValueCounted(e.value);
    }
  }

  lemma {:induction false} CaseExpressionsCounted(es: seq<A.CaseExpression>)
    ensures forall k | k in CaseExpressionDumps(es) :: Counted(k)
  {
    if es != [] {
      CaseExpressionCounted(es[0]);
      CaseExpressionsCounted(es[1..]);
    }
  }

  lemma TypeCounted(t: A.Type)
    ensures Counted(TypeDump(t))
  {
    IdentifiersCounted(t.litList.names);
    var d := TypeDump(t);
    assert d.kids == [IdentifierDump(t.name), LitListDump(t.litList)];
    assert Counted(LitListDump(t.litList));
  }

  lemma {:induction false} TypesCounted(ts: seq<A.Type>)
    ensures forall k | k in TypeDumps(ts) :: Counted(k)
  {
    if ts != [] {
      TypeCounted(ts[0]);
      TypesCounted(ts[1..]);
    }
  }

  lemma VarCounted(v: A.Var)
    ensures Counted(VarDump(v))
  {
    IdentifiersCounted(v.names);
    IdentifierCounted(v.typename);
  }

  lemma {:induction false} VarsCounted(vs: seq<A.Var>)
    ensures forall k | k in VarDumps(vs) :: Counted(k)
  {
    if vs != [] {
      VarCounted(vs[0]);
      VarsCounted(vs[1..]);
    }
  }

  /** The sections every program and function has, other than `consts`. */
  lemma SectionsCounted(ts: A.Types, ds: A.Dclns, ps: A.Params, b: A.Body)
    ensures Counted(TypesDump(ts)) && Counted(DclnsDump(ds))
    ensures Counted(ParamsDump(ps)) && Counted(BodyDump(b))
  {
    TypesCounted(ts.types);
    VarsCounted(ds.vars);
    VarsCounted(ps.params);
    StatementsCounted(b.statements);
  }

  /** A program without constants, in its own section or any function's. */
  predicate NoConstants(p: A.Program) {
    p.consts.consts == [] && forall f | f in p.subProgs.subProgs :: f.consts.consts == []
  }

  lemma FuncCounted(f: A.Func)
    ensures Counted(FuncDump(f)) <==> f.consts.consts == []
  {
    SectionsCounted(f.types, f.dclns, f.params, f.body);
    IdentifierCounted(f.name);
    IdentifierCounted(f.returnType);
    IdentifierCounted(f.endName);
    var d := FuncDump(f);
    assert Counted(ConstsDump(f.consts)) <==> f.consts.consts == [];
    if f.consts.consts == [] {
      assert forall k | k in d.kids :: Counted(k);
    } else {
      assert d.kids[3] == ConstsDump(f.consts);
    }
  }

  lemma {:induction false} FuncsCounted(fs: seq<A.Func>)
    ensures (forall k | k in FuncDumps(fs) :: Counted(k)) <==> forall f | f in fs :: f.consts.consts == []
  {
    if fs != [] {
      FuncCounted(fs[0]);
      FuncsCounted(fs[1..]);
      assert fs == [fs[0]] + fs[1..];
    }
  }

  lemma SubProgsCounted(s: A.SubProgs)
    ensures Counted(SubProgsDump(s)) <==> forall f | f in s.subProgs :: f.consts.consts == []
  {
    FuncsCounted(s.subProgs);
  }

  /** The counts of a program's dump all match the lines under them exactly
      when it has no constants: `consts` prints a count and no children. */
  lemma ProgramCounted(p: A.Program)
    ensures Counted(ProgramDump(p)) <==> NoConstants(p)
  {
    var d := ProgramDump(p);
    var cs, fs := ConstsDump(p.consts), SubProgsDump(p.subProgs);
    assert Counted(cs) <==> p.consts.consts == [];
    SubProgsCounted(p.subProgs);
    if NoConstants(p) {
      SectionsCounted(p.types, p.dclns, A.Params([]), p.body);
      IdentifierCounted(p.name);
      IdentifierCounted(p.endName);
      assert forall k | k in d.kids :: Counted(k);
    } else {
      assert d.kids[1] == cs && d.kids[4] == fs;
      assert !Counted(cs) || !Counted(fs);
    }
  }

  // ---- Parsed programs have no constants.

  lemma BlockHasNoConstants(toks: seq<Token>, pos: nat, msg: string)
    requires pos <= |toks| && D.BlockAt(toks, pos, msg).Done?
    ensures D.BlockAt(toks, pos, msg).value.consts == A.Consts([])
  {
    GrammarFacts.ConstsOnlyEmpty(toks, pos);
  }

  lemma {:induction false} SubProgsHaveNoConstants(toks: seq<Token>, pos: nat, acc: seq<A.Func>)
    requires pos <= |toks| && forall f | f in acc :: f.consts.consts == []
    requires D.SubProgsLoop(toks, pos, acc).Done?
    ensures forall f | f in D.SubProgsLoop(toks, pos, acc).value :: f.consts.consts == []
    decreases |toks| - pos
  {
    match D.Func(toks, pos)
    case Done(None, _) =>
    case Done(Some(f), p) =>
      FuncHasNoConstants(toks, pos);
      assert D.SubProgsLoop(toks, pos, acc) == D.SubProgsLoop(toks, p, acc + [f]);
      SubProgsHaveNoConstants(toks, p, acc + [f]);
  }

  /** A function the parser returns has no constants. */
  lemma FuncHasNoConstants(toks: seq<Token>, pos: nat)
    requires pos <= |toks| && D.Func(toks, pos).Done? && D.Func(toks, pos).value.Some?
    ensures D.Func(toks, pos).value.value.consts == A.Consts([])
  {
    var sig := D.SignatureAt(toks, pos + 1);
    assert sig.Done?;
    var b := D.BlockAt(toks, sig.next, "Expected body");
    assert b.Done?;
    BlockHasNoConstants(toks, sig.next, "Expected body");
    assert D.Func(toks, pos).value.value.consts == b.value.consts;
  }

  /** Every program the parser returns has no constants, so every count in
      its dump is the number of children printed under it. */
  /** Where a parsed program's `consts` and `sub_progs` come from. */
  lemma ParsedSections(toks: seq<Token>, pos: nat)
    requires pos <= |toks| && D.Winzig(toks, pos).Done?
    ensures pos + 3 <= |toks| && D.Consts(toks, pos + 3).Done?
    ensures var p := D.Winzig(toks, pos).value;
      && p.consts == D.Consts(toks, pos + 3).value
      && var p3 := D.Consts(toks, pos + 3).next;
         D.Types(toks, p3).Done?
         && var p4 := D.Types(toks, p3).next;
            D.Dclns(toks, p4).Done?
            && var p5 := D.Dclns(toks, p4).next;
               D.SubProgsLoop(toks, p5, []).Done?
               && p.subProgs == A.SubProgs(D.SubProgsLoop(toks, p5, []).value)
  {
    var w := D.Winzig(toks, pos);
    assert E.Punct(toks, pos, Keyword(Program), "Expected program").Done?;
    var n := E.Expect(E.Name(toks, pos + 1), "Expected program name");
    assert n.Done? && n.next == pos + 2;
    assert E.Punct(toks, pos + 2, Colon, "Expected ':'").Done?;
    var cs := D.Consts(toks, pos + 3);
    assert cs.Done?;
    var ts := D.Types(toks, cs.next);
    assert ts.Done?;
    var ds := D.Dclns(toks, ts.next);
    assert ds.Done?;
    var fs := D.SubProgs(toks, ds.next);
    assert fs.Done?;
    assert w.value.consts == cs.value && w.value.subProgs == fs.value;
  }

  lemma ParsedProgramCounted(toks: seq<Token>, pos: nat)
    requires pos <= |toks| && D.Winzig(toks, pos).Done?
    ensures NoConstants(D.Winzig(toks, pos).value)
    ensures Counted(ProgramDump(D.Winzig(toks, pos).value))
  {
    ParsedSections(toks, pos);
    GrammarFacts.ConstsOnlyEmpty(toks, pos + 3);
    var p3 := D.Consts(toks, pos + 3).next;
    var p4 := D.Types(toks, p3).next;
    var p5 := D.Dclns(toks, p4).next;
    SubProgsHaveNoConstants(toks, p5, []);
    ProgramCounted(D.Winzig(toks, pos).value);
  }

  // ---- Indentation.

  /** An expression holding a `/` or a unary `-` somewhere inside it. */
  predicate ExpressionHasFlush(e: A.Expression) {
    match e
    case Term(t) => TermHasFlush(t)
    case _ => TermHasFlush(e.left) || TermHasFlush(e.right)
  }

  predicate TermHasFlush(t: A.Term) {
    match t
    case Factor(f) => FactorHasFlush(f)
    case _ => TermHasFlush(t.left) || FactorHasFlush(t.right)
  }

  predicate FactorHasFlush(f: A.Factor) {
    match f
    case Primary(p) => PrimaryHasFlush(p)
    case Divide(_, _) => true
    case _ => FactorHasFlush(f.left) || PrimaryHasFlush(f.right)
  }

  predicate PrimaryHasFlush(p: A.Primary) {
    match p
    case Negate(_) => true
    case Not(q) => PrimaryHasFlush(q)
    case Call(_, es) => exists i :: 0 <= i < |es| && ExpressionHasFlush(es[i])
    case Expression(e) => ExpressionHasFlush(e)
    case Succ(e) => ExpressionHasFlush(e)
    case Pred(e) => ExpressionHasFlush(e)
    case Chr(e) => ExpressionHasFlush(e)
    case Ord(e) => ExpressionHasFlush(e)
    case _ => false
  }

  /** Every line of an expression's dump carries its indent exactly when the
      expression has no `/` and no unary `-`. */
  lemma {:induction false} ExpressionIndented(e: A.Expression)
    ensures Indented(ExpressionDump(e)) <==> !ExpressionHasFlush(e)
    decreases e, 1
  {
    if e.Term? {
      TermIndented(e.term);
    } else {
      TermIndented(e.left);
      TermIndented(e.right);
    }
  }

  lemma {:induction false} TermIndented(t: A.Term)
    ensures Indented(TermDump(t)) <==> !TermHasFlush(t)
  {
    if t.Factor? {
      FactorIndented(t.factor);
    } else {
      TermIndented(t.left);
      FactorIndented(t.right);
    }
  }

  lemma {:induction false} FactorIndented(f: A.Factor)
    ensures Indented(FactorDump(f)) <==> !FactorHasFlush(f)
  {
    if f.Primary? {
      PrimaryIndented(f.primary);
    } else if !f.Divide? {
      FactorIndented(f.left);
      PrimaryIndented(f.right);
    }
  }

  lemma {:induction false} PrimaryIndented(p: A.Primary)
    ensures Indented(PrimaryDump(p)) <==> !PrimaryHasFlush(p)
    decreases p, 2
  {
    match p
    case Negate(_) =>
    case Not(q) => PrimaryIndented(q);
    case Call(id, es) =>
      ExpressionsIndented(p, es);
      var d := PrimaryDump(p);
      assert d.kids == [IdentifierDump(id)] + ExpressionDumps(es);
      assert forall k | k in d.kids :: k == IdentifierDump(id) || k in ExpressionDumps(es);
      assert Indented(IdentifierDump(id));
    case Expression(e) => ExpressionIndented(e);
    case Succ(e) => ExpressionIndented(e);
    case Pred(e) => ExpressionIndented(e);
    case Chr(e) => ExpressionIndented(e);
    case Ord(e) => ExpressionIndented(e);
    case Eof =>
    case Name(_) =>
    case Integer(_) =>
    case Char(_) =>
  }

  /** The argument list of a call, `p`, is printed indented exactly when no
      argument has a `/` or a unary `-`. */
  lemma {:induction false} ExpressionsIndented(p: A.Primary, es: seq<A.Expression>)
    requires p.Call? && forall e | e in es :: e in p.exps
    ensures (forall k | k in ExpressionDumps(es) :: Indented(k))
        <==> !exists i :: 0 <= i < |es| && ExpressionHasFlush(es[i])
    decreases p, 1, |es|
  {
    if es != [] {
      assert es[0] in p.exps;
      ExpressionIndented(es[0]);
      ExpressionsIndented(p, es[1..]);
      assert forall i :: 1 <= i < |es| ==> es[i] == es[1..][i - 1];
    }
  }

  /** An expression without `/` or unary `-` printed one level deeper is the
      same dump with one more `. ` in front of every line. */
  lemma ExpressionShifts(e: A.Expression, level: nat)
    requires !ExpressionHasFlush(e)
    ensures T.ExpressionTree(e, level + 1) == Deeper(T.ExpressionTree(e, level))
  {
    ExpressionIndented(e);
    ExpressionRenders(e, level);
    ExpressionRenders(e, level + 1);
    RenderDeeper(ExpressionDump(e), level);
  }

  /** As written, the header of a division has no indent at any level, so it
      does not move with the tree: at level 1 it is not the level-0 line
      pushed one step deeper. */
  lemma DivideIsFlush(l: A.Factor, r: A.Primary, level: nat)
    ensures T.FactorTree(A.Divide(l, r), level)[0] == "/(2)"
    ensures T.FactorTree(A.Divide(l, r), 1)[0] != ". " + T.FactorTree(A.Divide(l, r), 0)[0]
  {
    assert NatToString(2) == "2";
  }

  /** As written, the header of a unary minus has no indent at any level. */
  lemma NegateIsFlush(q: A.Primary, level: nat)
    ensures T.PrimaryTree(A.Negate(q), level)[0] == "-(1)"
    ensures T.PrimaryTree(A.Negate(q), 1)[0] != ". " + T.PrimaryTree(A.Negate(q), 0)[0]
  {
    assert NatToString(1) == "1";
  }

  // ---- Line count.

  /** The dump of a program prints one line per node of its tree. */
  lemma ProgramLines(p: A.Program, level: nat)
    ensures |T.ProgramTree(p, level)| == Size(ProgramDump(p))
  {
    ProgramRenders(p, level);
    RenderSize(ProgramDump(p), level);
  }
}
