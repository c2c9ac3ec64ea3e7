/** Declarations written back as tokens, and the proof that the declaration
    rules read any such token sequence back as the same tree: name lists,
    enumerated types, variable declarations, the `type` and `var` sections,
    parameter lists, function signatures, and (given how their bodies read)
    whole functions and programs. */
module DeclRoundTrip {
  import opened Tokens
  import opened Results
  import opened ExprGrammar
  import opened StmtGrammar
  import opened DeclGrammar
  import opened ExprRoundTrip
  import A = Ast

  /** The names from the `i`-th on, separated by `,` and then `close`: the
      names of a declaration (closed by `:`) or the literals of an
      enumerated type (closed by `)`). */
  function NamesTokens(ns: seq<A.Identifier>, i: nat, close: Token): (r: seq<Token>)
    requires i < |ns|
    ensures |r| == 2 * (|ns| - i) && r[0] == Identifier(ns[i].name) && r[|r| - 1] == close
    decreases |ns| - i
  {
    if i == |ns| - 1 then [Identifier(ns[i].name), close]
    else [Identifier(ns[i].name), Comma] + NamesTokens(ns, i + 1, close)
  }

  /** `name = ( l1 , … , lk )`. */
  function TypeTokens(t: A.Type): (r: seq<Token>)
    requires t.litList.names != []
    ensures |r| == 2 * |t.litList.names| + 3 && r[0] == Identifier(t.name.name)
  {
    [Identifier(t.name.name), Operator(Equal), LeftParen] + NamesTokens(t.litList.names, 0, RightParen)
  }

  /** `n1 , … , nk : type`. */
  function VarTokens(v: A.Var): (r: seq<Token>)
    requires v.names != []
    ensures |r| == 2 * |v.names| + 1 && r[0] == Identifier(v.names[0].name)
  {
    NamesTokens(v.names, 0, Colon) + [Identifier(v.typename.name)]
  }

  /** The source has no way to write an empty name list. */
  predicate WellFormedTypes(ts: seq<A.Type>) {
    forall t <- ts :: t.litList.names != []
  }

  predicate WellFormedVars(vs: seq<A.Var>) {
    forall v <- vs :: v.names != []
  }

  /** The type definitions from the `i`-th on, each followed by `;`. */
  function TypeListTokens(ts: seq<A.Type>, i: nat): (r: seq<Token>)
    requires WellFormedTypes(ts) && i <= |ts|
    ensures |r| >= 4 * (|ts| - i)
    decreases |ts| - i
  {
    if i == |ts| then [] else TypeTokens(ts[i]) + [Semicolon] + TypeListTokens(ts, i + 1)
  }

  /** The declarations from the `i`-th on, each followed by `;`. */
  function VarListTokens(vs: seq<A.Var>, i: nat): (r: seq<Token>)
    requires WellFormedVars(vs) && i <= |vs|
    ensures |r| >= 4 * (|vs| - i)
    decreases |vs| - i
  {
    if i == |vs| then [] else VarTokens(vs[i]) + [Semicolon] + VarListTokens(vs, i + 1)
  }

  /** The `type` section; nothing at all when there are no definitions. */
  function TypesTokens(ts: A.Types): (r: seq<Token>)
    requires WellFormedTypes(ts.types)
    ensures r == [] <==> ts.types == []
    ensures r != [] ==> r[0] == Keyword(Type)
  {
    if ts.types == [] then [] else [Keyword(Type)] + TypeListTokens(ts.types, 0)
  }

  /** The `var` section; nothing at all when there are no declarations. */
  function DclnsTokens(ds: A.Dclns): (r: seq<Token>)
    requires WellFormedVars(ds.vars)
    ensures r == [] <==> ds.vars == []
    ensures r != [] ==> r[0] == Keyword(Var)
  {
    if ds.vars == [] then [] else [Keyword(Var)] + VarListTokens(ds.vars, 0)
  }

  /** The parameters from the `i`-th on, separated by `;`. */
  function ParamsTokens(ps: seq<A.Var>, i: nat): (r: seq<Token>)
    requires WellFormedVars(ps) && i <= |ps|
    ensures r == [] <==> i == |ps|
    ensures r != [] ==> r[0] == Identifier(ps[i].names[0].name)
    decreases |ps| - i
  {
    if i == |ps| then []
    else if i == |ps| - 1 then VarTokens(ps[i])
    else VarTokens(ps[i]) + [Semicolon] + ParamsTokens(ps, i + 1)
  }

  /** `name ( params ) : type ;`, the part of a function after `function`. */
  function SignatureTokens(s: Signature): (r: seq<Token>)
    requires WellFormedVars(s.params.params)
    ensures |r| == |ParamsTokens(s.params.params, 0)| + 6
  {
    [Identifier(s.name.name), LeftParen] + ParamsTokens(s.params.params, 0)
      + [RightParen, Colon, Identifier(s.returnType.name), Semicolon]
  }

  /** The `type` and `var` sections of a function or a program, with no `const`
      section: a non-empty one is never read back (`GrammarFacts.ConstsOnlyEmpty`). */
  function SectionsTokens(ts: A.Types, ds: A.Dclns): (r: seq<Token>)
    requires WellFormedTypes(ts.types) && WellFormedVars(ds.vars)
    ensures r == [] <==> ts.types == [] && ds.vars == []
  {
    TypesTokens(ts) + DclnsTokens(ds)
  }

  /** A function up to its body: `function`, the signature and the sections. */
  function FuncHeadTokens(f: A.Func): (r: seq<Token>)
    requires WellFormedVars(f.params.params) && WellFormedTypes(f.types.types) && WellFormedVars(f.dclns.vars)
    ensures |r| > 0 && r[0] == Keyword(Function)
  {
    [Keyword(Function)] + SignatureTokens(Signature(f.name, f.params, f.returnType)) + SectionsTokens(f.types, f.dclns)
  }

  /** A program up to its functions: `program name :` and the sections. */
  function ProgramHeadTokens(p: A.Program): (r: seq<Token>)
    requires WellFormedTypes(p.types.types) && WellFormedVars(p.dclns.vars)
    ensures |r| >= 3 && r[..3] == [Keyword(Program), Identifier(p.name.name), Colon]
  {
    [Keyword(Program), Identifier(p.name.name), Colon] + SectionsTokens(p.types, p.dclns)
  }

  /** What may follow the sections of a function or a program: its body or
      the first function of a program. */
  predicate EndsSections(t: Token) {
    t == Keyword(Begin) || t == Keyword(Function)
  }

  /** `u` is in `toks` at `pos`. */
  predicate InPlace(toks: seq<Token>, pos: nat, u: seq<Token>) {
    pos + |u| <= |toks| && toks[pos..pos + |u|] == u
  }

  lemma At(toks: seq<Token>, pos: nat, u: seq<Token>, i: nat)
    requires InPlace(toks, pos, u) && i < |u|
    ensures toks[pos + i] == u[i]
  {
    assert toks[pos..pos + |u|][i] == u[i];
  }

  /** Two token sequences in place one after the other. */
  lemma Cut(toks: seq<Token>, pos: nat, a: seq<Token>, b: seq<Token>)
    requires InPlace(toks, pos, a + b)
    ensures InPlace(toks, pos, a) && InPlace(toks, pos + |a|, b)
  {
    Split(toks, pos, a, b);
  }

  /** A token in place, and the tokens after it. */
  lemma Lead(toks: seq<Token>, pos: nat, t: Token, b: seq<Token>)
    requires InPlace(toks, pos, [t] + b)
    ensures pos < |toks| && toks[pos] == t && InPlace(toks, pos + 1, b)
  {
    At(toks, pos, [t] + b, 0);
    Split(toks, pos, [t], b);
  }

  /** What a loop has read, extended by what it reads next. */
  lemma Extend<T>(xs: seq<T>, i: nat)
    requires i < |xs|
    ensures xs[..i] + [xs[i]] == xs[..i + 1]
    ensures i + 1 == |xs| ==> xs[..i + 1] == xs
  {
  }

  // Single rounds of the rules' loops, and the rules that run one after
  // another in a signature, a block, a function and a program, each stated
  // on its own so that the proofs below never open a rule and its callees
  // at once.

  lemma DclnNamesMore(toks: seq<Token>, pos: nat, acc: seq<A.Identifier>, n: A.Identifier)
    requires pos + 1 < |toks| && toks[pos] == Identifier(n.name) && toks[pos + 1] == Comma
    ensures DclnNames(toks, pos, acc) == DclnNames(toks, pos + 2, acc + [n])
  {
  }

  lemma DclnNamesLast(toks: seq<Token>, pos: nat, acc: seq<A.Identifier>, n: A.Identifier)
    requires pos + 1 < |toks| && toks[pos] == Identifier(n.name) && toks[pos + 1] == Colon
    ensures DclnNames(toks, pos, acc) == Done(acc + [n], pos + 2)
  {
  }

  lemma LitNamesMore(toks: seq<Token>, pos: nat, acc: seq<A.Identifier>, n: A.Identifier)
    requires pos + 1 < |toks| && toks[pos] == Identifier(n.name) && toks[pos + 1] == Comma
    ensures LitNames(toks, pos, acc) == LitNames(toks, pos + 2, acc + [n])
  {
  }

  lemma LitNamesLast(toks: seq<Token>, pos: nat, acc: seq<A.Identifier>, n: A.Identifier)
    requires pos + 1 < |toks| && toks[pos] == Identifier(n.name) && toks[pos + 1] == RightParen
    ensures LitNames(toks, pos, acc) == Done(acc + [n], pos + 2)
  {
  }

  lemma TypesLoopStep(toks: seq<Token>, pos: nat, acc: seq<A.Type>, t: A.Type, mid: nat)
    requires pos <= |toks| && TypeExpr(toks, pos) == Done(Some(t), mid) && mid < |toks| && toks[mid] == Semicolon
    ensures TypesLoop(toks, pos, acc) == TypesLoop(toks, mid + 1, acc + [t])
  {
  }

  lemma TypesLoopStop(toks: seq<Token>, pos: nat, acc: seq<A.Type>)
    requires pos < |toks| && !toks[pos].Identifier?
    ensures TypesLoop(toks, pos, acc) == Done(acc, pos)
  {
  }

  lemma DclnsLoopStep(toks: seq<Token>, pos: nat, acc: seq<A.Var>, v: A.Var, mid: nat)
    requires pos <= |toks| && Dcln(toks, pos) == Done(Some(v), mid) && mid < |toks| && toks[mid] == Semicolon
    ensures DclnsLoop(toks, pos, acc) == DclnsLoop(toks, mid + 1, acc + [v])
  {
  }

  lemma DclnsLoopStop(toks: seq<Token>, pos: nat, acc: seq<A.Var>)
    requires pos < |toks| && !toks[pos].Identifier?
    ensures DclnsLoop(toks, pos, acc) == Done(acc, pos)
  {
  }

  lemma ParamsLoopStep(toks: seq<Token>, pos: nat, acc: seq<A.Var>, v: A.Var, mid: nat)
    requires pos <= |toks| && Dcln(toks, pos) == Done(Some(v), mid) && mid < |toks| && toks[mid] == Semicolon
    ensures ParamsLoop(toks, pos, acc) == ParamsLoop(toks, mid + 1, acc + [v])
  {
  }

  lemma ParamsLoopLast(toks: seq<Token>, pos: nat, acc: seq<A.Var>, v: A.Var, mid: nat)
    requires pos <= |toks| && Dcln(toks, pos) == Done(Some(v), mid) && mid < |toks| && toks[mid] != Semicolon
    ensures ParamsLoop(toks, pos, acc) == Done(acc + [v], mid)
  {
  }

  lemma ParamsLoopStop(toks: seq<Token>, pos: nat, acc: seq<A.Var>)
    requires pos < |toks| && !toks[pos].Identifier?
    ensures ParamsLoop(toks, pos, acc) == Done(acc, pos)
  {
  }

  lemma SubProgsLoopStep(toks: seq<Token>, pos: nat, acc: seq<A.Func>, f: A.Func, mid: nat)
    requires pos <= |toks| && Func(toks, pos) == Done(Some(f), mid)
    ensures SubProgsLoop(toks, pos, acc) == SubProgsLoop(toks, mid, acc + [f])
  {
  }

  lemma SubProgsLoopStop(toks: seq<Token>, pos: nat, acc: seq<A.Func>)
    requires pos < |toks| && toks[pos] != Keyword(Function)
    ensures SubProgsLoop(toks, pos, acc) == Done(acc, pos)
  {
  }

  lemma SignatureStep(toks: seq<Token>, pos: nat, s: Signature, p2: nat)
    requires pos + 2 <= |toks| && toks[pos] == Identifier(s.name.name) && toks[pos + 1] == LeftParen
    requires Params(toks, pos + 2) == Done(s.params, p2)
    requires p2 + 3 < |toks| && toks[p2] == RightParen && toks[p2 + 1] == Colon
    requires toks[p2 + 2] == Identifier(s.returnType.name) && toks[p2 + 3] == Semicolon
    ensures SignatureAt(toks, pos) == Done(s, p2 + 4)
  {
    NameAt(toks, pos, s.name, "Expected name");
    NameAt(toks, p2 + 2, s.returnType, "Expected name");
  }

  lemma BlockStep(toks: seq<Token>, pos: nat, b: Block, p1: nat, p2: nat, p3: nat, q: nat, bodyMsg: string)
    requires pos <= |toks| && Consts(toks, pos) == Done(b.consts, p1)
    requires Types(toks, p1) == Done(b.types, p2)
    requires Dclns(toks, p2) == Done(b.dclns, p3)
    requires Expect(Body(toks, p3), bodyMsg) == Done(b.body, q)
    ensures BlockAt(toks, pos, bodyMsg) == Done(b, q)
  {
  }

  lemma FuncStep(toks: seq<Token>, pos: nat, f: A.Func, p1: nat, p2: nat, p3: nat, q: nat)
    requires pos < |toks| && toks[pos] == Keyword(Function)
    requires SignatureAt(toks, pos + 1) == Done(Signature(f.name, f.params, f.returnType), p1)
    requires BlockAt(toks, p1, "Expected body") == Done(Block(f.consts, f.types, f.dclns, f.body), p2)
    requires Expect(Name(toks, p2), "Expected name") == Done(f.endName, p3)
    requires Punct(toks, p3, Semicolon, "Expected ';'") == Done((), q)
    ensures Func(toks, pos) == Done(Some(f), q)
  {
  }

  lemma WinzigStep(toks: seq<Token>, pos: nat, prog: A.Program,
                   p: nat, p1: nat, p2: nat, p3: nat, p4: nat, p5: nat, p6: nat, p7: nat, p8: nat, q: nat)
    requires pos <= |toks| && Punct(toks, pos, Keyword(Program), "Expected program") == Done((), p)
    requires Expect(Name(toks, p), "Expected program name") == Done(prog.name, p1)
    requires Punct(toks, p1, Colon, "Expected ':'") == Done((), p2)
    requires Consts(toks, p2) == Done(prog.consts, p3)
    requires Types(toks, p3) == Done(prog.types, p4)
    requires Dclns(toks, p4) == Done(prog.dclns, p5)
    requires SubProgs(toks, p5) == Done(prog.subProgs, p6)
    requires Expect(Body(toks, p6), "Expected program body") == Done(prog.body, p7)
    requires Expect(Name(toks, p7), "Expected program end name") == Done(prog.endName, p8)
    requires Punct(toks, p8, Dot, "Expected '.'") == Done((), q)
    ensures Winzig(toks, pos) == Done(prog, q)
  {
  }

  /** An identifier token at the cursor is the name it spells. */
  lemma NameAt(toks: seq<Token>, pos: nat, n: A.Identifier, msg: string)
    requires pos < |toks| && toks[pos] == Identifier(n.name)
    ensures Expect(Name(toks, pos), msg) == Done(n, pos + 1)
  {
  }

  /** The first name of a name list, and what follows it. */
  lemma NamesParts(ns: seq<A.Identifier>, i: nat, close: Token, toks: seq<Token>, pos: nat)
    requires i < |ns| && InPlace(toks, pos, NamesTokens(ns, i, close))
    ensures toks[pos] == Identifier(ns[i].name)
    ensures i == |ns| - 1 ==> toks[pos + 1] == close
    ensures i < |ns| - 1 ==> toks[pos + 1] == Comma && InPlace(toks, pos + 2, NamesTokens(ns, i + 1, close))
  {
    var u := NamesTokens(ns, i, close);
    At(toks, pos, u, 0);
    At(toks, pos, u, 1);
    if i < |ns| - 1 {
      Split(toks, pos, [Identifier(ns[i].name), Comma], NamesTokens(ns, i + 1, close));
    }
  }

  /** The name loop of a declaration reads its names and the `:`. */
  lemma {:induction false} DclnNamesReads(ns: seq<A.Identifier>, i: nat, toks: seq<Token>, pos: nat)
    requires i < |ns| && InPlace(toks, pos, NamesTokens(ns, i, Colon))
    ensures DclnNames(toks, pos, ns[..i]) == Done(ns, pos + 2 * (|ns| - i))
    decreases |ns| - i
  {
    NamesParts(ns, i, Colon, toks, pos);
    Extend(ns, i);
    if i == |ns| - 1 {
      DclnNamesLast(toks, pos, ns[..i], ns[i]);
    } else {
      DclnNamesMore(toks, pos, ns[..i], ns[i]);
      DclnNamesReads(ns, i + 1, toks, pos + 2);
    }
  }

  /** The name loop of an enumerated type reads its literals and the `)`. */
  lemma {:induction false} LitNamesReads(ns: seq<A.Identifier>, i: nat, toks: seq<Token>, pos: nat)
    requires i < |ns| && InPlace(toks, pos, NamesTokens(ns, i, RightParen))
    ensures LitNames(toks, pos, ns[..i]) == Done(ns, pos + 2 * (|ns| - i))
    decreases |ns| - i
  {
    NamesParts(ns, i, RightParen, toks, pos);
    Extend(ns, i);
    if i == |ns| - 1 {
      LitNamesLast(toks, pos, ns[..i], ns[i]);
    } else {
      LitNamesMore(toks, pos, ns[..i], ns[i]);
      LitNamesReads(ns, i + 1, toks, pos + 2);
    }
  }

  /** `( l1 , … , lk )` reads back as the literal list, whatever follows it. */
  lemma LitListReads(l: A.LitList, toks: seq<Token>, pos: nat)
    requires l.names != [] && InPlace(toks, pos, [LeftParen] + NamesTokens(l.names, 0, RightParen))
    ensures LitList(toks, pos) == Done(l, pos + 2 * |l.names| + 1)
  {
    At(toks, pos, [LeftParen] + NamesTokens(l.names, 0, RightParen), 0);
    Split(toks, pos, [LeftParen], NamesTokens(l.names, 0, RightParen));
    LitNamesReads(l.names, 0, toks, pos + 1);
    assert l.names[..0] == [];
  }

  /** A type definition reads back as itself, whatever follows it. */
  lemma TypeExprReads(t: A.Type, toks: seq<Token>, pos: nat)
    requires t.litList.names != [] && InPlace(toks, pos, TypeTokens(t))
    ensures TypeExpr(toks, pos) == Done(Some(t), pos + |TypeTokens(t)|)
  {
    var u := TypeTokens(t);
    At(toks, pos, u, 0);
    At(toks, pos, u, 1);
    Split(toks, pos, [Identifier(t.name.name), Operator(Equal)], [LeftParen] + NamesTokens(t.litList.names, 0, RightParen));
    LitListReads(t.litList, toks, pos + 2);
  }

  /** A declaration `n1 , … , nk : type` reads back as itself, whatever
      follows it. */
  lemma DclnReads(v: A.Var, toks: seq<Token>, pos: nat)
    requires v.names != [] && InPlace(toks, pos, VarTokens(v))
    ensures Dcln(toks, pos) == Done(Some(v), pos + |VarTokens(v)|)
  {
    var u := VarTokens(v);
    At(toks, pos, u, 0);
    Split(toks, pos, NamesTokens(v.names, 0, Colon), [Identifier(v.typename.name)]);
    DclnNamesReads(v.names, 0, toks, pos);
    assert v.names[..0] == [];
    At(toks, pos + 2 * |v.names|, [Identifier(v.typename.name)], 0);
  }

  /** The `i`-th definition of a `type` section, its `;`, and the rest. */
  lemma TypeListParts(ts: seq<A.Type>, i: nat, toks: seq<Token>, pos: nat)
    requires i < |ts| && WellFormedTypes(ts) && InPlace(toks, pos, TypeListTokens(ts, i))
    ensures var mid := pos + |TypeTokens(ts[i])|;
      && InPlace(toks, pos, TypeTokens(ts[i])) && toks[mid] == Semicolon
      && InPlace(toks, mid + 1, TypeListTokens(ts, i + 1))
      && pos + |TypeListTokens(ts, i)| == mid + 1 + |TypeListTokens(ts, i + 1)|
  {
    Split3(toks, pos, TypeTokens(ts[i]), Semicolon, TypeListTokens(ts, i + 1));
  }

  /** One definition and its `;` read by the loop of the `type` section. */
  lemma TypeListRound(ts: seq<A.Type>, i: nat, toks: seq<Token>, pos: nat)
    requires i < |ts| && WellFormedTypes(ts) && InPlace(toks, pos, TypeTokens(ts[i]))
    requires pos + |TypeTokens(ts[i])| < |toks| && toks[pos + |TypeTokens(ts[i])|] == Semicolon
    ensures TypesLoop(toks, pos, ts[..i]) == TypesLoop(toks, pos + |TypeTokens(ts[i])| + 1, ts[..i + 1])
  {
    TypeExprReads(ts[i], toks, pos);
    Extend(ts, i);
    TypesLoopStep(toks, pos, ts[..i], ts[i], pos + |TypeTokens(ts[i])|);
  }

  /** One round of the loop of the `type` section, and what is left to read. */
  lemma TypeListStep(ts: seq<A.Type>, i: nat, toks: seq<Token>, pos: nat)
    requires i < |ts| && WellFormedTypes(ts) && InPlace(toks, pos, TypeListTokens(ts, i))
    ensures var next := pos + |TypeTokens(ts[i])| + 1;
      && InPlace(toks, next, TypeListTokens(ts, i + 1))
      && pos + |TypeListTokens(ts, i)| == next + |TypeListTokens(ts, i + 1)|
      && TypesLoop(toks, pos, ts[..i]) == TypesLoop(toks, next, ts[..i + 1])
  {
    TypeListParts(ts, i, toks, pos);
    TypeListRound(ts, i, toks, pos);
  }

  /** The loop of the `type` section reads each definition and its `;`, and
      stops at the first token that is not an identifier. */
  lemma {:induction false} TypeListReads(ts: seq<A.Type>, i: nat, toks: seq<Token>, pos: nat, end: nat)
    requires i <= |ts| && WellFormedTypes(ts) && InPlace(toks, pos, TypeListTokens(ts, i))
    requires end == pos + |TypeListTokens(ts, i)| && end < |toks| && !toks[end].Identifier?
    ensures TypesLoop(toks, pos, ts[..i]) == Done(ts, end)
    decreases |ts| - i, 1
  {
    if i == |ts| {
      TypesLoopStop(toks, pos, ts[..i]);
      assert ts[..i] == ts;
    } else {
      TypeListMore(ts, i, toks, pos, pos + |TypeTokens(ts[i])| + 1, end);
    }
  }

  /** The inductive step of TypeListReads: one round, then the rest of the section. */
  lemma {:induction false} TypeListMore(ts: seq<A.Type>, i: nat, toks: seq<Token>, pos: nat, next: nat, end: nat)
    requires i < |ts| && WellFormedTypes(ts) && InPlace(toks, pos, TypeListTokens(ts, i))
    requires next == pos + |TypeTokens(ts[i])| + 1
    requires end == pos + |TypeListTokens(ts, i)| && end < |toks| && !toks[end].Identifier?
    ensures TypesLoop(toks, pos, ts[..i]) == Done(ts, end)
    decreases |ts| - i, 0
  {
    TypeListStep(ts, i, toks, pos);
    TypeListReads(ts, i + 1, toks, next, end);
  }

  /** The `i`-th declaration of a `var` section, its `;`, and the rest. */
  lemma VarListParts(vs: seq<A.Var>, i: nat, toks: seq<Token>, pos: nat)
    requires i < |vs| && WellFormedVars(vs) && InPlace(toks, pos, VarListTokens(vs, i))
    ensures var mid := pos + |VarTokens(vs[i])|;
      && InPlace(toks, pos, VarTokens(vs[i])) && toks[mid] == Semicolon
      && InPlace(toks, mid + 1, VarListTokens(vs, i + 1))
      && pos + |VarListTokens(vs, i)| == mid + 1 + |VarListTokens(vs, i + 1)|
  {
    Split3(toks, pos, VarTokens(vs[i]), Semicolon, VarListTokens(vs, i + 1));
  }

  /** One declaration and its `;` read by the loop of the `var` section. */
  lemma VarListRound(vs: seq<A.Var>, i: nat, toks: seq<Token>, pos: nat)
    requires i < |vs| && WellFormedVars(vs) && InPlace(toks, pos, VarTokens(vs[i]))
    requires pos + |VarTokens(vs[i])| < |toks| && toks[pos + |VarTokens(vs[i])|] == Semicolon
    ensures DclnsLoop(toks, pos, vs[..i]) == DclnsLoop(toks, pos + |VarTokens(vs[i])| + 1, vs[..i + 1])
  {
    DclnReads(vs[i], toks, pos);
    Extend(vs, i);
    DclnsLoopStep(toks, pos, vs[..i], vs[i], pos + |VarTokens(vs[i])|);
  }

  /** One round of the loop of the `var` section, and what is left to read. */
  lemma VarListStep(vs: seq<A.Var>, i: nat, toks: seq<Token>, pos: nat)
    requires i < |vs| && WellFormedVars(vs) && InPlace(toks, pos, VarListTokens(vs, i))
    ensures var next := pos + |VarTokens(vs[i])| + 1;
      && InPlace(toks, next, VarListTokens(vs, i + 1))
      && pos + |VarListTokens(vs, i)| == next + |VarListTokens(vs, i + 1)|
      && DclnsLoop(toks, pos, vs[..i]) == DclnsLoop(toks, next, vs[..i + 1])
  {
    VarListParts(vs, i, toks, pos);
    VarListRound(vs, i, toks, pos);
  }

  /** The loop of the `var` section reads each declaration and its `;`, and
      stops at the first token that is not an identifier. */
  lemma {:induction false} VarListReads(vs: seq<A.Var>, i: nat, toks: seq<Token>, pos: nat, end: nat)
    requires i <= |vs| && WellFormedVars(vs) && InPlace(toks, pos, VarListTokens(vs, i))
    requires end == pos + |VarListTokens(vs, i)| && end < |toks| && !toks[end].Identifier?
    ensures DclnsLoop(toks, pos, vs[..i]) == Done(vs, end)
    decreases |vs| - i, 1
  {
    if i == |vs| {
      DclnsLoopStop(toks, pos, vs[..i]);
      assert vs[..i] == vs;
    } else {
      VarListMore(vs, i, toks, pos, pos + |VarTokens(vs[i])| + 1, end);
    }
  }

  /** The inductive step of VarListReads: one round, then the rest of the section. */
  lemma {:induction false} VarListMore(vs: seq<A.Var>, i: nat, toks: seq<Token>, pos: nat, next: nat, end: nat)
    requires i < |vs| && WellFormedVars(vs) && InPlace(toks, pos, VarListTokens(vs, i))
    requires next == pos + |VarTokens(vs[i])| + 1
    requires end == pos + |VarListTokens(vs, i)| && end < |toks| && !toks[end].Identifier?
    ensures DclnsLoop(toks, pos, vs[..i]) == Done(vs, end)
    decreases |vs| - i, 0
  {
    VarListStep(vs, i, toks, pos);
    VarListReads(vs, i + 1, toks, next, end);
  }

  /** The `type` section, up to `end`, reads back as itself when the next
      token neither continues it (an identifier) nor, for an empty section,
      opens one. */
  lemma TypesReads(ts: A.Types, toks: seq<Token>, pos: nat, end: nat)
    requires WellFormedTypes(ts.types) && InPlace(toks, pos, TypesTokens(ts)) && end == pos + |TypesTokens(ts)|
    requires end < |toks| && !toks[end].Identifier?
    requires ts.types == [] ==> toks[pos] != Keyword(Type)
    ensures Types(toks, pos) == Done(ts, end)
  {
    if ts.types != [] {
      Lead(toks, pos, Keyword(Type), TypeListTokens(ts.types, 0));
      TypeListReads(ts.types, 0, toks, pos + 1, end);
      assert ts.types[..0] == [];
    }
  }

  /** The `var` section, up to `end`, reads back as itself when the next token
      neither continues it (an identifier) nor, for an empty section, opens
      one. */
  lemma DclnsReads(ds: A.Dclns, toks: seq<Token>, pos: nat, end: nat)
    requires WellFormedVars(ds.vars) && InPlace(toks, pos, DclnsTokens(ds)) && end == pos + |DclnsTokens(ds)|
    requires end < |toks| && !toks[end].Identifier?
    requires ds.vars == [] ==> toks[pos] != Keyword(Var)
    ensures Dclns(toks, pos) == Done(ds, end)
  {
    if ds.vars != [] {
      Lead(toks, pos, Keyword(Var), VarListTokens(ds.vars, 0));
      VarListReads(ds.vars, 0, toks, pos + 1, end);
      assert ds.vars[..0] == [];
    }
  }

  /** The `i`-th parameter, the `;` after it when more follow, and the rest. */
  /** The last declaration of a parameter list, not followed by `;`. */
  lemma ParamsLast(ps: seq<A.Var>, i: nat, toks: seq<Token>, pos: nat, end: nat)
    requires i == |ps| - 1 && WellFormedVars(ps) && InPlace(toks, pos, ParamsTokens(ps, i))
    requires end == pos + |ParamsTokens(ps, i)| && end < |toks| && toks[end] != Semicolon
    ensures ParamsLoop(toks, pos, ps[..i]) == Done(ps, end)
  {
    DclnReads(ps[i], toks, pos);
    Extend(ps, i);
    ParamsLoopLast(toks, pos, ps[..i], ps[i], end);
  }

  /** A declaration followed by `;`: the loop goes on after the `;`. */
  lemma ParamsRound(ps: seq<A.Var>, i: nat, toks: seq<Token>, pos: nat, next: nat)
    requires i < |ps| - 1 && WellFormedVars(ps) && InPlace(toks, pos, ParamsTokens(ps, i))
    requires next == pos + |VarTokens(ps[i])| + 1
    ensures InPlace(toks, next, ParamsTokens(ps, i + 1))
    ensures pos + |ParamsTokens(ps, i)| == next + |ParamsTokens(ps, i + 1)|
    ensures ParamsLoop(toks, pos, ps[..i]) == ParamsLoop(toks, next, ps[..i + 1])
  {
    Split3(toks, pos, VarTokens(ps[i]), Semicolon, ParamsTokens(ps, i + 1));
    DclnReads(ps[i], toks, pos);
    Extend(ps, i);
    ParamsLoopStep(toks, pos, ps[..i], ps[i], next - 1);
  }

  /** The parameter loop reads declarations separated by `;` and stops at the
      first declaration not followed by `;`; an empty list is read when no
      identifier is at the cursor. */
  lemma {:induction false} ParamListReads(ps: seq<A.Var>, i: nat, toks: seq<Token>, pos: nat, end: nat)
    requires i <= |ps| && WellFormedVars(ps) && InPlace(toks, pos, ParamsTokens(ps, i))
    requires end == pos + |ParamsTokens(ps, i)| && end < |toks| && toks[end] != Semicolon
    requires i == |ps| ==> !toks[pos].Identifier?
    ensures ParamsLoop(toks, pos, ps[..i]) == Done(ps, end)
    decreases |ps| - i, 1
  {
    if i == |ps| {
      ParamsLoopStop(toks, pos, ps[..i]);
      assert ps[..i] == ps;
    } else if i == |ps| - 1 {
      ParamsLast(ps, i, toks, pos, end);
    } else {
      ParamListMore(ps, i, toks, pos, pos + |VarTokens(ps[i])| + 1, end);
    }
  }

  /** The inductive step of ParamListReads: one round, then the rest of the list. */
  lemma {:induction false} ParamListMore(ps: seq<A.Var>, i: nat, toks: seq<Token>, pos: nat, next: nat, end: nat)
    requires i < |ps| - 1 && WellFormedVars(ps) && InPlace(toks, pos, ParamsTokens(ps, i))
    requires next == pos + |VarTokens(ps[i])| + 1
    requires end == pos + |ParamsTokens(ps, i)| && end < |toks| && toks[end] != Semicolon
    ensures ParamsLoop(toks, pos, ps[..i]) == Done(ps, end)
    decreases |ps| - i, 0
  {
    ParamsRound(ps, i, toks, pos, next);
    ParamListReads(ps, i + 1, toks, next, end);
  }

  /** A parameter list reads back as itself before the `)` that closes it. */
  lemma ParamsReads(ps: A.Params, toks: seq<Token>, pos: nat, end: nat)
    requires WellFormedVars(ps.params) && InPlace(toks, pos, ParamsTokens(ps.params, 0))
    requires end == pos + |ParamsTokens(ps.params, 0)| && end < |toks| && toks[end] == RightParen
    ensures Params(toks, pos) == Done(ps, end)
  {
    ParamListReads(ps.params, 0, toks, pos, end);
    assert ps.params[..0] == [];
  }

  /** The tokens of a signature, each in its place; the parameters end at `p2`. */
  lemma SignatureParts(s: Signature, toks: seq<Token>, pos: nat, p2: nat)
    requires WellFormedVars(s.params.params) && InPlace(toks, pos, SignatureTokens(s))
    requires p2 == pos + 2 + |ParamsTokens(s.params.params, 0)|
    ensures toks[pos] == Identifier(s.name.name) && toks[pos + 1] == LeftParen
    ensures InPlace(toks, pos + 2, ParamsTokens(s.params.params, 0))
    ensures p2 + 3 < |toks| && toks[p2] == RightParen && toks[p2 + 1] == Colon
    ensures toks[p2 + 2] == Identifier(s.returnType.name) && toks[p2 + 3] == Semicolon
  {
    SignatureCut(s, toks, pos, p2);
    At(toks, pos, [Identifier(s.name.name), LeftParen], 0);
    At(toks, pos, [Identifier(s.name.name), LeftParen], 1);
    TailAt(toks, p2, [RightParen, Colon, Identifier(s.returnType.name), Semicolon]);
  }

  /** The three stretches of a signature's tokens. */
  lemma SignatureCut(s: Signature, toks: seq<Token>, pos: nat, p2: nat)
    requires WellFormedVars(s.params.params) && InPlace(toks, pos, SignatureTokens(s))
    requires p2 == pos + 2 + |ParamsTokens(s.params.params, 0)|
    ensures InPlace(toks, pos, [Identifier(s.name.name), LeftParen])
    ensures InPlace(toks, pos + 2, ParamsTokens(s.params.params, 0))
    ensures InPlace(toks, p2, [RightParen, Colon, Identifier(s.returnType.name), Semicolon])
  {
    var pt := ParamsTokens(s.params.params, 0);
    var tail := [RightParen, Colon, Identifier(s.returnType.name), Semicolon];
    Cut(toks, pos, [Identifier(s.name.name), LeftParen] + pt, tail);
    Cut(toks, pos, [Identifier(s.name.name), LeftParen], pt);
  }

  /** Four tokens in place, one by one. */
  lemma TailAt(toks: seq<Token>, pos: nat, tail: seq<Token>)
    requires |tail| == 4 && InPlace(toks, pos, tail)
    ensures pos + 3 < |toks| && toks[pos] == tail[0] && toks[pos + 1] == tail[1]
    ensures toks[pos + 2] == tail[2] && toks[pos + 3] == tail[3]
  {
    At(toks, pos, tail, 0);
    At(toks, pos, tail, 1);
    At(toks, pos, tail, 2);
    At(toks, pos, tail, 3);
  }

  /** A signature, up to `end`, reads back as itself, whatever follows it. */
  lemma SignatureReads(s: Signature, toks: seq<Token>, pos: nat, end: nat)
    requires WellFormedVars(s.params.params) && InPlace(toks, pos, SignatureTokens(s))
    requires end == pos + |SignatureTokens(s)|
    ensures SignatureAt(toks, pos) == Done(s, end)
  {
    SignatureReadsAt(s, toks, pos, pos + 2 + |ParamsTokens(s.params.params, 0)|, end);
  }

  /** SignatureReads, with `p2` the position of the `)` closing the parameters. */
  lemma SignatureReadsAt(s: Signature, toks: seq<Token>, pos: nat, p2: nat, end: nat)
    requires WellFormedVars(s.params.params) && InPlace(toks, pos, SignatureTokens(s))
    requires p2 == pos + 2 + |ParamsTokens(s.params.params, 0)| && end == p2 + 4
    ensures SignatureAt(toks, pos) == Done(s, end)
  {
    SignatureParts(s, toks, pos, p2);
    ParamsReads(s.params, toks, pos + 2, p2);
    SignatureStep(toks, pos, s, p2);
  }

  /** Where the sections of a function or a program start and end, and the
      tokens that follow each of them: the `type` section ends at `mid` and
      the `var` section at `end`. */
  lemma SectionsParts(ts: A.Types, ds: A.Dclns, toks: seq<Token>, pos: nat, mid: nat, end: nat)
    requires WellFormedTypes(ts.types) && WellFormedVars(ds.vars) && InPlace(toks, pos, SectionsTokens(ts, ds))
    requires mid == pos + |TypesTokens(ts)| && end == pos + |SectionsTokens(ts, ds)|
    requires end < |toks| && EndsSections(toks[end])
    ensures toks[pos] != Keyword(Const)
    ensures InPlace(toks, pos, TypesTokens(ts)) && mid < |toks| && !toks[mid].Identifier?
    ensures ts.types == [] ==> toks[pos] != Keyword(Type)
    ensures InPlace(toks, mid, DclnsTokens(ds)) && end == mid + |DclnsTokens(ds)|
    ensures ds.vars == [] ==> toks[mid] != Keyword(Var)
  {
    var tt, dt := TypesTokens(ts), DclnsTokens(ds);
    Cut(toks, pos, tt, dt);
    if tt != [] {
      At(toks, pos, tt, 0);
    } else if dt != [] {
      At(toks, pos, dt, 0);
    }
    if dt != [] {
      At(toks, mid, dt, 0);
    }
  }

  /** The sections of a function or a program, followed by its body or by a
      function: no `const` section, then the `type` section up to `mid` and the
      `var` section up to `end`. */
  lemma SectionsRead(ts: A.Types, ds: A.Dclns, toks: seq<Token>, pos: nat, mid: nat, end: nat)
    requires WellFormedTypes(ts.types) && WellFormedVars(ds.vars) && InPlace(toks, pos, SectionsTokens(ts, ds))
    requires mid == pos + |TypesTokens(ts)| && end == pos + |SectionsTokens(ts, ds)|
    requires end < |toks| && EndsSections(toks[end])
    ensures mid <= end
    ensures Consts(toks, pos) == Done(A.Consts([]), pos)
    ensures Types(toks, pos) == Done(ts, mid)
    ensures Dclns(toks, mid) == Done(ds, end)
  {
    SectionsParts(ts, ds, toks, pos, mid, end);
    DclnsReads(ds, toks, mid, end);
    TypesReads(ts, toks, pos, mid);
  }

  /** A body that reads back starts with `begin`. */
  lemma BodyLead(toks: seq<Token>, pos: nat, b: A.Body, q: nat)
    requires pos <= |toks| && Body(toks, pos) == Done(Some(b), q)
    ensures pos < |toks| && toks[pos] == Keyword(Begin)
  {
  }

  /** Functions that read back and are followed by a body start with
      `function` or are absent, so that `begin` follows the sections. */
  lemma SubProgsFollow(toks: seq<Token>, pos: nat, fs: A.SubProgs, mid: nat)
    requires pos <= |toks| && SubProgs(toks, pos) == Done(fs, mid)
    requires mid < |toks| && toks[mid] == Keyword(Begin)
    ensures pos < |toks| && EndsSections(toks[pos])
  {
    if pos < |toks| && toks[pos] != Keyword(Function) {
      SubProgsLoopStop(toks, pos, []);
    }
  }

  /** The sections up to `end` and a body that reads as `b`: the block of a
      function. */
  lemma BlockReads(ts: A.Types, ds: A.Dclns, b: A.Body, toks: seq<Token>, pos: nat, end: nat, q: nat, bodyMsg: string)
    requires WellFormedTypes(ts.types) && WellFormedVars(ds.vars) && InPlace(toks, pos, SectionsTokens(ts, ds))
    requires end == pos + |SectionsTokens(ts, ds)|
    requires Body(toks, end) == Done(Some(b), q)
    ensures BlockAt(toks, pos, bodyMsg) == Done(Block(A.Consts([]), ts, ds, b), q)
  {
    BodyLead(toks, end, b, q);
    var mid := pos + |TypesTokens(ts)|;
    SectionsRead(ts, ds, toks, pos, mid, end);
    BlockStep(toks, pos, Block(A.Consts([]), ts, ds, b), pos, mid, end, q, bodyMsg);
  }

  /** The tokens of a function's head, each part in its place: the signature
      ends at `p1` and the sections at `end`. */
  lemma FuncHeadParts(f: A.Func, toks: seq<Token>, pos: nat, p1: nat, end: nat)
    requires WellFormedVars(f.params.params) && WellFormedTypes(f.types.types) && WellFormedVars(f.dclns.vars)
    requires InPlace(toks, pos, FuncHeadTokens(f)) && end == pos + |FuncHeadTokens(f)|
    requires p1 == pos + 1 + |SignatureTokens(Signature(f.name, f.params, f.returnType))|
    ensures toks[pos] == Keyword(Function)
    ensures InPlace(toks, pos + 1, SignatureTokens(Signature(f.name, f.params, f.returnType)))
    ensures InPlace(toks, p1, SectionsTokens(f.types, f.dclns)) && end == p1 + |SectionsTokens(f.types, f.dclns)|
  {
    var st, sec := SignatureTokens(Signature(f.name, f.params, f.returnType)), SectionsTokens(f.types, f.dclns);
    Cut(toks, pos, [Keyword(Function)] + st, sec);
    Lead(toks, pos, Keyword(Function), st);
  }

  /** The head and the block of a function without constants read back,
      given that its body, at `end`, reads back. */
  lemma FuncHeadReads(f: A.Func, toks: seq<Token>, pos: nat, p1: nat, end: nat, q: nat)
    requires f.consts == A.Consts([])
    requires WellFormedVars(f.params.params) && WellFormedTypes(f.types.types) && WellFormedVars(f.dclns.vars)
    requires InPlace(toks, pos, FuncHeadTokens(f)) && end == pos + |FuncHeadTokens(f)|
    requires p1 == pos + 1 + |SignatureTokens(Signature(f.name, f.params, f.returnType))|
    requires Body(toks, end) == Done(Some(f.body), q)
    ensures pos < |toks| && toks[pos] == Keyword(Function)
    ensures SignatureAt(toks, pos + 1) == Done(Signature(f.name, f.params, f.returnType), p1)
    ensures BlockAt(toks, p1, "Expected body") == Done(Block(f.consts, f.types, f.dclns, f.body), q)
  {
    FuncHeadParts(f, toks, pos, p1, end);
    BlockReads(f.types, f.dclns, f.body, toks, p1, end, q, "Expected body");
    SignatureReads(Signature(f.name, f.params, f.returnType), toks, pos + 1, p1);
  }

  /** A function reads back once its head and block do and its end name and
      `;` follow. */
  lemma FuncTail(f: A.Func, toks: seq<Token>, pos: nat, p1: nat, q: nat)
    requires pos < |toks| && toks[pos] == Keyword(Function)
    requires SignatureAt(toks, pos + 1) == Done(Signature(f.name, f.params, f.returnType), p1)
    requires BlockAt(toks, p1, "Expected body") == Done(Block(f.consts, f.types, f.dclns, f.body), q)
    requires q + 1 < |toks| && toks[q] == Identifier(f.endName.name) && toks[q + 1] == Semicolon
    ensures Func(toks, pos) == Done(Some(f), q + 2)
  {
    NameAt(toks, q, f.endName, "Expected name");
    FuncStep(toks, pos, f, p1, q, q + 1, q + 2);
  }

  /** A function without constants reads back as itself when its body, at
      `end`, reads back and its end name and `;` follow; `p1` is where its
      signature ends. */
  lemma FuncReads(f: A.Func, toks: seq<Token>, pos: nat, p1: nat, end: nat, q: nat)
    requires f.consts == A.Consts([])
    requires WellFormedVars(f.params.params) && WellFormedTypes(f.types.types) && WellFormedVars(f.dclns.vars)
    requires InPlace(toks, pos, FuncHeadTokens(f)) && end == pos + |FuncHeadTokens(f)|
    requires p1 == pos + 1 + |SignatureTokens(Signature(f.name, f.params, f.returnType))|
    requires Body(toks, end) == Done(Some(f.body), q)
    requires q + 1 < |toks| && toks[q] == Identifier(f.endName.name) && toks[q + 1] == Semicolon
    ensures Func(toks, pos) == Done(Some(f), q + 2)
  {
    FuncHeadReads(f, toks, pos, p1, end, q);
    FuncTail(f, toks, pos, p1, q);
  }

  /** The function loop collects functions that read one after another, up
      to the first token that is not `function`. */
  lemma {:induction false} SubProgsLoopCollects(fs: seq<A.Func>, ends: seq<nat>, i: nat, toks: seq<Token>)
    requires |ends| == |fs| + 1 && i <= |fs|
    requires forall j :: 0 <= j < |fs| ==> ends[j] <= |toks| && Func(toks, ends[j]) == Done(Some(fs[j]), ends[j + 1])
    requires ends[|fs|] < |toks| && toks[ends[|fs|]] != Keyword(Function)
    ensures ends[i] <= |toks| && SubProgsLoop(toks, ends[i], fs[..i]) == Done(fs, ends[|fs|])
    decreases |fs| - i
  {
    if i == |fs| {
      SubProgsLoopStop(toks, ends[i], fs[..i]);
      assert fs[..i] == fs;
    } else {
      assert ends[i] <= |toks| && Func(toks, ends[i]) == Done(Some(fs[i]), ends[i + 1]);
      Extend(fs, i);
      SubProgsLoopStep(toks, ends[i], fs[..i], fs[i], ends[i + 1]);
      SubProgsLoopCollects(fs, ends, i + 1, toks);
    }
  }

  /** The tokens of a program's head, each in its place; the sections end at
      `end`. */
  lemma ProgramHeadParts(p: A.Program, toks: seq<Token>, pos: nat, end: nat)
    requires WellFormedTypes(p.types.types) && WellFormedVars(p.dclns.vars) && InPlace(toks, pos, ProgramHeadTokens(p))
    requires end == pos + |ProgramHeadTokens(p)|
    ensures toks[pos] == Keyword(Program) && toks[pos + 1] == Identifier(p.name.name) && toks[pos + 2] == Colon
    ensures InPlace(toks, pos + 3, SectionsTokens(p.types, p.dclns)) && end == pos + 3 + |SectionsTokens(p.types, p.dclns)|
  {
    var head := [Keyword(Program), Identifier(p.name.name), Colon];
    Cut(toks, pos, head, SectionsTokens(p.types, p.dclns));
    At(toks, pos, head, 0);
    At(toks, pos, head, 1);
    At(toks, pos, head, 2);
  }

  /** A program's functions and body that read back start with `function`
      or `begin`. */
  lemma ProgramFollow(toks: seq<Token>, pos: nat, fs: A.SubProgs, mid: nat, b: A.Body, q: nat)
    requires pos <= |toks| && SubProgs(toks, pos) == Done(fs, mid)
    requires mid <= |toks| && Body(toks, mid) == Done(Some(b), q)
    ensures pos < |toks| && EndsSections(toks[pos])
  {
    BodyLead(toks, mid, b, q);
    SubProgsFollow(toks, pos, fs, mid);
  }

  /** The head of a program reads back: the `type` section ends at `p4` and
      the `var` section at `end`. */
  lemma ProgramHeadReads(p: A.Program, toks: seq<Token>, pos: nat, p4: nat, end: nat)
    requires WellFormedTypes(p.types.types) && WellFormedVars(p.dclns.vars) && InPlace(toks, pos, ProgramHeadTokens(p))
    requires p4 == pos + 3 + |TypesTokens(p.types)| && end == pos + |ProgramHeadTokens(p)|
    requires end < |toks| && EndsSections(toks[end])
    ensures Punct(toks, pos, Keyword(Program), "Expected program") == Done((), pos + 1)
    ensures Expect(Name(toks, pos + 1), "Expected program name") == Done(p.name, pos + 2)
    ensures Punct(toks, pos + 2, Colon, "Expected ':'") == Done((), pos + 3)
    ensures Consts(toks, pos + 3) == Done(A.Consts([]), pos + 3)
    ensures p4 <= end && Types(toks, pos + 3) == Done(p.types, p4) && Dclns(toks, p4) == Done(p.dclns, end)
  {
    ProgramHeadParts(p, toks, pos, end);
    NameAt(toks, pos + 1, p.name, "Expected program name");
    SectionsRead(p.types, p.dclns, toks, pos + 3, p4, end);
  }

  /** A program without constants reads back as itself when its functions,
      at `end`, and its body, at `mid`, read back and its end name and `.`
      follow. */
  lemma WinzigReads(p: A.Program, toks: seq<Token>, pos: nat, p4: nat, end: nat, mid: nat, q: nat)
    requires p.consts == A.Consts([]) && WellFormedTypes(p.types.types) && WellFormedVars(p.dclns.vars)
    requires InPlace(toks, pos, ProgramHeadTokens(p)) && end == pos + |ProgramHeadTokens(p)|
    requires p4 == pos + 3 + |TypesTokens(p.types)|
    requires SubProgs(toks, end) == Done(p.subProgs, mid)
    requires mid <= |toks| && Body(toks, mid) == Done(Some(p.body), q)
    requires q + 1 < |toks| && toks[q] == Identifier(p.endName.name) && toks[q + 1] == Dot
    ensures Winzig(toks, pos) == Done(p, q + 2)
  {
    ProgramFollow(toks, end, p.subProgs, mid, p.body, q);
    ProgramHeadReads(p, toks, pos, p4, end);
    NameAt(toks, q, p.endName, "Expected program end name");
    WinzigStep(toks, pos, p, pos + 1, pos + 2, pos + 3, pos + 3, p4, end, mid, q, q + 1, q + 2);
  }
}
