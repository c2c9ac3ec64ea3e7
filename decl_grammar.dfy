/** The declaration rules and the start rule of the parser
    (src/parser/parser.rs:55-305 and 613-628, 1029-1086) as pure functions of
    the token sequence and a cursor position. */
module DeclGrammar {
  import opened Tokens
  import opened Results
  import opened ExprGrammar
  import opened StmtGrammar
  import A = Ast

  /** `const_expr` (src/parser/parser.rs:136-149): `name = value`. */
  function ConstExpr(toks: seq<Token>, pos: nat): (r: PResult<A.Const>)
    requires pos <= |toks|
    ensures r.Done? ==> pos < r.next <= |toks|
  {
    match Expect(Name(toks, pos), "Expected const name")
    case Fail(m) => Fail(m)
    case Done(n, p) =>
      match Punct(toks, p, Operator(Equal), "Expected '='")
      case Fail(m) => Fail(m)
      case Done(_, p1) =>
        match ConstValue(toks, p1)
        case Fail(m) => Fail(m)
        case Done(v, q) => Done(A.Const(n.name, v), q)
  }

  /** The loop of `consts` (src/parser/parser.rs:110-126) as written: after a
      constant, `,` continues the loop and any other token panics. The second
      test repeats the `,` of the first, so no token ends the list. */
  function ConstsLoop(toks: seq<Token>, pos: nat, acc: seq<A.Const>): (r: PResult<seq<A.Const>>)
    requires pos <= |toks|
    ensures r.Done? ==> pos < r.next <= |toks|
    decreases |toks| - pos
  {
    match ConstExpr(toks, pos)
    case Fail(m) => Fail(m)
    case Done(c, p) =>
      if p == |toks| then Fail(PeekFailure(toks, p))
      else if toks[p] == Comma then ConstsLoop(toks, p + 1, acc + [c])
      else Fail("Expected ',' or ';'")
  }

  /** `consts` (src/parser/parser.rs:106-133). */
  function Consts(toks: seq<Token>, pos: nat): (r: PResult<A.Consts>)
    requires pos <= |toks|
    ensures r.Done? ==> pos <= r.next <= |toks|
  {
    if pos == |toks| then Fail(PeekFailure(toks, pos))
    else if toks[pos] == Keyword(Const) then
      match ConstsLoop(toks, pos + 1, [])
      case Fail(m) => Fail(m)
      case Done(cs, q) => Done(A.Consts(cs), q)
    else Done(A.Consts([]), pos)
  }

  /** The name loop of `lit_list` (src/parser/parser.rs:226-239): names
      separated by `,` up to and including `)`. */
  function LitNames(toks: seq<Token>, pos: nat, acc: seq<A.Identifier>): (r: PResult<seq<A.Identifier>>)
    requires pos <= |toks|
    ensures r.Done? ==> pos < r.next <= |toks| && |r.value| > |acc|
    decreases |toks| - pos
  {
    match Expect(Name(toks, pos), "Expected name")
    case Fail(m) => Fail(m)
    case Done(n, p) =>
      if p == |toks| then Fail(PeekFailure(toks, p))
      else if toks[p] == Comma then LitNames(toks, p + 1, acc + [n])
      else if toks[p] == RightParen then Done(acc + [n], p + 1)
      else Fail("Expected ',' or ')'")
  }

  /** `lit_list` (src/parser/parser.rs:221-243). */
  function LitList(toks: seq<Token>, pos: nat): (r: PResult<A.LitList>)
    requires pos <= |toks|
    ensures r.Done? ==> pos < r.next <= |toks|
  {
    match Punct(toks, pos, LeftParen, "Expected '('")
    case Fail(m) => Fail(m)
    case Done(_, p) =>
      match LitNames(toks, p, [])
      case Fail(m) => Fail(m)
      case Done(ns, q) => Done(A.LitList(ns), q)
  }

  /** `type_expr` (src/parser/parser.rs:202-218): `name = (lits)`, or nothing
      when no identifier is at the cursor. */
  function TypeExpr(toks: seq<Token>, pos: nat): (r: PResult<Option<A.Type>>)
    requires pos <= |toks|
    ensures r.Done? ==> pos <= r.next <= |toks|
    ensures r.Done? ==> (r.value.None? <==> r.next == pos)
    ensures pos == |toks| ==> r.Fail?
    ensures pos < |toks| && !toks[pos].Identifier? ==> r == Done(None, pos)
    ensures r.Done? && pos < |toks| && toks[pos].Identifier? ==> r.value.Some?
  {
    match Name(toks, pos)
    case Fail(m) => Fail(m)
    case Done(None, p) => Done(None, p)
    case Done(Some(n), p) =>
      match Punct(toks, p, Operator(Equal), "Expected '='")
      case Fail(m) => Fail(m)
      case Done(_, p1) =>
        match LitList(toks, p1)
        case Fail(m) => Fail(m)
        case Done(l, q) => Done(Some(A.Type(n, l)), q)
  }

  /** The loop of `types` (src/parser/parser.rs:176-191): each type
      definition is followed by `;`. */
  function TypesLoop(toks: seq<Token>, pos: nat, acc: seq<A.Type>): (r: PResult<seq<A.Type>>)
    requires pos <= |toks|
    ensures r.Done? ==> pos <= r.next <= |toks| && |r.value| >= |acc|
    decreases |toks| - pos
  {
    match TypeExpr(toks, pos)
    case Fail(m) => Fail(m)
    case Done(None, p) => Done(acc, p)
    case Done(Some(t), p) =>
      match Punct(toks, p, Semicolon, "Expected ';'")
      case Fail(m) => Fail(m)
      case Done(_, q) => TypesLoop(toks, q, acc + [t])
  }

  /** `types` (src/parser/parser.rs:172-199). */
  function Types(toks: seq<Token>, pos: nat): (r: PResult<A.Types>)
    requires pos <= |toks|
    ensures r.Done? ==> pos <= r.next <= |toks|
  {
    if pos == |toks| then Fail(PeekFailure(toks, pos))
    else if toks[pos] == Keyword(Type) then
      match TypesLoop(toks, pos + 1, [])
      case Fail(m) => Fail(m)
      case Done(ts, q) => Done(A.Types(ts), q)
    else Done(A.Types([]), pos)
  }

  /** The name loop of `dcln` (src/parser/parser.rs:285-297): names separated
      by `,` up to and including `:`. */
  function DclnNames(toks: seq<Token>, pos: nat, acc: seq<A.Identifier>): (r: PResult<seq<A.Identifier>>)
    requires pos <= |toks|
    ensures r.Done? ==> pos < r.next <= |toks| && |r.value| > |acc|
    decreases |toks| - pos
  {
    match Expect(Name(toks, pos), "Expected name")
    case Fail(m) => Fail(m)
    case Done(n, p) =>
      if p == |toks| then Fail(PeekFailure(toks, p))
      else if toks[p] == Comma then DclnNames(toks, p + 1, acc + [n])
      else if toks[p] == Colon then Done(acc + [n], p + 1)
      else Fail("Expected ',' or ':'")
  }

  /** `dcln` (src/parser/parser.rs:276-305): `names : typename`, or nothing
      when no identifier is at the cursor. */
  function Dcln(toks: seq<Token>, pos: nat): (r: PResult<Option<A.Var>>)
    requires pos <= |toks|
    ensures r.Done? ==> pos <= r.next <= |toks|
    ensures r.Done? ==> (r.value.None? <==> r.next == pos)
    ensures pos == |toks| ==> r.Fail?
    ensures pos < |toks| && !toks[pos].Identifier? ==> r == Done(None, pos)
    ensures r.Done? && pos < |toks| && toks[pos].Identifier? ==> r.value.Some?
  {
    if pos == |toks| then Fail(PeekFailure(toks, pos))
    else if !toks[pos].Identifier? then Done(None, pos)
    else
      match DclnNames(toks, pos, [])
      case Fail(m) => Fail(m)
      case Done(ns, p) =>
        match Expect(Name(toks, p), "Expected name")
        case Fail(m) => Fail(m)
        case Done(tn, q) => Done(Some(A.Var(ns, tn)), q)
  }

  /** The loop of `dclns` (src/parser/parser.rs:251-265): each declaration is
      followed by `;`. */
  function DclnsLoop(toks: seq<Token>, pos: nat, acc: seq<A.Var>): (r: PResult<seq<A.Var>>)
    requires pos <= |toks|
    ensures r.Done? ==> pos <= r.next <= |toks| && |r.value| >= |acc|
    decreases |toks| - pos
  {
    match Dcln(toks, pos)
    case Fail(m) => Fail(m)
    case Done(None, p) => Done(acc, p)
    case Done(Some(d), p) =>
      match Punct(toks, p, Semicolon, "Expected ';'")
      case Fail(m) => Fail(m)
      case Done(_, q) => DclnsLoop(toks, q, acc + [d])
  }

  /** `dclns` (src/parser/parser.rs:247-273). */
  function Dclns(toks: seq<Token>, pos: nat): (r: PResult<A.Dclns>)
    requires pos <= |toks|
    ensures r.Done? ==> pos <= r.next <= |toks|
  {
    if pos == |toks| then Fail(PeekFailure(toks, pos))
    else if toks[pos] == Keyword(Var) then
      match DclnsLoop(toks, pos + 1, [])
      case Fail(m) => Fail(m)
      case Done(vs, q) => Done(A.Dclns(vs), q)
    else Done(A.Dclns([]), pos)
  }

  /** The loop of `params` (src/parser/parser.rs:615-626): declarations
      separated by `;`; a missing `;` ends the list. */
  function ParamsLoop(toks: seq<Token>, pos: nat, acc: seq<A.Var>): (r: PResult<seq<A.Var>>)
    requires pos <= |toks|
    ensures r.Done? ==> pos <= r.next <= |toks| && |r.value| >= |acc|
    decreases |toks| - pos
  {
    match Dcln(toks, pos)
    case Fail(m) => Fail(m)
    case Done(None, p) => Done(acc, p)
    case Done(Some(d), p) =>
      if p == |toks| then Fail(PeekFailure(toks, p))
      else if toks[p] == Semicolon then ParamsLoop(toks, p + 1, acc + [d])
      else Done(acc + [d], p)
  }

  /** `params` (src/parser/parser.rs:613-628). */
  function Params(toks: seq<Token>, pos: nat): (r: PResult<A.Params>)
    requires pos <= |toks|
    ensures r.Done? ==> pos <= r.next <= |toks|
  {
    match ParamsLoop(toks, pos, [])
    case Fail(m) => Fail(m)
    case Done(ps, q) => Done(A.Params(ps), q)
  }

  datatype Signature = Signature(name: A.Identifier, params: A.Params, returnType: A.Identifier)

  /** The signature of a function, after `function`:
      `name ( params ) : type ;` (src/parser/parser.rs:1047-1066). */
  function SignatureAt(toks: seq<Token>, pos: nat): (r: PResult<Signature>)
    requires pos <= |toks|
    ensures r.Done? ==> pos < r.next <= |toks|
  {
    match Expect(Name(toks, pos), "Expected name")
    case Fail(m) => Fail(m)
    case Done(n, p) =>
      match Punct(toks, p, LeftParen, "Expected '('")
      case Fail(m) => Fail(m)
      case Done(_, p1) =>
        match Params(toks, p1)
        case Fail(m) => Fail(m)
        case Done(ps, p2) =>
          match Punct(toks, p2, RightParen, "Expected ')'")
          case Fail(m) => Fail(m)
          case Done(_, p3) =>
            match Punct(toks, p3, Colon, "Expected ':'")
            case Fail(m) => Fail(m)
            case Done(_, p4) =>
              match Expect(Name(toks, p4), "Expected name")
              case Fail(m) => Fail(m)
              case Done(rt, p5) =>
                match Punct(toks, p5, Semicolon, "Expected ';'")
                case Fail(m) => Fail(m)
                case Done(_, q) => Done(Signature(n, ps, rt), q)
  }

  datatype Block = Block(consts: A.Consts, types: A.Types, dclns: A.Dclns, body: A.Body)

  /** Constants, types, declarations and a body, as a function and the
      program both have them; `bodyMsg` is the panic for a missing body. */
  function BlockAt(toks: seq<Token>, pos: nat, bodyMsg: string): (r: PResult<Block>)
    requires pos <= |toks|
    ensures r.Done? ==> pos < r.next <= |toks|
  {
    match Consts(toks, pos)
    case Fail(m) => Fail(m)
    case Done(cs, p1) =>
      match Types(toks, p1)
      case Fail(m) => Fail(m)
      case Done(ts, p2) =>
        match Dclns(toks, p2)
        case Fail(m) => Fail(m)
        case Done(ds, p3) =>
          match Expect(Body(toks, p3), bodyMsg)
          case Fail(m) => Fail(m)
          case Done(b, q) => Done(Block(cs, ts, ds, b), q)
  }

  /** `func` (src/parser/parser.rs:1043-1086): nothing unless the cursor is at
      `function`. */
  function Func(toks: seq<Token>, pos: nat): (r: PResult<Option<A.Func>>)
    requires pos <= |toks|
    ensures r.Done? ==> pos <= r.next <= |toks|
    ensures r.Done? ==> (r.value.None? <==> r.next == pos)
    ensures pos == |toks| ==> r.Fail?
    ensures pos < |toks| && toks[pos] != Keyword(Function) ==> r == Done(None, pos)
    ensures r.Done? && pos < |toks| && toks[pos] == Keyword(Function) ==> r.value.Some?
  {
    if pos == |toks| then Fail(PeekFailure(toks, pos))
    else if toks[pos] != Keyword(Function) then Done(None, pos)
    else
      match SignatureAt(toks, pos + 1)
      case Fail(m) => Fail(m)
      case Done(sig, p1) =>
        match BlockAt(toks, p1, "Expected body")
        case Fail(m) => Fail(m)
        case Done(b, p2) =>
          match Expect(Name(toks, p2), "Expected name")
          case Fail(m) => Fail(m)
          case Done(en, p3) =>
            match Punct(toks, p3, Semicolon, "Expected ';'")
            case Fail(m) => Fail(m)
            case Done(_, q) =>
              Done(Some(A.Func(sig.name, sig.params, sig.returnType, b.consts, b.types, b.dclns, b.body, en)), q)
  }

  /** The loop of `sub_progs` (src/parser/parser.rs:1031-1036): functions
      until one is not there. */
  function SubProgsLoop(toks: seq<Token>, pos: nat, acc: seq<A.Func>): (r: PResult<seq<A.Func>>)
    requires pos <= |toks|
    ensures r.Done? ==> pos <= r.next <= |toks| && |r.value| >= |acc|
    decreases |toks| - pos
  {
    match Func(toks, pos)
    case Fail(m) => Fail(m)
    case Done(None, p) => Done(acc, p)
    case Done(Some(f), p) => SubProgsLoop(toks, p, acc + [f])
  }

  /** `sub_progs` (src/parser/parser.rs:1029-1040). */
  function SubProgs(toks: seq<Token>, pos: nat): (r: PResult<A.SubProgs>)
    requires pos <= |toks|
    ensures r.Done? ==> pos <= r.next <= |toks|
  {
    match SubProgsLoop(toks, pos, [])
    case Fail(m) => Fail(m)
    case Done(fs, q) => Done(A.SubProgs(fs), q)
  }

  /** `winzig` (src/parser/parser.rs:55-91):
      `program name : consts types dclns subprogs body name .`. Whatever
      follows the final `.` is not examined. */
  function Winzig(toks: seq<Token>, pos: nat): (r: PResult<A.Program>)
    requires pos <= |toks|
    ensures r.Done? ==> pos < r.next <= |toks|
  {
    match Punct(toks, pos, Keyword(Program), "Expected program")
    case Fail(m) => Fail(m)
    case Done(_, p) =>
      match Expect(Name(toks, p), "Expected program name")
      case Fail(m) => Fail(m)
      case Done(n, p1) =>
        match Punct(toks, p1, Colon, "Expected ':'")
        case Fail(m) => Fail(m)
        case Done(_, p2) =>
          match Consts(toks, p2)
          case Fail(m) => Fail(m)
          case Done(cs, p3) =>
            match Types(toks, p3)
            case Fail(m) => Fail(m)
            case Done(ts, p4) =>
              match Dclns(toks, p4)
              case Fail(m) => Fail(m)
              case Done(ds, p5) =>
                match SubProgs(toks, p5)
                case Fail(m) => Fail(m)
                case Done(fs, p6) =>
                  match Expect(Body(toks, p6), "Expected program body")
                  case Fail(m) => Fail(m)
                  case Done(b, p7) =>
                    match Expect(Name(toks, p7), "Expected program end name")
                    case Fail(m) => Fail(m)
                    case Done(en, p8) =>
                      match Punct(toks, p8, Dot, "Expected '.'")
                      case Fail(m) => Fail(m)
                      case Done(_, q) => Done(A.Program(n, cs, ts, ds, fs, b, en), q)
  }
}
