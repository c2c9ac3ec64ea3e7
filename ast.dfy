/** The syntax tree the parser builds (src/parser/mod.rs:18-195), one datatype
    per struct or enum, with the same variants and fields. `Box` and `Vec`
    become plain values and sequences. The `Fcn` enum (src/parser/mod.rs:64-66)
    is never constructed by the program and is not part of this model. */
module Ast {
  import Tokens

  datatype Identifier = Identifier(name: string)

  datatype Program = Program(
    name: Identifier, consts: Consts, types: Types, dclns: Dclns,
    subProgs: SubProgs, body: Body, endName: Identifier)

  datatype Consts = Consts(consts: seq<Const>)

  datatype Const = Const(name: string, value: ConstValue)

  datatype Dclns = Dclns(vars: seq<Var>)

  datatype Types = Types(types: seq<Type>)

  datatype ConstValue = Integer(i: Tokens.Int64) | Char(c: char) | Name(id: Identifier)

  datatype Type = Type(name: Identifier, litList: LitList)

  datatype LitList = LitList(names: seq<Identifier>)

  datatype Var = Var(names: seq<Identifier>, typename: Identifier)

  datatype Body = Body(statements: seq<Statement>)

  datatype Statement =
    | Assign(assignment: Assignment)
    | Output(expressions: seq<OutExp>)
    | If(cond: Expression, thenStmt: Statement, elseStmt: Tokens.Option<Statement>)
    | While(cond: Expression, stmt: Statement)
    | Repeat(stmts: seq<Statement>, cond: Expression)
    | For(init: ForStat, forCond: ForExp, update: ForStat, stmt: Statement)
    | Loop(stmts: seq<Statement>)
    | Case(expr: Expression, cases: seq<CaseClause>, otherwise: Tokens.Option<OtherwiseClause>)
    | Read(names: seq<Identifier>)
    | Exit
    | Return(exp: Expression)
    | Body(body: Body)
    | Null

  datatype ForStat = Assignment(assignment: Assignment) | Null

  datatype ForExp = Expression(exp: Expression) | True

  datatype Assignment =
    | Assignment(name: Identifier, exp: Expression)
    | Swap(name1: Identifier, name2: Identifier)

  datatype OutExp = Integer(exp: Expression) | String(value: string)

  datatype CaseClause = CaseClause(expressions: seq<CaseExpression>, statement: Statement)

  datatype CaseExpression = Value(value: ConstValue) | Range(low: ConstValue, high: ConstValue)

  datatype OtherwiseClause = OtherwiseClause(stmt: Statement)

  datatype Expression =
    | Le(left: Term, right: Term)
    | Lt(left: Term, right: Term)
    | Ge(left: Term, right: Term)
    | Gt(left: Term, right: Term)
    | Eq(left: Term, right: Term)
    | Ne(left: Term, right: Term)
    | Term(term: Term)

  datatype Term =
    | Add(left: Term, right: Factor)
    | Subtract(left: Term, right: Factor)
    | Or(left: Term, right: Factor)
    | Factor(factor: Factor)

  datatype Factor =
    | Multiply(left: Factor, right: Primary)
    | Divide(left: Factor, right: Primary)
    | And(left: Factor, right: Primary)
    | Mod(left: Factor, right: Primary)
    | Primary(primary: Primary)

  datatype Primary =
    | Negate(operand: Primary)
    | Not(operand: Primary)
    | Eof
    | Name(id: Identifier)
    | Integer(i: Tokens.Int64)
    | Char(c: char)
    | Call(name: Identifier, exps: seq<Expression>)
    | Expression(exp: Expression)
    | Succ(exp: Expression)
    | Pred(exp: Expression)
    | Chr(exp: Expression)
    | Ord(exp: Expression)

  datatype Params = Params(params: seq<Var>)

  datatype Func = Func(
    name: Identifier, params: Params, returnType: Identifier, consts: Consts,
    types: Types, dclns: Dclns, body: Body, endName: Identifier)

  datatype SubProgs = SubProgs(subProgs: seq<Func>)
}
