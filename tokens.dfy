/** The token vocabulary of WinZig: operators, reserved words and tokens
    (src/lexer/mod.rs:7-146). */
module Tokens {

  const MinI64: int := -0x8000_0000_0000_0000
  const MaxI64: int := 0x7FFF_FFFF_FFFF_FFFF

  /** The values of Rust's `i64`. */
  type Int64 = x: int | MinI64 <= x <= MaxI64

  datatype Operator =
    | Plus | Minus | Multiply | Divide
    | LessThan | LessEqual | NotEqual | GreaterThan | GreaterEqual | Equal
    | Assignment | Swap

  /** `Operator::is_operator_starting_char`: the characters the operator
      recogniser is willing to start on. */
  predicate IsOperatorStartingChar(c: char) {
    c in {'+', '-', '*', '/', '<', '>', '=', ':'}
  }

  datatype Keyword =
    | Program | Var | Const | Type | Function | Return | Begin | End | Output
    | If | Then | Else | While | Do | Case | Of | Otherwise | Repeat | For
    | Until | Loop | Pool | Exit
    | Mod | And | Or | Not
    | Read | Succ | Pred | Chr | Ord | Eof

  /** The one lower-case spelling of each reserved word; the keyword table
      reads it back, so distinct keywords have distinct spellings. */
  function Spelling(k: Keyword): (s: string)
    ensures |s| >= 2 && forall i :: 0 <= i < |s| ==> 'a' <= s[i] <= 'z'
  {
    match k
    case Program => "program"
    case Var => "var"
    case Const => "const"
    case Type => "type"
    case Function => "function"
    case Return => "return"
    case Begin => "begin"
    case End => "end"
    case Output => "output"
    case If => "if"
    case Then => "then"
    case Else => "else"
    case While => "while"
    case Do => "do"
    case Case => "case"
    case Of => "of"
    case Otherwise => "otherwise"
    case Repeat => "repeat"
    case For => "for"
    case Until => "until"
    case Loop => "loop"
    case Pool => "pool"
    case Exit => "exit"
    case Mod => "mod"
    case And => "and"
    case Or => "or"
    case Not => "not"
    case Read => "read"
    case Succ => "succ"
    case Pred => "pred"
    case Chr => "chr"
    case Ord => "ord"
    case Eof => "eof"
  }

  datatype Option<+T> = None | Some(value: T)

  /** `Keyword::parse_keyword`: an exact, whole-string lookup in the table of
      reserved words. A hit is always the keyword spelled by the whole text. */
  function ParseKeyword(s: string): (r: Option<Keyword>)
    ensures r.Some? ==> 2 <= |s| <= 9
  {
    match s
    case "program" => Some(Program)
    case "var" => Some(Var)
    case "const" => Some(Const)
    case "type" => Some(Type)
    case "function" => Some(Function)
    case "return" => Some(Return)
    case "begin" => Some(Begin)
    case "end" => Some(End)
    case "output" => Some(Output)
    case "if" => Some(If)
    case "then" => Some(Then)
    case "else" => Some(Else)
    case "while" => Some(While)
    case "do" => Some(Do)
    case "case" => Some(Case)
    case "of" => Some(Of)
    case "otherwise" => Some(Otherwise)
    case "repeat" => Some(Repeat)
    case "for" => Some(For)
    case "until" => Some(Until)
    case "loop" => Some(Loop)
    case "pool" => Some(Pool)
    case "exit" => Some(Exit)
    case "mod" => Some(Mod)
    case "and" => Some(And)
    case "or" => Some(Or)
    case "not" => Some(Not)
    case "read" => Some(Read)
    case "succ" => Some(Succ)
    case "pred" => Some(Pred)
    case "chr" => Some(Chr)
    case "ord" => Some(Ord)
    case "eof" => Some(Eof)
    case _ => None
  }

  /** A hit in the table is the keyword the whole text spells. */
  lemma ParsedIsSpelled(s: string)
    ensures ParseKeyword(s).Some? ==> Spelling(ParseKeyword(s).value) == s
  {
  }

  /** Every keyword's spelling is in the table. */
  lemma SpellingParses(k: Keyword)
    ensures ParseKeyword(Spelling(k)) == Some(k)
  {
    match k
    case Program => case Var => case Const => case Type => case Function =>
    case Return => case Begin => case End => case Output => case If =>
    case Then => case Else => case While => case Do => case Case => case Of =>
    case Otherwise => case Repeat => case For => case Until => case Loop =>
    case Pool => case Exit => case Mod => case And => case Or => case Not =>
    case Read => case Succ => case Pred => case Chr => case Ord => case Eof =>
  }

  /** The table and the spellings are inverse to each other: a text is looked
      up as keyword `k` exactly when it is `k`'s spelling. */
  lemma KeywordTableExact(s: string, k: Keyword)
    ensures ParseKeyword(s) == Some(k) <==> s == Spelling(k)
  {
    ParsedIsSpelled(s);
    SpellingParses(k);
  }

  /** `Keyword::from_str`: the same lookup, reported as `Ok`/`Err(())`. */
  datatype KeywordLookup = Found(keyword: Keyword) | NotAKeyword

  function KeywordFromStr(s: string): (r: KeywordLookup)
    ensures r.Found? ==> s == Spelling(r.keyword)
    ensures r.NotAKeyword? ==> forall k :: s != Spelling(k)
  {
    match ParseKeyword(s)
    case Some(k) => KeywordTableExact(s, k); Found(k)
    case None => NotAKeywordLemma(s); NotAKeyword
  }

  lemma NotAKeywordLemma(s: string)
    requires ParseKeyword(s).None?
    ensures forall k :: s != Spelling(k)
  {
    forall k ensures s != Spelling(k) {
      KeywordTableExact(s, k);
    }
  }

  datatype Token =
    | Identifier(name: string)
    | Keyword(keyword: Keyword)
    | Operator(op: Operator)
    | Integer(value: Int64)
    | Char(ch: char)
    | String(text: string)
    | Comment
    | Whitespace
    | Newline
    | Dot
    | Dots
    | Colon
    | Semicolon
    | Comma
    | LeftParen
    | RightParen
}
