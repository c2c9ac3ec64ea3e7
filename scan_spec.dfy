/** The scanner as pure functions of the source text: one function per
    recogniser of `Lexer` (src/lexer/mod.rs:212-428), the ordered chain
    `ScanToken` and the whole pass `LexFrom`. The imperative `Lexer` class is
    proved to compute exactly these. Characters are ASCII: the Unicode classes
    `is_alphabetic`/`is_alphanumeric` become letter and letter-or-digit tests. */
module ScanSpec {
  import opened Tokens
  import opened Decimal
  import opened Results

  /** What `unwrap()` on `chars().nth(..)` past the end panics with. */
  const NoCharMsg: string := "called `Option::unwrap()` on a `None` value"
  /** What `text.parse::<i64>().unwrap()` panics with when the digits overflow. */
  const OverflowMsg: string := "called `Result::unwrap()` on an `Err` value: ParseIntError { kind: PosOverflow }"
  const CharCloseMsg: string := "Expected closing ' for char literal"
  const StringNewlineMsg: string := "Unexpected newline in string literal"
  const BlockEofMsg: string := "Unexpected end of file in block comment"

  function UnexpectedMsg(c: char): string {
    "Unexpected character: " + [c]
  }

  /** `Lexer::peek`: the character at `i`, or NUL at or past the end. */
  function PeekAt(src: seq<char>, i: nat): char {
    if i < |src| then src[i] else '\0'
  }

  predicate IsAlpha(c: char) {
    'a' <= c <= 'z' || 'A' <= c <= 'Z'
  }

  predicate IsAlphanumeric(c: char) {
    IsAlpha(c) || IsDigit(c)
  }

  predicate IsIdentifierStart(c: char) {
    IsAlpha(c) || c == '_'
  }

  predicate IsIdentifierChar(c: char) {
    IsAlphanumeric(c) || c == '_'
  }

  /** Space, tab, form feed and vertical tab; not newline, not carriage return. */
  predicate IsBlank(c: char) {
    c == ' ' || c == '\t' || c == '\U{C}' || c == '\U{B}'
  }

  predicate NotNewline(c: char) {
    c != '\n'
  }

  predicate NotCloseBrace(c: char) {
    c != '}'
  }

  /** The end of the longest run of characters satisfying `p` that starts at `i`. */
  function RunEnd(src: seq<char>, i: nat, p: char -> bool): (e: nat)
    requires i <= |src|
    ensures i <= e <= |src|
    ensures forall j :: i <= j < e ==> p(src[j])
    ensures e == |src| || !p(src[e])
    decreases |src| - i
  {
    if i < |src| && p(src[i]) then RunEnd(src, i + 1, p) else i
  }

  /** Number of newline characters in `s`. */
  function CountNewlines(s: seq<char>): nat {
    if s == [] then 0 else CountNewlines(s[..|s| - 1]) + (if s[|s| - 1] == '\n' then 1 else 0)
  }

  /** The outcome of one recogniser at one position: it does not apply (the
      cursor is where it was), it yields a token ending at `end` after seeing
      `newlines` line breaks, or it panics. */
  datatype Scan = NoMatch | Matched(token: Token, end: nat, newlines: nat) | Failed(msg: string)

  predicate Progress(src: seq<char>, pos: nat, r: Scan) {
    r.Matched? ==> pos < r.end <= |src|
  }

  /** `identifier_or_keyword` (src/lexer/mod.rs:240-256). */
  function IdentifierOrKeyword(src: seq<char>, pos: nat): (r: Scan)
    requires pos <= |src|
    ensures Progress(src, pos, r) && !r.Failed?
    ensures r.NoMatch? <==> !IsIdentifierStart(PeekAt(src, pos))
  {
    if !IsIdentifierStart(PeekAt(src, pos)) then NoMatch
    else
      var e := RunEnd(src, pos, IsIdentifierChar);
      var text := src[pos..e];
      match KeywordFromStr(text)
      case Found(k) => Matched(Keyword(k), e, 0)
      case NotAKeyword => Matched(Identifier(text), e, 0)
  }

  /** `operator` (src/lexer/mod.rs:258-307). A `:` without `=` after it rolls
      the cursor back and reports no match. */
  function OperatorAt(src: seq<char>, pos: nat): (r: Scan)
    requires pos <= |src|
    ensures Progress(src, pos, r) && !r.Failed?
    ensures r.Matched? ==> r.token.Operator? && r.newlines == 0
  {
    var c := PeekAt(src, pos);
    if !IsOperatorStartingChar(c) then NoMatch
    else
      var next := PeekAt(src, pos + 1);
      if c == '+' then Matched(Operator(Plus), pos + 1, 0)
      else if c == '-' then Matched(Operator(Minus), pos + 1, 0)
      else if c == '*' then Matched(Operator(Multiply), pos + 1, 0)
      else if c == '/' then Matched(Operator(Divide), pos + 1, 0)
      else if c == '<' then
        if next == '=' then Matched(Operator(LessEqual), pos + 2, 0)
        else if next == '>' then Matched(Operator(NotEqual), pos + 2, 0)
        else Matched(Operator(LessThan), pos + 1, 0)
      else if c == '>' then
        if next == '=' then Matched(Operator(GreaterEqual), pos + 2, 0)
        else Matched(Operator(GreaterThan), pos + 1, 0)
      else if c == '=' then Matched(Operator(Equal), pos + 1, 0)
      else
        // c == ':'
        if next == '=' then
          if PeekAt(src, pos + 2) == ':' then Matched(Operator(Swap), pos + 3, 0)
          else Matched(Operator(Assignment), pos + 2, 0)
        else NoMatch
  }

  /** `integer` (src/lexer/mod.rs:309-319): a maximal digit run, read as an
      `i64`; a value above `i64::MAX` panics. */
  function IntegerAt(src: seq<char>, pos: nat): (r: Scan)
    requires pos <= |src|
    ensures Progress(src, pos, r)
    ensures r.NoMatch? <==> !IsDigit(PeekAt(src, pos))
  {
    if !IsDigit(PeekAt(src, pos)) then NoMatch
    else
      var e := RunEnd(src, pos, IsDigit);
      var v := DecimalValue(src[pos..e]);
      if v > MaxI64 then Failed(OverflowMsg) else Matched(Integer(v), e, 0)
  }

  /** `char` (src/lexer/mod.rs:321-335): quote, any one character, quote. */
  function CharAt(src: seq<char>, pos: nat): (r: Scan)
    requires pos <= |src|
    ensures Progress(src, pos, r)
    ensures r.NoMatch? <==> PeekAt(src, pos) != '\''
  {
    if PeekAt(src, pos) != '\'' then NoMatch
    else if pos + 1 >= |src| then Failed(NoCharMsg)
    else if PeekAt(src, pos + 2) != '\'' then Failed(CharCloseMsg)
    else Matched(Char(src[pos + 1]), pos + 3, 0)
  }

  /** The loop of `string` (src/lexer/mod.rs:343-351) with the cursor at `i`;
      the literal began at `start`. */
  function StringRest(src: seq<char>, start: nat, i: nat): (r: Scan)
    requires start < i <= |src|
    ensures Progress(src, start, r) && !r.NoMatch?
    decreases |src| - i
  {
    if PeekAt(src, i) == '"' then Matched(String(src[start..i + 1]), i + 1, 0)
    else if i >= |src| then Failed(NoCharMsg)
    else if src[i] == '\n' then Failed(StringNewlineMsg)
    else StringRest(src, start, i + 1)
  }

  /** `string` (src/lexer/mod.rs:337-352): the payload is the source slice with
      both quotes. */
  function StringAt(src: seq<char>, pos: nat): (r: Scan)
    requires pos <= |src|
    ensures Progress(src, pos, r)
    ensures r.NoMatch? <==> PeekAt(src, pos) != '"'
  {
    if PeekAt(src, pos) != '"' then NoMatch else StringRest(src, pos, pos + 1)
  }

  /** `comment` (src/lexer/mod.rs:354-376): `#` up to (not including) the next
      newline, or `{` through the next `}`, counting the newlines inside. */
  function CommentAt(src: seq<char>, pos: nat): (r: Scan)
    requires pos <= |src|
    ensures Progress(src, pos, r)
    ensures r.NoMatch? <==> PeekAt(src, pos) != '#' && PeekAt(src, pos) != '{'
    ensures r.Matched? ==> r.token == Comment
  {
    var c := PeekAt(src, pos);
    if c == '#' then Matched(Comment, RunEnd(src, pos, NotNewline), 0)
    else if c == '{' then
      var e := RunEnd(src, pos, NotCloseBrace);
      if e >= |src| then Failed(BlockEofMsg)
      else Matched(Comment, e + 1, CountNewlines(src[pos..e]))
    else NoMatch
  }

  /** `whitespace` (src/lexer/mod.rs:378-388). */
  function WhitespaceAt(src: seq<char>, pos: nat): (r: Scan)
    requires pos <= |src|
    ensures Progress(src, pos, r) && !r.Failed?
    ensures r.NoMatch? <==> !IsBlank(PeekAt(src, pos))
  {
    if !IsBlank(PeekAt(src, pos)) then NoMatch
    else Matched(Whitespace, RunEnd(src, pos, IsBlank), 0)
  }

  /** `special_token` (src/lexer/mod.rs:390-428). */
  function SpecialAt(src: seq<char>, pos: nat): (r: Scan)
    requires pos <= |src|
    ensures Progress(src, pos, r) && !r.Failed?
    ensures r.Matched? ==> r.newlines == (if r.token == Newline then 1 else 0)
  {
    var c := PeekAt(src, pos);
    if c == '\n' then Matched(Newline, pos + 1, 1)
    else if c == ';' then Matched(Semicolon, pos + 1, 0)
    else if c == ',' then Matched(Comma, pos + 1, 0)
    else if c == '(' then Matched(LeftParen, pos + 1, 0)
    else if c == ')' then Matched(RightParen, pos + 1, 0)
    else if c == '.' then
      if PeekAt(src, pos + 1) == '.' then Matched(Dots, pos + 2, 0) else Matched(Dot, pos + 1, 0)
    else if c == ':' then Matched(Colon, pos + 1, 0)
    else NoMatch
  }

  /** `scan_token` (src/lexer/mod.rs:212-238): the first recogniser that
      applies decides; when none does, lexing fails on the character. */
  function ScanToken(src: seq<char>, pos: nat): (r: Scan)
    requires pos < |src|
    ensures Progress(src, pos, r) && !r.NoMatch?
  {
    var a := IdentifierOrKeyword(src, pos);
    if !a.NoMatch? then a else
    var b := OperatorAt(src, pos);
    if !b.NoMatch? then b else
    var c := IntegerAt(src, pos);
    if !c.NoMatch? then c else
    var d := CharAt(src, pos);
    if !d.NoMatch? then d else
    var e := StringAt(src, pos);
    if !e.NoMatch? then e else
    var f := CommentAt(src, pos);
    if !f.NoMatch? then f else
    var g := WhitespaceAt(src, pos);
    if !g.NoMatch? then g else
    var h := SpecialAt(src, pos);
    if !h.NoMatch? then h else
    Failed(UnexpectedMsg(src[pos]))
  }

  /** `lex` (src/lexer/mod.rs:171-181) from position `pos`: the tokens up to
      the end of the text and the number of line breaks counted, or the first
      failure. */
  function LexFrom(src: seq<char>, pos: nat): Result<(seq<Token>, nat)>
    requires pos <= |src|
    decreases |src| - pos, 1
  {
    if pos == |src| then Ok(([], 0)) else LexAfter(src, pos, ScanToken(src, pos))
  }

  /** The rest of the pass once the token at `pos` has been scanned as `s`. */
  function LexAfter(src: seq<char>, pos: nat, s: Scan): Result<(seq<Token>, nat)>
    requires pos < |src| && Progress(src, pos, s) && !s.NoMatch?
    decreases |src| - pos, 0
  {
    match s
    case Failed(m) => Err(m)
    case Matched(t, e, n) =>
      match LexFrom(src, e)
      case Err(m) => Err(m)
      case Ok((ts, k)) => Ok(([t] + ts, n + k))
  }

  /** The whole pass of a fresh lexer over `src`. */
  function Lex(src: seq<char>): Result<seq<Token>> {
    match LexFrom(src, 0)
    case Ok((ts, _)) => Ok(ts)
    case Err(m) => Err(m)
  }
}
