/** The imperative scanner: `Lexer` with its three moving positions
    (src/lexer/mod.rs:154-429). Every method is proved to do exactly what the
    corresponding function of `ScanSpec` describes. */
module Lexing {
  import opened Tokens
  import opened Decimal
  import opened Results
  import opened ScanSpec

  /** What a recogniser method returns: `None`, `Some(token)`, or the panic
      that aborts the whole scan. */
  datatype Recognised = NoToken | Recognised(token: Token) | Panicked(msg: string)

  /** A recogniser method's result `r`, with the cursor at `cur` and the line
      counter at `ln` afterwards, is the outcome `s` its specification
      prescribes for a start at `pos` with line counter `line0`. */
  predicate Follows(r: Recognised, cur: nat, ln: nat, pos: nat, line0: nat, s: Scan) {
    match s
    case NoMatch => r == NoToken && cur == pos && ln == line0
    case Matched(t, e, n) => r == Recognised(t) && cur == e && ln == line0 + n
    case Failed(m) => r == Panicked(m)
  }

  /** `tokens` and `n` line breaks already produced, followed by the rest. */
  function Prepend(tokens: seq<Token>, n: nat, rest: Result<(seq<Token>, nat)>): Result<(seq<Token>, nat)> {
    match rest
    case Ok((ts, k)) => Ok((tokens + ts, n + k))
    case Err(m) => Err(m)
  }

  lemma PrependNothing(rest: Result<(seq<Token>, nat)>)
    ensures Prepend([], 0, rest) == rest
  {
    match rest
    case Ok((ts, k)) => assert [] + ts == ts;
    case Err(_) =>
  }

  lemma PrependTwice(tokens: seq<Token>, n: nat, more: seq<Token>, k: nat, rest: Result<(seq<Token>, nat)>)
    ensures Prepend(tokens, n, Prepend(more, k, rest)) == Prepend(tokens + more, n + k, rest)
  {
    match rest
    case Ok((ts, j)) => assert tokens + (more + ts) == (tokens + more) + ts;
    case Err(_) =>
  }

  /** One more token keeps the loop invariant of `lex`: everything pushed so
      far, followed by the pass from the new cursor, is the pass from the start. */
  lemma LexFromStep(src: seq<char>, from: nat, pos: nat, tokens: seq<Token>, n: nat, t: Token, e: nat, k: nat)
    requires from <= pos < |src| && ScanToken(src, pos) == Matched(t, e, k)
    requires LexFrom(src, from) == Prepend(tokens, n, LexFrom(src, pos))
    ensures LexFrom(src, from) == Prepend(tokens + [t], n + k, LexFrom(src, e))
  {
    assert LexFrom(src, pos) == Prepend([t], k, LexFrom(src, e));
    PrependTwice(tokens, n, [t], k, LexFrom(src, e));
  }

  /** A token that fails to scan ends the whole pass with its message. */
  lemma LexFromFails(src: seq<char>, from: nat, pos: nat, tokens: seq<Token>, n: nat, m: string)
    requires from <= pos < |src| && ScanToken(src, pos) == Failed(m)
    requires LexFrom(src, from) == Prepend(tokens, n, LexFrom(src, pos))
    ensures LexFrom(src, from) == Err(m)
  {
  }

  class Lexer {
    const source: seq<char>
    var start: nat
    var current: nat
    var line: nat

    /** The token being scanned lies within the text. */
    predicate Valid()
      reads this
    {
      start <= current <= |source|
    }

    /** `Lexer::new` (src/lexer/mod.rs:162-169). */
    constructor (sourceText: seq<char>)
      ensures source == sourceText && start == 0 && current == 0 && line == 1
      ensures Valid()
    {
      source := sourceText;
      start, current, line := 0, 0, 1;
    }

    /** `is_at_end` (src/lexer/mod.rs:183-185). */
    function IsAtEnd(): bool
      reads this
    {
      current >= |source|
    }

    /** `peek` (src/lexer/mod.rs:204-210): NUL at the end. */
    function Peek(): char
      reads this
    {
      PeekAt(source, current)
    }

    /** `selection` (src/lexer/mod.rs:200-202). */
    function Selection(): string
      reads this
      requires Valid()
    {
      source[start..current]
    }

    /** `advance` (src/lexer/mod.rs:187-190): moves the cursor one place and
        returns the character it stepped over; stepping past the end panics. */
    method Advance() returns (r: Result<char>)
      modifies this`current
      ensures current == old(current) + 1
      ensures r == if old(current) < |source| then Ok(source[old(current)]) else Err(NoCharMsg)
    {
      current := current + 1;
      if current - 1 < |source| {
        r := Ok(source[current - 1]);
      } else {
        r := Err(NoCharMsg);
      }
    }

    /** `commit` (src/lexer/mod.rs:192-194). */
    method Commit()
      modifies this`start
      ensures start == current
    {
      start := current;
    }

    /** `rollback` (src/lexer/mod.rs:196-198). */
    method Rollback()
      modifies this`current
      ensures current == start
    {
      current := start;
    }

    /** Consumes characters while `p` holds of the next one; `p` never holds of
        the NUL that `peek` reports at the end. */
    method SkipWhile(p: char -> bool)
      requires Valid() && !p('\0')
      modifies this`current
      ensures Valid() && current == RunEnd(source, old(current), p)
    {
      while p(Peek())
        invariant Valid() && old(current) <= current
        invariant RunEnd(source, current, p) == RunEnd(source, old(current), p)
        decreases |source| - current
      {
        var _ := Advance();
      }
    }

    /** `identifier_or_keyword` (src/lexer/mod.rs:240-256). */
    method IdentifierOrKeyword() returns (r: Recognised)
      requires Valid() && start == current
      modifies this`current
      ensures Valid()
      ensures Follows(r, current, line, old(current), line, ScanSpec.IdentifierOrKeyword(source, old(current)))
    {
      if !IsAlpha(Peek()) && Peek() != '_' {
        return NoToken;
      }
      SkipWhile(IsIdentifierChar);
      var text := Selection();
      match KeywordFromStr(text)
      case Found(k) => r := Recognised(Keyword(k));
      case NotAKeyword => r := Recognised(Identifier(text));
    }

    /** `operator` (src/lexer/mod.rs:258-307). The source's final `_ => None`
        arm is unreachable: the first character is one of the eight checked. */
    method Operator() returns (r: Recognised)
      requires Valid() && start == current
      modifies this`current
      ensures Valid()
      ensures Follows(r, current, line, old(current), line, OperatorAt(source, old(current)))
    {
      if !IsOperatorStartingChar(Peek()) {
        return NoToken;
      }
      var a := Advance();
      var c := a.value;
      if c == '+' {
        r := Recognised(Token.Operator(Plus));
      } else if c == '-' {
        r := Recognised(Token.Operator(Minus));
      } else if c == '*' {
        r := Recognised(Token.Operator(Multiply));
      } else if c == '/' {
        r := Recognised(Token.Operator(Divide));
      } else if c == '<' {
        if Peek() == '=' {
          var _ := Advance();
          r := Recognised(Token.Operator(LessEqual));
        } else if Peek() == '>' {
          var _ := Advance();
          r := Recognised(Token.Operator(NotEqual));
        } else {
          r := Recognised(Token.Operator(LessThan));
        }
      } else if c == '>' {
        if Peek() == '=' {
          var _ := Advance();
          r := Recognised(Token.Operator(GreaterEqual));
        } else {
          r := Recognised(Token.Operator(GreaterThan));
        }
      } else if c == '=' {
        r := Recognised(Token.Operator(Equal));
      } else {
        // c == ':'
        if Peek() == '=' {
          var _ := Advance();
          if Peek() == ':' {
            var _ := Advance();
            r := Recognised(Token.Operator(Swap));
          } else {
            r := Recognised(Token.Operator(Assignment));
          }
        } else {
          Rollback();
          r := NoToken;
        }
      }
    }

    /** `integer` (src/lexer/mod.rs:309-319); `parse::<i64>()` is the decimal
        value with its range check. */
    method Integer() returns (r: Recognised)
      requires Valid() && start == current
      modifies this`current
      ensures Valid()
      ensures Follows(r, current, line, old(current), line, IntegerAt(source, old(current)))
    {
      if !IsDigit(Peek()) {
        return NoToken;
      }
      SkipWhile(IsDigit);
      var text := Selection();
      var v := DecimalValue(text);
      if v > MaxI64 {
        return Panicked(OverflowMsg);
      }
      r := Recognised(Token.Integer(v));
    }

    /** `char` (src/lexer/mod.rs:321-335). */
    method Char() returns (r: Recognised)
      requires Valid() && start == current
      modifies this`current
      ensures !r.Panicked? ==> Valid()
      ensures Follows(r, current, line, old(current), line, CharAt(source, old(current)))
    {
      if Peek() != '\'' {
        return NoToken;
      }
      var _ := Advance();
      var c := Advance();
      if c.Err? {
        return Panicked(c.msg);
      }
      if Peek() != '\'' {
        return Panicked(CharCloseMsg);
      }
      var _ := Advance();
      r := Recognised(Token.Char(c.value));
    }

    /** `string` (src/lexer/mod.rs:337-352). */
    method String() returns (r: Recognised)
      requires Valid() && start == current
      modifies this`current
      ensures !r.Panicked? ==> Valid()
      ensures Follows(r, current, line, old(current), line, StringAt(source, old(current)))
    {
      if Peek() != '"' {
        return NoToken;
      }
      var _ := Advance();
      while Peek() != '"'
        invariant start < current <= |source|
        invariant StringRest(source, start, current) == StringAt(source, start)
        decreases |source| - current
      {
        var c := Advance();
        if c.Err? {
          return Panicked(c.msg);
        }
        if c.value == '\n' {
          return Panicked(StringNewlineMsg);
        }
      }
      var _ := Advance();
      var text := Selection();
      r := Recognised(Token.String(text));
    }

    /** `comment` (src/lexer/mod.rs:354-376). */
    method Comment() returns (r: Recognised)
      requires Valid() && start == current
      modifies this`current, this`line
      ensures !r.Panicked? ==> Valid()
      ensures Follows(r, current, line, old(current), old(line), CommentAt(source, old(current)))
    {
      var c := Peek();
      if c == '#' {
        r := LineComment();
      } else if c == '{' {
        r := BlockComment();
      } else {
        r := NoToken;
      }
    }

    /** The `#` arm of `comment` (src/lexer/mod.rs:356-361): up to, not
        including, the newline. */
    method LineComment() returns (r: Recognised)
      requires Valid() && start == current && Peek() == '#'
      modifies this`current
      ensures Valid()
      ensures r == Recognised(Token.Comment) && current == RunEnd(source, old(current), NotNewline)
    {
      while Peek() != '\n' && !IsAtEnd()
        invariant Valid() && start <= current
        invariant RunEnd(source, current, NotNewline) == RunEnd(source, start, NotNewline)
        decreases |source| - current
      {
        var _ := Advance();
      }
      r := Recognised(Token.Comment);
    }

    /** The `{` arm of `comment` (src/lexer/mod.rs:362-373): through the
        closing brace, counting the newlines on the way. */
    method BlockComment() returns (r: Recognised)
      requires Valid() && start == current && Peek() == '{'
      modifies this`current, this`line
      ensures !r.Panicked? ==> Valid()
      ensures Follows(r, current, line, old(current), old(line), CommentAt(source, old(current)))
    {
      while Peek() != '}' && !IsAtEnd()
        invariant Valid() && start <= current
        invariant RunEnd(source, current, NotCloseBrace) == RunEnd(source, start, NotCloseBrace)
        invariant line == old(line) + CountNewlines(source[start..current])
        decreases |source| - current
      {
        var ch := Advance();
        assert source[start..current] == source[start..current - 1] + [ch.value];
        if ch.value == '\n' {
          line := line + 1;
        }
      }
      if IsAtEnd() {
        return Panicked(BlockEofMsg);
      }
      var _ := Advance();
      r := Recognised(Token.Comment);
    }

    /** `whitespace` (src/lexer/mod.rs:378-388). */
    method Whitespace() returns (r: Recognised)
      requires Valid() && start == current
      modifies this`current
      ensures Valid()
      ensures Follows(r, current, line, old(current), line, WhitespaceAt(source, old(current)))
    {
      if !IsBlank(Peek()) {
        return NoToken;
      }
      SkipWhile(IsBlank);
      r := Recognised(Token.Whitespace);
    }

    /** `special_token` (src/lexer/mod.rs:390-428). */
    method SpecialToken() returns (r: Recognised)
      requires Valid() && start == current
      modifies this`current, this`line
      ensures Valid()
      ensures Follows(r, current, line, old(current), old(line), SpecialAt(source, old(current)))
    {
      var c := Peek();
      if c == '\n' {
        var _ := Advance();
        line := line + 1;
        r := Recognised(Newline);
      } else if c == ';' {
        var _ := Advance();
        r := Recognised(Semicolon);
      } else if c == ',' {
        var _ := Advance();
        r := Recognised(Comma);
      } else if c == '(' {
        var _ := Advance();
        r := Recognised(LeftParen);
      } else if c == ')' {
        var _ := Advance();
        r := Recognised(RightParen);
      } else if c == '.' {
        var _ := Advance();
        if Peek() == '.' {
          var _ := Advance();
          r := Recognised(Dots);
        } else {
          r := Recognised(Dot);
        }
      } else if c == ':' {
        var _ := Advance();
        r := Recognised(Colon);
      } else {
        r := NoToken;
      }
    }

    /** `scan_token` (src/lexer/mod.rs:212-238): the recognisers in their fixed
        order; the first that yields a token (or panics) decides. */
    method ScanToken() returns (r: Result<Token>)
      requires Valid() && start == current && current < |source|
      modifies this`current, this`line
      ensures r.Ok? ==> Valid()
      ensures match ScanSpec.ScanToken(source, old(current))
              case Matched(t, e, n) => r == Ok(t) && current == e && line == old(line) + n
              case Failed(m) => r == Err(m)
              case NoMatch => false
    {
      var a := IdentifierOrKeyword();
      if !a.NoToken? { return Settle(a); }
      var b := Operator();
      if !b.NoToken? { return Settle(b); }
      var c := Integer();
      if !c.NoToken? { return Settle(c); }
      var d := Char();
      if !d.NoToken? { return Settle(d); }
      var e := String();
      if !e.NoToken? { return Settle(e); }
      var f := Comment();
      if !f.NoToken? { return Settle(f); }
      var g := Whitespace();
      if !g.NoToken? { return Settle(g); }
      var h := SpecialToken();
      if !h.NoToken? { return Settle(h); }
      r := Err(UnexpectedMsg(Peek()));
    }

    /** The token of a recogniser that applied, or its panic. */
    static function Settle(a: Recognised): Result<Token>
      requires !a.NoToken?
    {
      if a.Recognised? then Ok(a.token) else Err(a.msg)
    }

    /** One turn of the loop of `lex`: commit, then scan one token. The
        tokens pushed so far, this one and the pass from the new cursor
        together still make up the pass from `from`. */
    method Step(ghost from: nat, ghost tokens: seq<Token>, ghost n: nat) returns (r: Result<Token>, ghost k: nat)
      requires Valid() && from <= current < |source|
      requires LexFrom(source, from) == Prepend(tokens, n, LexFrom(source, current))
      modifies this`start, this`current, this`line
      ensures r.Ok? ==> && Valid() && old(current) < current && line == old(line) + k
                        && LexFrom(source, from) == Prepend(tokens + [r.value], n + k, LexFrom(source, current))
      ensures r.Err? ==> LexFrom(source, from) == Err(r.msg)
    {
      Commit();
      ghost var here := current;
      ghost var before := line;
      ghost var step := ScanSpec.ScanToken(source, here);
      r := ScanToken();
      if r.Err? {
        assert step == Failed(r.msg);
        LexFromFails(source, from, here, tokens, n, r.msg);
        k := 0;
        return;
      }
      assert step == Matched(r.value, current, line - before);
      k := step.newlines;
      LexFromStep(source, from, here, tokens, n, r.value, current, k);
    }

    /** `lex` (src/lexer/mod.rs:171-181): scans from the cursor to the end of
        the text, pushing one token per step; the line counter ends up
        advanced by every line break the recognisers counted. */
    method Lex() returns (r: Result<seq<Token>>)
      requires Valid()
      modifies this`start, this`current, this`line
      ensures match LexFrom(source, old(current))
              case Ok((ts, n)) => r == Ok(ts) && line == old(line) + n && current == |source|
              case Err(m) => r == Err(m)
    {
      var tokens: seq<Token> := [];
      ghost var n: nat := 0;
      PrependNothing(LexFrom(source, current));
      while !IsAtEnd()
        invariant Valid() && line == old(line) + n
        invariant LexFrom(source, old(current)) == Prepend(tokens, n, LexFrom(source, current))
        decreases |source| - current
      {
        var scanned, k := Step(old(current), tokens, n);
        if scanned.Err? {
          return Err(scanned.msg);
        }
        n := n + k;
        tokens := tokens + [scanned.value];
      }
      assert LexFrom(source, current) == Ok(([], 0));
      assert tokens + [] == tokens;
      r := Ok(tokens);
    }
  }
}
