/** Properties of the scanner specification: the keyword rule, longest match
    for the multi-character operators, the literal forms, line counting, and
    that a token re-scanned on its own is the same token. */
module ScanFacts {
  import opened Tokens
  import opened Decimal
  import opened Results
  import opened ScanSpec

  /** A run that is not cut short ends where the first character failing `p` is. */
  lemma {:induction false} RunEndStopsAt(s: seq<char>, i: nat, k: nat, p: char -> bool)
    requires i <= k <= |s|
    requires forall j :: i <= j < k ==> p(s[j])
    requires k == |s| || !p(s[k])
    ensures RunEnd(s, i, p) == k
    decreases k - i
  {
    if i < k {
      RunEndStopsAt(s, i + 1, k, p);
    }
  }

  lemma {:induction false} CountNewlinesAppend(a: seq<char>, b: seq<char>)
    ensures CountNewlines(a + b) == CountNewlines(a) + CountNewlines(b)
    decreases |b|
  {
    if b == [] {
      assert a + b == a;
    } else {
      var b' := b[..|b| - 1];
      assert (a + b)[..|a + b| - 1] == a + b';
      CountNewlinesAppend(a, b');
    }
  }

  lemma {:induction false} CountNewlinesNone(s: seq<char>)
    requires forall i :: 0 <= i < |s| ==> s[i] != '\n'
    ensures CountNewlines(s) == 0
    decreases |s|
  {
    if s != [] {
      CountNewlinesNone(s[..|s| - 1]);
    }
  }

  /** An identifier run becomes `Keyword(k)` exactly when its whole text is the
      spelling of `k`, and `Identifier(text)` exactly when it spells no keyword;
      a keyword is never matched on a prefix of a longer run. */
  lemma ScanWord(src: seq<char>, pos: nat)
    requires pos < |src| && IsIdentifierStart(src[pos])
    ensures var e := RunEnd(src, pos, IsIdentifierChar);
            var r := ScanToken(src, pos);
            && r.Matched? && r.end == e && r.newlines == 0
            && (e == |src| || !IsIdentifierChar(src[e]))
            && (forall k :: r.token == Keyword(k) <==> src[pos..e] == Spelling(k))
            && (r.token == Identifier(src[pos..e]) <==> forall k :: src[pos..e] != Spelling(k))
  {
    var e := RunEnd(src, pos, IsIdentifierChar);
    var text := src[pos..e];
    forall k ensures ParseKeyword(text) == Some(k) <==> text == Spelling(k) {
      KeywordTableExact(text, k);
    }
  }

  /** `:=:` is Swap, `:=` is Assignment, and a bare `:` is rolled back by the
      operator recogniser and claimed by the special-token one as Colon. */
  lemma ScanColon(src: seq<char>, pos: nat)
    requires pos < |src| && src[pos] == ':'
    ensures ScanToken(src, pos) ==
      if PeekAt(src, pos + 1) == '=' then
        if PeekAt(src, pos + 2) == ':' then Matched(Operator(Swap), pos + 3, 0)
        else Matched(Operator(Assignment), pos + 2, 0)
      else Matched(Colon, pos + 1, 0)
  {
  }

  /** Longest match for `<`: `<=`, then `<>`, else `<`. */
  lemma ScanLess(src: seq<char>, pos: nat)
    requires pos < |src| && src[pos] == '<'
    ensures ScanToken(src, pos) ==
      if PeekAt(src, pos + 1) == '=' then Matched(Operator(LessEqual), pos + 2, 0)
      else if PeekAt(src, pos + 1) == '>' then Matched(Operator(NotEqual), pos + 2, 0)
      else Matched(Operator(LessThan), pos + 1, 0)
  {
  }

  /** Longest match for `>`: `>=`, else `>`. */
  lemma ScanGreater(src: seq<char>, pos: nat)
    requires pos < |src| && src[pos] == '>'
    ensures ScanToken(src, pos) ==
      if PeekAt(src, pos + 1) == '=' then Matched(Operator(GreaterEqual), pos + 2, 0)
      else Matched(Operator(GreaterThan), pos + 1, 0)
  {
  }

  /** Longest match for `.`: `..` is Dots, else Dot. */
  lemma ScanDot(src: seq<char>, pos: nat)
    requires pos < |src| && src[pos] == '.'
    ensures ScanToken(src, pos) ==
      if PeekAt(src, pos + 1) == '.' then Matched(Dots, pos + 2, 0) else Matched(Dot, pos + 1, 0)
  {
  }

  /** An integer is the maximal run of decimal digits and its value; a value
      beyond `i64::MAX` is a failure, never a wrapped number. */
  lemma ScanInteger(src: seq<char>, pos: nat)
    requires pos < |src| && IsDigit(src[pos])
    ensures var e := RunEnd(src, pos, IsDigit);
            var v := DecimalValue(src[pos..e]);
            && (e == |src| || !IsDigit(src[e]))
            && ScanToken(src, pos) == if v <= MaxI64 then Matched(Integer(v), e, 0) else Failed(OverflowMsg)
  {
  }

  /** A char literal is quote, any one character, quote; anything else after
      the opening quote is a failure. */
  lemma ScanCharLiteral(src: seq<char>, pos: nat)
    requires pos < |src| && src[pos] == '\''
    ensures ScanToken(src, pos).Matched? <==> pos + 2 < |src| && src[pos + 2] == '\''
    ensures ScanToken(src, pos).Matched? ==> ScanToken(src, pos) == Matched(Char(src[pos + 1]), pos + 3, 0)
  {
  }

  /** The loop of `string` stops at the first quote or newline at or after `i`. */
  lemma {:induction false} StringRestOutcome(src: seq<char>, start: nat, i: nat)
    requires start < i <= |src|
    ensures var r := StringRest(src, start, i);
      match r
      case Matched(t, e, n) =>
        && i < e && src[e - 1] == '"' && t == String(src[start..e]) && n == 0
        && forall j :: i <= j < e - 1 ==> src[j] != '"' && src[j] != '\n'
      case Failed(m) =>
        && (forall j :: i <= j < |src| && src[j] == '"' ==>
              exists q :: i <= q < j && src[q] == '\n')
        && (m == StringNewlineMsg <==> exists q :: i <= q < |src| && src[q] == '\n')
      case NoMatch => false
    decreases |src| - i
  {
    if PeekAt(src, i) == '"' {
    } else if i >= |src| {
    } else if src[i] == '\n' {
    } else {
      StringRestOutcome(src, start, i + 1);
      var r := StringRest(src, start, i + 1);
      if r.Failed? {
        forall j | i <= j < |src| && src[j] == '"'
          ensures exists q :: i <= q < j && src[q] == '\n'
        {
          assert j != i;
          var q :| i + 1 <= q < j && src[q] == '\n';
        }
        if r.msg == StringNewlineMsg {
          var q :| i + 1 <= q < |src| && src[q] == '\n';
        }
      }
    }
  }

  /** A string token's payload is the source slice including both quotes; it
      closes at the first quote, with no newline before it. A newline before
      any closing quote, or no closing quote at all, is a failure. */
  lemma ScanString(src: seq<char>, pos: nat)
    requires pos < |src| && src[pos] == '"'
    ensures var r := ScanToken(src, pos);
      && (r.Matched? ==>
            && pos + 2 <= r.end && r.token == String(src[pos..r.end]) && r.newlines == 0
            && src[r.end - 1] == '"'
            && forall j :: pos < j < r.end - 1 ==> src[j] != '"' && src[j] != '\n')
      && (r.Failed? <==>
            forall j :: pos < j < |src| && src[j] == '"' ==> exists q :: pos < q < j && src[q] == '\n')
  {
    StringRestOutcome(src, pos, pos + 1);
    var r := ScanToken(src, pos);
    if r.Matched? {
      var j := r.end - 1;
      assert pos < j < |src| && src[j] == '"';
      assert !(exists q :: pos < q < j && src[q] == '\n');
    }
  }

  /** A `#` comment runs up to, not including, the next newline (or the end). */
  lemma ScanLineComment(src: seq<char>, pos: nat)
    requires pos < |src| && src[pos] == '#'
    ensures var r := ScanToken(src, pos);
      && r.Matched? && r.token == Comment && r.newlines == 0
      && (r.end == |src| || src[r.end] == '\n')
      && forall j :: pos <= j < r.end ==> src[j] != '\n'
  {
  }

  /** A `{` comment runs through the next `}` and counts the newlines inside;
      without a closing brace it is a failure. */
  lemma ScanBlockComment(src: seq<char>, pos: nat)
    requires pos < |src| && src[pos] == '{'
    ensures var r := ScanToken(src, pos);
      && (r.Matched? <==> exists j :: pos < j < |src| && src[j] == '}')
      && (r.Matched? ==>
            && r.token == Comment && src[r.end - 1] == '}'
            && (forall j :: pos <= j < r.end - 1 ==> src[j] != '}')
            && r.newlines == CountNewlines(src[pos..r.end]))
  {
    var e := RunEnd(src, pos, NotCloseBrace);
    if e < |src| {
      assert src[pos..e + 1] == src[pos..e] + ['}'];
      CountNewlinesAppend(src[pos..e], ['}']);
      assert CountNewlines(['}']) == CountNewlines([]) + 0;
    }
  }

  /** Blanks are taken maximally into one token. */
  lemma ScanWhitespace(src: seq<char>, pos: nat)
    requires pos < |src| && IsBlank(src[pos])
    ensures var r := ScanToken(src, pos);
      && r.Matched? && r.token == Whitespace && r.newlines == 0
      && (r.end == |src| || !IsBlank(src[r.end]))
      && forall j :: pos <= j < r.end ==> IsBlank(src[j])
  {
  }

  /** A character that no recogniser accepts aborts the scan, naming it. */
  lemma ScanUnexpected(src: seq<char>, pos: nat)
    requires pos < |src|
    requires var c := src[pos];
      !IsIdentifierStart(c) && !IsOperatorStartingChar(c) && !IsDigit(c) && c != '\'' && c != '"'
      && c != '#' && c != '{' && !IsBlank(c) && c !in {'\n', ';', ',', '(', ')', '.'}
    ensures ScanToken(src, pos) == Failed(UnexpectedMsg(src[pos]))
  {
  }

  lemma CountNewlinesSingle(c: char)
    ensures CountNewlines([c]) == if c == '\n' then 1 else 0
  {
    assert [c][..0] == [];
  }

  /** A token that starts with none of `'`, `"`, `#`, `{` or a line break
      (a name, a number, an operator, blanks, punctuation) spans no line break
      and counts none. */
  lemma PlainTokenHasNoNewline(src: seq<char>, pos: nat)
    requires pos < |src| && ScanToken(src, pos).Matched?
    requires src[pos] !in {'\'', '"', '#', '{', '\n'}
    ensures var r := ScanToken(src, pos);
      && r.newlines == 0 && r.token != Char('\n')
      && forall j :: pos <= j < r.end ==> src[j] != '\n'
  {
  }

  /** Every token accounts for the newlines of its own text: all of them are
      counted in `newlines`, except the one inside a `'\n'` char literal, which
      the lexer never counts. */
  lemma NewlinesOfToken(src: seq<char>, pos: nat)
    requires pos < |src| && ScanToken(src, pos).Matched?
    ensures var r := ScanToken(src, pos);
      r.newlines + (if r.token == Char('\n') then 1 else 0) == CountNewlines(src[pos..r.end])
  {
    var r := ScanToken(src, pos);
    var s := src[pos..r.end];
    var c := src[pos];
    if c == '\'' {
      assert s == [s[0]] + [s[1]] + [s[2]];
      CountNewlinesAppend([s[0]] + [s[1]], [s[2]]);
      CountNewlinesAppend([s[0]], [s[1]]);
      CountNewlinesSingle(s[0]);
      CountNewlinesSingle(s[1]);
      CountNewlinesSingle(s[2]);
    } else if c == '{' {
      ScanBlockComment(src, pos);
    } else if c == '\n' {
      assert s == ['\n'];
      CountNewlinesSingle('\n');
    } else {
      if c == '"' {
        ScanString(src, pos);
      } else if c == '#' {
        ScanLineComment(src, pos);
      } else {
        PlainTokenHasNoNewline(src, pos);
      }
      assert forall j :: 0 <= j < |s| ==> s[j] != '\n';
      CountNewlinesNone(s);
    }
  }

  /** How many `'\n'` char-literal tokens a token list holds. */
  function NewlineChars(ts: seq<Token>): nat {
    if ts == [] then 0 else (if ts[0] == Char('\n') then 1 else 0) + NewlineChars(ts[1..])
  }

  /** One step of a successful pass: the token at `pos` followed by the
      tokens of the rest. */
  lemma LexStep(src: seq<char>, pos: nat)
    requires pos < |src| && LexFrom(src, pos).Ok?
    ensures var r := ScanToken(src, pos);
      && r.Matched? && LexFrom(src, r.end).Ok?
      && LexFrom(src, pos).value == ([r.token] + LexFrom(src, r.end).value.0, r.newlines + LexFrom(src, r.end).value.1)
  {
  }

  lemma NewlineCharsCons(t: Token, ts: seq<Token>)
    ensures NewlineChars([t] + ts) == (if t == Char('\n') then 1 else 0) + NewlineChars(ts)
  {
    assert ([t] + ts)[1..] == ts;
  }

  /** The line count of one token added to the line count of the rest. */
  lemma LineCountStep(src: seq<char>, pos: nat, end: nat, t: Token, n: nat, ts: seq<Token>, k: nat)
    requires pos < end <= |src|
    requires n + (if t == Char('\n') then 1 else 0) == CountNewlines(src[pos..end])
    requires k + NewlineChars(ts) == CountNewlines(src[end..])
    ensures (n + k) + NewlineChars([t] + ts) == CountNewlines(src[pos..])
  {
    assert src[pos..] == src[pos..end] + src[end..];
    CountNewlinesAppend(src[pos..end], src[end..]);
    NewlineCharsCons(t, ts);
  }

  /** The line count a whole pass reaches: every newline of the source text
      except those written as `'\n'` char literals. */
  lemma {:induction false} LexLineCount(src: seq<char>, pos: nat)
    requires pos <= |src| && LexFrom(src, pos).Ok?
    ensures LexFrom(src, pos).value.1 + NewlineChars(LexFrom(src, pos).value.0) == CountNewlines(src[pos..])
    decreases |src| - pos
  {
    if pos < |src| {
      LexStep(src, pos);
      var r := ScanToken(src, pos);
      NewlinesOfToken(src, pos);
      LexLineCount(src, r.end);
      var rest := LexFrom(src, r.end).value;
      LineCountStep(src, pos, r.end, r.token, r.newlines, rest.0, rest.1);
    } else {
      assert src[pos..] == [];
    }
  }

  /** The loop of `string` closes at the first quote when no newline comes before it. */
  lemma {:induction false} StringClosesAt(s: seq<char>, start: nat, i: nat, q: nat)
    requires start < i <= q < |s| && s[q] == '"'
    requires forall j :: i <= j < q ==> s[j] != '"' && s[j] != '\n'
    ensures StringRest(s, start, i) == Matched(String(s[start..q + 1]), q + 1, 0)
    decreases q - i
  {
    if i < q {
      StringClosesAt(s, start, i + 1, q);
    }
  }

  /** The token `ScanToken` finds at `pos`, found again at the start of its own text. */
  predicate RescansAlike(src: seq<char>, pos: nat)
    requires pos < |src| && ScanToken(src, pos).Matched?
  {
    var r := ScanToken(src, pos);
    ScanToken(src[pos..r.end], 0) == Matched(r.token, r.end - pos, r.newlines)
  }

  lemma RescanWord(src: seq<char>, pos: nat)
    requires pos < |src| && ScanToken(src, pos).Matched?
    requires IsIdentifierStart(src[pos]) || IsDigit(src[pos])
    ensures RescansAlike(src, pos)
  {
    var r := ScanToken(src, pos);
    var sub := src[pos..r.end];
    assert sub[0] == src[pos];
    if IsIdentifierStart(src[pos]) {
      RunEndStopsAt(sub, 0, |sub|, IsIdentifierChar);
    } else {
      RunEndStopsAt(sub, 0, |sub|, IsDigit);
    }
    assert sub[0..|sub|] == sub;
  }

  lemma RescanString(src: seq<char>, pos: nat)
    requires pos < |src| && ScanToken(src, pos).Matched? && src[pos] == '"'
    ensures RescansAlike(src, pos)
  {
    var r := ScanToken(src, pos);
    var sub := src[pos..r.end];
    ScanString(src, pos);
    StringClosesAt(sub, 0, 1, |sub| - 1);
    assert sub[0..|sub|] == sub;
  }

  lemma RescanComment(src: seq<char>, pos: nat)
    requires pos < |src| && ScanToken(src, pos).Matched?
    requires src[pos] == '#' || src[pos] == '{' || IsBlank(src[pos])
    ensures RescansAlike(src, pos)
  {
    var r := ScanToken(src, pos);
    var sub := src[pos..r.end];
    assert sub[0] == src[pos];
    if src[pos] == '#' {
      RunEndStopsAt(sub, 0, |sub|, NotNewline);
    } else if src[pos] == '{' {
      ScanBlockComment(src, pos);
      RunEndStopsAt(sub, 0, |sub| - 1, NotCloseBrace);
      assert sub[0..|sub| - 1] == src[pos..r.end - 1];
    } else {
      RunEndStopsAt(sub, 0, |sub|, IsBlank);
    }
  }

  lemma RescanPunctuation(src: seq<char>, pos: nat)
    requires pos < |src| && ScanToken(src, pos).Matched?
    requires !IsIdentifierStart(src[pos]) && !IsDigit(src[pos]) && src[pos] != '"'
    requires src[pos] != '#' && src[pos] != '{' && !IsBlank(src[pos])
    ensures RescansAlike(src, pos)
  {
    var r := ScanToken(src, pos);
    var sub := src[pos..r.end];
    assert sub[0] == src[pos];
  }

  /** The pass from `pos` goes on from the token scanned there. */
  lemma LexFromScan(src: seq<char>, pos: nat)
    requires pos < |src|
    ensures LexFrom(src, pos) == LexAfter(src, pos, ScanToken(src, pos))
  {
  }

  /** Scanning a token's own text on its own gives back that token alone with
      the same line count: once its extent is fixed, no token depends on the
      text that follows it. */
  lemma RelexToken(src: seq<char>, pos: nat)
    requires pos < |src| && ScanToken(src, pos).Matched?
    ensures var r := ScanToken(src, pos);
      LexFrom(src[pos..r.end], 0) == Ok(([r.token], r.newlines))
  {
    var r := ScanToken(src, pos);
    var c := src[pos];
    if IsIdentifierStart(c) || IsDigit(c) {
      RescanWord(src, pos);
    } else if c == '"' {
      RescanString(src, pos);
    } else if c == '#' || c == '{' || IsBlank(c) {
      RescanComment(src, pos);
    } else {
      RescanPunctuation(src, pos);
    }
    LexFromScan(src[pos..r.end], 0);
    assert [r.token] + [] == [r.token];
  }
}
