module LexExamples {
  import opened Tokens
  import opened Results
  import opened ScanSpec
  import opened ScanFacts

  lemma ExampleSpecials(s: string)
    requires s == ";\n,"
    ensures Lex(s) == Ok([Semicolon, Newline, Comma])
  {
    assert LexFrom(s, 3) == Ok(([], 0));
    LexFromScan(s, 2);
    assert ScanToken(s, 2) == Matched(Comma, 3, 0);
    assert [Comma] + [] == [Comma];
    assert LexFrom(s, 2) == Ok(([Comma], 0));
    LexFromScan(s, 1);
    assert ScanToken(s, 1) == Matched(Newline, 2, 1);
    assert [Newline] + [Comma] == [Newline, Comma];
    assert LexFrom(s, 1) == Ok(([Newline, Comma], 1));
    LexFromScan(s, 0);
    assert ScanToken(s, 0) == Matched(Semicolon, 1, 0);
    assert [Semicolon] + [Newline, Comma] == [Semicolon, Newline, Comma];
  }
  lemma ExampleKeyword(s: string)
    requires s == "program"
    ensures Lex(s) == Ok([Keyword(Program)])
  {
    RunEndStopsAt(s, 0, 7, IsIdentifierChar);
    assert s[0..7] == Spelling(Program);
    ScanWord(s, 0);
    var r := ScanToken(s, 0);
    LexFromScan(s, 0);
    assert r == Matched(Keyword(Program), 7, 0);
    assert LexFrom(s, 7) == Ok(([], 0));
    assert [Keyword(Program)] + [] == [Keyword(Program)];
  }

  /** A character outside the language aborts the whole pass, even after a
      good token. */
  lemma ExampleUnexpected(s: string)
    requires s == "hello!"
    ensures Lex(s) == Err(UnexpectedMsg('!'))
  {
    RunEndStopsAt(s, 0, 5, IsIdentifierChar);
    ScanWord(s, 0);
    assert ScanToken(s, 0).end == 5;
    ScanUnexpected(s, 5);
    LexFromScan(s, 0);
    LexFromScan(s, 5);
    assert LexFrom(s, 5) == Err(UnexpectedMsg('!'));
  }

  /** `:=:` is one Swap token. */
  lemma ExampleSwap(s: string)
    requires s == "a:=:b"
    ensures Lex(s) == Ok([Identifier("a"), Operator(Swap), Identifier("b")])
  {
    RunEndStopsAt(s, 0, 1, IsIdentifierChar);
    RunEndStopsAt(s, 4, 5, IsIdentifierChar);
    ScanWord(s, 0);
    ScanWord(s, 4);
    ScanColon(s, 1);
    LexFromScan(s, 0);
    assert forall k :: s[0..1] != Spelling(k);
    assert forall k :: s[4..5] != Spelling(k);
    assert LexFrom(s, 5) == Ok(([], 0));
    assert s[4..5] == "b" && s[0..1] == "a";
    LexFromScan(s, 4);
    assert ScanToken(s, 4) == Matched(Identifier("b"), 5, 0);
    assert [Identifier("b")] + [] == [Identifier("b")];
    assert LexFrom(s, 4) == Ok(([Identifier("b")], 0));
    LexFromScan(s, 1);
    assert ScanToken(s, 1) == Matched(Operator(Swap), 4, 0);
    assert [Operator(Swap)] + [Identifier("b")] == [Operator(Swap), Identifier("b")];
    assert LexFrom(s, 1) == Ok(([Operator(Swap), Identifier("b")], 0));
    assert [Identifier("a")] + [Operator(Swap), Identifier("b")] == [Identifier("a"), Operator(Swap), Identifier("b")];
  }

  /** With a blank inside, `: =` is Colon, blank, Equal. */
  lemma ExampleSplitColon(t: string)
    requires t == ": ="
    ensures Lex(t) == Ok([Colon, Whitespace, Operator(Equal)])
  {
    ScanColon(t, 0);
    LexFromScan(t, 0);
    RunEndStopsAt(t, 1, 2, IsBlank);
    ScanWhitespace(t, 1);
    assert LexFrom(t, 3) == Ok(([], 0));
    LexFromScan(t, 2);
    assert ScanToken(t, 2) == Matched(Operator(Equal), 3, 0);
    assert [Operator(Equal)] + [] == [Operator(Equal)];
    assert LexFrom(t, 2) == Ok(([Operator(Equal)], 0));
    LexFromScan(t, 1);
    assert ScanToken(t, 1) == Matched(Whitespace, 2, 0);
    assert [Whitespace] + [Operator(Equal)] == [Whitespace, Operator(Equal)];
    assert LexFrom(t, 1) == Ok(([Whitespace, Operator(Equal)], 0));
    assert [Colon] + [Whitespace, Operator(Equal)] == [Colon, Whitespace, Operator(Equal)];
  }
}
