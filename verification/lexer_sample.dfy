/**
 * The lexer on the sample program of its test suite: three `let` statements,
 * one of them binding a two-parameter function literal, lexed into 36 tokens.
 * Each line is taken in three steps: where its characters stand, where its
 * tokens start and end, and the items the iterator yields for them.
 */
module LexingSample {
  import opened Outcomes
  import opened Ascii
  import opened LexerErrors
  import opened Tokens
  import opened Lexing
  import opened LexingExamples

  /** The sample program, one line per literal, starting with a line break. */
  const SAMPLE: string :=
    "\n" + "let five = 5;\n" + "let ten = 10;\n" + "\n" + "let add = fn(x, y) {\n" + "    x + y;\n" + "};\n" + "\n" + "let result = add(five, ten);"

  /** A word token: its run starts at `p` after whitespace from `pos`, ends before `e`, and resolves to `t`. */
  predicate WordAt(s: seq<char>, pos: nat, p: nat, e: nat, t: Token) {
    TokenStartsAt(s, pos, p) && p < e < |s| &&
    (forall i :: p <= i < e ==> IsIdentifierChar(s[i])) && !IsIdentifierChar(s[e]) &&
    t == if s[p..e] in KEYWORDS then Keyword(s[p..e]).value else Identifier(s[p..e])
  }

  /** A number token: a digit run from `p` to `e` worth `n`, which fits in an `i64`. */
  predicate NumberAt(s: seq<char>, pos: nat, p: nat, e: nat, n: int) {
    TokenStartsAt(s, pos, p) && p < e < |s| &&
    (forall i :: p <= i < e ==> IsDigit(s[i])) && !IsDigit(s[e]) &&
    AllDigits(s[p..e]) && DigitsValue(s[p..e]) == n && 0 <= n <= I64_MAX
  }

  /** A punctuation token at `p` that is not the start of `==` or `!=`. */
  predicate SymbolAt(s: seq<char>, pos: nat, p: nat, t: Token) {
    TokenStartsAt(s, pos, p) && s[p] in PUNCTUATION && FromChar(s[p]) == Some(t) &&
    (MayBeTwoChars(s[p]) ==> p + 1 < |s| && s[p + 1] != '=')
  }

  lemma WordStep(s: seq<char>, pos: nat, p: nat, e: nat, t: Token)
    requires WordAt(s, pos, p, e, t)
    ensures Stream(s, pos) == [Ok(t)] + Stream(s, e)
  {
    WordItem(s, pos, p, e, s[p..e], t);
  }

  lemma NumberStep(s: seq<char>, pos: nat, p: nat, e: nat, n: i64)
    requires NumberAt(s, pos, p, e, n)
    ensures Stream(s, pos) == [Ok(Integer(n))] + Stream(s, e)
  {
    NumberItem(s, pos, p, e, s[p..e], Ok(Integer(n)));
  }

  lemma SymbolStep(s: seq<char>, pos: nat, p: nat, e: nat, t: Token)
    requires SymbolAt(s, pos, p, t) && e == p + 1
    ensures Stream(s, pos) == [Ok(t)] + Stream(s, e)
  {
    SymbolItem(s, pos, p);
  }


  /** The lexed tokens of the sample program, line by line. */
  lemma SampleProgram(s: string)
    requires s == SAMPLE
    ensures Stream(s, 0) ==
      [Ok(Let), Ok(Identifier("five")), Ok(Assign), Ok(Integer(5)), Ok(Semicolon)] +
      [Ok(Let), Ok(Identifier("ten")), Ok(Assign), Ok(Integer(10)), Ok(Semicolon)] +
      [Ok(Let), Ok(Identifier("add")), Ok(Assign), Ok(Function), Ok(LeftParen), Ok(Identifier("x")), Ok(Comma), Ok(Identifier("y")), Ok(RightParen), Ok(LeftBrace)] +
      [Ok(Identifier("x")), Ok(Plus), Ok(Identifier("y")), Ok(Semicolon)] +
      [Ok(RightBrace), Ok(Semicolon)] +
      [Ok(Let), Ok(Identifier("result")), Ok(Assign), Ok(Identifier("add")), Ok(LeftParen), Ok(Identifier("five")), Ok(Comma), Ok(Identifier("ten")), Ok(RightParen), Ok(Semicolon)]
  {
    SampleText(s);
    SampleTokens(s);
  }

  /** Where every token of the sample program starts and ends. */
  predicate SampleLayout(s: string) {
    FiveLineLayout(s) && TenLineLayout(s) && AddLineLayout(s) && BodyLineLayout(s) && CloseLineLayout(s) && ResultLineLayout(s)
  }

  /** The characters of the sample program put its tokens where `SampleLayout` says. */
  lemma SampleText(s: string)
    requires s == SAMPLE
    ensures SampleLayout(s)
  {
    FiveLineText(s);
    FiveLinePlaced(s);
    TenLineText(s);
    TenLinePlaced(s);
    AddLineText(s);
    AddLinePlaced(s);
    BodyLineText(s);
    BodyLinePlaced(s);
    CloseLineText(s);
    CloseLinePlaced(s);
    ResultLineText(s);
    ResultLinePlaced(s);
  }

  /** Tokens laid out as in the sample program are yielded in order, and then the stream ends. */
  lemma SampleTokens(s: string)
    requires SampleLayout(s)
    ensures Stream(s, 0) ==
      [Ok(Let), Ok(Identifier("five")), Ok(Assign), Ok(Integer(5)), Ok(Semicolon)] +
      [Ok(Let), Ok(Identifier("ten")), Ok(Assign), Ok(Integer(10)), Ok(Semicolon)] +
      [Ok(Let), Ok(Identifier("add")), Ok(Assign), Ok(Function), Ok(LeftParen), Ok(Identifier("x")), Ok(Comma), Ok(Identifier("y")), Ok(RightParen), Ok(LeftBrace)] +
      [Ok(Identifier("x")), Ok(Plus), Ok(Identifier("y")), Ok(Semicolon)] +
      [Ok(RightBrace), Ok(Semicolon)] +
      [Ok(Let), Ok(Identifier("result")), Ok(Assign), Ok(Identifier("add")), Ok(LeftParen), Ok(Identifier("five")), Ok(Comma), Ok(Identifier("ten")), Ok(RightParen), Ok(Semicolon)]
  {
    FiveLineStream(s);
    TenLineStream(s);
    AddLineStream(s);
    BodyLineStream(s);
    CloseLineStream(s);
    ResultLineStream(s);
    StreamEnds(s, 94);
    JoinSix(Stream(s, 0), Stream(s, 14), Stream(s, 28), Stream(s, 50), Stream(s, 61), Stream(s, 64), Stream(s, 94),
      [Ok(Let), Ok(Identifier("five")), Ok(Assign), Ok(Integer(5)), Ok(Semicolon)],
      [Ok(Let), Ok(Identifier("ten")), Ok(Assign), Ok(Integer(10)), Ok(Semicolon)],
      [Ok(Let), Ok(Identifier("add")), Ok(Assign), Ok(Function), Ok(LeftParen), Ok(Identifier("x")), Ok(Comma), Ok(Identifier("y")), Ok(RightParen), Ok(LeftBrace)],
      [Ok(Identifier("x")), Ok(Plus), Ok(Identifier("y")), Ok(Semicolon)],
      [Ok(RightBrace), Ok(Semicolon)],
      [Ok(Let), Ok(Identifier("result")), Ok(Assign), Ok(Identifier("add")), Ok(LeftParen), Ok(Identifier("five")), Ok(Comma), Ok(Identifier("ten")), Ok(RightParen), Ok(Semicolon)]);
  }

  /** The characters of `let five = 5;` and the whitespace before it. */
  predicate FiveLineChars(s: string) {
    |s| == 94 && s[0] == '\n' && s[1] == 'l' && s[2] == 'e' && s[3] == 't' && s[4] == ' ' &&
    s[5] == 'f' && s[6] == 'i' && s[7] == 'v' && s[8] == 'e' && s[9] == ' ' && s[10] == '=' &&
    s[11] == ' ' && s[12] == '5' && s[13] == ';' && s[14] == '\n'
  }

  lemma FiveLineText(s: string)
    requires s == SAMPLE
    ensures FiveLineChars(s)
  {
    assert s[0..15] == "\n" + "let five = 5;\n";
  }

  /** Where the tokens of `let five = 5;` start and end, and what they resolve to. */
  predicate FiveLineLayout(s: string) {
    |s| == 94 &&
    WordAt(s, 0, 1, 4, Let) &&
    WordAt(s, 4, 5, 9, Identifier("five")) &&
    SymbolAt(s, 9, 10, Assign) &&
    NumberAt(s, 11, 12, 13, 5) &&
    SymbolAt(s, 13, 13, Semicolon)
  }

  lemma FiveLinePlaced(s: string)
    requires FiveLineChars(s)
    ensures FiveLineLayout(s)
  {
    FiveLinePlaced0(s);
    FiveLinePlaced1(s);
    FiveLinePlaced2(s);
    FiveLinePlaced3(s);
    FiveLinePlaced4(s);
  }

  lemma FiveLinePlaced0(s: string)
    requires FiveLineChars(s)
    ensures WordAt(s, 0, 1, 4, Let)
  {
    assert s[1..4] == "let";
  }

  lemma FiveLinePlaced1(s: string)
    requires FiveLineChars(s)
    ensures WordAt(s, 4, 5, 9, Identifier("five"))
  {
    assert s[5..9] == "five";
  }

  lemma FiveLinePlaced2(s: string)
    requires FiveLineChars(s)
    ensures SymbolAt(s, 9, 10, Assign)
  {
  }

  lemma FiveLinePlaced3(s: string)
    requires FiveLineChars(s)
    ensures NumberAt(s, 11, 12, 13, 5)
  {
    assert s[12..13] == "5";
  }

  lemma FiveLinePlaced4(s: string)
    requires FiveLineChars(s)
    ensures SymbolAt(s, 13, 13, Semicolon)
  {
  }

  lemma FiveLineStream(s: string)
    requires FiveLineLayout(s)
    ensures Stream(s, 0) == [Ok(Let), Ok(Identifier("five")), Ok(Assign), Ok(Integer(5)), Ok(Semicolon)] + Stream(s, 14)
  {
    FiveLineItem0(s);
    FiveLineItem1(s);
    FiveLineItem2(s);
    FiveLineItem3(s);
    FiveLineItem4(s);
    Prefix5(Stream(s, 0), Stream(s, 4), Stream(s, 9), Stream(s, 11), Stream(s, 13), Stream(s, 14),
      Ok(Let), Ok(Identifier("five")), Ok(Assign), Ok(Integer(5)), Ok(Semicolon));
  }

  lemma FiveLineItem0(s: string)
    requires FiveLineLayout(s)
    ensures Stream(s, 0) == [Ok(Let)] + Stream(s, 4)
  {
    WordStep(s, 0, 1, 4, Let);
  }

  lemma FiveLineItem1(s: string)
    requires FiveLineLayout(s)
    ensures Stream(s, 4) == [Ok(Identifier("five"))] + Stream(s, 9)
  {
    WordStep(s, 4, 5, 9, Identifier("five"));
  }

  lemma FiveLineItem2(s: string)
    requires FiveLineLayout(s)
    ensures Stream(s, 9) == [Ok(Assign)] + Stream(s, 11)
  {
    SymbolStep(s, 9, 10, 11, Assign);
  }

  lemma FiveLineItem3(s: string)
    requires FiveLineLayout(s)
    ensures Stream(s, 11) == [Ok(Integer(5))] + Stream(s, 13)
  {
    NumberStep(s, 11, 12, 13, 5);
  }

  lemma FiveLineItem4(s: string)
    requires FiveLineLayout(s)
    ensures Stream(s, 13) == [Ok(Semicolon)] + Stream(s, 14)
  {
    SymbolStep(s, 13, 13, 14, Semicolon);
  }

  /** The characters of `let ten = 10;` and the whitespace before it. */
  predicate TenLineChars(s: string) {
    |s| == 94 && s[14] == '\n' && s[15] == 'l' && s[16] == 'e' && s[17] == 't' && s[18] == ' ' &&
    s[19] == 't' && s[20] == 'e' && s[21] == 'n' && s[22] == ' ' && s[23] == '=' && s[24] == ' ' &&
    s[25] == '1' && s[26] == '0' && s[27] == ';' && s[28] == '\n'
  }

  lemma TenLineText(s: string)
    requires s == SAMPLE
    ensures TenLineChars(s)
  {
    assert s[14..29] == "\n" + "let ten = 10;\n";
  }

  /** Where the tokens of `let ten = 10;` start and end, and what they resolve to. */
  predicate TenLineLayout(s: string) {
    |s| == 94 &&
    WordAt(s, 14, 15, 18, Let) &&
    WordAt(s, 18, 19, 22, Identifier("ten")) &&
    SymbolAt(s, 22, 23, Assign) &&
    NumberAt(s, 24, 25, 27, 10) &&
    SymbolAt(s, 27, 27, Semicolon)
  }

  lemma TenLinePlaced(s: string)
    requires TenLineChars(s)
    ensures TenLineLayout(s)
  {
    TenLinePlaced0(s);
    TenLinePlaced1(s);
    TenLinePlaced2(s);
    TenLinePlaced3(s);
    TenLinePlaced4(s);
  }

  lemma TenLinePlaced0(s: string)
    requires TenLineChars(s)
    ensures WordAt(s, 14, 15, 18, Let)
  {
    assert s[15..18] == "let";
  }

  lemma TenLinePlaced1(s: string)
    requires TenLineChars(s)
    ensures WordAt(s, 18, 19, 22, Identifier("ten"))
  {
    assert s[19..22] == "ten";
  }

  lemma TenLinePlaced2(s: string)
    requires TenLineChars(s)
    ensures SymbolAt(s, 22, 23, Assign)
  {
  }

  lemma TenLinePlaced3(s: string)
    requires TenLineChars(s)
    ensures NumberAt(s, 24, 25, 27, 10)
  {
    var w := s[25..27];
    assert w == "10" && w[..1] == "1";
    assert DigitsValue(w[..1]) == 1;
  }

  lemma TenLinePlaced4(s: string)
    requires TenLineChars(s)
    ensures SymbolAt(s, 27, 27, Semicolon)
  {
  }

  lemma TenLineStream(s: string)
    requires TenLineLayout(s)
    ensures Stream(s, 14) == [Ok(Let), Ok(Identifier("ten")), Ok(Assign), Ok(Integer(10)), Ok(Semicolon)] + Stream(s, 28)
  {
    TenLineItem0(s);
    TenLineItem1(s);
    TenLineItem2(s);
    TenLineItem3(s);
    TenLineItem4(s);
    Prefix5(Stream(s, 14), Stream(s, 18), Stream(s, 22), Stream(s, 24), Stream(s, 27), Stream(s, 28),
      Ok(Let), Ok(Identifier("ten")), Ok(Assign), Ok(Integer(10)), Ok(Semicolon));
  }

  lemma TenLineItem0(s: string)
    requires TenLineLayout(s)
    ensures Stream(s, 14) == [Ok(Let)] + Stream(s, 18)
  {
    WordStep(s, 14, 15, 18, Let);
  }

  lemma TenLineItem1(s: string)
    requires TenLineLayout(s)
    ensures Stream(s, 18) == [Ok(Identifier("ten"))] + Stream(s, 22)
  {
    WordStep(s, 18, 19, 22, Identifier("ten"));
  }

  lemma TenLineItem2(s: string)
    requires TenLineLayout(s)
    ensures Stream(s, 22) == [Ok(Assign)] + Stream(s, 24)
  {
    SymbolStep(s, 22, 23, 24, Assign);
  }

  lemma TenLineItem3(s: string)
    requires TenLineLayout(s)
    ensures Stream(s, 24) == [Ok(Integer(10))] + Stream(s, 27)
  {
    NumberStep(s, 24, 25, 27, 10);
  }

  lemma TenLineItem4(s: string)
    requires TenLineLayout(s)
    ensures Stream(s, 27) == [Ok(Semicolon)] + Stream(s, 28)
  {
    SymbolStep(s, 27, 27, 28, Semicolon);
  }

  /** The characters of `let add = fn(x, y) {` and the whitespace before it. */
  predicate AddLineChars(s: string) {
    |s| == 94 && s[28] == '\n' && s[29] == '\n' && s[30] == 'l' && s[31] == 'e' && s[32] == 't' &&
    s[33] == ' ' && s[34] == 'a' && s[35] == 'd' && s[36] == 'd' && s[37] == ' ' && s[38] == '=' &&
    s[39] == ' ' && s[40] == 'f' && s[41] == 'n' && s[42] == '(' && s[43] == 'x' && s[44] == ',' &&
    s[45] == ' ' && s[46] == 'y' && s[47] == ')' && s[48] == ' ' && s[49] == '{' && s[50] == '\n'
  }

  lemma AddLineText(s: string)
    requires s == SAMPLE
    ensures AddLineChars(s)
  {
    assert s[28..51] == "\n" + "\n" + "let add = fn(x, y) {\n";
  }

  /** Where the tokens of `let add = fn(x, y) {` start and end, and what they resolve to. */
  predicate AddLineLayout(s: string) {
    |s| == 94 &&
    WordAt(s, 28, 30, 33, Let) &&
    WordAt(s, 33, 34, 37, Identifier("add")) &&
    SymbolAt(s, 37, 38, Assign) &&
    WordAt(s, 39, 40, 42, Function) &&
    SymbolAt(s, 42, 42, LeftParen) &&
    WordAt(s, 43, 43, 44, Identifier("x")) &&
    SymbolAt(s, 44, 44, Comma) &&
    WordAt(s, 45, 46, 47, Identifier("y")) &&
    SymbolAt(s, 47, 47, RightParen) &&
    SymbolAt(s, 48, 49, LeftBrace)
  }

  lemma AddLinePlaced(s: string)
    requires AddLineChars(s)
    ensures AddLineLayout(s)
  {
    AddLinePlaced0(s);
    AddLinePlaced1(s);
    AddLinePlaced2(s);
    AddLinePlaced3(s);
    AddLinePlaced4(s);
    AddLinePlaced5(s);
    AddLinePlaced6(s);
    AddLinePlaced7(s);
    AddLinePlaced8(s);
    AddLinePlaced9(s);
  }

  lemma AddLinePlaced0(s: string)
    requires AddLineChars(s)
    ensures WordAt(s, 28, 30, 33, Let)
  {
    assert s[30..33] == "let";
  }

  lemma AddLinePlaced1(s: string)
    requires AddLineChars(s)
    ensures WordAt(s, 33, 34, 37, Identifier("add"))
  {
    assert s[34..37] == "add";
  }

  lemma AddLinePlaced2(s: string)
    requires AddLineChars(s)
    ensures SymbolAt(s, 37, 38, Assign)
  {
  }

  lemma AddLinePlaced3(s: string)
    requires AddLineChars(s)
    ensures WordAt(s, 39, 40, 42, Function)
  {
    assert s[40..42] == "fn";
  }

  lemma AddLinePlaced4(s: string)
    requires AddLineChars(s)
    ensures SymbolAt(s, 42, 42, LeftParen)
  {
  }

  lemma AddLinePlaced5(s: string)
    requires AddLineChars(s)
    ensures WordAt(s, 43, 43, 44, Identifier("x"))
  {
    assert s[43..44] == "x";
  }

  lemma AddLinePlaced6(s: string)
    requires AddLineChars(s)
    ensures SymbolAt(s, 44, 44, Comma)
  {
  }

  lemma AddLinePlaced7(s: string)
    requires AddLineChars(s)
    ensures WordAt(s, 45, 46, 47, Identifier("y"))
  {
    assert s[46..47] == "y";
  }

  lemma AddLinePlaced8(s: string)
    requires AddLineChars(s)
    ensures SymbolAt(s, 47, 47, RightParen)
  {
  }

  lemma AddLinePlaced9(s: string)
    requires AddLineChars(s)
    ensures SymbolAt(s, 48, 49, LeftBrace)
  {
  }

  lemma AddLineStream(s: string)
    requires AddLineLayout(s)
    ensures Stream(s, 28) == [Ok(Let), Ok(Identifier("add")), Ok(Assign), Ok(Function), Ok(LeftParen), Ok(Identifier("x")), Ok(Comma), Ok(Identifier("y")), Ok(RightParen), Ok(LeftBrace)] + Stream(s, 50)
  {
    AddLineItem0(s);
    AddLineItem1(s);
    AddLineItem2(s);
    AddLineItem3(s);
    AddLineItem4(s);
    AddLineItem5(s);
    AddLineItem6(s);
    AddLineItem7(s);
    AddLineItem8(s);
    AddLineItem9(s);
    Prefix10(Stream(s, 28), Stream(s, 33), Stream(s, 37), Stream(s, 39), Stream(s, 42), Stream(s, 43), Stream(s, 44), Stream(s, 45), Stream(s, 47), Stream(s, 48), Stream(s, 50),
      Ok(Let), Ok(Identifier("add")), Ok(Assign), Ok(Function), Ok(LeftParen), Ok(Identifier("x")), Ok(Comma), Ok(Identifier("y")), Ok(RightParen), Ok(LeftBrace));
  }

  lemma AddLineItem0(s: string)
    requires AddLineLayout(s)
    ensures Stream(s, 28) == [Ok(Let)] + Stream(s, 33)
  {
    WordStep(s, 28, 30, 33, Let);
  }

  lemma AddLineItem1(s: string)
    requires AddLineLayout(s)
    ensures Stream(s, 33) == [Ok(Identifier("add"))] + Stream(s, 37)
  {
    WordStep(s, 33, 34, 37, Identifier("add"));
  }

  lemma AddLineItem2(s: string)
    requires AddLineLayout(s)
    ensures Stream(s, 37) == [Ok(Assign)] + Stream(s, 39)
  {
    SymbolStep(s, 37, 38, 39, Assign);
  }

  lemma AddLineItem3(s: string)
    requires AddLineLayout(s)
    ensures Stream(s, 39) == [Ok(Function)] + Stream(s, 42)
  {
    WordStep(s, 39, 40, 42, Function);
  }

  lemma AddLineItem4(s: string)
    requires AddLineLayout(s)
    ensures Stream(s, 42) == [Ok(LeftParen)] + Stream(s, 43)
  {
    SymbolStep(s, 42, 42, 43, LeftParen);
  }

  lemma AddLineItem5(s: string)
    requires AddLineLayout(s)
    ensures Stream(s, 43) == [Ok(Identifier("x"))] + Stream(s, 44)
  {
    WordStep(s, 43, 43, 44, Identifier("x"));
  }

  lemma AddLineItem6(s: string)
    requires AddLineLayout(s)
    ensures Stream(s, 44) == [Ok(Comma)] + Stream(s, 45)
  {
    SymbolStep(s, 44, 44, 45, Comma);
  }

  lemma AddLineItem7(s: string)
    requires AddLineLayout(s)
    ensures Stream(s, 45) == [Ok(Identifier("y"))] + Stream(s, 47)
  {
    WordStep(s, 45, 46, 47, Identifier("y"));
  }

  lemma AddLineItem8(s: string)
    requires AddLineLayout(s)
    ensures Stream(s, 47) == [Ok(RightParen)] + Stream(s, 48)
  {
    SymbolStep(s, 47, 47, 48, RightParen);
  }

  lemma AddLineItem9(s: string)
    requires AddLineLayout(s)
    ensures Stream(s, 48) == [Ok(LeftBrace)] + Stream(s, 50)
  {
    SymbolStep(s, 48, 49, 50, LeftBrace);
  }

  /** The characters of `    x + y;` and the whitespace before it. */
  predicate BodyLineChars(s: string) {
    |s| == 94 && s[50] == '\n' && s[51] == ' ' && s[52] == ' ' && s[53] == ' ' && s[54] == ' ' &&
    s[55] == 'x' && s[56] == ' ' && s[57] == '+' && s[58] == ' ' && s[59] == 'y' && s[60] == ';' &&
    s[61] == '\n'
  }

  lemma BodyLineText(s: string)
    requires s == SAMPLE
    ensures BodyLineChars(s)
  {
    assert s[50..62] == "\n" + "    x + y;\n";
  }

  /** Where the tokens of `    x + y;` start and end, and what they resolve to. */
  predicate BodyLineLayout(s: string) {
    |s| == 94 &&
    WordAt(s, 50, 55, 56, Identifier("x")) &&
    SymbolAt(s, 56, 57, Plus) &&
    WordAt(s, 58, 59, 60, Identifier("y")) &&
    SymbolAt(s, 60, 60, Semicolon)
  }

  lemma BodyLinePlaced(s: string)
    requires BodyLineChars(s)
    ensures BodyLineLayout(s)
  {
    BodyLinePlaced0(s);
    BodyLinePlaced1(s);
    BodyLinePlaced2(s);
    BodyLinePlaced3(s);
  }

  lemma BodyLinePlaced0(s: string)
    requires BodyLineChars(s)
    ensures WordAt(s, 50, 55, 56, Identifier("x"))
  {
    assert s[55..56] == "x";
  }

  lemma BodyLinePlaced1(s: string)
    requires BodyLineChars(s)
    ensures SymbolAt(s, 56, 57, Plus)
  {
  }

  lemma BodyLinePlaced2(s: string)
    requires BodyLineChars(s)
    ensures WordAt(s, 58, 59, 60, Identifier("y"))
  {
    assert s[59..60] == "y";
  }

  lemma BodyLinePlaced3(s: string)
    requires BodyLineChars(s)
    ensures SymbolAt(s, 60, 60, Semicolon)
  {
  }

  lemma BodyLineStream(s: string)
    requires BodyLineLayout(s)
    ensures Stream(s, 50) == [Ok(Identifier("x")), Ok(Plus), Ok(Identifier("y")), Ok(Semicolon)] + Stream(s, 61)
  {
    BodyLineItem0(s);
    BodyLineItem1(s);
    BodyLineItem2(s);
    BodyLineItem3(s);
    Prefix4(Stream(s, 50), Stream(s, 56), Stream(s, 58), Stream(s, 60), Stream(s, 61),
      Ok(Identifier("x")), Ok(Plus), Ok(Identifier("y")), Ok(Semicolon));
  }

  lemma BodyLineItem0(s: string)
    requires BodyLineLayout(s)
    ensures Stream(s, 50) == [Ok(Identifier("x"))] + Stream(s, 56)
  {
    WordStep(s, 50, 55, 56, Identifier("x"));
  }

  lemma BodyLineItem1(s: string)
    requires BodyLineLayout(s)
    ensures Stream(s, 56) == [Ok(Plus)] + Stream(s, 58)
  {
    SymbolStep(s, 56, 57, 58, Plus);
  }

  lemma BodyLineItem2(s: string)
    requires BodyLineLayout(s)
    ensures Stream(s, 58) == [Ok(Identifier("y"))] + Stream(s, 60)
  {
    WordStep(s, 58, 59, 60, Identifier("y"));
  }

  lemma BodyLineItem3(s: string)
    requires BodyLineLayout(s)
    ensures Stream(s, 60) == [Ok(Semicolon)] + Stream(s, 61)
  {
    SymbolStep(s, 60, 60, 61, Semicolon);
  }

  /** The characters of `};` and the whitespace before it. */
  predicate CloseLineChars(s: string) {
    |s| == 94 && s[61] == '\n' && s[62] == '}' && s[63] == ';' && s[64] == '\n'
  }

  lemma CloseLineText(s: string)
    requires s == SAMPLE
    ensures CloseLineChars(s)
  {
    assert s[61..65] == "\n" + "};\n";
  }

  /** Where the tokens of `};` start and end, and what they resolve to. */
  predicate CloseLineLayout(s: string) {
    |s| == 94 &&
    SymbolAt(s, 61, 62, RightBrace) &&
    SymbolAt(s, 63, 63, Semicolon)
  }

  lemma CloseLinePlaced(s: string)
    requires CloseLineChars(s)
    ensures CloseLineLayout(s)
  {
    CloseLinePlaced0(s);
    CloseLinePlaced1(s);
  }

  lemma CloseLinePlaced0(s: string)
    requires CloseLineChars(s)
    ensures SymbolAt(s, 61, 62, RightBrace)
  {
  }

  lemma CloseLinePlaced1(s: string)
    requires CloseLineChars(s)
    ensures SymbolAt(s, 63, 63, Semicolon)
  {
  }

  lemma CloseLineStream(s: string)
    requires CloseLineLayout(s)
    ensures Stream(s, 61) == [Ok(RightBrace), Ok(Semicolon)] + Stream(s, 64)
  {
    CloseLineItem0(s);
    CloseLineItem1(s);
    Prefix2(Stream(s, 61), Stream(s, 63), Stream(s, 64),
      Ok(RightBrace), Ok(Semicolon));
  }

  lemma CloseLineItem0(s: string)
    requires CloseLineLayout(s)
    ensures Stream(s, 61) == [Ok(RightBrace)] + Stream(s, 63)
  {
    SymbolStep(s, 61, 62, 63, RightBrace);
  }

  lemma CloseLineItem1(s: string)
    requires CloseLineLayout(s)
    ensures Stream(s, 63) == [Ok(Semicolon)] + Stream(s, 64)
  {
    SymbolStep(s, 63, 63, 64, Semicolon);
  }

  /** The characters of `let result = add(five, ten);` and the whitespace before it. */
  predicate ResultLineChars(s: string) {
    |s| == 94 && s[64] == '\n' && s[65] == '\n' && s[66] == 'l' && s[67] == 'e' && s[68] == 't' &&
    s[69] == ' ' && s[70] == 'r' && s[71] == 'e' && s[72] == 's' && s[73] == 'u' && s[74] == 'l' &&
    s[75] == 't' && s[76] == ' ' && s[77] == '=' && s[78] == ' ' && s[79] == 'a' && s[80] == 'd' &&
    s[81] == 'd' && s[82] == '(' && s[83] == 'f' && s[84] == 'i' && s[85] == 'v' && s[86] == 'e' &&
    s[87] == ',' && s[88] == ' ' && s[89] == 't' && s[90] == 'e' && s[91] == 'n' && s[92] == ')' &&
    s[93] == ';'
  }

  lemma ResultLineText(s: string)
    requires s == SAMPLE
    ensures ResultLineChars(s)
  {
    assert s[64..94] == "\n" + "\n" + "let result = add(five, ten);";
  }

  /** Where the tokens of `let result = add(five, ten);` start and end, and what they resolve to. */
  predicate ResultLineLayout(s: string) {
    |s| == 94 &&
    WordAt(s, 64, 66, 69, Let) &&
    WordAt(s, 69, 70, 76, Identifier("result")) &&
    SymbolAt(s, 76, 77, Assign) &&
    WordAt(s, 78, 79, 82, Identifier("add")) &&
    SymbolAt(s, 82, 82, LeftParen) &&
    WordAt(s, 83, 83, 87, Identifier("five")) &&
    SymbolAt(s, 87, 87, Comma) &&
    WordAt(s, 88, 89, 92, Identifier("ten")) &&
    SymbolAt(s, 92, 92, RightParen) &&
    SymbolAt(s, 93, 93, Semicolon)
  }

  lemma ResultLinePlaced(s: string)
    requires ResultLineChars(s)
    ensures ResultLineLayout(s)
  {
    ResultLinePlaced0(s);
    ResultLinePlaced1(s);
    ResultLinePlaced2(s);
    ResultLinePlaced3(s);
    ResultLinePlaced4(s);
    ResultLinePlaced5(s);
    ResultLinePlaced6(s);
    ResultLinePlaced7(s);
    ResultLinePlaced8(s);
    ResultLinePlaced9(s);
  }

  lemma ResultLinePlaced0(s: string)
    requires ResultLineChars(s)
    ensures WordAt(s, 64, 66, 69, Let)
  {
    assert s[66..69] == "let";
  }

  lemma ResultLinePlaced1(s: string)
    requires ResultLineChars(s)
    ensures WordAt(s, 69, 70, 76, Identifier("result"))
  {
    assert s[70..76] == "result";
  }

  lemma ResultLinePlaced2(s: string)
    requires ResultLineChars(s)
    ensures SymbolAt(s, 76, 77, Assign)
  {
  }

  lemma ResultLinePlaced3(s: string)
    requires ResultLineChars(s)
    ensures WordAt(s, 78, 79, 82, Identifier("add"))
  {
    assert s[79..82] == "add";
  }

  lemma ResultLinePlaced4(s: string)
    requires ResultLineChars(s)
    ensures SymbolAt(s, 82, 82, LeftParen)
  {
  }

  lemma ResultLinePlaced5(s: string)
    requires ResultLineChars(s)
    ensures WordAt(s, 83, 83, 87, Identifier("five"))
  {
    assert s[83..87] == "five";
  }

  lemma ResultLinePlaced6(s: string)
    requires ResultLineChars(s)
    ensures SymbolAt(s, 87, 87, Comma)
  {
  }

  lemma ResultLinePlaced7(s: string)
    requires ResultLineChars(s)
    ensures WordAt(s, 88, 89, 92, Identifier("ten"))
  {
    assert s[89..92] == "ten";
  }

  lemma ResultLinePlaced8(s: string)
    requires ResultLineChars(s)
    ensures SymbolAt(s, 92, 92, RightParen)
  {
  }

  lemma ResultLinePlaced9(s: string)
    requires ResultLineChars(s)
    ensures SymbolAt(s, 93, 93, Semicolon)
  {
  }

  lemma ResultLineStream(s: string)
    requires ResultLineLayout(s)
    ensures Stream(s, 64) == [Ok(Let), Ok(Identifier("result")), Ok(Assign), Ok(Identifier("add")), Ok(LeftParen), Ok(Identifier("five")), Ok(Comma), Ok(Identifier("ten")), Ok(RightParen), Ok(Semicolon)] + Stream(s, 94)
  {
    ResultLineItem0(s);
    ResultLineItem1(s);
    ResultLineItem2(s);
    ResultLineItem3(s);
    ResultLineItem4(s);
    ResultLineItem5(s);
    ResultLineItem6(s);
    ResultLineItem7(s);
    ResultLineItem8(s);
    ResultLineItem9(s);
    Prefix10(Stream(s, 64), Stream(s, 69), Stream(s, 76), Stream(s, 78), Stream(s, 82), Stream(s, 83), Stream(s, 87), Stream(s, 88), Stream(s, 92), Stream(s, 93), Stream(s, 94),
      Ok(Let), Ok(Identifier("result")), Ok(Assign), Ok(Identifier("add")), Ok(LeftParen), Ok(Identifier("five")), Ok(Comma), Ok(Identifier("ten")), Ok(RightParen), Ok(Semicolon));
  }

  lemma ResultLineItem0(s: string)
    requires ResultLineLayout(s)
    ensures Stream(s, 64) == [Ok(Let)] + Stream(s, 69)
  {
    WordStep(s, 64, 66, 69, Let);
  }

  lemma ResultLineItem1(s: string)
    requires ResultLineLayout(s)
    ensures Stream(s, 69) == [Ok(Identifier("result"))] + Stream(s, 76)
  {
    WordStep(s, 69, 70, 76, Identifier("result"));
  }

  lemma ResultLineItem2(s: string)
    requires ResultLineLayout(s)
    ensures Stream(s, 76) == [Ok(Assign)] + Stream(s, 78)
  {
    SymbolStep(s, 76, 77, 78, Assign);
  }

  lemma ResultLineItem3(s: string)
    requires ResultLineLayout(s)
    ensures Stream(s, 78) == [Ok(Identifier("add"))] + Stream(s, 82)
  {
    WordStep(s, 78, 79, 82, Identifier("add"));
  }

  lemma ResultLineItem4(s: string)
    requires ResultLineLayout(s)
    ensures Stream(s, 82) == [Ok(LeftParen)] + Stream(s, 83)
  {
    SymbolStep(s, 82, 82, 83, LeftParen);
  }

  lemma ResultLineItem5(s: string)
    requires ResultLineLayout(s)
    ensures Stream(s, 83) == [Ok(Identifier("five"))] + Stream(s, 87)
  {
    WordStep(s, 83, 83, 87, Identifier("five"));
  }

  lemma ResultLineItem6(s: string)
    requires ResultLineLayout(s)
    ensures Stream(s, 87) == [Ok(Comma)] + Stream(s, 88)
  {
    SymbolStep(s, 87, 87, 88, Comma);
  }

  lemma ResultLineItem7(s: string)
    requires ResultLineLayout(s)
    ensures Stream(s, 88) == [Ok(Identifier("ten"))] + Stream(s, 92)
  {
    WordStep(s, 88, 89, 92, Identifier("ten"));
  }

  lemma ResultLineItem8(s: string)
    requires ResultLineLayout(s)
    ensures Stream(s, 92) == [Ok(RightParen)] + Stream(s, 93)
  {
    SymbolStep(s, 92, 92, 93, RightParen);
  }

  lemma ResultLineItem9(s: string)
    requires ResultLineLayout(s)
    ensures Stream(s, 93) == [Ok(Semicolon)] + Stream(s, 94)
  {
    SymbolStep(s, 93, 93, 94, Semicolon);
  }


  /** Single-item steps of a stream, chained into one. */
  lemma Prefix2<T>(s0: seq<T>, s1: seq<T>, s2: seq<T>,
      x0: T, x1: T)
    requires s0 == [x0] + s1 &&
             s1 == [x1] + s2
    ensures s0 == [x0, x1] + s2
  {
  }

  /** `n` single-item steps of a stream, chained into one. */
  lemma Prefix4<T>(s0: seq<T>, s1: seq<T>, s2: seq<T>, s3: seq<T>, s4: seq<T>,
      x0: T, x1: T, x2: T, x3: T)
    requires s0 == [x0] + s1 &&
             s1 == [x1] + s2 &&
             s2 == [x2] + s3 &&
             s3 == [x3] + s4
    ensures s0 == [x0, x1, x2, x3] + s4
  {
  }

  /** `n` single-item steps of a stream, chained into one. */
  lemma Prefix5<T>(s0: seq<T>, s1: seq<T>, s2: seq<T>, s3: seq<T>, s4: seq<T>, s5: seq<T>,
      x0: T, x1: T, x2: T, x3: T, x4: T)
    requires s0 == [x0] + s1 &&
             s1 == [x1] + s2 &&
             s2 == [x2] + s3 &&
             s3 == [x3] + s4 &&
             s4 == [x4] + s5
    ensures s0 == [x0, x1, x2, x3, x4] + s5
  {
  }

  /** `n` single-item steps of a stream, chained into one. */
  lemma Prefix10<T>(s0: seq<T>, s1: seq<T>, s2: seq<T>, s3: seq<T>, s4: seq<T>, s5: seq<T>, s6: seq<T>, s7: seq<T>, s8: seq<T>, s9: seq<T>, s10: seq<T>,
      x0: T, x1: T, x2: T, x3: T, x4: T, x5: T, x6: T, x7: T, x8: T, x9: T)
    requires s0 == [x0] + s1 &&
             s1 == [x1] + s2 &&
             s2 == [x2] + s3 &&
             s3 == [x3] + s4 &&
             s4 == [x4] + s5 &&
             s5 == [x5] + s6 &&
             s6 == [x6] + s7 &&
             s7 == [x7] + s8 &&
             s8 == [x8] + s9 &&
             s9 == [x9] + s10
    ensures s0 == [x0, x1, x2, x3, x4, x5, x6, x7, x8, x9] + s10
  {
  }

  /** Six consecutive stretches of a stream that ends, joined. */
  lemma JoinSix<T>(s0: seq<T>, s1: seq<T>, s2: seq<T>, s3: seq<T>, s4: seq<T>, s5: seq<T>, s6: seq<T>,
                   a: seq<T>, b: seq<T>, c: seq<T>, d: seq<T>, e: seq<T>, f: seq<T>)
    requires s0 == a + s1 && s1 == b + s2 && s2 == c + s3 && s3 == d + s4 && s4 == e + s5 && s5 == f + s6
    requires s6 == []
    ensures s0 == a + b + c + d + e + f
  {
  }

}