/**
 * The lexer on inputs from its test suite and on edge cases of its rules. Each example is
 * taken one token at a time, one lemma per token.
 */
module LexingExamples {
  import opened Outcomes
  import opened Ascii
  import opened LexerErrors
  import opened Tokens
  import opened Lexing

  /** A maximal run of letters and underscores spelling `w`, as the next item of the stream. */
  lemma WordItem(s: seq<char>, pos: nat, p: nat, e: nat, w: string, t: Token)
    requires TokenStartsAt(s, pos, p) && p < e < |s| && s[p..e] == w
    requires forall i :: p <= i < e ==> IsIdentifierChar(s[i])
    requires !IsIdentifierChar(s[e])
    requires t == if w in KEYWORDS then Keyword(w).value else Identifier(w)
    ensures Stream(s, pos) == [Ok(t)] + Stream(s, e)
  {
    IdentifierRunIsMaximal(s, pos, p, e);
  }

  /** A maximal run of digits spelling `w`, as the next item of the stream. */
  lemma NumberItem(s: seq<char>, pos: nat, p: nat, e: nat, w: string, item: Result<Token, Error>)
    requires TokenStartsAt(s, pos, p) && p < e < |s| && s[p..e] == w
    requires forall i :: p <= i < e ==> IsDigit(s[i])
    requires !IsDigit(s[e])
    requires AllDigits(w) && item == if DigitsValue(w) <= I64_MAX then Ok(Integer(DigitsValue(w))) else Err(TokenError(w))
    ensures Stream(s, pos) == [item] + Stream(s, e)
  {
    DigitRunIsMaximal(s, pos, p, e);
  }

  /** A punctuation character that does not start `==` or `!=`, as the next item of the stream. */
  lemma SymbolItem(s: seq<char>, pos: nat, p: nat)
    requires TokenStartsAt(s, pos, p) && s[p] in PUNCTUATION
    requires MayBeTwoChars(s[p]) ==> p + 1 < |s| && s[p + 1] != '='
    ensures Stream(s, pos) == [Ok(FromChar(s[p]).value)] + Stream(s, p + 1)
  {
    if MayBeTwoChars(s[p]) {
      OneCharOperatorAfterPeek(s, pos, p);
    } else {
      PunctuationToken(s, pos, p);
    }
  }

  /** Nothing but whitespace from `pos` on: the stream is over. */
  lemma StreamEnds(s: seq<char>, pos: nat)
    requires pos <= |s| && forall i :: pos <= i < |s| ==> IsWhitespace(s[i])
    ensures Stream(s, pos) == []
  {
    WhitespaceIsSkipped(s, pos, |s|);
  }

  /** How the short words of the examples resolve. */
  lemma ShortWords()
    ensures "let" in KEYWORDS && Keyword("let") == Some(Let)
    ensures "five" !in KEYWORDS && "x" !in KEYWORDS
    ensures AllDigits("5") && DigitsValue("5") == 5 && AllDigits("1") && DigitsValue("1") == 1
  {
  }

  lemma OneItem<T>(s0: seq<T>, s1: seq<T>, x0: T)
    requires s0 == [x0] + s1 && s1 == []
    ensures s0 == [x0]
  {
  }

  lemma TwoItems<T>(s0: seq<T>, s1: seq<T>, s2: seq<T>, x0: T, x1: T)
    requires s0 == [x0] + s1 && s1 == [x1] + s2 && s2 == []
    ensures s0 == [x0, x1]
  {
  }

  lemma ThreeItems<T>(s0: seq<T>, s1: seq<T>, s2: seq<T>, s3: seq<T>, x0: T, x1: T, x2: T)
    requires s0 == [x0] + s1 && s1 == [x1] + s2 && s2 == [x2] + s3 && s3 == []
    ensures s0 == [x0, x1, x2]
  {
  }

  lemma FiveItems<T>(s0: seq<T>, s1: seq<T>, s2: seq<T>, s3: seq<T>, s4: seq<T>, s5: seq<T>,
                     x0: T, x1: T, x2: T, x3: T, x4: T)
    requires s0 == [x0] + s1 && s1 == [x1] + s2 && s2 == [x2] + s3 && s3 == [x3] + s4
    requires s4 == [x4] + s5 && s5 == []
    ensures s0 == [x0, x1, x2, x3, x4]
  {
  }

  /** `let five = 5;` gives exactly `Let, Identifier("five"), Assign, Integer(5), Semicolon`. */
  lemma LetStatement(s: string)
    requires s == "let five = 5;"
    ensures Stream(s, 0) ==
      [Ok(Let), Ok(Identifier("five")), Ok(Assign), Ok(Integer(5)), Ok(Semicolon)]
  {
    LetFiveText(s);
    LetFiveTokens(s);
  }

  /** Where the tokens of `let five = 5;` start and end. */
  predicate LetFiveLayout(s: string) {
    |s| == 13 && s[0..3] == "let" && s[4..8] == "five" && s[11..12] == "5" &&
    TokenStartsAt(s, 0, 0) && TokenStartsAt(s, 3, 4) && TokenStartsAt(s, 8, 9) &&
    TokenStartsAt(s, 10, 11) && TokenStartsAt(s, 12, 12) &&
    (forall i :: 0 <= i < 3 ==> IsIdentifierChar(s[i])) && !IsIdentifierChar(s[3]) &&
    (forall i :: 4 <= i < 8 ==> IsIdentifierChar(s[i])) && !IsIdentifierChar(s[8]) &&
    s[9] == '=' && s[10] != '=' && IsDigit(s[11]) && !IsDigit(s[12]) && s[12] == ';'
  }

  lemma LetFiveText(s: string)
    requires s == "let five = 5;"
    ensures LetFiveLayout(s)
  {
    assert s[0..3] == "let" && s[4..8] == "five" && s[11..12] == "5";
    assert forall i :: 0 <= i < 3 ==> IsIdentifierChar(s[i]);
    assert forall i :: 4 <= i < 8 ==> IsIdentifierChar(s[i]);
  }

  lemma LetFiveTokens(s: string)
    requires LetFiveLayout(s)
    ensures Stream(s, 0) ==
      [Ok(Let), Ok(Identifier("five")), Ok(Assign), Ok(Integer(5)), Ok(Semicolon)]
  {
    LetFiveKeyword(s);
    LetFiveName(s);
    LetFiveAssign(s);
    LetFiveValue(s);
    LetFiveEnd(s);
    FiveItems(Stream(s, 0), Stream(s, 3), Stream(s, 8), Stream(s, 10), Stream(s, 12), Stream(s, 13),
      Ok(Let), Ok(Identifier("five")), Ok(Assign), Ok(Integer(5)), Ok(Semicolon));
  }

  lemma LetFiveKeyword(s: string)
    requires LetFiveLayout(s)
    ensures Stream(s, 0) == [Ok(Let)] + Stream(s, 3)
  {
    ShortWords();
    WordItem(s, 0, 0, 3, "let", Let);
  }

  lemma LetFiveName(s: string)
    requires LetFiveLayout(s)
    ensures Stream(s, 3) == [Ok(Identifier("five"))] + Stream(s, 8)
  {
    ShortWords();
    WordItem(s, 3, 4, 8, "five", Identifier("five"));
  }

  lemma LetFiveAssign(s: string)
    requires LetFiveLayout(s)
    ensures Stream(s, 8) == [Ok(Assign)] + Stream(s, 10)
  {
    SymbolItem(s, 8, 9);
  }

  lemma LetFiveValue(s: string)
    requires LetFiveLayout(s)
    ensures Stream(s, 10) == [Ok(Integer(5))] + Stream(s, 12)
  {
    ShortWords();
    NumberItem(s, 10, 11, 12, "5", Ok(Integer(5)));
  }

  lemma LetFiveEnd(s: string)
    requires LetFiveLayout(s)
    ensures Stream(s, 12) == [Ok(Semicolon)] + Stream(s, 13) && Stream(s, 13) == []
  {
    SymbolItem(s, 12, 12);
    StreamEnds(s, 13);
  }

  /**
   * A string of punctuation in which no `=` or `!` is followed by `=` or ends
   * the input lexes one token per character.
   */
  predicate PlainPunctuation(s: seq<char>, pos: nat) {
    pos <= |s| &&
    (forall i :: pos <= i < |s| ==> s[i] in PUNCTUATION) &&
    (forall i :: pos <= i < |s| && MayBeTwoChars(s[i]) ==> i + 1 < |s| && s[i + 1] != '=')
  }

  /** `items` holds one token per character of `s` from `pos` on, each the character's own token. */
  predicate OneTokenPerCharacter(items: seq<Result<Token, Error>>, s: seq<char>, pos: nat)
    requires PlainPunctuation(s, pos)
  {
    |items| == |s| - pos && forall i :: pos <= i < |s| ==> items[i - pos] == Ok(FromChar(s[i]).value)
  }

  lemma {:induction false} PunctuationOneByOne(s: seq<char>, pos: nat)
    requires PlainPunctuation(s, pos)
    ensures OneTokenPerCharacter(Stream(s, pos), s, pos)
    decreases |s| - pos
  {
    if pos == |s| {
      StreamEnds(s, pos);
    } else {
      PlainPunctuationStep(s, pos);
      PunctuationOneByOne(s, pos + 1);
      PunctuationOneMore(s, pos);
    }
  }

  lemma PunctuationOneMore(s: seq<char>, pos: nat)
    requires PlainPunctuation(s, pos) && pos < |s| && PlainPunctuation(s, pos + 1)
    requires OneTokenPerCharacter(Stream(s, pos + 1), s, pos + 1)
    ensures OneTokenPerCharacter(Stream(s, pos), s, pos)
  {
    PlainPunctuationStep(s, pos);
    SymbolItem(s, pos, pos);
    OneMoreCharacter(s, pos, Stream(s, pos), Stream(s, pos + 1));
  }

  lemma PlainPunctuationStep(s: seq<char>, pos: nat)
    requires PlainPunctuation(s, pos) && pos < |s|
    ensures PlainPunctuation(s, pos + 1) && TokenStartsAt(s, pos, pos) && s[pos] in PUNCTUATION
    ensures MayBeTwoChars(s[pos]) ==> pos + 1 < |s| && s[pos + 1] != '='
  {
  }

  lemma OneMoreCharacter(s: seq<char>, pos: nat, items: seq<Result<Token, Error>>, rest: seq<Result<Token, Error>>)
    requires PlainPunctuation(s, pos) && pos < |s|
    requires items == [Ok(FromChar(s[pos]).value)] + rest && OneTokenPerCharacter(rest, s, pos + 1)
    ensures OneTokenPerCharacter(items, s, pos)
  {
    forall i | pos <= i < |s|
      ensures items[i - pos] == Ok(FromChar(s[i]).value)
    {
      if i > pos {
        assert items[i - pos] == rest[i - (pos + 1)];
      }
    }
  }

  /** The single-character test string gives the fourteen punctuation tokens in order. */
  lemma SingleCharTokens(s: string)
    requires s == "=*!,>{(<-+});/"
    ensures Stream(s, 0) == [Ok(Assign), Ok(Asterisk), Ok(Bang), Ok(Comma), Ok(GreaterThan),
      Ok(LeftBrace), Ok(LeftParen), Ok(LessThan), Ok(Minus), Ok(Plus), Ok(RightBrace),
      Ok(RightParen), Ok(Semicolon), Ok(Slash)]
  {
    SingleCharTokensArePlain(s);
    PunctuationOneByOne(s, 0);
    SingleCharItems(s, Stream(s, 0));
  }

  lemma SingleCharItems(s: string, items: seq<Result<Token, Error>>)
    requires s == "=*!,>{(<-+});/"
    requires PlainPunctuation(s, 0) && OneTokenPerCharacter(items, s, 0)
    ensures items == [Ok(Assign), Ok(Asterisk), Ok(Bang), Ok(Comma), Ok(GreaterThan), Ok(LeftBrace), Ok(LeftParen), Ok(LessThan), Ok(Minus), Ok(Plus), Ok(RightBrace), Ok(RightParen), Ok(Semicolon), Ok(Slash)]
  {
    SingleCharItemsFrom0(s, items);
    SingleCharItemsFrom5(s, items);
    SingleCharItemsFrom10(s, items);
    FourteenItems(items);
  }

  lemma FourteenItems(items: seq<Result<Token, Error>>)
    requires |items| == 14
    requires items[0] == Ok(Assign) &&
      items[1] == Ok(Asterisk) &&
      items[2] == Ok(Bang) &&
      items[3] == Ok(Comma) &&
      items[4] == Ok(GreaterThan) &&
      items[5] == Ok(LeftBrace) &&
      items[6] == Ok(LeftParen) &&
      items[7] == Ok(LessThan) &&
      items[8] == Ok(Minus) &&
      items[9] == Ok(Plus) &&
      items[10] == Ok(RightBrace) &&
      items[11] == Ok(RightParen) &&
      items[12] == Ok(Semicolon) &&
      items[13] == Ok(Slash)
    ensures items == [Ok(Assign), Ok(Asterisk), Ok(Bang), Ok(Comma), Ok(GreaterThan), Ok(LeftBrace), Ok(LeftParen), Ok(LessThan), Ok(Minus), Ok(Plus), Ok(RightBrace), Ok(RightParen), Ok(Semicolon), Ok(Slash)]
  {
  }

  lemma SingleCharItemsFrom0(s: string, items: seq<Result<Token, Error>>)
    requires s == "=*!,>{(<-+});/"
    requires PlainPunctuation(s, 0) && OneTokenPerCharacter(items, s, 0)
    ensures items[0] == Ok(Assign) &&
      items[1] == Ok(Asterisk) &&
      items[2] == Ok(Bang) &&
      items[3] == Ok(Comma) &&
      items[4] == Ok(GreaterThan)
  {
    assert items[0] == Ok(FromChar(s[0]).value);
    assert items[1] == Ok(FromChar(s[1]).value);
    assert items[2] == Ok(FromChar(s[2]).value);
    assert items[3] == Ok(FromChar(s[3]).value);
    assert items[4] == Ok(FromChar(s[4]).value);
  }

  lemma SingleCharItemsFrom5(s: string, items: seq<Result<Token, Error>>)
    requires s == "=*!,>{(<-+});/"
    requires PlainPunctuation(s, 0) && OneTokenPerCharacter(items, s, 0)
    ensures items[5] == Ok(LeftBrace) &&
      items[6] == Ok(LeftParen) &&
      items[7] == Ok(LessThan) &&
      items[8] == Ok(Minus) &&
      items[9] == Ok(Plus)
  {
    assert items[5] == Ok(FromChar(s[5]).value);
    assert items[6] == Ok(FromChar(s[6]).value);
    assert items[7] == Ok(FromChar(s[7]).value);
    assert items[8] == Ok(FromChar(s[8]).value);
    assert items[9] == Ok(FromChar(s[9]).value);
  }

  lemma SingleCharItemsFrom10(s: string, items: seq<Result<Token, Error>>)
    requires s == "=*!,>{(<-+});/"
    requires PlainPunctuation(s, 0) && OneTokenPerCharacter(items, s, 0)
    ensures items[10] == Ok(RightBrace) &&
      items[11] == Ok(RightParen) &&
      items[12] == Ok(Semicolon) &&
      items[13] == Ok(Slash)
  {
    assert items[10] == Ok(FromChar(s[10]).value);
    assert items[11] == Ok(FromChar(s[11]).value);
    assert items[12] == Ok(FromChar(s[12]).value);
    assert items[13] == Ok(FromChar(s[13]).value);
  }

  lemma SingleCharTokensArePlain(s: string)
    requires s == "=*!,>{(<-+});/"
    ensures PlainPunctuation(s, 0)
  {
    assert forall i :: 0 <= i < |s| ==> s[i] in PUNCTUATION;
    assert forall i :: 0 <= i < |s| && MayBeTwoChars(s[i]) ==> i == 0 || i == 2;
  }

  /** `==` and `!=` are single tokens. */
  lemma TwoCharOperators(s: string, t: string)
    requires s == "==" && t == "!="
    ensures Stream(s, 0) == [Ok(Equal)] && Stream(t, 0) == [Ok(NotEqual)]
  {
    TwoCharOperator(s, 0, 0);
    StreamEnds(s, 2);
    TwoCharOperator(t, 0, 0);
    StreamEnds(t, 2);
  }

  /** Input that is only whitespace gives no token. */
  lemma OnlyWhitespace(s: string)
    requires s == " \t\n\U{000C}\r"
    ensures Stream(s, 0) == []
  {
    StreamEnds(s, 0);
  }

  /** `x1;`: the letter run stops at the digit, which starts the next token. */
  lemma LetterThenDigit(s: string)
    requires s == "x1;"
    ensures Stream(s, 0) == [Ok(Identifier("x")), Ok(Integer(1)), Ok(Semicolon)]
  {
    LetterThenDigitText(s);
    LetterThenDigitTokens(s);
  }

  predicate LetterThenDigitLayout(s: string) {
    |s| == 3 && s[0..1] == "x" && s[1..2] == "1" && s[2] == ';' &&
    TokenStartsAt(s, 0, 0) && TokenStartsAt(s, 1, 1) && TokenStartsAt(s, 2, 2) &&
    (forall i :: 0 <= i < 1 ==> IsIdentifierChar(s[i])) && !IsIdentifierChar(s[1]) &&
    (forall i :: 1 <= i < 2 ==> IsDigit(s[i])) && !IsDigit(s[2])
  }

  lemma LetterThenDigitText(s: string)
    requires s == "x1;"
    ensures LetterThenDigitLayout(s)
  {
  }

  lemma LetterThenDigitTokens(s: string)
    requires LetterThenDigitLayout(s)
    ensures Stream(s, 0) == [Ok(Identifier("x")), Ok(Integer(1)), Ok(Semicolon)]
  {
    LetterThenDigitName(s);
    LetterThenDigitValue(s);
    LetterThenDigitEnd(s);
    ThreeItems(Stream(s, 0), Stream(s, 1), Stream(s, 2), Stream(s, 3),
      Ok(Identifier("x")), Ok(Integer(1)), Ok(Semicolon));
  }

  lemma LetterThenDigitName(s: string)
    requires LetterThenDigitLayout(s)
    ensures Stream(s, 0) == [Ok(Identifier("x"))] + Stream(s, 1)
  {
    ShortWords();
    WordItem(s, 0, 0, 1, "x", Identifier("x"));
  }

  lemma LetterThenDigitValue(s: string)
    requires LetterThenDigitLayout(s)
    ensures Stream(s, 1) == [Ok(Integer(1))] + Stream(s, 2)
  {
    ShortWords();
    NumberItem(s, 1, 1, 2, "1", Ok(Integer(1)));
  }

  lemma LetterThenDigitEnd(s: string)
    requires LetterThenDigitLayout(s)
    ensures Stream(s, 2) == [Ok(Semicolon)] + Stream(s, 3) && Stream(s, 3) == []
  {
    SymbolItem(s, 2, 2);
    StreamEnds(s, 3);
  }

  /** `x = 5`: the run `5` is still open when the input ends, so it is not emitted. */
  lemma TrailingRunDropped(s: string)
    requires s == "x = 5"
    ensures Stream(s, 0) == [Ok(Identifier("x")), Ok(Assign)]
  {
    TrailingRunText(s);
    TrailingRunTokens(s);
  }

  predicate TrailingRunLayout(s: string) {
    |s| == 5 && s[0..1] == "x" && s[2] == '=' && s[3] != '=' &&
    TokenStartsAt(s, 0, 0) && TokenStartsAt(s, 1, 2) && TokenStartsAt(s, 3, 4) &&
    (forall i :: 0 <= i < 1 ==> IsIdentifierChar(s[i])) && !IsIdentifierChar(s[1]) &&
    (forall i :: 4 <= i < 5 ==> IsDigit(s[i]))
  }

  lemma TrailingRunText(s: string)
    requires s == "x = 5"
    ensures TrailingRunLayout(s)
  {
  }

  lemma TrailingRunTokens(s: string)
    requires TrailingRunLayout(s)
    ensures Stream(s, 0) == [Ok(Identifier("x")), Ok(Assign)]
  {
    TrailingRunName(s);
    TrailingRunAssign(s);
    TwoItems(Stream(s, 0), Stream(s, 1), Stream(s, 3), Ok(Identifier("x")), Ok(Assign));
  }

  lemma TrailingRunName(s: string)
    requires TrailingRunLayout(s)
    ensures Stream(s, 0) == [Ok(Identifier("x"))] + Stream(s, 1)
  {
    ShortWords();
    WordItem(s, 0, 0, 1, "x", Identifier("x"));
  }

  lemma TrailingRunAssign(s: string)
    requires TrailingRunLayout(s)
    ensures Stream(s, 1) == [Ok(Assign)] + Stream(s, 3) && Stream(s, 3) == []
  {
    SymbolItem(s, 1, 2);
    PendingTokenAtEndIsDropped(s, 3, 4);
  }

  /** `x =`: a final `=` cannot peek at a second byte, so it is not emitted. */
  lemma TrailingOperatorDropped(s: string)
    requires s == "x ="
    ensures Stream(s, 0) == [Ok(Identifier("x"))]
  {
    TrailingOperatorText(s);
    TrailingOperatorTokens(s);
  }

  predicate TrailingOperatorLayout(s: string) {
    |s| == 3 && s[0..1] == "x" && MayBeTwoChars(s[2]) &&
    TokenStartsAt(s, 0, 0) && TokenStartsAt(s, 1, 2) &&
    (forall i :: 0 <= i < 1 ==> IsIdentifierChar(s[i])) && !IsIdentifierChar(s[1])
  }

  lemma TrailingOperatorText(s: string)
    requires s == "x ="
    ensures TrailingOperatorLayout(s)
  {
  }

  lemma TrailingOperatorTokens(s: string)
    requires TrailingOperatorLayout(s)
    ensures Stream(s, 0) == [Ok(Identifier("x"))]
  {
    TrailingOperatorName(s);
    TrailingOperatorEnd(s);
    OneItem(Stream(s, 0), Stream(s, 1), Ok(Identifier("x")));
  }

  lemma TrailingOperatorName(s: string)
    requires TrailingOperatorLayout(s)
    ensures Stream(s, 0) == [Ok(Identifier("x"))] + Stream(s, 1)
  {
    ShortWords();
    WordItem(s, 0, 0, 1, "x", Identifier("x"));
  }

  lemma TrailingOperatorEnd(s: string)
    requires TrailingOperatorLayout(s)
    ensures Stream(s, 1) == []
  {
    PendingTokenAtEndIsDropped(s, 1, 2);
  }

  /** A twenty-digit run is an error item, and the stream goes on after it. */
  lemma OverflowIsAnItem(s: string)
    requires s == "10000000000000000000;"
    ensures Stream(s, 0) == [Err(TokenError("10000000000000000000")), Ok(Semicolon)]
  {
    OverflowText(s);
    LongDigitRunOverflows("10000000000000000000");
    OverflowTokens(s, "10000000000000000000");
  }

  predicate OverflowLayout(s: string, w: string) {
    |s| == 21 && s[0..20] == w && s[20] == ';' &&
    TokenStartsAt(s, 0, 0) && TokenStartsAt(s, 20, 20) &&
    (forall i :: 0 <= i < 20 ==> IsDigit(s[i])) && !IsDigit(s[20])
  }

  lemma OverflowText(s: string)
    requires s == "10000000000000000000;"
    ensures OverflowLayout(s, "10000000000000000000")
  {
  }

  lemma OverflowTokens(s: string, w: string)
    requires OverflowLayout(s, w) && AllDigits(w) && DigitsValue(w) > I64_MAX
    ensures Stream(s, 0) == [Err(TokenError(w)), Ok(Semicolon)]
  {
    NumberItem(s, 0, 0, 20, w, Err(TokenError(w)));
    OverflowEnd(s, w);
    TwoItems(Stream(s, 0), Stream(s, 20), Stream(s, 21), Err(TokenError(w)), Ok(Semicolon));
  }

  lemma OverflowEnd(s: string, w: string)
    requires OverflowLayout(s, w)
    ensures Stream(s, 20) == [Ok(Semicolon)] + Stream(s, 21) && Stream(s, 21) == []
  {
    SymbolItem(s, 20, 20);
    StreamEnds(s, 21);
  }
}
