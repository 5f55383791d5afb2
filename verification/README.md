# monkeylang lexer and parser, modelled in Dafny

This project models the front end of monkeylang, an interpreter for the Monkey
language written in Rust. The model covers these parts:

- **Tokens** (`token.dfy`, module `Tokens`) is the token set with its
  classification rules:
  - the fourteen single-character punctuation tokens (`Token::from_char`);
  - the two-character operators `==` and `!=` (`from_two_chars`, `may_be_two_chars`);
  - the keyword table and the `FromStr` resolution of a lexeme into a keyword,
    an `i64` integer literal or an identifier;
  - the `Display` rendering of a token back to text.
- **Lexing** (`lexer.dfy`, module `Lexing`) is the pull-based lexer of
  `src/lexer/mod.rs`. It is a `Lexer` class whose byte source is a character
  sequence with a cursor, plus a reusable token buffer.
  - Each method is proved against a pure specification function:
    - `next_nonwhitespace_char` against `SkipWhitespace`;
    - `fill_buffer_until` against `RunEnd`;
    - `next_token` and `Iterator::next` against `Scan`, which describes one
      call.
  - `Stream` is the sequence of items the iterator yields, built from `Scan`.
  - The behaviour of the lexer is then stated as lemmas about `Scan` and
    `Stream`.
- **LexingExamples** and **LexingSample** (`lexer_examples.dfy`,
  `lexer_sample.dfy`) prove what the lexer specification yields on the inputs
  of the test suite and on edge cases: the single-character test string, the sample
  program, `==`, trailing runs, overflow.
- **Ascii** (`ascii.dfy`) holds the character classes and the `i64` decimal
  parser and printer that the token rules rely on.
- **Ast** (`ast.dfy`) is the program tree. `AST` is a class with the
  append-only statement list that `push` extends in place.
- **Parsing** (`parser.dfy`) is the recursive-descent `Parser` class over a
  token sequence with a cursor.
  - Every method (`parse`, `parse_next_statement`, `parse_let`,
    `parse_return`, `parse_expression_statement`, `parse_expression`,
    `expect_token`) is proved against a pure function of the tokens and the
    cursor.
  - **ParsingProperties** (`parser_properties.dfy`) states what the parser
    accepts and rejects. It also proves that rendering a list of statements to
    tokens and parsing them back gives the same list.
- **LegacyLexer** (`legacy_lexer.dfy`) is the older lexer of `src/lexer.rs`.
  It has no two-character operators and keeps the byte that ended a run in a
  pushback field `latest_char`. It has its own `Lexer` class and
  specification, and the finding below is about it.

The end of the input is the I/O error `UnexpectedEof`, which ends both lexers'
iterators. Integers are Dafny's unbounded `int`, with `i64` as the subset
`-2^63 .. 2^63-1`. Where `i64::from_str` would overflow, the model says so
explicitly.

Points where the code may surprise a reader; the model follows the code:

- **Parsing.** `parse_expression` handles only identifier and integer-literal
  prefixes and ignores its priority argument (src/parser/mod.rs:66-71,
  88-94). On any other first token it reaches `unreachable!()`, which the
  model records as the outcome `Panic`. There is no infix, boolean, `if` or
  block expression parsing.
- **Unmapped bytes.** The lexer reports no error for a byte that is no
  whitespace, punctuation, letter, `_` or digit. It falls through to
  `from_str` and becomes a one-character `Identifier` (src/lexer/mod.rs:50-57).
  See `Lexing.OtherByteIsIdentifier`.
- **Parse errors.**
  - Running out of tokens inside a statement is `Error::EOF`, modelled as
    `Parsing.Error.Eof`.
  - `parse` returns only the error on failure. The statements parsed before
    it are discarded (src/parser/mod.rs:25-27).
  - The error enum in `src/parser/error.rs` declares only `ParserError(bool)`.
    The parser constructs `EOF` and `ExpectedToken { expected, got }`, so the
    model declares those two.
- **The tree.** `src/parser/ast.rs` declares `Expression::None` only and no
  expression statement. The parser builds `Expression::Identifier`,
  `Expression::Integer` and `Statement::Expression`, so the model's `Ast`
  includes them.

## Model

| member | source | states |
|---|---|---|
| Ascii.IsWhitespace | src/lexer/mod.rs:86 | `is_ascii_whitespace`: only space and control characters, and never the vertical tab |
| Ascii.IsIdentifierChar | src/lexer/mod.rs:123-125 | a letter or `_`: never whitespace and never a digit, so identifier runs and digit runs do not overlap |
| Ascii.SkipWhitespace | src/lexer/mod.rs:83-90 | the first non-whitespace position at or after `pos`, with every byte before it whitespace |
| Ascii.RunEnd | src/lexer/mod.rs:92-102 | the end of the maximal run of bytes satisfying the condition; every byte in the run satisfies it and the byte at the end does not |
| Ascii.ParseI64 | src/lexer/token.rs:107-110 | on a digit-led string, succeeds exactly when every character is a digit and the value fits in `i64`, and then yields that decimal value |
| Ascii.NatToDecimal | src/lexer/token.rs:132 | the decimal text of `n`: digits only, no leading zero, denoting `n` |
| Ascii.I64ToDecimal | src/lexer/token.rs:132 | the text of every `i64` parses back to the same value; a non-negative value is written as its canonical decimal |
| Ascii.LongDigitRunOverflows | src/lexer/token.rs:107-110 | a digit run of twenty or more characters without a leading zero exceeds `i64::MAX` |
| Ascii.DigitsValueBounds | src/lexer/token.rs:108 | a run of `k` digits denotes a value below `10^k`, and at least `10^(k-1)` when it has no leading zero |
| Tokens.PunctuationIsNoWordCharacter | src/lexer/token.rs:43-61 | no punctuation character is whitespace, a letter, `_` or a digit |
| Tokens.KeywordsAreWords | src/lexer/token.rs:98-105 | every keyword has at least two characters, all letters |
| Tokens.FromChar | src/lexer/token.rs:43-61 | a token exactly for the fourteen punctuation characters, never one with a payload |
| Tokens.MayBeTwoChars | src/lexer/token.rs:74-76 | exactly the characters whose single-character token is `Assign` or `Bang` |
| Tokens.FromTwoChars | src/lexer/token.rs:63-72 | a token exactly when the second character is `=` and the first is `=` or `!`; it is `Equal` or `NotEqual` |
| Tokens.Keyword | src/lexer/token.rs:98-105 | a token exactly for the seven reserved words, never one with a payload |
| Tokens.FromStr | src/lexer/token.rs:82-115 | the empty string is the error carrying the empty text; every error carries the whole input and arises only for empty or digit-led input |
| Tokens.Display | src/lexer/token.rs:118-147 | an identifier is written as its name; an integer as non-empty text that parses back to its value; every other token as non-empty text |
| Tokens.Discriminant | src/parser/mod.rs:76 | one of 25 variant numbers, with 23 exactly for identifiers and 24 exactly for integers |
| Tokens.FromCharIsDisplayed | src/lexer/token.rs:118-147 | a punctuation token is displayed as the character it came from |
| Tokens.FromTwoCharsIsDisplayed | src/lexer/token.rs:118-147 | `==` and `!=` are displayed as the two characters they came from |
| Tokens.KeywordIsDisplayed | src/lexer/token.rs:118-147 | a keyword token is displayed as its word |
| Tokens.DiscriminantIgnoresOnlyPayload | src/parser/mod.rs:76 | two tokens share a discriminant exactly when they are equal or the same payload-carrying variant |
| Tokens.FromStrTotalOffDigits | src/lexer/token.rs:86-112 | a non-empty string not led by a digit always resolves, and resolves to an `Identifier` exactly when it is no punctuation character, no two-character operator and no keyword |
| Tokens.FromStrThenDisplay | src/lexer/token.rs:82-147 | any resolved non-integer token displays as the input it was read from; an integer token comes from an all-digit input of that value |
| Tokens.KeywordsAreReserved | src/lexer/token.rs:98-105 | a keyword resolves to its keyword token, never to an identifier |
| Tokens.FromStrRejectsBadInteger | src/lexer/token.rs:107-110 | a digit-led lexeme that is not all digits or exceeds `i64::MAX` is an error carrying the lexeme |
| Tokens.FromStrDigits | src/lexer/token.rs:107-110 | an all-digit lexeme is `Integer` of its value when it fits in `i64`, and an error carrying it otherwise |
| Tokens.FromStrWord | src/lexer/token.rs:98-112 | a lexeme of letters and `_` is its keyword if it spells one, and otherwise an identifier of that text |
| Tokens.DisplayThenFromStrPlain | src/lexer/token.rs:118-147 | every payload-free token is read back from its displayed text |
| Tokens.DisplayThenFromStrInteger | src/lexer/token.rs:132 | a non-negative integer token is read back from its displayed text |
| Tokens.DisplayThenFromStrIdentifier | src/lexer/token.rs:130 | an identifier of letters and `_` that is not a keyword is read back from its displayed text |
| Tokens.DisplayThenFromStrSingle | src/lexer/token.rs:112 | a one-character identifier that is neither punctuation nor a digit, such as `@`, is read back from its displayed text |
| Tokens.DisplayThenFromStr | src/lexer/token.rs:82-147 | display then `from_str` is the identity on payload-free tokens, non-negative integers, non-keyword runs of letters and `_`, and one-character identifiers that are neither punctuation nor a digit |
| Lexing.Resolve | src/lexer/mod.rs:57 | an error always carries the buffered text, and the result is exactly `from_str`'s, whose error already carries that text |
| Lexing.Scan | src/lexer/mod.rs:38-58 | one `next_token` from `pos` moves forward; any result but end of input consumes at least one byte; end of input leaves the cursor at the end |
| Lexing.ScanAt | src/lexer/mod.rs:40-58 | the rest of `next_token` after its first byte consumes that byte and stays within the input |
| Lexing.ScanBuffered | src/lexer/mod.rs:50-57 | the buffered path leaves exactly the consumed lexeme in the token buffer |
| Lexing.Stream | src/lexer/mod.rs:108-120 | the iterator yields at most one item per remaining byte and never yields the end-of-input error |
| Lexing.WhitespaceIsSkipped | src/lexer/mod.rs:83-90 | leading whitespace does not change the next token; input that is all whitespace ends the stream |
| Lexing.TwoCharOperator | src/lexer/mod.rs:40-45 | `==` and `!=` are one token each and consume both bytes |
| Lexing.OneCharOperatorAfterPeek | src/lexer/mod.rs:40-48 | `=` or `!` not followed by `=` is `Assign` or `Bang`, and the peeked byte is not consumed |
| Lexing.PunctuationToken | src/lexer/mod.rs:47-49 | any other punctuation byte is its own token, consuming one byte and displaying as that byte |
| Lexing.IdentifierRunIsMaximal | src/lexer/mod.rs:50-57 | a letter or `_` starts a maximal identifier run, which resolves through `from_str` and stops before the first other byte |
| Lexing.IdentifierRunIsBuffered | src/lexer/mod.rs:50-57 | the buffered path on a letter run ends at the first non-identifier byte with the run in the buffer |
| Lexing.DigitRunIsMaximal | src/lexer/mod.rs:54-57 | a digit starts a maximal digit run, which resolves through `from_str` and stops before the first non-digit |
| Lexing.DigitRunIsBuffered | src/lexer/mod.rs:54-57 | the buffered path on a digit run ends at the first non-digit byte with the run in the buffer |
| Lexing.OtherByteIsIdentifier | src/lexer/mod.rs:50-57 | a byte that is no punctuation, letter, `_` or digit is a one-character `Identifier` |
| Lexing.PendingTokenAtEndIsDropped | src/lexer/mod.rs:41 | a run or a final `=`/`!` that reaches the end of the input ends in `UnexpectedEof`, so the iterator yields nothing for it |
| Lexing.Lexer.constructor | src/lexer/mod.rs:26-31 | the lexer starts at the first byte with an empty buffer |
| Lexing.Lexer.Reset | src/lexer/mod.rs:34-36 | the byte source is replaced and read from its start; the buffer is kept |
| Lexing.Lexer.NextChar | src/lexer/mod.rs:61-67 | consumes and returns one byte, or reports end of input without moving |
| Lexing.Lexer.PeekChar | src/lexer/mod.rs:70-81 | returns the byte under the cursor without consuming it, or end of input |
| Lexing.Lexer.NextNonwhitespaceChar | src/lexer/mod.rs:83-90 | consumes through the first non-whitespace byte and returns it, or consumes everything and reports end of input |
| Lexing.Lexer.FillBufferUntil | src/lexer/mod.rs:92-102 | the cursor moves to the end of the run satisfying the condition, the run is appended to the buffer, and the result is end of input exactly when the run reaches the end |
| Lexing.Lexer.NextToken | src/lexer/mod.rs:38-58 | result, cursor and buffer are those of `Scan` from the old cursor |
| Lexing.Lexer.NextFrom | src/lexer/mod.rs:40-57 | after the first byte, result, cursor and buffer are those of `ScanAt` |
| Lexing.Lexer.NextBuffered | src/lexer/mod.rs:50-57 | result, cursor and buffer are those of `ScanBuffered` |
| Lexing.Lexer.Next | src/lexer/mod.rs:108-120 | `None` exactly when `Scan` reports end of input, otherwise `Some` of its result; the cursor and the token buffer follow `Scan` |
| LexingExamples.WordItem | src/lexer/mod.rs:50-57 | a word run is the next item of the stream, followed by the stream after it |
| LexingExamples.NumberItem | src/lexer/mod.rs:54-57 | a digit run is the next item of the stream, followed by the stream after it |
| LexingExamples.SymbolItem | src/lexer/mod.rs:40-49 | a punctuation byte not starting `==`/`!=` is the next item, followed by the stream after it |
| LexingExamples.StreamEnds | src/lexer/mod.rs:108-120 | only whitespace left means the stream is over |
| LexingExamples.LetStatement | tests/lexer.rs:34-90 | `let five = 5;` lexes to `Let, Identifier("five"), Assign, Integer(5), Semicolon` |
| LexingExamples.PunctuationOneByOne | src/lexer/mod.rs:40-49 | text made only of punctuation, in which no `=` or `!` is followed by `=` or ends the input, lexes to one token per character, in order |
| LexingExamples.SingleCharTokens | tests/lexer.rs:5-32 | `=*!,>{(<-+});/` lexes to the fourteen punctuation tokens in order |
| LexingExamples.TwoCharOperators | src/lexer/mod.rs:40-45 | `==` lexes to `[Equal]` and `!=` to `[NotEqual]` |
| LexingExamples.OnlyWhitespace | src/lexer/mod.rs:83-90 | input of ASCII whitespace only lexes to no token |
| LexingExamples.LetterThenDigit | src/lexer/mod.rs:52-55 | `x1;` lexes to `Identifier("x"), Integer(1), Semicolon` |
| LexingExamples.TrailingRunDropped | src/lexer/mod.rs:92-102 | in `x = 5` the final run is still open at end of input, so only `Identifier("x"), Assign` are produced |
| LexingExamples.TrailingOperatorDropped | src/lexer/mod.rs:41 | in `x =` the final `=` cannot peek a second byte, so only `Identifier("x")` is produced |
| LexingExamples.OverflowIsAnItem | src/lexer/token.rs:107-110 | a twenty-digit literal is an error item carrying its text, and lexing goes on with `Semicolon` |
| LexingSample.SampleProgram | tests/lexer.rs:34-90 | the test suite's sample program lexes to exactly its 36 expected tokens |
| Ast.AST.constructor | src/parser/ast.rs:21-23 | a tree holding exactly the given statements |
| Ast.AST.Default | src/parser/ast.rs:15-18 | a tree with no statements |
| Ast.AST.Push | src/parser/ast.rs:25-27 | appends the statement; length grows by one and earlier statements are unchanged |
| Parsing.ExpectAt | src/parser/mod.rs:73-86 | never panics; with no token left it is the `EOF` error; on success consumes exactly the peeked token, which has the expected discriminant; on failure consumes nothing |
| Parsing.SemicolonAfter | src/parser/mod.rs:48 | the position just past the first `Semicolon` at or after `pos`, or none when no `Semicolon` remains |
| Parsing.SkipThroughSemicolon | src/parser/mod.rs:48 | the skip loop stays within the tokens and never panics |
| Parsing.LetAt | src/parser/mod.rs:40-53 | never panics; a successful `let` consumes at least the identifier, `Assign` and `Semicolon` |
| Parsing.ReturnAt | src/parser/mod.rs:55-58 | never panics; a successful `return` consumes at least the `Semicolon` |
| Parsing.ParsePrefix | src/parser/mod.rs:88-94 | an expression exactly for identifier and integer tokens, carrying the token's name or value |
| Parsing.ExpressionStatementAt | src/parser/mod.rs:60-64 | consumes at most one token, the optional `Semicolon` |
| Parsing.StatementAt | src/parser/mod.rs:31-38 | nothing exactly when the tokens are used up; otherwise a statement attempt that consumes at least its first token |
| Parsing.ProgramFrom | src/parser/mod.rs:23-29 | a successful parse has at most one statement per remaining token |
| Parsing.Prepend | src/parser/mod.rs:25-28 | statements parsed so far go in front of a successful rest; a failure discards them |
| Parsing.PrependNothing | src/parser/mod.rs:24 | starting from the empty tree changes nothing |
| Parsing.PrependTwice | src/parser/mod.rs:25-27 | pushing statement groups one after the other is pushing their concatenation |
| Parsing.Parser.constructor | src/parser/mod.rs:17-21 | the parser starts before the first token |
| Parsing.ProgramEnd | src/parser/mod.rs:23-29 | where `parse` leaves the cursor: the end of the tokens after a success, and past at least one token of the failing statement otherwise |
| Parsing.Parser.Parse | src/parser/mod.rs:23-29 | the outcome is `ProgramFrom` at the old cursor; the cursor ends at `ProgramEnd`, just past the tokens the failing statement read; on success a fresh tree holding those statements, with every token consumed |
| Parsing.Parser.ParseNextStatement | src/parser/mod.rs:31-38 | the outcome and new cursor are those of `StatementAt` |
| Parsing.Parser.ParseLet | src/parser/mod.rs:40-53 | the outcome and new cursor are those of `LetAt` |
| Parsing.Parser.ParseReturn | src/parser/mod.rs:55-58 | the outcome and new cursor are those of `ReturnAt` |
| Parsing.Parser.SkipPastSemicolon | src/parser/mod.rs:48 | the outcome and new cursor are those of `SkipThroughSemicolon` |
| Parsing.Parser.ParseExpressionStatement | src/parser/mod.rs:60-64 | the outcome and new cursor are those of `ExpressionStatementAt` |
| Parsing.Parser.ParseExpression | src/parser/mod.rs:66-71 | succeeds exactly for identifier and integer tokens, with their name or value; otherwise panics |
| Parsing.Parser.ExpectToken | src/parser/mod.rs:73-86 | the outcome and new cursor are those of `ExpectAt` |
| ParsingProperties.ExpectComparesVariantOnly | src/parser/mod.rs:73-86 | `expect_token` succeeds exactly when the peeked token has the expected variant, whatever the payload, and otherwise reports both tokens |
| ParsingProperties.EmptyProgram | src/parser/mod.rs:23-29 | no tokens parse to the empty tree |
| ParsingProperties.LetStatement | src/parser/mod.rs:40-53 | `let x = … ;` is `Let(x, None)` and consumes through the first `Semicolon` |
| ParsingProperties.LetNeedsIdentifier | src/parser/mod.rs:41-46 | `let` not followed by an identifier is the `ExpectedToken` error for an identifier |
| ParsingProperties.LetNeedsAssign | src/parser/mod.rs:47 | `let x` not followed by `Assign` is the `ExpectedToken` error for `Assign`, naming the token found |
| ParsingProperties.LetAtEndIsEof | src/parser/mod.rs:41-46 | `let` as the last token is the `EOF` error, for the statement and for the whole parse |
| ParsingProperties.LetNameAtEndIsEof | src/parser/mod.rs:47 | `let x` as the last two tokens is the `EOF` error, for the statement and for the whole parse |
| ParsingProperties.ReturnStatement | src/parser/mod.rs:55-58 | `return … ;` is `Return(None)` and consumes through the first `Semicolon` |
| ParsingProperties.MissingSemicolonIsEof | src/parser/mod.rs:48 | a `let` or `return` with no `Semicolon` after it is the `EOF` error with every token consumed |
| ParsingProperties.ExpressionStatement | src/parser/mod.rs:60-64 | a statement led by an identifier or integer is an expression statement, with or without a `Semicolon` |
| ParsingProperties.NoPrefixPanics | src/parser/mod.rs:66-71 | a statement led by any other token reaches `unreachable!()`, and so does the whole parse |
| ParsingProperties.RenderedStatement | src/parser/mod.rs:31-64 | the tokens of a rendered statement parse back to that statement and consume exactly those tokens |
| ParsingProperties.RenderThenParse | src/parser/mod.rs:23-29 | the tokens of a rendered statement list parse back to exactly that list |
| ParsingProperties.ProgramStep | src/parser/mod.rs:25-27 | one parsed statement followed by a parsed rest is the program of both, in order |
| ParsingProperties.LetExample | tests/parser.rs:5-23 | `let x = 5;` parses to a tree holding `Let("x", None)` |
| ParsingProperties.TrailingSemicolonExample | src/parser/mod.rs:62 | `5;` and `5` parse to the same tree |
| ParsingProperties.MissingAssignExample | src/parser/mod.rs:47 | `let x true 5;` is the error expecting `Assign` and naming `True` |
| LegacyLexer.FromChar | src/lexer.rs:40-58 | a token exactly for the fourteen punctuation characters, never an identifier or integer |
| LegacyLexer.Keyword | src/lexer.rs:74-81 | a token exactly for the seven reserved words |
| LegacyLexer.FromStr | src/lexer.rs:64-91 | the empty string is the error carrying the empty text; one punctuation character is its token; every error carries the input and arises only for empty or digit-led input; an identifier carries the input |
| LegacyLexer.PunctuationIsNoWordCharacter | src/lexer.rs:40-58 | no punctuation character is whitespace, a letter, `_` or a digit |
| LegacyLexer.KeywordsAreWords | src/lexer.rs:74-81 | every keyword has at least two characters and starts with a letter |
| LegacyLexer.FromStrTotalOffDigits | src/lexer.rs:68-88 | a non-empty string not led by a digit always resolves, and resolves to the identifier of its text exactly when it is no single punctuation character and no keyword |
| LegacyLexer.FromStrDigits | src/lexer.rs:83-86 | an all-digit lexeme is `Integer` of its value when it fits in `i64`, and an error carrying it otherwise |
| LegacyLexer.FromStrWord | src/lexer.rs:74-88 | a lexeme of letters and `_` is its keyword if it spells one, and otherwise an identifier of that text |
| LegacyLexer.Resolve | src/lexer.rs:144 | an error always carries the buffered text, and the result is exactly `from_str`'s, whose error already carries that text |
| LegacyLexer.Pending | src/lexer.rs:129 | the pushback character counts only when it is present and not whitespace |
| LegacyLexer.ReadBuffered | src/lexer.rs:137-144 | the buffered path moves forward and reports end of input only at the end |
| LegacyLexer.ReadTokenSpec | src/lexer.rs:128-145 | one `read_token` moves forward and reports end of input only at the end |
| LegacyLexer.Iterate | src/lexer.rs:166-178 | the first `n` results of the iterator |
| LegacyLexer.FirstCharacter | src/lexer.rs:129-132 | a pending character is used before any byte is read; otherwise whitespace is skipped |
| LegacyLexer.WhitespaceToEnd | src/lexer.rs:119-126 | with nothing pending and only whitespace left, the read reports end of input and keeps the pushback field |
| LegacyLexer.PunctuationClearsPending | src/lexer.rs:133-136 | punctuation gives its token, reads nothing more and clears the pushback field |
| LegacyLexer.IdentifierRunIsMaximal | src/lexer.rs:137-144 | a letter run resolves through `from_str`, and the byte that ended it becomes the pushback character |
| LegacyLexer.IdentifierRunIsBuffered | src/lexer.rs:147-160 | the buffered path on a letter run consumes the ending byte and stores it as the pushback character |
| LegacyLexer.DigitRunIsMaximal | src/lexer.rs:137-144 | a digit run resolves through `from_str`, and the byte that ended it becomes the pushback character |
| LegacyLexer.DigitRunIsBuffered | src/lexer.rs:147-160 | the buffered path on a digit run consumes the ending byte and stores it as the pushback character |
| LegacyLexer.OtherCharKeepsPending | src/lexer.rs:137-144 | any other character is a one-character `Identifier`, and the pushback field is left as it was |
| LegacyLexer.RunAtEndIsDropped | src/lexer.rs:147-160 | a run reaching the end of the input ends the iterator without yielding it |
| LegacyLexer.DoubleEqualsIsTwoAssigns | src/lexer.rs:133-136 | `==` lexes to two `Assign` tokens, after which the iterator ends |
| LegacyLexer.PendingOtherCharRepeats | src/lexer.rs:129-144 | a pending character that is no whitespace, punctuation, letter, `_` or digit is returned again without any state change |
| LegacyLexer.EndlessStreamOnStrayByte | src/lexer.rs:128-160 | on `x@` the iterator yields `Identifier("x")` and then `Identifier("@")` for ever |
| LegacyLexer.ReadTokenFixed | src/lexer.rs:128-145 | with the pushback character taken, every read other than end of input strictly decreases the remaining weight |
| LegacyLexer.FixedStream | src/lexer.rs:166-178 | the corrected iterator ends on every input, after at most twice the remaining length plus one items |
| LegacyLexer.FixedAgreesWithoutStrayPending | src/lexer.rs:128-145 | unless a stray character is pending, the correction gives the same result, lexeme and position; after a token (not at end of input) the pending character agrees as well, while the stored `latest_char` may still differ by holding whitespace |
| LegacyLexer.StrayByteFixed | src/lexer.rs:128-160 | with the correction, `x@` lexes to `Identifier("x"), Identifier("@")` and ends |
| LegacyLexer.Lexer.constructor | src/lexer.rs:102-108 | the lexer starts at the first byte with an empty buffer and nothing pending |
| LegacyLexer.Lexer.ReadChar | src/lexer.rs:111-117 | consumes and returns one byte, or reports end of input without moving |
| LegacyLexer.Lexer.ReadNonwhitespaceChar | src/lexer.rs:119-126 | consumes through the first non-whitespace byte and returns it, or reports end of input at the end |
| LegacyLexer.Lexer.FillBufferUntil | src/lexer.rs:147-160 | buffers the run satisfying the condition and consumes the byte that ends it, recording it as pending; at end of input the last byte read stays pending |
| LegacyLexer.Lexer.ReadToken | src/lexer.rs:128-145 | result, cursor, pushback field and buffer are those of `ReadTokenSpec` |
| LegacyLexer.Lexer.ReadBufferedToken | src/lexer.rs:137-144 | result, cursor, pushback field and buffer are those of `ReadBuffered` |
| LegacyLexer.Lexer.Next | src/lexer.rs:166-178 | `None` exactly when `ReadTokenSpec` reports end of input, otherwise `Some` of its result; cursor, pushback field and token buffer follow `ReadTokenSpec` |

## Left out

- I/O errors other than end of input are not modelled. The byte source is a finite in-memory sequence, so the `io::Error` kinds other than `UnexpectedEof` cannot occur.
- The `char::from_u32` failure branches (src/lexer/mod.rs:66, 80 and src/lexer.rs:116) are not modelled. They are dead for byte values, so every byte is one character.
- Bytes are modelled as characters, one per byte. The lexers never decode UTF-8, so a non-ASCII byte is a character of its own.
- `Lexer::default` and the buffer capacity of 32 are left out. They have no observable behaviour.
- `Peekable` and `BufReader` are replaced by a cursor into the sequence. A peeked byte is the byte under the cursor.
- The error message strings (`thiserror` attributes) and the `Debug`/`PartialEq` derivations are left out. Dafny's structural equality stands in for the latter.
- The unused `ParserError(bool)` variant of src/parser/error.rs is left out.
- The `priority` argument of `parse_expression` is carried as the one-value `Ast.Priority` and ignored, as in the code. The code has no precedence levels.
- Infix, boolean, `if`, function and block expressions are not modelled. The parser has no code for them.
- The `unreachable!()` of `parse_let` (src/parser/mod.rs:45) is left out. `expect_token` has just checked the variant, which `Parsing.ExpectAt` states, so it cannot be reached.
- `parse_prefix` returns `Option<Result<…>>` but never an `Err`, so it is modelled as an `Option`.
- src/console.rs, the read-eval-print loop, is not part of this model. It is terminal I/O.
- LegacyLexer.Iterate: the as-written legacy iterator need not end, so it is observed through its first `n` results.
- LegacyLexer.Lexer: its input is fixed at construction, because src/lexer.rs has no `reset`.
- Lexing.Lexer.Reset: a new input is given as a new sequence read from its start. The token buffer is kept, as in the code.
- Lexing.Stream and LegacyLexer.FixedStream are the iterators up to their first `None`. Polling an iterator again after `None` is not modelled.

## Findings

| source | as written | input that shows it | evidently intended | confidence | as-written member | corrected member |
|---|---|---|---|---|---|---|
| src/lexer.rs:128-145 | `read_token` reuses `latest_char` without clearing it. Only a punctuation token clears it, so a pending byte that is no whitespace, punctuation, letter, `_` or digit is returned again on every call. | `x@`: `Identifier("x")`, then `Identifier("@")` for ever | the pending character is taken once (`latest_char.take()`), so `x@` gives `Identifier("x")`, `Identifier("@")` and the iterator ends | not executed | LegacyLexer.EndlessStreamOnStrayByte | LegacyLexer.StrayByteFixed |
