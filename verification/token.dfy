/**
 * The token set of the lexer and its classification rules: single punctuation
 * characters, the two two-character operators, the keyword table, digit-led
 * integer literals and identifiers, and the rendering of a token back to text.
 */
module Tokens {
  import opened Outcomes
  import opened Ascii
  import opened LexerErrors

  datatype Token =
    // One punctuation character each.
    | Assign | Asterisk | Bang | Comma | GreaterThan | LeftBrace | LeftParen
    | LessThan | Minus | Plus | RightBrace | RightParen | Semicolon | Slash
    // The two operators spelled with two characters.
    | Equal | NotEqual
    // The keywords.
    | Else | False | Function | If | Let | Return | True
    // Tokens that carry the text or value they were read from.
    | Identifier(name: string) | Integer(value: i64)

  /** The fourteen characters that are tokens on their own. */
  const PUNCTUATION: set<char> :=
    {'=', '*', '!', ',', '>', '{', '(', '<', '-', '+', '}', ')', ';', '/'}

  /** The reserved words. */
  const KEYWORDS: set<string> := {"else", "false", "fn", "if", "let", "return", "true"}

  /** No punctuation character is whitespace, a letter, an underscore or a digit. */
  lemma PunctuationIsNoWordCharacter(c: char)
    ensures c in PUNCTUATION ==> !IsWhitespace(c) && !IsIdentifierChar(c) && !IsDigit(c)
  {
  }

  /** Every reserved word has at least two characters, all of them letters. */
  lemma KeywordsAreWords(s: string)
    ensures s in KEYWORDS ==> |s| >= 2 && forall i :: 0 <= i < |s| ==> IsAlphabetic(s[i])
  {
  }

  predicate HasPayload(t: Token) {
    t.Identifier? || t.Integer?
  }

  /** `Token::from_char`: the token a single punctuation character stands for. */
  function FromChar(c: char): (r: Option<Token>)
    ensures r.Some? <==> c in PUNCTUATION
    ensures r.Some? ==> !HasPayload(r.value)
  {
    match c
    case '=' => Some(Assign)
    case '*' => Some(Asterisk)
    case '!' => Some(Bang)
    case ',' => Some(Comma)
    case '>' => Some(GreaterThan)
    case '{' => Some(LeftBrace)
    case '(' => Some(LeftParen)
    case '<' => Some(LessThan)
    case '-' => Some(Minus)
    case '+' => Some(Plus)
    case '}' => Some(RightBrace)
    case ')' => Some(RightParen)
    case ';' => Some(Semicolon)
    case '/' => Some(Slash)
    case _ => None
  }

  /** `Token::may_be_two_chars`: whether a character can start `==` or `!=`. */
  predicate MayBeTwoChars(c: char)
    ensures MayBeTwoChars(c) <==> FromChar(c) == Some(Assign) || FromChar(c) == Some(Bang)
  {
    c == '!' || c == '='
  }

  /** `Token::from_two_chars`: the operator spelled by two characters, if any. */
  function FromTwoChars(first: char, second: char): (r: Option<Token>)
    ensures r.Some? <==> second == '=' && MayBeTwoChars(first)
    ensures r.Some? ==> r.value == Equal || r.value == NotEqual
  {
    if second != '=' then None
    else
      match first
      case '!' => Some(NotEqual)
      case '=' => Some(Equal)
      case _ => None
  }

  /** The keyword table of `from_str`. */
  function Keyword(s: string): (r: Option<Token>)
    ensures r.Some? <==> s in KEYWORDS
    ensures r.Some? ==> !HasPayload(r.value)
  {
    match s
    case "else" => Some(Else)
    case "false" => Some(False)
    case "fn" => Some(Function)
    case "if" => Some(If)
    case "let" => Some(Let)
    case "return" => Some(Return)
    case "true" => Some(True)
    case _ => None
  }

  /**
   * `Token::from_str`: resolves a lexeme by trying, in order, one punctuation
   * character, a two-character operator, a keyword, a digit-led `i64` literal,
   * and otherwise an identifier.
   */
  function FromStr(s: string): (r: Result<Token, Error>)
    ensures s == [] ==> r == Err(TokenError([]))
    ensures r.Err? ==> r.error == TokenError(s)
    ensures r.Err? ==> s == [] || IsDigit(s[0])
  {
    if s == [] then Err(TokenError([]))
    else if |s| == 1 && FromChar(s[0]).Some? then Ok(FromChar(s[0]).value)
    else if |s| == 2 && FromTwoChars(s[0], s[1]).Some? then Ok(FromTwoChars(s[0], s[1]).value)
    else if Keyword(s).Some? then Ok(Keyword(s).value)
    else if IsDigit(s[0]) then
      match ParseI64(s)
      case Some(n) => Ok(Integer(n))
      case None => Err(TokenError(s))
    else Ok(Identifier(s))
  }

  /** `impl Display for Token`: the text a token is written as. */
  function Display(t: Token): (s: string)
    ensures t.Identifier? ==> s == t.name
    ensures t.Integer? ==> |s| > 0 && ParseI64(s) == Some(t.value)
    ensures !t.Identifier? ==> |s| > 0
  {
    match t
    case Assign => "="
    case Asterisk => "*"
    case Bang => "!"
    case Comma => ","
    case Else => "else"
    case Equal => "=="
    case False => "false"
    case Function => "fn"
    case GreaterThan => ">"
    case Identifier(s) => s
    case If => "if"
    case Integer(n) => I64ToDecimal(n)
    case LeftBrace => "{"
    case LeftParen => "("
    case LessThan => "<"
    case Let => "let"
    case Minus => "-"
    case NotEqual => "!="
    case Plus => "+"
    case Return => "return"
    case RightBrace => "}"
    case RightParen => ")"
    case Semicolon => ";"
    case Slash => "/"
    case True => "true"
  }

  /** A punctuation token is written as the character it was read from. */
  lemma FromCharIsDisplayed(c: char)
    ensures FromChar(c).Some? ==> Display(FromChar(c).value) == [c]
  {
    match c
    case '=' => case '*' => case '!' => case ',' => case '>' => case '{' => case '(' =>
    case '<' => case '-' => case '+' => case '}' => case ')' => case ';' => case '/' =>
    case _ =>
  }

  /** `==` and `!=` are written as the two characters they were read from. */
  lemma FromTwoCharsIsDisplayed(first: char, second: char)
    requires FromTwoChars(first, second).Some?
    ensures Display(FromTwoChars(first, second).value) == [first, second]
  {
  }

  /** A keyword is written as the word it was read from. */
  lemma KeywordIsDisplayed(s: string)
    ensures Keyword(s).Some? ==> Display(Keyword(s).value) == s
  {
    match s
    case "else" => case "false" => case "fn" => case "if" => case "let" => case "return" => case "true" =>
    case _ =>
  }

  /**
   * `mem::discriminant`: the position of a token's variant in the declaration,
   * which tells variants apart and ignores the payload.
   */
  function Discriminant(t: Token): (d: nat)
    ensures d < 25
    ensures d == 23 <==> t.Identifier?
    ensures d == 24 <==> t.Integer?
  {
    match t
    case Assign => 0
    case Asterisk => 1
    case Bang => 2
    case Comma => 3
    case GreaterThan => 4
    case LeftBrace => 5
    case LeftParen => 6
    case LessThan => 7
    case Minus => 8
    case Plus => 9
    case RightBrace => 10
    case RightParen => 11
    case Semicolon => 12
    case Slash => 13
    case Equal => 14
    case NotEqual => 15
    case Else => 16
    case False => 17
    case Function => 18
    case If => 19
    case Let => 20
    case Return => 21
    case True => 22
    case Identifier(_) => 23
    case Integer(_) => 24
  }

  /** Two tokens have the same discriminant exactly when they are equal or carry payloads of the same variant. */
  lemma DiscriminantIgnoresOnlyPayload(a: Token, b: Token)
    ensures Discriminant(a) == Discriminant(b) <==>
      (a == b || (a.Identifier? && b.Identifier?) || (a.Integer? && b.Integer?))
  {
    match a
    case Identifier(_) =>
    case Integer(_) =>
    case _ =>
  }

  /** A non-empty string that does not start with a digit always resolves to a token. */
  lemma FromStrTotalOffDigits(s: string)
    requires |s| > 0 && !IsDigit(s[0])
    ensures FromStr(s).Ok?
    ensures FromStr(s).value.Identifier? <==>
      !(|s| == 1 && s[0] in PUNCTUATION) && !(|s| == 2 && s[1] == '=' && MayBeTwoChars(s[0])) && s !in KEYWORDS
  {
  }

  /**
   * Every token `from_str` produces, except an integer, is written back by
   * `Display` as exactly the lexeme it came from; an integer is the value of its lexeme.
   */
  lemma FromStrThenDisplay(s: string)
    requires FromStr(s).Ok?
    ensures !FromStr(s).value.Integer? ==> Display(FromStr(s).value) == s
    ensures FromStr(s).value.Integer? ==> AllDigits(s) && FromStr(s).value.value == DigitsValue(s)
  {
    if |s| == 1 && FromChar(s[0]).Some? {
      FromCharIsDisplayed(s[0]);
      assert [s[0]] == s;
    } else if |s| == 2 && FromTwoChars(s[0], s[1]).Some? {
      FromTwoCharsIsDisplayed(s[0], s[1]);
      assert [s[0], s[1]] == s;
    } else if Keyword(s).Some? {
      KeywordIsDisplayed(s);
    }
  }

  /** A keyword is never read as an identifier. */
  lemma KeywordsAreReserved(s: string)
    requires s in KEYWORDS
    ensures FromStr(s) == Ok(Keyword(s).value) && !FromStr(s).value.Identifier?
  {
  }

  /** A digit-led lexeme that is not a valid `i64` is an error carrying the whole lexeme. */
  lemma FromStrRejectsBadInteger(s: string)
    requires |s| > 0 && IsDigit(s[0])
    requires !AllDigits(s) || DigitsValue(s) > I64_MAX
    ensures FromStr(s) == Err(TokenError(s))
  {
  }

  /** A lexeme of digits is an `Integer` of its value when that fits in an `i64`, and an error carrying it otherwise. */
  lemma FromStrDigits(s: string)
    requires |s| > 0 && AllDigits(s)
    ensures FromStr(s) == if DigitsValue(s) <= I64_MAX then Ok(Integer(DigitsValue(s))) else Err(TokenError(s))
  {
    PunctuationIsNoWordCharacter(s[0]);
    KeywordsAreWords(s);
    assert |s| == 2 ==> IsDigit(s[1]);
  }

  /** A lexeme of letters and underscores is its keyword if it spells one, and otherwise an identifier. */
  lemma FromStrWord(s: string)
    requires |s| > 0 && forall i :: 0 <= i < |s| ==> IsIdentifierChar(s[i])
    ensures FromStr(s) == Ok(if s in KEYWORDS then Keyword(s).value else Identifier(s))
  {
    PunctuationIsNoWordCharacter(s[0]);
    assert |s| == 2 ==> IsIdentifierChar(s[1]);
  }

  /** A run of identifier characters that is not a keyword names an identifier. */
  predicate IsPlainIdentifier(s: string) {
    |s| > 0 && (forall i :: 0 <= i < |s| ==> IsIdentifierChar(s[i])) && s !in KEYWORDS
  }

  /** Round trip for the tokens without payload: each is read back from its own text. */
  lemma DisplayThenFromStrPlain(t: Token)
    ensures !HasPayload(t) ==> FromStr(Display(t)) == Ok(t)
  {
    match t
    case Assign => case Asterisk => case Bang => case Comma => case GreaterThan =>
    case LeftBrace => case LeftParen => case LessThan => case Minus => case Plus =>
    case RightBrace => case RightParen => case Semicolon => case Slash =>
    case Equal => case NotEqual =>
    case Else => case False => case Function => case If => case Let => case Return => case True =>
    case Identifier(_) => case Integer(_) =>
  }

  /** Round trip for a non-negative integer: its decimal text is read back as the same value. */
  lemma DisplayThenFromStrInteger(n: i64)
    requires n >= 0
    ensures FromStr(Display(Integer(n))) == Ok(Integer(n))
  {
    var s := NatToDecimal(n);
    assert Display(Integer(n)) == s;
    FromStrDigits(s);
  }

  /** Round trip for an identifier spelled as a non-keyword run of letters and underscores. */
  lemma DisplayThenFromStrIdentifier(name: string)
    requires IsPlainIdentifier(name)
    ensures FromStr(Display(Identifier(name))) == Ok(Identifier(name))
  {
    FromStrWord(name);
  }

  /**
   * Round trip for the one-character identifier the lexer makes of a byte that
   * is neither punctuation nor a digit, such as `@`.
   */
  lemma DisplayThenFromStrSingle(c: char)
    requires c !in PUNCTUATION && !IsDigit(c)
    ensures FromStr(Display(Identifier([c]))) == Ok(Identifier([c]))
  {
    KeywordsAreWords([c]);
  }

  /**
   * Round trip `from_str(display(t)) == Ok(t)`: for every token without payload,
   * every non-negative integer, every identifier spelled as a non-keyword run of
   * letters and underscores, and every one-character identifier that is neither
   * punctuation nor a digit.
   */
  lemma DisplayThenFromStr(t: Token)
    requires !HasPayload(t) || (t.Integer? && t.value >= 0) || (t.Identifier? && IsPlainIdentifier(t.name))
      || (t.Identifier? && |t.name| == 1 && t.name[0] !in PUNCTUATION && !IsDigit(t.name[0]))
    ensures FromStr(Display(t)) == Ok(t)
  {
    match t
    case Integer(n) => DisplayThenFromStrInteger(n);
    case Identifier(name) =>
      if IsPlainIdentifier(name) {
        DisplayThenFromStrIdentifier(name);
      } else {
        assert name == [name[0]];
        DisplayThenFromStrSingle(name[0]);
      }
    case _ => DisplayThenFromStrPlain(t);
  }
}
