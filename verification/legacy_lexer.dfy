/**
 * The older, self-contained lexer of `src/lexer.rs`. It has no two-character
 * operators and, instead of peeking, keeps the byte that ended a run in a
 * one-character pushback field `latest_char`. The input is a sequence of
 * characters (one per byte) with a cursor; its end is `UnexpectedEof`.
 */
module LegacyLexer {
  import opened Outcomes
  import opened Ascii
  import opened LexerErrors

  datatype Token =
    // One punctuation character each.
    | Assign | Asterisk | Bang | Comma | GreaterThan | LeftBrace | LeftParen
    | LessThan | Minus | Plus | RightBrace | RightParen | Semicolon | Slash
    // The keywords.
    | Else | False | Function | If | Let | Return | True
    // Tokens that carry the text or value they were read from.
    | Identifier(name: string) | Integer(value: i64)

  const PUNCTUATION: set<char> :=
    {'=', '*', '!', ',', '>', '{', '(', '<', '-', '+', '}', ')', ';', '/'}

  const KEYWORDS: set<string> := {"else", "false", "fn", "if", "let", "return", "true"}

  /** `Token::from_char`: the token a single punctuation character stands for. */
  function FromChar(c: char): (r: Option<Token>)
    ensures r.Some? <==> c in PUNCTUATION
    ensures r.Some? ==> !r.value.Identifier? && !r.value.Integer?
  {
    match c
    case '=' => Some(Assign)
    case '*' => Some(Asterisk)
    case '!' => Some(Bang)
    case ',' => Some(Comma)
    case '>' => Some(GreaterThan)
    case '{' => Some(LeftBrace)
    case '(' => Some(LeftParen)
    case '<' => Some(LessThan)
    case '-' => Some(Minus)
    case '+' => Some(Plus)
    case '}' => Some(RightBrace)
    case ')' => Some(RightParen)
    case ';' => Some(Semicolon)
    case '/' => Some(Slash)
    case _ => None
  }

  /** The keyword table of `from_str`. */
  function Keyword(s: string): (r: Option<Token>)
    ensures r.Some? <==> s in KEYWORDS
  {
    match s
    case "else" => Some(Else)
    case "false" => Some(False)
    case "fn" => Some(Function)
    case "if" => Some(If)
    case "let" => Some(Let)
    case "return" => Some(Return)
    case "true" => Some(True)
    case _ => None
  }

  /**
   * `Token::from_str`: one punctuation character, else a keyword, else a
   * digit-led `i64` literal, else an identifier.
   */
  function FromStr(s: string): (r: Result<Token, Error>)
    ensures s == [] ==> r == Err(TokenError([]))
    ensures |s| == 1 && s[0] in PUNCTUATION ==> r == Ok(FromChar(s[0]).value)
    ensures r.Err? ==> r.error == TokenError(s) && (s == [] || IsDigit(s[0]))
    ensures r.Ok? && r.value.Identifier? ==> r.value.name == s
  {
    if s == [] then Err(TokenError([]))
    else if |s| == 1 && FromChar(s[0]).Some? then Ok(FromChar(s[0]).value)
    else if Keyword(s).Some? then Ok(Keyword(s).value)
    else if IsDigit(s[0]) then
      match ParseI64(s)
      case Some(n) => Ok(Integer(n))
      case None => Err(TokenError(s))
    else Ok(Identifier(s))
  }

  /** No punctuation character is whitespace, a letter, an underscore or a digit. */
  lemma PunctuationIsNoWordCharacter(c: char)
    ensures c in PUNCTUATION ==> !IsWhitespace(c) && !IsIdentifierChar(c) && !IsDigit(c)
  {
  }

  /** Every reserved word starts with a letter. */
  lemma KeywordsAreWords(s: string)
    ensures s in KEYWORDS ==> |s| >= 2 && IsAlphabetic(s[0])
  {
  }

  /** A lexeme of digits is an `Integer` of its value when that fits in an `i64`, and an error carrying it otherwise. */
  lemma FromStrDigits(s: string)
    requires |s| > 0 && AllDigits(s)
    ensures FromStr(s) == if DigitsValue(s) <= I64_MAX then Ok(Integer(DigitsValue(s))) else Err(TokenError(s))
  {
    PunctuationIsNoWordCharacter(s[0]);
    KeywordsAreWords(s);
  }

  /** A lexeme of letters and underscores is its keyword if it spells one, and otherwise an identifier. */
  lemma FromStrWord(s: string)
    requires |s| > 0 && forall i :: 0 <= i < |s| ==> IsIdentifierChar(s[i])
    ensures FromStr(s) == Ok(if s in KEYWORDS then Keyword(s).value else Identifier(s))
  {
    PunctuationIsNoWordCharacter(s[0]);
  }

  /**
   * A non-empty string that does not start with a digit always resolves, and
   * it is the identifier of its own text exactly when it is no single
   * punctuation character and no keyword.
   */
  lemma FromStrTotalOffDigits(s: string)
    requires |s| > 0 && !IsDigit(s[0])
    ensures FromStr(s).Ok?
    ensures FromStr(s) == Ok(Identifier(s)) <==> !(|s| == 1 && s[0] in PUNCTUATION) && s !in KEYWORDS
  {
  }

  /**
   * `read_token`'s last line: resolve the buffered text, reporting any failure with
   * that text. Since `from_str` already reports the text it failed on, the
   * mapping of the error changes nothing.
   */
  function Resolve(lexeme: string): (r: Result<Token, Error>)
    ensures r.Err? ==> r.error == TokenError(lexeme)
    ensures r == FromStr(lexeme)
  {
    match FromStr(lexeme)
    case Ok(t) => Ok(t)
    case Err(_) => Err(TokenError(lexeme))
  }

  /** The lexer's state between calls: bytes consumed, and the pushback character. */
  datatype Cursor = Cursor(pos: nat, latest: Option<char>)

  /** The outcome of one `read_token`: the token or error, the new state, and the buffer's text if it was used. */
  datatype Read = Read(result: Result<Token, Error>, cursor: Cursor, lexeme: Option<string>)

  /** `latest_char.filter(|c| !c.is_ascii_whitespace())`. */
  function Pending(latest: Option<char>): (r: Option<char>)
    ensures r.Some? <==> latest.Some? && !IsWhitespace(latest.value)
    ensures r.Some? ==> r == latest
  {
    if latest.Some? && !IsWhitespace(latest.value) then latest else None
  }

  /**
   * The buffered path of `read_token` once its first character `ch` is known
   * and the input cursor is at `p`; `latest` is the pushback field at that time.
   */
  function ReadBuffered(s: seq<char>, p: nat, ch: char, latest: Option<char>): (r: Read)
    requires p <= |s|
    ensures p <= r.cursor.pos <= |s|
    ensures r.result == Err(UnexpectedEof) ==> r.cursor.pos == |s|
  {
    if IsIdentifierChar(ch) || IsDigit(ch) then
      var e := RunEnd(s, p, if IsIdentifierChar(ch) then IsIdentifierChar else IsDigit);
      if e == |s| then Read(Err(UnexpectedEof), Cursor(|s|, if e > p then Some(s[e - 1]) else latest), Some([ch] + s[p..e]))
      else Read(Resolve([ch] + s[p..e]), Cursor(e + 1, Some(s[e])), Some([ch] + s[p..e]))
    else Read(Resolve([ch]), Cursor(p, latest), Some([ch]))
  }

  /** What `read_token` does, as written, from state `c`. */
  function ReadTokenSpec(s: seq<char>, c: Cursor): (r: Read)
    requires c.pos <= |s|
    ensures c.pos <= r.cursor.pos <= |s|
    ensures r.result == Err(UnexpectedEof) ==> r.cursor.pos == |s|
  {
    var pending := Pending(c.latest);
    var q := SkipWhitespace(s, c.pos);
    if pending.None? && q == |s| then Read(Err(UnexpectedEof), Cursor(|s|, c.latest), None)
    else
      var ch := if pending.Some? then pending.value else s[q];
      var p := if pending.Some? then c.pos else q + 1;
      if FromChar(ch).Some? then Read(Ok(FromChar(ch).value), Cursor(p, None), None)
      else ReadBuffered(s, p, ch, c.latest)
  }

  /**
   * The first `n` results of the `Iterator` impl, as written, from state `c`: it
   * maps `UnexpectedEof` to `None` and goes on calling `read_token` after that.
   */
  function Iterate(s: seq<char>, c: Cursor, n: nat): (items: seq<Option<Result<Token, Error>>>)
    requires c.pos <= |s|
    ensures |items| == n
    decreases n
  {
    if n == 0 then []
    else
      var r := ReadTokenSpec(s, c);
      [if r.result == Err(UnexpectedEof) then None else Some(r.result)] + Iterate(s, r.cursor, n - 1)
  }

  /**
   * From state `c` the next token starts with `ch`, after which `p` bytes are
   * consumed: `ch` is the pending character, or, when none is pending (or it is
   * whitespace), the first non-whitespace byte of the input.
   */
  predicate StartsWith(s: seq<char>, c: Cursor, ch: char, p: nat) {
    c.pos <= p <= |s| &&
    if Pending(c.latest).Some? then ch == c.latest.value && p == c.pos
    else c.pos < p && (forall i :: c.pos <= i < p - 1 ==> IsWhitespace(s[i])) && s[p - 1] == ch && !IsWhitespace(ch)
  }

  /** A pending character is used before any byte is read; otherwise whitespace is skipped. */
  lemma FirstCharacter(s: seq<char>, c: Cursor, ch: char, p: nat)
    requires StartsWith(s, c, ch, p)
    ensures ReadTokenSpec(s, c) ==
      if FromChar(ch).Some? then Read(Ok(FromChar(ch).value), Cursor(p, None), None)
      else ReadBuffered(s, p, ch, c.latest)
  {
    if Pending(c.latest).None? {
      assert SkipWhitespace(s, c.pos) == p - 1;
    }
  }

  /** With nothing pending and only whitespace left, the iterator ends and the pushback field is kept. */
  lemma WhitespaceToEnd(s: seq<char>, c: Cursor)
    requires c.pos <= |s| && Pending(c.latest).None?
    requires forall i :: c.pos <= i < |s| ==> IsWhitespace(s[i])
    ensures ReadTokenSpec(s, c) == Read(Err(UnexpectedEof), Cursor(|s|, c.latest), None)
  {
  }

  /** Punctuation gives its token, consumes nothing after `ch`, and clears the pushback field. */
  lemma PunctuationClearsPending(s: seq<char>, c: Cursor, ch: char, p: nat)
    requires StartsWith(s, c, ch, p) && ch in PUNCTUATION
    ensures ReadTokenSpec(s, c) == Read(Ok(FromChar(ch).value), Cursor(p, None), None)
  {
    FirstCharacter(s, c, ch, p);
  }

  /**
   * A run of letters and underscores started by `ch` is read up to the first
   * other byte `s[e]`; that byte is consumed but not buffered, and becomes the
   * pending character.
   */
  lemma IdentifierRunIsMaximal(s: seq<char>, c: Cursor, ch: char, p: nat, e: nat)
    requires StartsWith(s, c, ch, p) && IsIdentifierChar(ch) && p <= e < |s|
    requires forall i :: p <= i < e ==> IsIdentifierChar(s[i])
    requires !IsIdentifierChar(s[e])
    ensures var run := [ch] + s[p..e];
      ReadTokenSpec(s, c) == Read(
        Ok(if run in KEYWORDS then Keyword(run).value else Identifier(run)), Cursor(e + 1, Some(s[e])), Some(run))
  {
    FirstCharacter(s, c, ch, p);
    PunctuationIsNoWordCharacter(ch);
    IdentifierRunIsBuffered(s, p, ch, c.latest, e);
    FromStrWord([ch] + s[p..e]);
  }

  /** The buffered path on a letter or underscore `ch` stops at the first other byte `s[e]`, which becomes the pending character. */
  lemma IdentifierRunIsBuffered(s: seq<char>, p: nat, ch: char, latest: Option<char>, e: nat)
    requires IsIdentifierChar(ch) && p <= e < |s| && !IsIdentifierChar(s[e])
    requires forall i :: p <= i < e ==> IsIdentifierChar(s[i])
    ensures var run := [ch] + s[p..e];
      (forall i :: 0 <= i < |run| ==> IsIdentifierChar(run[i])) &&
      ReadBuffered(s, p, ch, latest) == Read(Resolve(run), Cursor(e + 1, Some(s[e])), Some(run))
  {
    assert RunEnd(s, p, IsIdentifierChar) == e;
    var run := [ch] + s[p..e];
    assert forall i :: 1 <= i < |run| ==> run[i] == s[p + i - 1];
  }

  /**
   * A run of digits started by `ch` is read up to the first other byte `s[e]`,
   * which becomes the pending character; the run is an `Integer` when it fits
   * in an `i64` and an error carrying the run otherwise.
   */
  lemma DigitRunIsMaximal(s: seq<char>, c: Cursor, ch: char, p: nat, e: nat)
    requires StartsWith(s, c, ch, p) && IsDigit(ch) && p <= e < |s|
    requires forall i :: p <= i < e ==> IsDigit(s[i])
    requires !IsDigit(s[e])
    ensures var run := [ch] + s[p..e];
      AllDigits(run) &&
      ReadTokenSpec(s, c) == Read(
        if DigitsValue(run) <= I64_MAX then Ok(Integer(DigitsValue(run))) else Err(TokenError(run)),
        Cursor(e + 1, Some(s[e])), Some(run))
  {
    FirstCharacter(s, c, ch, p);
    PunctuationIsNoWordCharacter(ch);
    DigitRunIsBuffered(s, p, ch, c.latest, e);
    FromStrDigits([ch] + s[p..e]);
  }

  /** The buffered path on a digit `ch` stops at the first non-digit `s[e]`, which becomes the pending character. */
  lemma DigitRunIsBuffered(s: seq<char>, p: nat, ch: char, latest: Option<char>, e: nat)
    requires IsDigit(ch) && p <= e < |s| && !IsDigit(s[e])
    requires forall i :: p <= i < e ==> IsDigit(s[i])
    ensures var run := [ch] + s[p..e];
      AllDigits(run) && ReadBuffered(s, p, ch, latest) == Read(Resolve(run), Cursor(e + 1, Some(s[e])), Some(run))
  {
    assert !IsIdentifierChar(ch);
    assert RunEnd(s, p, IsDigit) == e;
    var run := [ch] + s[p..e];
    assert forall i :: 1 <= i < |run| ==> run[i] == s[p + i - 1];
  }

  /**
   * A character that is no whitespace, punctuation, letter, underscore or digit
   * is read as a one-character identifier, and the pushback field keeps what it held.
   */
  lemma OtherCharKeepsPending(s: seq<char>, c: Cursor, ch: char, p: nat)
    requires StartsWith(s, c, ch, p)
    requires ch !in PUNCTUATION && !IsIdentifierChar(ch) && !IsDigit(ch)
    ensures ReadTokenSpec(s, c) == Read(Ok(Identifier([ch])), Cursor(p, c.latest), Some([ch]))
  {
    FirstCharacter(s, c, ch, p);
    assert [ch] !in KEYWORDS;
  }

  /** A run that reaches the end of the input is dropped: the read ends in `UnexpectedEof`, which ends the iterator. */
  lemma RunAtEndIsDropped(s: seq<char>, c: Cursor, ch: char, p: nat)
    requires StartsWith(s, c, ch, p)
    requires (IsIdentifierChar(ch) && forall i :: p <= i < |s| ==> IsIdentifierChar(s[i]))
      || (IsDigit(ch) && forall i :: p <= i < |s| ==> IsDigit(s[i]))
    ensures ReadTokenSpec(s, c).result == Err(UnexpectedEof)
    ensures Iterate(s, c, 1) == [None]
  {
    FirstCharacter(s, c, ch, p);
    assert ch !in PUNCTUATION;
    if IsIdentifierChar(ch) {
      assert RunEnd(s, p, IsIdentifierChar) == |s|;
    } else {
      assert RunEnd(s, p, IsDigit) == |s|;
    }
  }

  /** Without a two-character rule, `==` is two `Assign` tokens, after which the iterator ends. */
  lemma DoubleEqualsIsTwoAssigns(s: string)
    requires s == "=="
    ensures Iterate(s, Cursor(0, None), 3) == [Some(Ok(Assign)), Some(Ok(Assign)), None]
  {
    PunctuationClearsPending(s, Cursor(0, None), '=', 1);
    PunctuationClearsPending(s, Cursor(1, None), '=', 2);
    WhitespaceToEnd(s, Cursor(2, None));
  }

  // ---------------------------------------------------------------------------
  // The pushback character is never cleared when it is neither punctuation nor
  // the start of a run, so it starts every later token as well.

  /** A pending character that is no whitespace, punctuation, letter, underscore or digit is read again and again. */
  lemma PendingOtherCharRepeats(s: seq<char>, c: Cursor)
    requires c.pos <= |s| && c.latest.Some?
    requires var ch := c.latest.value;
      !IsWhitespace(ch) && ch !in PUNCTUATION && !IsIdentifierChar(ch) && !IsDigit(ch)
    ensures ReadTokenSpec(s, c) == Read(Ok(Identifier([c.latest.value])), c, Some([c.latest.value]))
  {
    assert [c.latest.value] !in KEYWORDS;
  }

  /** On `x@` the iterator yields `Identifier("x")` and then `Identifier("@")` for ever. */
  lemma {:induction false} EndlessStreamOnStrayByte(s: seq<char>, n: nat)
    requires s == "x@"
    ensures Iterate(s, Cursor(0, None), n + 1) ==
      [Some(Ok(Identifier("x")))] + seq(n, _ => Some(Ok(Identifier("@"))))
  {
    var after := Cursor(2, Some('@'));
    assert ReadTokenSpec(s, Cursor(0, None)) == Read(Ok(Identifier("x")), after, Some("x")) by {
      assert SkipWhitespace(s, 0) == 0;
      assert RunEnd(s, 1, IsIdentifierChar) == 1;
      assert [s[0]] + s[1..1] == "x";
      assert "x" !in KEYWORDS;
    }
    RepeatsFromPending(s, after, n);
  }

  lemma {:induction false} RepeatsFromPending(s: seq<char>, c: Cursor, n: nat)
    requires s == "x@" && c == Cursor(2, Some('@'))
    ensures Iterate(s, c, n) == seq(n, _ => Some(Ok(Identifier("@"))))
  {
    if n > 0 {
      PendingOtherCharRepeats(s, c);
      RepeatsFromPending(s, c, n - 1);
    }
  }

  // ---------------------------------------------------------------------------
  // Corrected: the pending character is taken (`latest_char.take()`), so it is
  // used at most once.

  /** `read_token` with `latest_char.take()` in place of reading the field. */
  function ReadTokenFixed(s: seq<char>, c: Cursor): (r: Read)
    requires c.pos <= |s|
    ensures c.pos <= r.cursor.pos <= |s|
    ensures r.result == Err(UnexpectedEof) ==> r.cursor.pos == |s|
    ensures r.result != Err(UnexpectedEof) ==> Weight(s, r.cursor) < Weight(s, c)
  {
    var pending := Pending(c.latest);
    var q := SkipWhitespace(s, c.pos);
    if pending.None? && q == |s| then Read(Err(UnexpectedEof), Cursor(|s|, None), None)
    else
      var ch := if pending.Some? then pending.value else s[q];
      var p := if pending.Some? then c.pos else q + 1;
      if FromChar(ch).Some? then Read(Ok(FromChar(ch).value), Cursor(p, None), None)
      else ReadBuffered(s, p, ch, None)
  }

  /** Twice the unread input, plus one for a pending non-whitespace character. */
  function Weight(s: seq<char>, c: Cursor): nat
    requires c.pos <= |s|
  {
    2 * (|s| - c.pos) + (if Pending(c.latest).Some? then 1 else 0)
  }

  /** The corrected iterator: it ends on every input. */
  function FixedStream(s: seq<char>, c: Cursor): (items: seq<Result<Token, Error>>)
    requires c.pos <= |s|
    ensures |items| <= Weight(s, c)
    ensures forall i :: 0 <= i < |items| ==> items[i] != Err(UnexpectedEof)
    decreases Weight(s, c)
  {
    var r := ReadTokenFixed(s, c);
    if r.result == Err(UnexpectedEof) then [] else [r.result] + FixedStream(s, r.cursor)
  }

  /**
   * Unless a stray character is pending, the correction reads the same token,
   * lexeme and position. After a token the pending character agrees too; the
   * stored field itself may differ only in holding whitespace, or at the end
   * of the input.
   */
  lemma FixedAgreesWithoutStrayPending(s: seq<char>, c: Cursor)
    requires c.pos <= |s|
    requires Pending(c.latest).Some? ==> var ch := c.latest.value;
      ch in PUNCTUATION || IsIdentifierChar(ch) || IsDigit(ch)
    ensures ReadTokenFixed(s, c).result == ReadTokenSpec(s, c).result
    ensures ReadTokenFixed(s, c).cursor.pos == ReadTokenSpec(s, c).cursor.pos
    ensures ReadTokenFixed(s, c).lexeme == ReadTokenSpec(s, c).lexeme
    ensures ReadTokenSpec(s, c).result != Err(UnexpectedEof) ==>
      Pending(ReadTokenFixed(s, c).cursor.latest) == Pending(ReadTokenSpec(s, c).cursor.latest)
  {
  }

  /** With the correction, `x@` gives `Identifier("x")`, `Identifier("@")` and then ends. */
  lemma StrayByteFixed(s: seq<char>)
    requires s == "x@"
    ensures FixedStream(s, Cursor(0, None)) == [Ok(Identifier("x")), Ok(Identifier("@"))]
  {
    var after := Cursor(2, Some('@'));
    FixedFirstRead(s);
    FixedSecondRead(s);
    assert FixedStream(s, after) == [Ok(Identifier("@"))] + FixedStream(s, Cursor(2, None));
  }

  lemma FixedFirstRead(s: seq<char>)
    requires s == "x@"
    ensures ReadTokenFixed(s, Cursor(0, None)) == Read(Ok(Identifier("x")), Cursor(2, Some('@')), Some("x"))
  {
    assert SkipWhitespace(s, 0) == 0;
    assert RunEnd(s, 1, IsIdentifierChar) == 1;
    assert [s[0]] + s[1..1] == "x";
    assert "x" !in KEYWORDS;
  }

  lemma FixedSecondRead(s: seq<char>)
    requires s == "x@"
    ensures ReadTokenFixed(s, Cursor(2, Some('@'))) == Read(Ok(Identifier("@")), Cursor(2, None), Some("@"))
    ensures FixedStream(s, Cursor(2, None)) == []
  {
    assert "@" !in KEYWORDS;
  }

  // ---------------------------------------------------------------------------
  // The lexer object, as written.

  class Lexer {
    /** The byte source, one character per byte. */
    const input: seq<char>
    /** How many bytes of `input` have been consumed. */
    var pos: nat
    var tokenBuf: string
    /** The latest character read but not yet parsed. */
    var latestChar: Option<char>

    ghost predicate Valid()
      reads this
    {
      pos <= |input|
    }

    /** The state `read_token` starts from. */
    ghost function State(): Cursor
      reads this
    {
      Cursor(pos, latestChar)
    }

    /** `Lexer::new`. */
    constructor (input: seq<char>)
      ensures Valid() && this.input == input && pos == 0 && tokenBuf == [] && latestChar == None
    {
      this.input := input;
      pos := 0;
      tokenBuf := [];
      latestChar := None;
    }

    /** `read_char`: consume one byte, or report the end of the input. */
    method ReadChar() returns (r: Result<char, Error>)
      requires Valid()
      modifies this`pos
      ensures Valid()
      ensures old(pos) < |input| ==> r == Ok(input[old(pos)]) && pos == old(pos) + 1
      ensures old(pos) == |input| ==> r == Err(UnexpectedEof) && pos == old(pos)
    {
      if pos == |input| {
        r := Err(UnexpectedEof);
      } else {
        r := Ok(input[pos]);
        pos := pos + 1;
      }
    }

    /** `read_nonwhitespace_char`: consume bytes up to and including the first non-whitespace one. */
    method ReadNonwhitespaceChar() returns (r: Result<char, Error>)
      requires Valid()
      modifies this`pos
      ensures Valid()
      ensures var q := SkipWhitespace(input, old(pos));
        if q < |input| then r == Ok(input[q]) && pos == q + 1
        else r == Err(UnexpectedEof) && pos == |input|
    {
      while true
        invariant Valid() && old(pos) <= pos
        invariant SkipWhitespace(input, old(pos)) == SkipWhitespace(input, pos)
        decreases |input| - pos
      {
        r := ReadChar();
        if r.Err? || !IsWhitespace(r.value) {
          return;
        }
      }
    }

    /**
     * `fill_buffer_until`: move bytes into the token buffer while they satisfy
     * `cond`. The byte that stops the run is consumed too, and every byte read
     * is left in `latestChar`.
     */
    method FillBufferUntil(cond: char -> bool) returns (r: Result<(), Error>)
      requires Valid()
      modifies this`pos, this`tokenBuf, this`latestChar
      ensures Valid()
      ensures var e := RunEnd(input, old(pos), cond);
        tokenBuf == old(tokenBuf) + input[old(pos)..e] &&
        if e == |input| then
          r == Err(UnexpectedEof) && pos == e &&
          latestChar == (if e > old(pos) then Some(input[e - 1]) else old(latestChar))
        else
          r == Ok(()) && pos == e + 1 && latestChar == Some(input[e])
    {
      ghost var e := RunEnd(input, pos, cond);
      while true
        invariant Valid() && old(pos) <= pos <= e
        invariant e == RunEnd(input, pos, cond)
        invariant tokenBuf == old(tokenBuf) + input[old(pos)..pos]
        invariant latestChar == if pos > old(pos) then Some(input[pos - 1]) else old(latestChar)
        decreases |input| - pos
      {
        ghost var before := pos;
        var ch := ReadChar();
        if ch.Err? {
          return Err(UnexpectedEof);
        }
        latestChar := Some(ch.value);
        if !cond(ch.value) {
          return Ok(());
        }
        BufferGrows(old(tokenBuf), input, old(pos), before);
        tokenBuf := tokenBuf + [ch.value];
      }
    }

    /** `read_token`: the next token or error; see `ReadTokenSpec`. */
    method ReadToken() returns (r: Result<Token, Error>)
      requires Valid()
      modifies this`pos, this`tokenBuf, this`latestChar
      ensures Valid()
      ensures var rd := ReadTokenSpec(input, old(State()));
        r == rd.result && State() == rd.cursor &&
        tokenBuf == (if rd.lexeme.Some? then rd.lexeme.value else old(tokenBuf))
    {
      ghost var c := State();
      var ch: char;
      var pending := Pending(latestChar);
      if pending.Some? {
        ch := pending.value;
      } else {
        var read := ReadNonwhitespaceChar();
        if read.Err? {
          WhitespaceToEnd(input, c);
          return Err(read.error);
        }
        ch := read.value;
      }
      assert StartsWith(input, c, ch, pos);
      FirstCharacter(input, c, ch, pos);
      var single := FromChar(ch);
      if single.Some? {
        latestChar := None;
        return Ok(single.value);
      }
      r := ReadBufferedToken(ch);
    }

    /** The buffered part of `read_token`, from the character `ch` that is no punctuation. */
    method ReadBufferedToken(ch: char) returns (r: Result<Token, Error>)
      requires Valid()
      modifies this`pos, this`tokenBuf, this`latestChar
      ensures Valid()
      ensures var rd := ReadBuffered(input, old(pos), ch, old(latestChar));
        r == rd.result && State() == rd.cursor && tokenBuf == rd.lexeme.value
    {
      tokenBuf := [ch];
      ghost var p := pos;
      if IsIdentifierChar(ch) {
        var filled := FillBufferUntil(IsIdentifierChar);
        if filled.Err? {
          return Err(filled.error);
        }
      } else if IsDigit(ch) {
        var filled := FillBufferUntil(IsDigit);
        if filled.Err? {
          return Err(filled.error);
        }
      }
      r := Resolve(tokenBuf);
    }

    /**
     * `Iterator::next`: the next token or error, or `None` at the end of the
     * input.
     */
    method Next() returns (r: Option<Result<Token, Error>>)
      requires Valid()
      modifies this`pos, this`tokenBuf, this`latestChar
      ensures Valid()
      ensures var rd := ReadTokenSpec(input, old(State()));
        State() == rd.cursor &&
        r == (if rd.result == Err(UnexpectedEof) then None else Some(rd.result)) &&
        tokenBuf == (if rd.lexeme.Some? then rd.lexeme.value else old(tokenBuf))
    {
      var tok := ReadToken();
      if tok == Err(UnexpectedEof) {
        r := None;
      } else {
        r := Some(tok);
      }
    }
  }
}
