/**
 * The pull-based lexer of `src/lexer/mod.rs`. The byte stream is modelled as a
 * sequence of characters (one per byte) with a cursor: consuming a byte moves
 * the cursor, peeking reads the byte under it, and the end of the sequence is
 * the `UnexpectedEof` I/O error.
 */
module Lexing {
  import opened Outcomes
  import opened Ascii
  import opened LexerErrors
  import opened Tokens

  /**
   * The outcome of one call of `next_token` from cursor position `pos`: the token
   * or error, the new cursor, and the text left in `token_buf` when the buffer was used.
   */
  datatype Scanned = Scanned(result: Result<Token, Error>, next: nat, lexeme: Option<string>)

  /**
   * `next_token`'s last line: resolve the buffered text, reporting any failure with
   * that text. Since `from_str` already reports the text it failed on, the
   * mapping of the error changes nothing.
   */
  function Resolve(lexeme: string): (r: Result<Token, Error>)
    ensures r.Err? ==> r.error == TokenError(lexeme)
    ensures r == FromStr(lexeme)
  {
    match FromStr(lexeme)
    case Ok(t) => Ok(t)
    case Err(_) => Err(TokenError(lexeme))
  }

  /** What `next_token` does to an input `s` whose cursor is at `pos`. */
  function Scan(s: seq<char>, pos: nat): (r: Scanned)
    requires pos <= |s|
    ensures pos <= r.next <= |s|
    ensures r.result != Err(UnexpectedEof) ==> pos < r.next
    ensures r.result == Err(UnexpectedEof) ==> r.next == |s|
  {
    var p := SkipWhitespace(s, pos);
    if p == |s| then Scanned(Err(UnexpectedEof), |s|, None) else ScanAt(s, p)
  }

  /** `next_token` once the non-whitespace byte at `p` has been read: operators first, then the buffer. */
  function ScanAt(s: seq<char>, p: nat): (r: Scanned)
    requires p < |s|
    ensures p < r.next <= |s|
    ensures r.result == Err(UnexpectedEof) ==> r.next == |s|
  {
    var ch := s[p];
    if MayBeTwoChars(ch) && p + 1 == |s| then Scanned(Err(UnexpectedEof), |s|, None)
    else if MayBeTwoChars(ch) && FromTwoChars(ch, s[p + 1]).Some? then
      Scanned(Ok(FromTwoChars(ch, s[p + 1]).value), p + 2, None)
    else if FromChar(ch).Some? then Scanned(Ok(FromChar(ch).value), p + 1, None)
    else ScanBuffered(s, p)
  }

  /** The buffered path of `next_token`: a run of identifier characters or digits, or the lone byte at `p`. */
  function ScanBuffered(s: seq<char>, p: nat): (r: Scanned)
    requires p < |s|
    ensures p < r.next <= |s| && r.lexeme == Some(s[p..r.next])
    ensures r.result == Err(UnexpectedEof) ==> r.next == |s|
  {
    var ch := s[p];
    if IsIdentifierChar(ch) || IsDigit(ch) then
      var e := RunEnd(s, p + 1, if IsIdentifierChar(ch) then IsIdentifierChar else IsDigit);
      if e == |s| then Scanned(Err(UnexpectedEof), |s|, Some(s[p..e]))
      else Scanned(Resolve(s[p..e]), e, Some(s[p..e]))
    else Scanned(Resolve(s[p..p + 1]), p + 1, Some(s[p..p + 1]))
  }

  /**
   * The items the `Iterator` impl yields from position `pos` onwards: it maps
   * `UnexpectedEof` to the end of the stream and passes every other outcome on.
   */
  function Stream(s: seq<char>, pos: nat): (items: seq<Result<Token, Error>>)
    requires pos <= |s|
    ensures |items| <= |s| - pos
    ensures forall i :: 0 <= i < |items| ==> items[i] != Err(UnexpectedEof)
    decreases |s| - pos
  {
    var r := Scan(s, pos);
    if r.result == Err(UnexpectedEof) then [] else [r.result] + Stream(s, r.next)
  }

  /** `p` is where the next token starts: every byte from `pos` up to it is whitespace and it is not. */
  predicate TokenStartsAt(s: seq<char>, pos: nat, p: nat) {
    pos <= p < |s| && (forall i :: pos <= i < p ==> IsWhitespace(s[i])) && !IsWhitespace(s[p])
  }

  /** Whitespace before a token is skipped byte by byte; an input that is all whitespace from `pos` on ends the stream. */
  lemma WhitespaceIsSkipped(s: seq<char>, pos: nat, p: nat)
    requires pos <= p <= |s|
    requires forall i :: pos <= i < p ==> IsWhitespace(s[i])
    ensures p < |s| && !IsWhitespace(s[p]) ==> Scan(s, pos) == ScanAt(s, p)
    ensures p == |s| ==> Scan(s, pos).result == Err(UnexpectedEof) && Stream(s, pos) == []
  {
  }

  /** `==` and `!=` consume both bytes and give one operator token. */
  lemma TwoCharOperator(s: seq<char>, pos: nat, p: nat)
    requires TokenStartsAt(s, pos, p) && p + 1 < |s|
    requires MayBeTwoChars(s[p]) && s[p + 1] == '='
    ensures Scan(s, pos) == Scanned(Ok(if s[p] == '=' then Equal else NotEqual), p + 2, None)
  {
    WhitespaceIsSkipped(s, pos, p);
  }

  /**
   * `=` or `!` followed by any other byte gives `Assign` or `Bang` and consumes
   * one byte: the following byte is only peeked.
   */
  lemma OneCharOperatorAfterPeek(s: seq<char>, pos: nat, p: nat)
    requires TokenStartsAt(s, pos, p) && p + 1 < |s|
    requires MayBeTwoChars(s[p]) && s[p + 1] != '='
    ensures Scan(s, pos) == Scanned(Ok(if s[p] == '=' then Assign else Bang), p + 1, None)
  {
    WhitespaceIsSkipped(s, pos, p);
  }

  /** Every other punctuation character gives its token and consumes exactly one byte. */
  lemma PunctuationToken(s: seq<char>, pos: nat, p: nat)
    requires TokenStartsAt(s, pos, p)
    requires s[p] in PUNCTUATION && !MayBeTwoChars(s[p])
    ensures Scan(s, pos) == Scanned(Ok(FromChar(s[p]).value), p + 1, None)
    ensures Display(Scan(s, pos).result.value) == [s[p]]
  {
    WhitespaceIsSkipped(s, pos, p);
    FromCharIsDisplayed(s[p]);
  }

  /**
   * A run of letters and underscores is taken whole and no further: it ends at
   * the first other byte `s[e]`, which is left for the next token; the run is a
   * keyword if it spells one, and an identifier otherwise.
   */
  lemma IdentifierRunIsMaximal(s: seq<char>, pos: nat, p: nat, e: nat)
    requires TokenStartsAt(s, pos, p) && p < e < |s|
    requires forall i :: p <= i < e ==> IsIdentifierChar(s[i])
    requires !IsIdentifierChar(s[e])
    ensures Scan(s, pos) == Scanned(
      Ok(if s[p..e] in KEYWORDS then Keyword(s[p..e]).value else Identifier(s[p..e])), e, Some(s[p..e]))
  {
    WhitespaceIsSkipped(s, pos, p);
    IdentifierRunIsBuffered(s, p, e);
    FromStrWord(s[p..e]);
  }

  /** The buffered path on a letter or underscore at `p` stops at the first other byte `s[e]`. */
  lemma IdentifierRunIsBuffered(s: seq<char>, p: nat, e: nat)
    requires p < e < |s| && !IsIdentifierChar(s[e])
    requires forall i :: p <= i < e ==> IsIdentifierChar(s[i])
    ensures |s[p..e]| > 0 && forall i :: 0 <= i < |s[p..e]| ==> IsIdentifierChar(s[p..e][i])
    ensures ScanAt(s, p) == Scanned(Resolve(s[p..e]), e, Some(s[p..e]))
  {
    PunctuationIsNoWordCharacter(s[p]);
    assert RunEnd(s, p + 1, IsIdentifierChar) == e;
  }

  /**
   * A run of digits is taken whole and no further; it is an `Integer` when its
   * value fits in an `i64`, and otherwise an error carrying the whole run.
   */
  lemma DigitRunIsMaximal(s: seq<char>, pos: nat, p: nat, e: nat)
    requires TokenStartsAt(s, pos, p) && p < e < |s|
    requires forall i :: p <= i < e ==> IsDigit(s[i])
    requires !IsDigit(s[e])
    ensures AllDigits(s[p..e])
    ensures Scan(s, pos) == Scanned(
      if DigitsValue(s[p..e]) <= I64_MAX then Ok(Integer(DigitsValue(s[p..e]))) else Err(TokenError(s[p..e])),
      e, Some(s[p..e]))
  {
    WhitespaceIsSkipped(s, pos, p);
    DigitRunIsBuffered(s, p, e);
    FromStrDigits(s[p..e]);
  }

  /** The buffered path on a digit at `p` stops at the first non-digit `s[e]`. */
  lemma DigitRunIsBuffered(s: seq<char>, p: nat, e: nat)
    requires p < e < |s| && !IsDigit(s[e])
    requires forall i :: p <= i < e ==> IsDigit(s[i])
    ensures |s[p..e]| > 0 && AllDigits(s[p..e])
    ensures ScanAt(s, p) == Scanned(Resolve(s[p..e]), e, Some(s[p..e]))
  {
    assert s[p] !in PUNCTUATION && !IsIdentifierChar(s[p]);
    assert RunEnd(s, p + 1, IsDigit) == e;
  }

  /**
   * A byte that is no whitespace, punctuation, letter, underscore or digit is
   * buffered alone and read as a one-character identifier.
   */
  lemma OtherByteIsIdentifier(s: seq<char>, pos: nat, p: nat)
    requires TokenStartsAt(s, pos, p)
    requires s[p] !in PUNCTUATION && !IsIdentifierChar(s[p]) && !IsDigit(s[p])
    ensures Scan(s, pos) == Scanned(Ok(Identifier([s[p]])), p + 1, Some([s[p]]))
  {
    WhitespaceIsSkipped(s, pos, p);
    assert s[p..p + 1] == [s[p]] && [s[p]] !in KEYWORDS;
    assert ScanAt(s, p) == ScanBuffered(s, p);
  }

  /**
   * A token still being formed when the input ends is dropped and the stream
   * ends: a lone `=` or `!` whose second byte cannot be peeked, or a run of
   * identifier characters or digits that reaches the end.
   */
  lemma PendingTokenAtEndIsDropped(s: seq<char>, pos: nat, p: nat)
    requires TokenStartsAt(s, pos, p)
    requires (MayBeTwoChars(s[p]) && p + 1 == |s|)
      || (forall i :: p <= i < |s| ==> IsIdentifierChar(s[i]))
      || (forall i :: p <= i < |s| ==> IsDigit(s[i]))
    ensures Scan(s, pos).result == Err(UnexpectedEof)
    ensures Stream(s, pos) == []
  {
    WhitespaceIsSkipped(s, pos, p);
    if !(MayBeTwoChars(s[p]) && p + 1 == |s|) {
      assert s[p] !in PUNCTUATION;
      if IsIdentifierChar(s[p]) {
        assert RunEnd(s, p + 1, IsIdentifierChar) == |s|;
      } else {
        assert RunEnd(s, p + 1, IsDigit) == |s|;
      }
    }
  }

  class Lexer {
    /** The byte source, one character per byte. */
    var input: seq<char>
    /** How many bytes of `input` have been consumed. */
    var pos: nat
    var tokenBuf: string

    ghost predicate Valid()
      reads this
    {
      pos <= |input|
    }

    /** `Lexer::new`. */
    constructor (input: seq<char>)
      ensures Valid() && this.input == input && pos == 0 && tokenBuf == []
    {
      this.input := input;
      pos := 0;
      tokenBuf := [];
    }

    /** `reset`: a new byte source; the token buffer is left as it is. */
    method Reset(input: seq<char>)
      modifies this
      ensures Valid() && this.input == input && pos == 0 && tokenBuf == old(tokenBuf)
    {
      this.input := input;
      pos := 0;
    }

    /** `next_char`: consume one byte, or report the end of the input. */
    method NextChar() returns (r: Result<char, Error>)
      requires Valid()
      modifies this`pos
      ensures Valid()
      ensures old(pos) < |input| ==> r == Ok(input[old(pos)]) && pos == old(pos) + 1
      ensures old(pos) == |input| ==> r == Err(UnexpectedEof) && pos == old(pos)
    {
      if pos == |input| {
        r := Err(UnexpectedEof);
      } else {
        r := Ok(input[pos]);
        pos := pos + 1;
      }
    }

    /** `peek_char`: the next byte without consuming it. */
    method PeekChar() returns (r: Result<char, Error>)
      requires Valid()
      ensures pos < |input| ==> r == Ok(input[pos])
      ensures pos == |input| ==> r == Err(UnexpectedEof)
    {
      if pos == |input| {
        r := Err(UnexpectedEof);
      } else {
        r := Ok(input[pos]);
      }
    }

    /** `next_nonwhitespace_char`: consume bytes up to and including the first non-whitespace one. */
    method NextNonwhitespaceChar() returns (r: Result<char, Error>)
      requires Valid()
      modifies this`pos
      ensures Valid()
      ensures var p := SkipWhitespace(input, old(pos));
        if p < |input| then r == Ok(input[p]) && pos == p + 1
        else r == Err(UnexpectedEof) && pos == |input|
    {
      while true
        invariant Valid() && old(pos) <= pos
        invariant SkipWhitespace(input, old(pos)) == SkipWhitespace(input, pos)
        decreases |input| - pos
      {
        r := NextChar();
        if r.Err? || !IsWhitespace(r.value) {
          return;
        }
      }
    }

    /**
     * `fill_buffer_until`: move bytes into the token buffer while the peeked byte
     * satisfies `cond`; the first byte that does not is left unconsumed.
     */
    method FillBufferUntil(cond: char -> bool) returns (r: Result<(), Error>)
      requires Valid()
      modifies this`pos, this`tokenBuf
      ensures Valid()
      ensures pos == RunEnd(input, old(pos), cond)
      ensures tokenBuf == old(tokenBuf) + input[old(pos)..pos]
      ensures r == if pos == |input| then Err(UnexpectedEof) else Ok(())
    {
      ghost var e := RunEnd(input, pos, cond);
      while true
        invariant Valid() && old(pos) <= pos <= e
        invariant e == RunEnd(input, pos, cond)
        invariant tokenBuf == old(tokenBuf) + input[old(pos)..pos]
        decreases |input| - pos
      {
        var peeked := PeekChar();
        if peeked.Err? {
          return Err(UnexpectedEof);
        }
        if !cond(peeked.value) {
          return Ok(());
        }
        BufferGrows(old(tokenBuf), input, old(pos), pos);
        var _ := NextChar();
        tokenBuf := tokenBuf + [peeked.value];
      }
    }

    /** `next_token`: the next token, or an error. */
    method NextToken() returns (r: Result<Token, Error>)
      requires Valid()
      modifies this`pos, this`tokenBuf
      ensures Valid()
      ensures var sc := Scan(input, old(pos));
        r == sc.result && pos == sc.next &&
        tokenBuf == (if sc.lexeme.Some? then sc.lexeme.value else old(tokenBuf))
    {
      var first := NextNonwhitespaceChar();
      if first.Err? {
        return Err(first.error);
      }
      ghost var p := pos - 1;
      assert input[p] == first.value && Scan(input, old(pos)) == ScanAt(input, p);
      r := NextFrom(first.value, p);
    }

    /** The rest of `next_token` once its first byte `ch`, at `p`, has been consumed. */
    method NextFrom(ch: char, ghost p: nat) returns (r: Result<Token, Error>)
      requires Valid() && p + 1 == pos && input[p] == ch
      modifies this`pos, this`tokenBuf
      ensures Valid()
      ensures var sc := ScanAt(input, p);
        r == sc.result && pos == sc.next &&
        tokenBuf == (if sc.lexeme.Some? then sc.lexeme.value else old(tokenBuf))
    {
      if MayBeTwoChars(ch) {
        var next := PeekChar();
        if next.Err? {
          return Err(next.error);
        }
        var two := FromTwoChars(ch, next.value);
        if two.Some? {
          var _ := NextChar();
          return Ok(two.value);
        }
      }
      var single := FromChar(ch);
      if single.Some? {
        return Ok(single.value);
      }
      assert ScanAt(input, p) == ScanBuffered(input, p);
      r := NextBuffered(ch, p);
    }

    /** The buffered part of `next_token`, from the byte `ch` at `p` that no operator rule took. */
    method NextBuffered(ch: char, ghost p: nat) returns (r: Result<Token, Error>)
      requires Valid() && p + 1 == pos && input[p] == ch
      modifies this`pos, this`tokenBuf
      ensures Valid()
      ensures var sc := ScanBuffered(input, p);
        r == sc.result && pos == sc.next && tokenBuf == sc.lexeme.value
    {
      tokenBuf := [ch];
      assert tokenBuf == input[p..pos];
      if IsIdentifierChar(ch) {
        var filled := FillBufferUntil(IsIdentifierChar);
        assert input[p..pos] == input[p..p + 1] + input[p + 1..pos];
        if filled.Err? {
          return Err(filled.error);
        }
      } else if IsDigit(ch) {
        var filled := FillBufferUntil(IsDigit);
        assert input[p..pos] == input[p..p + 1] + input[p + 1..pos];
        if filled.Err? {
          return Err(filled.error);
        }
      }
      r := Resolve(tokenBuf);
    }

    /** `Iterator::next`: the next token or error, or `None` once the input is used up. */
    method Next() returns (r: Option<Result<Token, Error>>)
      requires Valid()
      modifies this`pos, this`tokenBuf
      ensures Valid()
      ensures var sc := Scan(input, old(pos));
        pos == sc.next &&
        r == (if sc.result == Err(UnexpectedEof) then None else Some(sc.result)) &&
        tokenBuf == (if sc.lexeme.Some? then sc.lexeme.value else old(tokenBuf))
    {
      var tok := NextToken();
      if tok == Err(UnexpectedEof) {
        r := None;
      } else {
        r := Some(tok);
      }
    }
  }
}
