/**
 * The lexer's error enum. `UnexpectedEof` stands for the `IO` variant carrying an
 * `io::ErrorKind::UnexpectedEof`, the only I/O error a finite input produces;
 * `TokenError` is the `Token(String)` variant carrying the offending lexeme.
 */
module LexerErrors {

  datatype Error = UnexpectedEof | TokenError(text: string)
}
