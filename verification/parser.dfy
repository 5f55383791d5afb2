/**
 * The recursive-descent parser of `src/parser/mod.rs`. It runs over a borrowed
 * token sequence with a forward cursor; `Peekable::peek` reads the token under
 * the cursor and `next` reads it and moves the cursor on.
 */
module Parsing {
  import Outcomes
  import opened Tokens
  import Ast

  /** The errors the parser constructs. */
  datatype Error = Eof | ExpectedToken(expected: Token, got: Token)

  /**
   * A parse result. `Panic` is the `unreachable!()` in `parse_expression`,
   * reached when a statement starts with a token that has no prefix form.
   */
  datatype Outcome<+T> = Ok(value: T) | Err(error: Error) | Panic

  /** An outcome together with the cursor position it leaves behind. */
  datatype Step<+T> = Step(outcome: Outcome<T>, next: nat)

  /** `expect_token` at `pos`: consume the token if its variant matches `expected`, payload ignored. */
  function ExpectAt(toks: seq<Token>, pos: nat, expected: Token): (r: Step<Token>)
    requires pos <= |toks|
    ensures !r.outcome.Panic?
    ensures pos == |toks| ==> r == Step(Err(Eof), pos)
    ensures r.outcome.Ok? ==> pos < |toks| && r.outcome.value == toks[pos] && r.next == pos + 1
    ensures r.outcome.Ok? ==> Discriminant(r.outcome.value) == Discriminant(expected)
    ensures r.outcome.Err? ==> r.next == pos
  {
    if pos == |toks| then Step(Err(Eof), pos)
    else if Discriminant(toks[pos]) != Discriminant(expected) then Step(Err(ExpectedToken(expected, toks[pos])), pos)
    else Step(Ok(toks[pos]), pos + 1)
  }

  /** The position just past the first `Semicolon` at or after `pos`, if there is one. */
  function SemicolonAfter(toks: seq<Token>, pos: nat): (r: Outcomes.Option<nat>)
    requires pos <= |toks|
    ensures r.Some? ==> pos < r.value <= |toks| && toks[r.value - 1] == Semicolon
    ensures r.Some? ==> forall i :: pos <= i < r.value - 1 ==> toks[i] != Semicolon
    ensures r.None? ==> forall i :: pos <= i < |toks| ==> toks[i] != Semicolon
    decreases |toks| - pos
  {
    if pos == |toks| then Outcomes.None
    else if toks[pos] == Semicolon then Outcomes.Some(pos + 1)
    else SemicolonAfter(toks, pos + 1)
  }

  /** The skip loop of `parse_let` and `parse_return`: consume tokens through the next `Semicolon`. */
  function SkipThroughSemicolon(toks: seq<Token>, pos: nat): (r: Step<()>)
    requires pos <= |toks|
    ensures pos <= r.next <= |toks| && !r.outcome.Panic?
  {
    match SemicolonAfter(toks, pos)
    case None => Step(Err(Eof), |toks|)
    case Some(e) => Step(Ok(()), e)
  }

  /** `parse_let`, after `Let` has been consumed. */
  function LetAt(toks: seq<Token>, pos: nat): (r: Step<Ast.Statement>)
    requires pos <= |toks|
    ensures pos <= r.next <= |toks| && !r.outcome.Panic?
    ensures r.outcome.Ok? ==> pos + 3 <= r.next
  {
    var id := ExpectAt(toks, pos, Identifier([]));
    if !id.outcome.Ok? then Step(Err(id.outcome.error), id.next)
    else
      var assign := ExpectAt(toks, id.next, Assign);
      if !assign.outcome.Ok? then Step(Err(assign.outcome.error), assign.next)
      else
        var skip := SkipThroughSemicolon(toks, assign.next);
        if !skip.outcome.Ok? then Step(Err(skip.outcome.error), skip.next)
        else Step(Ok(Ast.Let(id.outcome.value.name, Ast.None)), skip.next)
  }

  /** `parse_return`, after `Return` has been consumed. */
  function ReturnAt(toks: seq<Token>, pos: nat): (r: Step<Ast.Statement>)
    requires pos <= |toks|
    ensures pos <= r.next <= |toks| && !r.outcome.Panic?
    ensures r.outcome.Ok? ==> pos < r.next
  {
    var skip := SkipThroughSemicolon(toks, pos);
    if !skip.outcome.Ok? then Step(Err(skip.outcome.error), skip.next)
    else Step(Ok(Ast.Return(Ast.None)), skip.next)
  }

  /** `parse_prefix`: the only prefix forms are an identifier and an integer literal. */
  function ParsePrefix(tok: Token): (r: Outcomes.Option<Ast.Expression>)
    ensures r.Some? <==> tok.Identifier? || tok.Integer?
    ensures tok.Identifier? ==> r == Outcomes.Some(Ast.Identifier(tok.name))
    ensures tok.Integer? ==> r == Outcomes.Some(Ast.Integer(tok.value))
  {
    match tok
    case Identifier(s) => Outcomes.Some(Ast.Identifier(s))
    case Integer(n) => Outcomes.Some(Ast.Integer(n))
    case _ => Outcomes.None
  }

  /** `parse_expression_statement` on the already consumed first token `tok`: an optional `Semicolon` follows. */
  function ExpressionStatementAt(toks: seq<Token>, pos: nat, tok: Token): (r: Step<Ast.Statement>)
    requires pos <= |toks|
    ensures pos <= r.next <= pos + 1 && r.next <= |toks|
  {
    match ParsePrefix(tok)
    case None => Step(Panic, pos)
    case Some(e) => Step(Ok(Ast.ExpressionStatement(e)), ExpectAt(toks, pos, Semicolon).next)
  }

  /** `parse_next_statement` at `pos`: nothing once the tokens are used up, else one statement attempt. */
  function StatementAt(toks: seq<Token>, pos: nat): (r: Outcomes.Option<Step<Ast.Statement>>)
    requires pos <= |toks|
    ensures r.None? <==> pos == |toks|
    ensures r.Some? ==> pos < r.value.next <= |toks|
  {
    if pos == |toks| then Outcomes.None
    else
      var tok := toks[pos];
      Outcomes.Some(
        if tok == Let then LetAt(toks, pos + 1)
        else if tok == Return then ReturnAt(toks, pos + 1)
        else ExpressionStatementAt(toks, pos + 1, tok))
  }

  /** `parse` from `pos`: the statements in order, or the first failure. */
  function ProgramFrom(toks: seq<Token>, pos: nat): (r: Outcome<seq<Ast.Statement>>)
    requires pos <= |toks|
    ensures r.Ok? ==> |r.value| <= |toks| - pos
    decreases |toks| - pos
  {
    match StatementAt(toks, pos)
    case None => Ok([])
    case Some(st) =>
      match st.outcome
      case Ok(s) => Prepend([s], ProgramFrom(toks, st.next))
      case Err(e) => Err(e)
      case Panic => Panic
  }

  /**
   * Where the cursor stands when `parse` returns from `pos`: the end of the
   * tokens after a success, otherwise just past the tokens the failing
   * statement read.
   */
  function ProgramEnd(toks: seq<Token>, pos: nat): (e: nat)
    requires pos <= |toks|
    ensures pos <= e <= |toks|
    ensures ProgramFrom(toks, pos).Ok? ==> e == |toks|
    ensures !ProgramFrom(toks, pos).Ok? ==> pos < e
    decreases |toks| - pos
  {
    match StatementAt(toks, pos)
    case None => pos
    case Some(st) => if st.outcome.Ok? then ProgramEnd(toks, st.next) else st.next
  }

  /** Statements already parsed, in front of the outcome of parsing the rest. */
  function Prepend(done: seq<Ast.Statement>, rest: Outcome<seq<Ast.Statement>>): (r: Outcome<seq<Ast.Statement>>)
    ensures r.Ok? <==> rest.Ok?
    ensures r.Ok? ==> r.value == done + rest.value
    ensures !r.Ok? ==> r == rest
  {
    match rest
    case Ok(sts) => Ok(done + sts)
    case Err(e) => Err(e)
    case Panic => Panic
  }

  lemma PrependNothing(rest: Outcome<seq<Ast.Statement>>)
    ensures Prepend([], rest) == rest
  {
    if rest.Ok? {
      assert [] + rest.value == rest.value;
    }
  }

  lemma PrependTwice(a: seq<Ast.Statement>, b: seq<Ast.Statement>, rest: Outcome<seq<Ast.Statement>>)
    ensures Prepend(a, Prepend(b, rest)) == Prepend(a + b, rest)
  {
    if rest.Ok? {
      assert a + (b + rest.value) == (a + b) + rest.value;
    }
  }

  class Parser {
    /** The borrowed token sequence. */
    const tokens: seq<Token>
    /** How many tokens have been consumed. */
    var cursor: nat

    ghost predicate Valid()
      reads this
    {
      cursor <= |tokens|
    }

    /** `Parser::new`. */
    constructor (tokens: seq<Token>)
      ensures Valid() && this.tokens == tokens && cursor == 0
    {
      this.tokens := tokens;
      cursor := 0;
    }

    /** `parse`: statements are appended in order; the first failure discards the partial tree. */
    method Parse() returns (r: Outcome<Ast.AST>)
      requires Valid()
      modifies this
      ensures Valid()
      ensures old(cursor) <= cursor <= |tokens|
      ensures cursor == ProgramEnd(tokens, old(cursor))
      ensures r.Ok? ==> fresh(r.value) && cursor == |tokens|
      ensures var spec := ProgramFrom(tokens, old(cursor));
        (r.Ok? <==> spec.Ok?) && (r.Ok? ==> r.value.statements == spec.value) &&
        (r.Err? <==> spec.Err?) && (r.Err? ==> r.error == spec.error)
    {
      var tree := new Ast.AST.Default();
      ghost var start := cursor;
      PrependNothing(ProgramFrom(tokens, cursor));
      while true
        invariant Valid() && fresh(tree) && start <= cursor
        invariant Prepend(tree.statements, ProgramFrom(tokens, cursor)) == ProgramFrom(tokens, start)
        invariant ProgramEnd(tokens, cursor) == ProgramEnd(tokens, start)
        decreases |tokens| - cursor
      {
        ghost var before := cursor;
        var st := ParseNextStatement();
        if st.None? {
          assert ProgramFrom(tokens, before) == Ok([]);
          return Ok(tree);
        }
        match st.value
        case Ok(s) =>
          PrependTwice(tree.statements, [s], ProgramFrom(tokens, cursor));
          tree.Push(s);
        case Err(e) =>
          return Err(e);
        case Panic =>
          return Panic;
      }
    }

    /** `parse_next_statement`: dispatch on the consumed first token. */
    method ParseNextStatement() returns (r: Outcomes.Option<Outcome<Ast.Statement>>)
      requires Valid()
      modifies this`cursor
      ensures Valid()
      ensures var spec := StatementAt(tokens, old(cursor));
        (spec.None? ==> r.None? && cursor == old(cursor)) &&
        (spec.Some? ==> r == Outcomes.Some(spec.value.outcome) && cursor == spec.value.next)
    {
      if cursor == |tokens| {
        return Outcomes.None;
      }
      var tok := tokens[cursor];
      cursor := cursor + 1;
      var st;
      if tok == Let {
        st := ParseLet();
      } else if tok == Return {
        st := ParseReturn();
      } else {
        st := ParseExpressionStatement(tok);
      }
      r := Outcomes.Some(st);
    }

    /** `parse_let`: an identifier, `Assign`, then everything through the next `Semicolon`. */
    method ParseLet() returns (r: Outcome<Ast.Statement>)
      requires Valid()
      modifies this`cursor
      ensures Valid()
      ensures var spec := LetAt(tokens, old(cursor)); r == spec.outcome && cursor == spec.next
    {
      var id := ExpectToken(Identifier([]));
      if !id.Ok? {
        return Err(id.error);
      }
      var identifier := id.value.name;
      var assign := ExpectToken(Assign);
      if !assign.Ok? {
        return Err(assign.error);
      }
      var skipped := SkipPastSemicolon();
      if !skipped.Ok? {
        return Err(skipped.error);
      }
      r := Ok(Ast.Let(identifier, Ast.None));
    }

    /** `parse_return`: everything through the next `Semicolon`. */
    method ParseReturn() returns (r: Outcome<Ast.Statement>)
      requires Valid()
      modifies this`cursor
      ensures Valid()
      ensures var spec := ReturnAt(tokens, old(cursor)); r == spec.outcome && cursor == spec.next
    {
      var skipped := SkipPastSemicolon();
      if !skipped.Ok? {
        return Err(skipped.error);
      }
      r := Ok(Ast.Return(Ast.None));
    }

    /** The loop `while self.tokens.next().ok_or(Error::EOF)? != &Token::Semicolon {}`. */
    method SkipPastSemicolon() returns (r: Outcome<()>)
      requires Valid()
      modifies this`cursor
      ensures Valid()
      ensures var spec := SkipThroughSemicolon(tokens, old(cursor)); r == spec.outcome && cursor == spec.next
    {
      while true
        invariant Valid() && old(cursor) <= cursor
        invariant SemicolonAfter(tokens, old(cursor)) == SemicolonAfter(tokens, cursor)
        decreases |tokens| - cursor
      {
        if cursor == |tokens| {
          return Err(Eof);
        }
        var tok := tokens[cursor];
        cursor := cursor + 1;
        if tok == Semicolon {
          return Ok(());
        }
      }
    }

    /** `parse_expression_statement`: the expression, then an optional `Semicolon`. */
    method ParseExpressionStatement(tok: Token) returns (r: Outcome<Ast.Statement>)
      requires Valid()
      modifies this`cursor
      ensures Valid()
      ensures var spec := ExpressionStatementAt(tokens, old(cursor), tok);
        r == spec.outcome && cursor == spec.next
    {
      var exp := ParseExpression(tok, Ast.Lowest);
      if exp.Panic? {
        return Panic;
      }
      var _ := ExpectToken(Semicolon);
      r := Ok(Ast.ExpressionStatement(exp.value));
    }

    /** `parse_expression`: a prefix form, or `unreachable!()`; the priority is not used. */
    method ParseExpression(tok: Token, priority: Ast.Priority) returns (r: Outcome<Ast.Expression>)
      ensures r.Ok? <==> tok.Identifier? || tok.Integer?
      ensures tok.Identifier? ==> r == Ok(Ast.Identifier(tok.name))
      ensures tok.Integer? ==> r == Ok(Ast.Integer(tok.value))
      ensures !r.Ok? ==> r.Panic?
    {
      var prefix := ParsePrefix(tok);
      if prefix.Some? {
        return Ok(prefix.value);
      }
      r := Panic;
    }

    /** `expect_token`: consume the next token if its variant matches `expected`. */
    method ExpectToken(expected: Token) returns (r: Outcome<Token>)
      requires Valid()
      modifies this`cursor
      ensures Valid()
      ensures var spec := ExpectAt(tokens, old(cursor), expected); r == spec.outcome && cursor == spec.next
    {
      if cursor == |tokens| {
        return Err(Eof);
      }
      var tok := tokens[cursor];
      if Discriminant(tok) != Discriminant(expected) {
        return Err(ExpectedToken(expected, tok));
      }
      cursor := cursor + 1;
      r := Ok(tok);
    }
  }
}
