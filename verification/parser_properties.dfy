/** What the parser promises about the statements it builds and the errors it reports. */
module ParsingProperties {
  import Outcomes
  import opened Tokens
  import Ast
  import opened Parsing

  /** `expect_token` accepts a token exactly when its variant is the expected one, whatever the payloads. */
  lemma ExpectComparesVariantOnly(toks: seq<Token>, pos: nat, expected: Token)
    requires pos < |toks|
    ensures ExpectAt(toks, pos, expected).outcome.Ok? <==>
      (toks[pos] == expected || (toks[pos].Identifier? && expected.Identifier?) ||
       (toks[pos].Integer? && expected.Integer?))
    ensures !ExpectAt(toks, pos, expected).outcome.Ok? ==>
      ExpectAt(toks, pos, expected) == Step(Err(ExpectedToken(expected, toks[pos])), pos)
  {
    DiscriminantIgnoresOnlyPayload(toks[pos], expected);
  }

  /** Parsing an empty token sequence gives a tree with no statements. */
  lemma EmptyProgram(toks: seq<Token>)
    requires toks == []
    ensures ProgramFrom(toks, 0) == Ok([])
  {
  }

  /**
   * `let x = ... ;`: after `Let`, an identifier and `Assign`, every token up to
   * and including the first `Semicolon` is consumed and the statement binds `x`
   * to the placeholder expression.
   */
  lemma LetStatement(toks: seq<Token>, pos: nat, x: string, k: nat)
    requires pos + 3 <= k < |toks|
    requires toks[pos] == Let && toks[pos + 1] == Identifier(x) && toks[pos + 2] == Assign
    requires toks[k] == Semicolon && forall i :: pos + 3 <= i < k ==> toks[i] != Semicolon
    ensures StatementAt(toks, pos) == Outcomes.Some(Step(Ok(Ast.Let(x, Ast.None)), k + 1))
  {
    assert SemicolonAfter(toks, pos + 3) == Outcomes.Some(k + 1);
  }

  /** `let` must be followed by an identifier; anything else is reported and left unconsumed. */
  lemma LetNeedsIdentifier(toks: seq<Token>, pos: nat)
    requires pos + 1 < |toks| && toks[pos] == Let && !toks[pos + 1].Identifier?
    ensures StatementAt(toks, pos) ==
      Outcomes.Some(Step(Err(ExpectedToken(Identifier([]), toks[pos + 1])), pos + 1))
  {
  }

  /** The identifier must be followed by `Assign`; anything else is reported and left unconsumed. */
  lemma LetNeedsAssign(toks: seq<Token>, pos: nat)
    requires pos + 2 < |toks| && toks[pos] == Let && toks[pos + 1].Identifier? && toks[pos + 2] != Assign
    ensures StatementAt(toks, pos) == Outcomes.Some(Step(Err(ExpectedToken(Assign, toks[pos + 2])), pos + 2))
  {
  }

  /** `let` as the last token: `expect_token` finds nothing and reports `Eof`. */
  lemma LetAtEndIsEof(toks: seq<Token>, pos: nat)
    requires pos + 1 == |toks| && toks[pos] == Let
    ensures StatementAt(toks, pos) == Outcomes.Some(Step(Err(Eof), pos + 1))
    ensures ProgramFrom(toks, pos) == Err(Eof)
  {
  }

  /** `let x` as the last two tokens: the `Assign` is missing and `Eof` is reported. */
  lemma LetNameAtEndIsEof(toks: seq<Token>, pos: nat)
    requires pos + 2 == |toks| && toks[pos] == Let && toks[pos + 1].Identifier?
    ensures StatementAt(toks, pos) == Outcomes.Some(Step(Err(Eof), pos + 2))
    ensures ProgramFrom(toks, pos) == Err(Eof)
  {
  }

  /** `return ... ;` consumes every token through the first `Semicolon` and returns the placeholder. */
  lemma ReturnStatement(toks: seq<Token>, pos: nat, k: nat)
    requires pos + 1 <= k < |toks|
    requires toks[pos] == Return
    requires toks[k] == Semicolon && forall i :: pos + 1 <= i < k ==> toks[i] != Semicolon
    ensures StatementAt(toks, pos) == Outcomes.Some(Step(Ok(Ast.Return(Ast.None)), k + 1))
  {
    assert SemicolonAfter(toks, pos + 1) == Outcomes.Some(k + 1);
  }

  /** A `let` or `return` whose `Semicolon` never comes fails with `Eof`. */
  lemma MissingSemicolonIsEof(toks: seq<Token>, pos: nat)
    requires pos < |toks| && forall i :: pos <= i < |toks| ==> toks[i] != Semicolon
    requires toks[pos] == Return ||
      (pos + 2 < |toks| && toks[pos] == Let && toks[pos + 1].Identifier? && toks[pos + 2] == Assign)
    ensures StatementAt(toks, pos) == Outcomes.Some(Step(Err(Eof), |toks|))
  {
    if toks[pos] == Return {
      assert SemicolonAfter(toks, pos + 1).None?;
    } else {
      assert SemicolonAfter(toks, pos + 3).None?;
    }
  }

  /**
   * An identifier or integer literal is an expression statement; one `Semicolon`
   * after it is consumed when present and its absence is no error.
   */
  lemma ExpressionStatement(toks: seq<Token>, pos: nat)
    requires pos < |toks| && (toks[pos].Identifier? || toks[pos].Integer?)
    ensures StatementAt(toks, pos) == Outcomes.Some(Step(
      Ok(Ast.ExpressionStatement(if toks[pos].Identifier? then Ast.Identifier(toks[pos].name) else Ast.Integer(toks[pos].value))),
      if pos + 1 < |toks| && toks[pos + 1] == Semicolon then pos + 2 else pos + 1))
  {
  }

  /** Any other first token has no prefix form and reaches `unreachable!()`. */
  lemma NoPrefixPanics(toks: seq<Token>, pos: nat)
    requires pos < |toks|
    requires !(toks[pos] == Let || toks[pos] == Return || toks[pos].Identifier? || toks[pos].Integer?)
    ensures StatementAt(toks, pos).value.outcome == Panic
    ensures ProgramFrom(toks, pos) == Panic
  {
  }

  /** A statement the parser can produce, with the placeholder where it does not capture an expression. */
  predicate Renderable(st: Ast.Statement) {
    match st
    case Let(_, e) => e == Ast.None
    case Return(e) => e == Ast.None
    case ExpressionStatement(e) => e.Identifier? || e.Integer?
  }

  /** The shortest token sequence for a statement. */
  function Render(st: Ast.Statement): (toks: seq<Token>)
    requires Renderable(st)
    ensures 2 <= |toks| && toks[|toks| - 1] == Semicolon
  {
    match st
    case Let(x, _) => [Let, Identifier(x), Assign, Semicolon]
    case Return(_) => [Return, Semicolon]
    case ExpressionStatement(e) =>
      (if e.Identifier? then [Identifier(e.name)] else [Integer(e.value)]) + [Semicolon]
  }

  /** Every statement of the list is renderable. */
  predicate AllRenderable(sts: seq<Ast.Statement>) {
    sts == [] || (Renderable(sts[0]) && AllRenderable(sts[1..]))
  }

  function RenderAll(sts: seq<Ast.Statement>): seq<Token>
    requires AllRenderable(sts)
  {
    if sts == [] then [] else Render(sts[0]) + RenderAll(sts[1..])
  }

  /** The tokens of one rendered statement, wherever they stand, parse back to that statement. */
  lemma RenderedStatement(toks: seq<Token>, pos: nat, st: Ast.Statement)
    requires Renderable(st)
    requires pos + |Render(st)| <= |toks| && toks[pos..pos + |Render(st)|] == Render(st)
    ensures StatementAt(toks, pos) == Outcomes.Some(Step(Ok(st), pos + |Render(st)|))
  {
    var r := Render(st);
    assert toks[pos] == r[0] && toks[pos + 1] == r[1];
    match st
    case Let(x, _) =>
      assert toks[pos + 2] == r[2] && toks[pos + 3] == r[3];
      LetStatement(toks, pos, x, pos + 3);
    case Return(_) =>
      ReturnStatement(toks, pos, pos + 1);
    case ExpressionStatement(e) =>
      ExpressionStatement(toks, pos);
  }

  /**
   * Parsing the rendering of a statement list, wherever it stands at the end
   * of the input, gives back exactly that list, in order.
   */
  lemma {:induction false} RenderThenParse(toks: seq<Token>, pos: nat, sts: seq<Ast.Statement>)
    requires AllRenderable(sts)
    requires pos <= |toks| && toks[pos..] == RenderAll(sts)
    ensures ProgramFrom(toks, pos) == Ok(sts)
    decreases |sts|
  {
    if sts != [] {
      var r := Render(sts[0]);
      RenderAllSplit(toks, pos, sts);
      RenderedStatement(toks, pos, sts[0]);
      RenderThenParse(toks, pos + |r|, sts[1..]);
      ProgramStep(toks, pos, sts[0], pos + |r|, sts[1..]);
      ConsTail(sts);
    }
  }

  /** A parsed statement followed by the statements of the rest of the input. */
  lemma ProgramStep(toks: seq<Token>, pos: nat, st: Ast.Statement, next: nat, sts: seq<Ast.Statement>)
    requires pos <= next <= |toks|
    requires StatementAt(toks, pos) == Outcomes.Some(Step(Ok(st), next))
    requires ProgramFrom(toks, next) == Ok(sts)
    ensures ProgramFrom(toks, pos) == Ok([st] + sts)
  {
  }

  /** The rendering of a non-empty list: the first statement's tokens, then the rest's. */
  lemma RenderAllSplit(toks: seq<Token>, pos: nat, sts: seq<Ast.Statement>)
    requires sts != [] && AllRenderable(sts)
    requires pos <= |toks| && toks[pos..] == RenderAll(sts)
    ensures Renderable(sts[0]) && AllRenderable(sts[1..])
    ensures var n := |Render(sts[0])|;
      pos + n <= |toks| && toks[pos..pos + n] == Render(sts[0]) && toks[pos + n..] == RenderAll(sts[1..])
  {
    assert RenderAll(sts) == Render(sts[0]) + RenderAll(sts[1..]);
    SliceSplit(toks, pos, Render(sts[0]), RenderAll(sts[1..]));
  }

  lemma SliceSplit<T>(s: seq<T>, pos: nat, a: seq<T>, b: seq<T>)
    requires pos <= |s| && s[pos..] == a + b
    ensures pos + |a| <= |s| && s[pos..pos + |a|] == a && s[pos + |a|..] == b
  {
    assert s[pos..pos + |a|] == (a + b)[..|a|];
    assert s[pos + |a|..] == (a + b)[|a|..];
  }

  lemma ConsTail<T>(s: seq<T>)
    requires |s| > 0
    ensures [s[0]] + s[1..] == s
  {
  }

  /** The `let` statement of the parser's test. */
  lemma LetExample(toks: seq<Token>)
    requires toks == [Let, Identifier("x"), Assign, Integer(5), Semicolon]
    ensures ProgramFrom(toks, 0) == Ok([Ast.Let("x", Ast.None)])
  {
    var st := Ast.Let("x", Ast.None);
    LetStatement(toks, 0, "x", 4);
    assert ProgramFrom(toks, 5) == Ok([]);
    ProgramStep(toks, 0, st, 5, []);
    assert [st] + [] == [st];
  }

  /** `5;` and `5` parse alike: the trailing semicolon is optional. */
  lemma TrailingSemicolonExample(withSemicolon: seq<Token>, without: seq<Token>)
    requires withSemicolon == [Integer(5), Semicolon] && without == [Integer(5)]
    ensures ProgramFrom(withSemicolon, 0) == ProgramFrom(without, 0) == Ok([Ast.ExpressionStatement(Ast.Integer(5))])
  {
    var st := Ast.ExpressionStatement(Ast.Integer(5));
    ExpressionStatement(withSemicolon, 0);
    assert ProgramFrom(withSemicolon, 2) == Ok([]);
    ExpressionStatement(without, 0);
    assert ProgramFrom(without, 1) == Ok([]);
    assert [st] + [] == [st];
  }

  /** `let x true 5;` fails: `Assign` was expected where `True` stands. */
  lemma MissingAssignExample(toks: seq<Token>)
    requires toks == [Let, Identifier("x"), True, Integer(5), Semicolon]
    ensures ProgramFrom(toks, 0) == Err(ExpectedToken(Assign, True))
  {
    LetNeedsAssign(toks, 0);
  }
}
