/**
  The recursive-descent parser with precedence climbing, as functions from the
  remaining tokens to a tree and the tokens left.
 */
module ScriptParser {
  import opened Options
  import opened Script

  datatype Parsed<T> = Ok(value: T, rest: seq<Token>) | Err

  function Peek(ts: seq<Token>): Token {
    if ts == [] then TEof else ts[0]
  }

  /** Consumes one token, which must be `t`. */
  function Expect(ts: seq<Token>, t: Token): (r: Parsed<()>)
    ensures r.Ok? ==> |r.rest| < |ts|
  {
    if ts != [] && ts[0] == t then Ok((), ts[1..]) else Err
  }

  /** Consumes one token, which must be an identifier. */
  function Identifier(ts: seq<Token>): (r: Parsed<string>)
    ensures r.Ok? ==> |r.rest| < |ts|
  {
    if ts != [] && ts[0].TIdent? then Ok(ts[0].text, ts[1..]) else Err
  }

  /** What was parsed, followed by a closing token. */
  function Close<T>(r: Parsed<T>, t: Token): (c: Parsed<T>)
    ensures c.Ok? ==> r.Ok? && |c.rest| < |r.rest|
  {
    if r.Err? || Expect(r.rest, t).Err? then Err else Ok(r.value, Expect(r.rest, t).rest)
  }

  // ---- expressions ----

  function Expression(ts: seq<Token>): (r: Parsed<Expr>)
    ensures r.Ok? ==> |r.rest| < |ts|
    decreases |ts|, 9
  {
    ParseBinary(1, ts)
  }

  function ParseBinary(minPrec: nat, ts: seq<Token>): (r: Parsed<Expr>)
    ensures r.Ok? ==> |r.rest| < |ts|
    decreases |ts|, 8
  {
    var l := ParseUnary(ts);
    if l.Err? then Err else BinaryLoop(l.value, minPrec, l.rest)
  }

  function BinaryLoop(left: Expr, minPrec: nat, ts: seq<Token>): (r: Parsed<Expr>)
    ensures r.Ok? ==> |r.rest| <= |ts|
    decreases |ts|, 7
  {
    if !Peek(ts).TOp? || Precedence(Peek(ts).op) < minPrec then Ok(left, ts)
    else
      var op := Peek(ts).op;
      var right := ParseBinary(Precedence(op) + 1, ts[1..]);
      if right.Err? then Err else BinaryLoop(Binary(op, left, right.value), minPrec, right.rest)
  }

  function ParseUnary(ts: seq<Token>): (r: Parsed<Expr>)
    ensures r.Ok? ==> |r.rest| < |ts|
    decreases |ts|, 6
  {
    if Peek(ts) == TBang || Peek(ts) == TOp(Sub) then
      var x := ParseUnary(ts[1..]);
      if x.Err? then Err else Ok(Unary(if Peek(ts) == TBang then Not else Negate, x.value), x.rest)
    else ParsePostfix(ts)
  }

  function ParsePostfix(ts: seq<Token>): (r: Parsed<Expr>)
    ensures r.Ok? ==> |r.rest| < |ts|
    decreases |ts|, 5
  {
    var e := ParsePrimary(ts);
    if e.Err? then Err else PostfixLoop(e.value, e.rest)
  }

  function PostfixLoop(e: Expr, ts: seq<Token>): (r: Parsed<Expr>)
    ensures r.Ok? ==> |r.rest| <= |ts|
    decreases |ts|, 4
  {
    if Peek(ts) == TDot || Peek(ts) == TLBracket || Peek(ts) == TLParen then
      var s := ParseSuffix(e, ts);
      if s.Err? then Err else PostfixLoop(s.value, s.rest)
    else if Peek(ts) == TAssign then
      var val := Expression(ts[1..]);
      if val.Err? then Err else Ok(Assign(e, val.value), val.rest)
    else Ok(e, ts)
  }

  /** `.name`, `[index]` or `(arguments)` applied to `e`. */
  function ParseSuffix(e: Expr, ts: seq<Token>): (r: Parsed<Expr>)
    requires Peek(ts) == TDot || Peek(ts) == TLBracket || Peek(ts) == TLParen
    ensures r.Ok? ==> |r.rest| < |ts|
    decreases |ts|, 3
  {
    if Peek(ts) == TDot then
      var name := Identifier(ts[1..]);
      if name.Err? then Err else Ok(Member(e, Str(name.value)), name.rest)
    else if Peek(ts) == TLBracket then
      var idx := Close(Expression(ts[1..]), TRBracket);
      if idx.Err? then Err else Ok(Member(e, idx.value), idx.rest)
    else
      var args := Close(Items(ts[1..], TRParen, []), TRParen);
      if args.Err? then Err else Ok(Call(e, args.value), args.rest)
  }

  /** Comma-separated expressions up to `close`, which stays; a comma before it is tolerated. */
  function Items(ts: seq<Token>, close: Token, done: seq<Expr>): (r: Parsed<seq<Expr>>)
    ensures r.Ok? ==> |r.rest| <= |ts|
    decreases |ts|, 10
  {
    if Peek(ts) == close then Ok(done, ts)
    else
      var e := Expression(ts);
      if e.Err? then Err
      else if Peek(e.rest) == TComma then Items(e.rest[1..], close, done + [e.value])
      else Ok(done + [e.value], e.rest)
  }

  function ParsePrimary(ts: seq<Token>): (r: Parsed<Expr>)
    ensures r.Ok? ==> |r.rest| < |ts|
    decreases |ts|, 3
  {
    if Opens(Peek(ts)) then Enclosed(Peek(ts), ts[1..])
    else match Peek(ts)
    case TNumber(n) => Ok(Num(n), ts[1..])
    case TString(s) => Ok(Str(s), ts[1..])
    case TTrue => Ok(Bool(true), ts[1..])
    case TFalse => Ok(Bool(false), ts[1..])
    case TNull => Ok(Null, ts[1..])
    case TUndefined => Ok(Null, ts[1..])
    case TIdent(name) => Ok(Var(name), ts[1..])
    case _ => Err
  }

  predicate Opens(t: Token) {
    t == TLParen || t == TLBrace || t == TLBracket || t == TFunction
  }

  /** The primaries that enclose others, after their first token. */
  function Enclosed(t: Token, ts: seq<Token>): (r: Parsed<Expr>)
    requires Opens(t)
    ensures r.Ok? ==> |r.rest| < |ts|
    decreases |ts|, 12
  {
    if t == TLParen then Close(Expression(ts), TRParen)
    else if t == TLBrace then ObjectLiteral(ts)
    else if t == TLBracket then ArrayLiteral(ts)
    else FunctionLiteral(ts)
  }

  function ObjectLiteral(ts: seq<Token>): (r: Parsed<Expr>)
    ensures r.Ok? ==> |r.rest| < |ts|
    decreases |ts|, 11
  {
    var fields := Close(Fields(ts, []), TRBrace);
    if fields.Err? then Err else Ok(Object(fields.value), fields.rest)
  }

  function ArrayLiteral(ts: seq<Token>): (r: Parsed<Expr>)
    ensures r.Ok? ==> |r.rest| < |ts|
    decreases |ts|, 11
  {
    var items := Close(Items(ts, TRBracket, []), TRBracket);
    if items.Err? then Err else Ok(Array(items.value), items.rest)
  }

  function FunctionLiteral(ts: seq<Token>): (r: Parsed<Expr>)
    ensures r.Ok? ==> |r.rest| < |ts|
    decreases |ts|, 3
  {
    var f := FunctionBody(ts);
    if f.Err? then Err else Ok(Function(f.value.0, f.value.1), f.rest)
  }

  /** obj[key] = val on the fields read so far. */
  function SetField(fields: seq<(string, Expr)>, key: string, val: Expr): seq<(string, Expr)> {
    if fields == [] then [(key, val)]
    else if fields[0].0 == key then [(key, val)] + fields[1..]
    else [fields[0]] + SetField(fields[1..], key, val)
  }

  function Fields(ts: seq<Token>, done: seq<(string, Expr)>): (r: Parsed<seq<(string, Expr)>>)
    ensures r.Ok? ==> |r.rest| <= |ts|
    decreases |ts|, 10
  {
    if Peek(ts) == TRBrace then Ok(done, ts)
    else if !Peek(ts).TIdent? && !Peek(ts).TString? then Err
    else
      var key := Peek(ts).text;
      var colon := Expect(ts[1..], TColon);
      if colon.Err? then Err
      else
        var val := Expression(colon.rest);
        if val.Err? then Err
        else if Peek(val.rest) == TComma then Fields(val.rest[1..], SetField(done, key, val.value))
        else Ok(SetField(done, key, val.value), val.rest)
  }

  // ---- functions and statements ----

  function Params(ts: seq<Token>, done: seq<string>): (r: Parsed<seq<string>>)
    ensures r.Ok? ==> |r.rest| <= |ts|
    decreases |ts|
  {
    if Peek(ts) == TRParen then Ok(done, ts)
    else
      var p := Identifier(ts);
      if p.Err? then Err
      else if Peek(p.rest) == TComma then Params(p.rest[1..], done + [p.value])
      else Ok(done + [p.value], p.rest)
  }

  /** ( parameters ) { */
  function FunctionHeader(ts: seq<Token>): (r: Parsed<seq<string>>)
    ensures r.Ok? ==> |r.rest| < |ts|
  {
    var open := Expect(ts, TLParen);
    if open.Err? then Err else Close(Close(Params(open.rest, []), TRParen), TLBrace)
  }

  function FunctionBody(ts: seq<Token>): (r: Parsed<(seq<string>, seq<Stmt>)>)
    ensures r.Ok? ==> |r.rest| < |ts|
    decreases |ts|, 2
  {
    var params := FunctionHeader(ts);
    if params.Err? then Err
    else
      var body := Statements(params.rest, []);
      if body.Err? then Err else Ok((params.value, body.value), body.rest)
  }

  /** Statements up to and including the closing brace; empty statements leave nothing. */
  function Statements(ts: seq<Token>, done: seq<Stmt>): (r: Parsed<seq<Stmt>>)
    ensures r.Ok? ==> |r.rest| < |ts|
    decreases |ts|, 12
  {
    if Peek(ts) == TRBrace then Ok(done, ts[1..])
    else if Peek(ts) == TEof then Err
    else
      var st := Statement(ts);
      if st.Err? then Err
      else Statements(st.rest, if st.value.Some? then done + [st.value.value] else done)
  }

  function BlockOrStatement(ts: seq<Token>): (r: Parsed<Option<Stmt>>)
    ensures r.Ok? ==> |r.rest| < |ts|
    decreases |ts|, 12
  {
    if Peek(ts) == TLBrace then
      var body := Statements(ts[1..], []);
      if body.Err? then Err else Ok(Some(Block(body.value)), body.rest)
    else Statement(ts)
  }

  function EatSemi(ts: seq<Token>): (rest: seq<Token>)
    ensures |rest| <= |ts|
  {
    if Peek(ts) == TSemi then ts[1..] else ts
  }

  function Statement(ts: seq<Token>): (r: Parsed<Option<Stmt>>)
    ensures r.Ok? ==> |r.rest| < |ts|
    decreases |ts|, 11
  {
    if Keyword(Peek(ts)) then AfterKeyword(Peek(ts), ts[1..])
    else
      var e := Expression(ts);
      if e.Err? then Err else Ok(Some(ExprStmt(e.value)), EatSemi(e.rest))
  }

  predicate Keyword(t: Token) {
    || t == TSemi || t == TVar || t == TLet || t == TConst || t == TFunction || t == TIf || t == TFor || t == TReturn
  }

  function AfterKeyword(t: Token, ts: seq<Token>): (r: Parsed<Option<Stmt>>)
    requires Keyword(t)
    ensures r.Ok? ==> |r.rest| <= |ts|
    decreases |ts|, 12
  {
    if t == TSemi then Ok(None, ts)
    else if t == TFunction then FunctionDecl(ts)
    else if t == TIf then IfStatement(ts)
    else if t == TFor then ForStatement(ts)
    else if t == TReturn then ReturnStatement(ts)
    else Declaration(ts)
  }

  function FunctionDecl(ts: seq<Token>): (r: Parsed<Option<Stmt>>)
    ensures r.Ok? ==> |r.rest| < |ts|
    decreases |ts|, 3
  {
    var name := Identifier(ts);
    if name.Err? then Err
    else
      var f := FunctionBody(name.rest);
      if f.Err? then Err else Ok(Some(FnDecl(name.value, f.value.0, f.value.1)), f.rest)
  }

  function ReturnStatement(ts: seq<Token>): (r: Parsed<Option<Stmt>>)
    ensures r.Ok? ==> |r.rest| <= |ts|
    decreases |ts|, 10
  {
    if Peek(ts) == TSemi || Peek(ts) == TRBrace || Peek(ts) == TEof then Ok(Some(Return(None)), EatSemi(ts))
    else
      var e := Expression(ts);
      if e.Err? then Err else Ok(Some(Return(Some(e.value))), EatSemi(e.rest))
  }

  function Declaration(ts: seq<Token>): (r: Parsed<Option<Stmt>>)
    ensures r.Ok? ==> |r.rest| < |ts|
    decreases |ts|, 11
  {
    var name := Identifier(ts);
    if name.Err? then Err
    else if Peek(name.rest) == TAssign then
      var e := Expression(name.rest[1..]);
      if e.Err? then Err else EndDeclaration(VarDecl(name.value, Some(e.value)), e.rest)
    else EndDeclaration(VarDecl(name.value, None), name.rest)
  }

  function EndDeclaration(st: Stmt, ts: seq<Token>): (r: Parsed<Option<Stmt>>)
    ensures r.Ok? ==> |r.rest| <= |ts|
  {
    if Peek(ts) == TSemi then Ok(Some(st), ts[1..])
    else if Peek(ts) == TRBrace || Peek(ts) == TEof then Ok(Some(st), ts)
    else Err
  }

  /** ( expression ) */
  function Condition(ts: seq<Token>): (r: Parsed<Expr>)
    ensures r.Ok? ==> |r.rest| < |ts|
    decreases |ts|, 10
  {
    var open := Expect(ts, TLParen);
    if open.Err? then Err else Close(Expression(open.rest), TRParen)
  }

  function IfStatement(ts: seq<Token>): (r: Parsed<Option<Stmt>>)
    ensures r.Ok? ==> |r.rest| < |ts|
    decreases |ts|, 11
  {
    var cond := Condition(ts);
    if cond.Err? then Err
    else
      var yes := BlockOrStatement(cond.rest);
      if yes.Err? then Err
      else
        var no := ElsePart(yes.rest);
        if no.Err? then Err else Ok(Some(If(cond.value, yes.value, no.value)), no.rest)
  }

  function ElsePart(ts: seq<Token>): (r: Parsed<Option<Stmt>>)
    ensures r.Ok? ==> |r.rest| <= |ts|
    decreases |ts|, 10
  {
    if Peek(ts) == TElse then BlockOrStatement(ts[1..]) else Ok(None, ts)
  }

  /** ( [var | let | const] name of */
  function LoopVariable(ts: seq<Token>): (r: Parsed<string>)
    ensures r.Ok? ==> |r.rest| < |ts|
  {
    var open := Expect(ts, TLParen);
    if open.Err? then Err
    else
      var k := Peek(open.rest);
      Close(Identifier(if k == TVar || k == TLet || k == TConst then open.rest[1..] else open.rest), TOf)
  }

  /** ( [var | let | const] name of expression ) */
  function ForHeader(ts: seq<Token>): (r: Parsed<(string, Expr)>)
    ensures r.Ok? ==> |r.rest| < |ts|
    decreases |ts|, 10
  {
    var v := LoopVariable(ts);
    if v.Err? then Err
    else
      var it := Close(Expression(v.rest), TRParen);
      if it.Err? then Err else Ok((v.value, it.value), it.rest)
  }

  function ForStatement(ts: seq<Token>): (r: Parsed<Option<Stmt>>)
    ensures r.Ok? ==> |r.rest| < |ts|
    decreases |ts|, 11
  {
    var h := ForHeader(ts);
    if h.Err? then Err
    else
      var body := OnlyBlock(h.rest);
      if body.Err? then Err else Ok(Some(ForOf(h.value.0, h.value.1, body.value)), body.rest)
  }

  /** A loop body has to be a block. */
  function OnlyBlock(ts: seq<Token>): (r: Parsed<seq<Stmt>>)
    ensures r.Ok? ==> |r.rest| < |ts|
    decreases |ts|, 13
  {
    var body := BlockOrStatement(ts);
    if body.Err? || body.value.None? || !body.value.value.Block? then Err else Ok(body.value.value.stmts, body.rest)
  }

  /** A whole script: statements up to the end of file. */
  function Program(ts: seq<Token>, done: seq<Stmt>): (r: Parsed<seq<Stmt>>)
    decreases |ts|
  {
    if Peek(ts) == TEof then Ok(done, ts)
    else
      var st := Statement(ts);
      if st.Err? then Err else Program(st.rest, if st.value.Some? then done + [st.value.value] else done)
  }
}
