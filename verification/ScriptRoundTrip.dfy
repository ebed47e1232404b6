/**
  Printing with only the parentheses that precedence and left associativity
  require, and the proof that the parser takes exactly the printed tokens back
  to the tree they came from.
 */
module ScriptRoundTrip {
  import opened Script
  import opened ScriptParser

  /** Trees of literals, identifiers, unary, binary, member, index, call and array nodes. */
  predicate Plain(e: Expr) {
    match e
    case Num(_) => true
    case Str(_) => true
    case Bool(_) => true
    case Null => true
    case Var(_) => true
    case Array(items) => forall i :: 0 <= i < |items| ==> Plain(items[i])
    case Member(obj, prop) => Plain(obj) && Plain(prop)
    case Call(fn, args) => Plain(fn) && forall i :: 0 <= i < |args| ==> Plain(args[i])
    case Binary(_, l, r) => Plain(l) && Plain(r)
    case Unary(_, x) => Plain(x)
    case Object(_) => false
    case Assign(_, _) => false
    case Function(_, _) => false
  }

  const UNARY := 7
  const POSTFIX := 8
  const PRIMARY := 9

  /** How tightly the outermost construct of a tree binds. */
  function Level(e: Expr): nat {
    match e
    case Binary(op, _, _) => Precedence(op)
    case Unary(_, _) => UNARY
    case Member(_, _) => POSTFIX
    case Call(_, _) => POSTFIX
    case _ => PRIMARY
  }

  function UnaryToken(op: UnOp): Token {
    if op == Not then TBang else TOp(Sub)
  }

  /** The tokens of a tree; `dot` says which constant property names are written after a dot. */
  function Raw(dot: string -> bool, e: Expr): seq<Token>
    requires Plain(e)
    decreases e, 0
  {
    match e
    case Num(n) => [TNumber(n)]
    case Str(s) => [TString(s)]
    case Bool(b) => [if b then TTrue else TFalse]
    case Null => [TNull]
    case Var(name) => [TIdent(name)]
    case Array(items) => [TLBracket] + Listed(dot, e, items) + [TRBracket]
    case Member(obj, prop) =>
      At(dot, obj, POSTFIX) +
      (if prop.Str? && dot(prop.s) then [TDot, TIdent(prop.s)]
       else [TLBracket] + At(dot, prop, 1) + [TRBracket])
    case Call(fn, args) => At(dot, fn, POSTFIX) + [TLParen] + Listed(dot, e, args) + [TRParen]
    case Binary(op, l, r) => At(dot, l, Precedence(op)) + [TOp(op)] + At(dot, r, Precedence(op) + 1)
    case Unary(uop, x) => [UnaryToken(uop)] + At(dot, x, UNARY)
  }

  /** The tokens of a tree where the context binds as tightly as `level`. */
  function At(dot: string -> bool, e: Expr, level: nat): seq<Token>
    requires Plain(e)
    decreases e, 1
  {
    if Level(e) < level then [TLParen] + Raw(dot, e) + [TRParen] else Raw(dot, e)
  }

  function Listed(dot: string -> bool, parent: Expr, es: seq<Expr>): seq<Token>
    requires forall i :: 0 <= i < |es| ==> Plain(es[i]) && es[i] < parent
    decreases parent, 0, |es|
  {
    if es == [] then []
    else if |es| == 1 then At(dot, es[0], 1)
    else At(dot, es[0], 1) + [TComma] + Listed(dot, parent, es[1..])
  }

  /** The next token would carry on a postfix expression. */
  predicate Continues(ts: seq<Token>) {
    Peek(ts) in {TDot, TLBracket, TLParen, TAssign}
  }

  /** The next token is no operator that binds more tightly than `level`. */
  predicate Weaker(ts: seq<Token>, level: int) {
    Peek(ts).TOp? ==> Precedence(Peek(ts).op) <= level
  }

  // ---- what a printed tree starts with ----

  predicate Opening(t: Token) {
    t.TNumber? || t.TString? || t.TIdent? || t in {TTrue, TFalse, TNull, TLBracket, TLParen}
  }

  lemma {:induction false} StartsRaw(dot: string -> bool, e: Expr)
    requires Plain(e)
    ensures Raw(dot, e) != []
    ensures POSTFIX <= Level(e) ==> Opening(Raw(dot, e)[0])
    ensures Opening(Raw(dot, e)[0]) || Raw(dot, e)[0] in {TBang, TOp(Sub)}
  {
    match e
    case Member(obj, _) => StartsRaw(dot, obj);
    case Call(fn, _) => StartsRaw(dot, fn);
    case Binary(_, l, _) => StartsRaw(dot, l);
    case _ =>
  }

  lemma StartsAt(dot: string -> bool, e: Expr, level: nat)
    requires Plain(e)
    ensures At(dot, e, level) != []
    ensures POSTFIX <= level ==> Opening(At(dot, e, level)[0])
    ensures Opening(At(dot, e, level)[0]) || At(dot, e, level)[0] in {TBang, TOp(Sub)}
  {
    StartsRaw(dot, e);
  }

  // ---- regrouping of concatenations ----

  lemma Regroup2(a: seq<Token>, b: seq<Token>, c: seq<Token>)
    ensures a + b + c == a + (b + c)
  {
  }

  lemma Regroup3(a: seq<Token>, b: seq<Token>, c: seq<Token>, d: seq<Token>)
    ensures a + b + c + d == a + (b + (c + d))
  {
  }

  lemma Regroup4(a: seq<Token>, b: seq<Token>, c: seq<Token>, d: seq<Token>, e: seq<Token>)
    ensures a + b + c + d + e == a + (b + (c + (d + e)))
  {
  }

  // ---- single steps of the parser ----

  lemma TakesDot(e: Expr, name: string, rest: seq<Token>)
    ensures PostfixLoop(e, [TDot, TIdent(name)] + rest) == PostfixLoop(Member(e, Str(name)), rest)
  {
    var ts := [TDot, TIdent(name)] + rest;
    assert ts[1..][1..] == rest;
  }

  lemma TakesIndex(e: Expr, idx: Expr, ts: seq<Token>, rest: seq<Token>)
    requires Expression(ts) == Ok(idx, [TRBracket] + rest)
    ensures PostfixLoop(e, [TLBracket] + ts) == PostfixLoop(Member(e, idx), rest)
  {
    assert ([TLBracket] + ts)[1..] == ts && ([TRBracket] + rest)[1..] == rest;
  }

  lemma TakesArguments(e: Expr, args: seq<Expr>, ts: seq<Token>, rest: seq<Token>)
    requires Items(ts, TRParen, []) == Ok(args, [TRParen] + rest)
    ensures PostfixLoop(e, [TLParen] + ts) == PostfixLoop(Call(e, args), rest)
  {
    assert ([TLParen] + ts)[1..] == ts && ([TRParen] + rest)[1..] == rest;
  }

  lemma TakesParentheses(e: Expr, ts: seq<Token>, rest: seq<Token>)
    requires Expression(ts) == Ok(e, [TRParen] + rest)
    ensures ParsePostfix([TLParen] + ts) == PostfixLoop(e, rest)
  {
    assert ([TLParen] + ts)[1..] == ts && ([TRParen] + rest)[1..] == rest;
    assert Enclosed(TLParen, ts) == Ok(e, rest);
    assert ParsePrimary([TLParen] + ts) == Ok(e, rest);
  }

  lemma TakesArray(items: seq<Expr>, ts: seq<Token>, rest: seq<Token>)
    requires Items(ts, TRBracket, []) == Ok(items, [TRBracket] + rest)
    ensures ParsePostfix([TLBracket] + ts) == PostfixLoop(Array(items), rest)
  {
    assert ([TLBracket] + ts)[1..] == ts && ([TRBracket] + rest)[1..] == rest;
    assert ArrayLiteral(ts) == Ok(Array(items), rest);
    assert Enclosed(TLBracket, ts) == Ok(Array(items), rest);
    assert ParsePrimary([TLBracket] + ts) == Ok(Array(items), rest);
  }

  lemma TakesItem(e: Expr, ts: seq<Token>, close: Token, done: seq<Expr>, more: seq<Token>)
    requires Peek(ts) != close && Expression(ts) == Ok(e, [TComma] + more)
    ensures Items(ts, close, done) == Items(more, close, done + [e])
  {
    assert ([TComma] + more)[1..] == more;
  }

  lemma TakesUnary(op: UnOp, x: Expr, ts: seq<Token>, rest: seq<Token>)
    requires ParseUnary(ts) == Ok(x, rest)
    ensures ParseUnary([UnaryToken(op)] + ts) == Ok(Unary(op, x), rest)
  {
    assert ([UnaryToken(op)] + ts)[1..] == ts;
  }

  lemma TakesLastItem(e: Expr, ts: seq<Token>, close: Token, done: seq<Expr>, rest: seq<Token>)
    requires Peek(ts) != close && close != TComma && Expression(ts) == Ok(e, [close] + rest)
    ensures Items(ts, close, done) == Ok(done + [e], [close] + rest)
  {
  }

  lemma TakesOperator(l: Expr, op: BinOp, r: Expr, minPrec: nat, ts: seq<Token>, rest: seq<Token>)
    requires minPrec <= Precedence(op) && ParseBinary(Precedence(op) + 1, ts) == Ok(r, rest)
    ensures BinaryLoop(l, minPrec, [TOp(op)] + ts) == BinaryLoop(Binary(op, l, r), minPrec, rest)
  {
    assert ([TOp(op)] + ts)[1..] == ts;
  }

  // ---- the parser takes each level back ----

  /** A tree in a postfix position is read, and the suffixes after it are then applied to it. */
  lemma {:induction false} PostfixAt(dot: string -> bool, e: Expr, rest: seq<Token>)
    requires Plain(e)
    ensures ParsePostfix(At(dot, e, POSTFIX) + rest) == PostfixLoop(e, rest)
    decreases e, 8
  {
    if Level(e) < POSTFIX {
      Parenthesised(dot, e, POSTFIX, rest);
    } else {
      PostfixRaw(dot, e, rest);
    }
  }

  lemma {:induction false} Parenthesised(dot: string -> bool, e: Expr, level: nat, rest: seq<Token>)
    requires Plain(e) && Level(e) < level && Level(e) < POSTFIX
    ensures ParsePostfix(At(dot, e, level) + rest) == PostfixLoop(e, rest)
    decreases e, if e.Binary? then 2 else 6
  {
    var tail := [TRParen] + rest;
    Regroup3([TLParen], Raw(dot, e), [TRParen], rest);
    BinaryRaw(dot, e, 1, tail);
    TakesParentheses(e, Raw(dot, e) + tail, rest);
  }

  lemma {:induction false} PostfixRaw(dot: string -> bool, e: Expr, rest: seq<Token>)
    requires Plain(e) && POSTFIX <= Level(e)
    ensures ParsePostfix(Raw(dot, e) + rest) == PostfixLoop(e, rest)
    decreases e, 1
  {
    if e.Member? {
      MemberRaw(dot, e, rest);
    } else if e.Call? {
      CallRaw(dot, e, rest);
    } else if e.Array? {
      ArrayRaw(dot, e, rest);
    } else {
      LiteralRaw(dot, e, rest);
    }
  }

  lemma LiteralRaw(dot: string -> bool, e: Expr, rest: seq<Token>)
    requires Plain(e) && Level(e) == PRIMARY && !e.Array?
    ensures ParsePostfix(Raw(dot, e) + rest) == PostfixLoop(e, rest)
  {
    var t := Raw(dot, e)[0];
    assert Raw(dot, e) == [t];
    TakesLiteral(t, e, rest);
  }

  predicate Literal(t: Token, e: Expr) {
    match e
    case Num(n) => t == TNumber(n)
    case Str(s) => t == TString(s)
    case Bool(b) => t == if b then TTrue else TFalse
    case Null => t == TNull
    case Var(name) => t == TIdent(name)
    case _ => false
  }

  lemma TakesLiteral(t: Token, e: Expr, rest: seq<Token>)
    requires Literal(t, e)
    ensures ParsePostfix([t] + rest) == PostfixLoop(e, rest)
  {
    assert ([t] + rest)[1..] == rest;
    assert ParsePrimary([t] + rest) == Ok(e, rest);
  }

  lemma {:induction false} MemberRaw(dot: string -> bool, e: Expr, rest: seq<Token>)
    requires Plain(e) && e.Member?
    ensures ParsePostfix(Raw(dot, e) + rest) == PostfixLoop(e, rest)
    decreases e, 0
  {
    if e.prop.Str? && dot(e.prop.s) {
      var suffix := [TDot, TIdent(e.prop.s)] + rest;
      Regroup2(At(dot, e.obj, POSTFIX), [TDot, TIdent(e.prop.s)], rest);
      PostfixAt(dot, e.obj, suffix);
      TakesDot(e.obj, e.prop.s, rest);
    } else {
      IndexRaw(dot, e, rest);
    }
  }

  lemma {:induction false} IndexRaw(dot: string -> bool, e: Expr, rest: seq<Token>)
    requires Plain(e) && e.Member? && !(e.prop.Str? && dot(e.prop.s))
    ensures ParsePostfix(Raw(dot, e) + rest) == PostfixLoop(e, rest)
    decreases e, 0, 0
  {
    var inner := At(dot, e.prop, 1) + ([TRBracket] + rest);
    Regroup2(At(dot, e.obj, POSTFIX), [TLBracket] + At(dot, e.prop, 1) + [TRBracket], rest);
    Regroup3([TLBracket], At(dot, e.prop, 1), [TRBracket], rest);
    PostfixAt(dot, e.obj, [TLBracket] + inner);
    BinaryAt(dot, e.prop, 1, [TRBracket] + rest);
    TakesIndex(e.obj, e.prop, inner, rest);
  }

  lemma {:induction false} CallRaw(dot: string -> bool, e: Expr, rest: seq<Token>)
    requires Plain(e) && e.Call?
    ensures ParsePostfix(Raw(dot, e) + rest) == PostfixLoop(e, rest)
    decreases e, 0
  {
    var inner := Listed(dot, e, e.args) + ([TRParen] + rest);
    Regroup4(At(dot, e.fn, POSTFIX), [TLParen], Listed(dot, e, e.args), [TRParen], rest);
    PostfixAt(dot, e.fn, [TLParen] + inner);
    ItemsListed(dot, e, e.args, TRParen, [], rest);
    assert [] + e.args == e.args;
    TakesArguments(e.fn, e.args, inner, rest);
  }

  lemma {:induction false} ArrayRaw(dot: string -> bool, e: Expr, rest: seq<Token>)
    requires Plain(e) && e.Array?
    ensures ParsePostfix(Raw(dot, e) + rest) == PostfixLoop(e, rest)
    decreases e, 0
  {
    var inner := Listed(dot, e, e.items) + ([TRBracket] + rest);
    Regroup3([TLBracket], Listed(dot, e, e.items), [TRBracket], rest);
    ItemsListed(dot, e, e.items, TRBracket, [], rest);
    assert [] + e.items == e.items;
    TakesArray(e.items, inner, rest);
  }

  lemma {:induction false} ItemsListed(dot: string -> bool, parent: Expr, es: seq<Expr>, close: Token,
                                       done: seq<Expr>, rest: seq<Token>)
    requires close == TRParen || close == TRBracket
    requires forall i :: 0 <= i < |es| ==> Plain(es[i]) && es[i] < parent
    ensures Items(Listed(dot, parent, es) + ([close] + rest), close, done) == Ok(done + es, [close] + rest)
    decreases parent, 0, |es|
  {
    var tail := [close] + rest;
    if es == [] {
      NoItems(close, done, rest);
    } else if |es| == 1 {
      LastListed(dot, parent, es[0], close, done, rest);
      MoveFirst(done, es);
    } else {
      FirstListed(dot, parent, es, close, done, tail);
      ItemsListed(dot, parent, es[1..], close, done + [es[0]], rest);
      MoveFirst(done, es);
    }
  }

  lemma NoItems(close: Token, done: seq<Expr>, rest: seq<Token>)
    ensures Items([] + ([close] + rest), close, done) == Ok(done + [], [close] + rest)
  {
    assert [] + ([close] + rest) == [close] + rest && done + [] == done;
  }

  lemma MoveFirst(done: seq<Expr>, es: seq<Expr>)
    requires es != []
    ensures done + [es[0]] + es[1..] == done + es && (|es| == 1 ==> done + [es[0]] == done + es)
  {
  }

  lemma {:induction false} LastListed(dot: string -> bool, parent: Expr, e: Expr, close: Token,
                                      done: seq<Expr>, rest: seq<Token>)
    requires (close == TRParen || close == TRBracket) && Plain(e) && e < parent
    ensures Items(At(dot, e, 1) + ([close] + rest), close, done) == Ok(done + [e], [close] + rest)
    decreases parent, 0, 0
  {
    NoCloser(dot, e, [close] + rest);
    BinaryAt(dot, e, 1, [close] + rest);
    TakesLastItem(e, At(dot, e, 1) + ([close] + rest), close, done, rest);
  }

  lemma {:induction false} FirstListed(dot: string -> bool, parent: Expr, es: seq<Expr>, close: Token,
                                       done: seq<Expr>, tail: seq<Token>)
    requires (close == TRParen || close == TRBracket) && |es| > 1
    requires forall i :: 0 <= i < |es| ==> Plain(es[i]) && es[i] < parent
    ensures Items(Listed(dot, parent, es) + tail, close, done)
         == Items(Listed(dot, parent, es[1..]) + tail, close, done + [es[0]])
    decreases parent, 0, 0
  {
    var more := Listed(dot, parent, es[1..]) + tail;
    Regroup3(At(dot, es[0], 1), [TComma], Listed(dot, parent, es[1..]), tail);
    NoCloser(dot, es[0], [TComma] + more);
    BinaryAt(dot, es[0], 1, [TComma] + more);
    TakesItem(es[0], At(dot, es[0], 1) + ([TComma] + more), close, done, more);
  }

  lemma NoCloser(dot: string -> bool, e: Expr, rest: seq<Token>)
    requires Plain(e)
    ensures Peek(At(dot, e, 1) + rest) != TRParen && Peek(At(dot, e, 1) + rest) != TRBracket
  {
    StartsAt(dot, e, 1);
    assert (At(dot, e, 1) + rest)[0] == At(dot, e, 1)[0];
  }

  lemma {:induction false} UnaryAt(dot: string -> bool, e: Expr, rest: seq<Token>)
    requires Plain(e) && !Continues(rest)
    ensures ParseUnary(At(dot, e, UNARY) + rest) == Ok(e, rest)
    decreases e, 4
  {
    if Level(e) < UNARY {
      Parenthesised(dot, e, UNARY, rest);
    } else if e.Unary? {
      UnaryAt(dot, e.x, rest);
      TakesUnary(e.uop, e.x, At(dot, e.x, UNARY) + rest, rest);
      Regroup2([UnaryToken(e.uop)], At(dot, e.x, UNARY), rest);
    } else {
      PostfixAlone(dot, e, rest);
    }
  }

  lemma {:induction false} PostfixAlone(dot: string -> bool, e: Expr, rest: seq<Token>)
    requires Plain(e) && POSTFIX <= Level(e) && !Continues(rest)
    ensures ParseUnary(Raw(dot, e) + rest) == Ok(e, rest)
    decreases e, 2
  {
    StartsRaw(dot, e);
    assert (Raw(dot, e) + rest)[0] == Raw(dot, e)[0];
    PostfixRaw(dot, e, rest);
  }

  /** A tree read by the climbing loop, which then goes on from it as the left operand. */
  lemma {:induction false} BinaryRaw(dot: string -> bool, e: Expr, minPrec: nat, rest: seq<Token>)
    requires Plain(e) && minPrec <= Level(e)
    requires !Continues(rest) && Weaker(rest, Level(e))
    requires Level(e) < POSTFIX || minPrec <= UNARY
    ensures ParseBinary(minPrec, Raw(dot, e) + rest) == BinaryLoop(e, minPrec, rest)
    decreases e, if e.Binary? then 1 else 5
  {
    if !e.Binary? {
      UnaryAt(dot, e, rest);
    } else {
      var q := Precedence(e.op);
      var right := At(dot, e.r, q + 1) + rest;
      Regroup3(At(dot, e.l, q), [TOp(e.op)], At(dot, e.r, q + 1), rest);
      BinaryPrefix(dot, e.l, q, minPrec, [TOp(e.op)] + right);
      BinaryAt(dot, e.r, q + 1, rest);
      TakesOperator(e.l, e.op, e.r, minPrec, right, rest);
    }
  }

  lemma {:induction false} BinaryPrefix(dot: string -> bool, e: Expr, level: nat, minPrec: nat, rest: seq<Token>)
    requires Plain(e) && minPrec <= level <= UNARY
    requires !Continues(rest) && Weaker(rest, level)
    ensures ParseBinary(minPrec, At(dot, e, level) + rest) == BinaryLoop(e, minPrec, rest)
    decreases e, 6
  {
    if level <= Level(e) {
      BinaryRaw(dot, e, minPrec, rest);
    } else {
      assert At(dot, e, level) == At(dot, e, UNARY);
      UnaryAt(dot, e, rest);
    }
  }

  lemma {:induction false} BinaryAt(dot: string -> bool, e: Expr, level: nat, rest: seq<Token>)
    requires Plain(e) && level <= UNARY
    requires !Continues(rest) && Weaker(rest, level - 1)
    ensures ParseBinary(level, At(dot, e, level) + rest) == Ok(e, rest)
    decreases e, 7
  {
    BinaryPrefix(dot, e, level, level, rest);
  }

  /** Print, then parse: the same tree, and exactly its tokens are taken. */
  lemma RoundTrip(dot: string -> bool, e: Expr, rest: seq<Token>)
    requires Plain(e)
    requires !Continues(rest) && !Peek(rest).TOp?
    ensures Expression(At(dot, e, 1) + rest) == Ok(e, rest)
  {
    BinaryAt(dot, e, 1, rest);
  }
}
