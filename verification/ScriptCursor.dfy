/** The parser as it moves its cursor over the token list, method by method. */
module ScriptCursor {
  import opened Options
  import opened Script
  import opened ScriptParser

  class Parser {
    const toks: seq<Token>
    var pos: nat

    ghost predicate Valid()
      reads this
    {
      pos < |toks| && toks[|toks| - 1] == TEof
    }

    /** The tokens not yet taken. */
    ghost function Rest(): seq<Token>
      requires Valid()
      reads this
    {
      toks[pos..]
    }

    /** What a parsing method that returned `r` stands for. */
    ghost function Outcome<T>(r: Option<T>): Parsed<T>
      requires Valid()
      reads this
    {
      if r.Some? then Ok(r.value, Rest()) else Err
    }

    constructor (ts: seq<Token>)
      requires ts != [] && ts[|ts| - 1] == TEof
      ensures Valid() && Rest() == ts
    {
      toks, pos := ts, 0;
      new;
      assert toks[0..] == toks;
    }

    method Next() returns (t: Token)
      requires Valid()
      modifies this
      ensures Valid() && t == Peek(old(Rest()))
      ensures t != TEof ==> Rest() == old(Rest())[1..]
    {
      t := toks[pos];
      if pos < |toks| - 1 {
        pos := pos + 1;
      }
    }

    method Match(k: Token) returns (ok: bool)
      requires Valid() && k != TEof
      modifies this
      ensures Valid() && ok == (Peek(old(Rest())) == k)
      ensures Rest() == if ok then old(Rest())[1..] else old(Rest())
      ensures Expect(old(Rest()), k) == if ok then Ok((), Rest()) else Err
    {
      ok := toks[pos] == k;
      if ok {
        pos := pos + 1;
      }
    }

    method NextIdent() returns (r: Option<string>)
      requires Valid()
      modifies this
      ensures Valid() && Identifier(old(Rest())) == Outcome(r)
    {
      var t := Next();
      r := if t.TIdent? then Some(t.text) else None;
    }

    /** Takes the token that has to follow what was just parsed. */
    method CloseWith<T>(r: Option<T>, k: Token) returns (c: Option<T>)
      requires Valid() && k != TEof
      modifies this
      ensures Valid() && Close(old(Outcome(r)), k) == Outcome(c)
    {
      if r.None? {
        return None;
      }
      var ok := Match(k);
      c := if ok then r else None;
    }

    // ---- expressions ----

    method ParseExpression() returns (r: Option<Expr>)
      requires Valid()
      modifies this
      ensures Valid() && Expression(old(Rest())) == Outcome(r)
      decreases |toks| - pos, 9
    {
      r := BinaryFrom(1);
    }

    method BinaryFrom(minPrec: nat) returns (r: Option<Expr>)
      requires Valid()
      modifies this
      ensures Valid() && ParseBinary(minPrec, old(Rest())) == Outcome(r)
      decreases |toks| - pos, 8
    {
      r := UnaryFrom();
      if r.None? {
        return;
      }
      var left := r.value;
      while toks[pos].TOp? && Precedence(toks[pos].op) >= minPrec
        invariant Valid() && old(pos) < pos
        invariant ParseBinary(minPrec, old(Rest())) == BinaryLoop(left, minPrec, Rest())
        decreases |toks| - pos
      {
        var t := Next();
        var right := BinaryFrom(Precedence(t.op) + 1);
        if right.None? {
          return None;
        }
        left := Binary(t.op, left, right.value);
      }
      r := Some(left);
    }

    method UnaryFrom() returns (r: Option<Expr>)
      requires Valid()
      modifies this
      ensures Valid() && ParseUnary(old(Rest())) == Outcome(r)
      decreases |toks| - pos, 6
    {
      if toks[pos] == TBang || toks[pos] == TOp(Sub) {
        var t := Next();
        var x := UnaryFrom();
        if x.None? {
          return None;
        }
        r := Some(Unary(if t == TBang then Not else Negate, x.value));
      } else {
        r := PostfixFrom();
      }
    }

    method PostfixFrom() returns (r: Option<Expr>)
      requires Valid()
      modifies this
      ensures Valid() && ParsePostfix(old(Rest())) == Outcome(r)
      decreases |toks| - pos, 5
    {
      r := PrimaryFrom();
      if r.None? {
        return;
      }
      var e := r.value;
      while toks[pos] == TDot || toks[pos] == TLBracket || toks[pos] == TLParen
        invariant Valid() && old(pos) < pos
        invariant ParsePostfix(old(Rest())) == PostfixLoop(e, Rest())
        decreases |toks| - pos
      {
        r := Suffix(e);
        if r.None? {
          return;
        }
        e := r.value;
      }
      if toks[pos] == TAssign {
        var t := Next();
        var val := ParseExpression();
        if val.None? {
          return None;
        }
        return Some(Assign(e, val.value));
      }
      r := Some(e);
    }

    /** One turn of the postfix loop: `.name`, `[index]` or `(arguments)`. */
    method Suffix(e: Expr) returns (r: Option<Expr>)
      requires Valid() && (toks[pos] == TDot || toks[pos] == TLBracket || toks[pos] == TLParen)
      modifies this
      ensures Valid() && ParseSuffix(e, old(Rest())) == Outcome(r)
      decreases |toks| - pos, 4
    {
      var t := Next();
      if t == TDot {
        var name := NextIdent();
        r := if name.Some? then Some(Member(e, Str(name.value))) else None;
      } else if t == TLBracket {
        var idx := ParseExpression();
        idx := CloseWith(idx, TRBracket);
        r := if idx.Some? then Some(Member(e, idx.value)) else None;
      } else {
        var args := ItemsUntil(TRParen);
        args := CloseWith(args, TRParen);
        r := if args.Some? then Some(Call(e, args.value)) else None;
      }
    }

    method ItemsUntil(close: Token) returns (r: Option<seq<Expr>>)
      requires Valid()
      modifies this
      ensures Valid() && Items(old(Rest()), close, []) == Outcome(r)
      decreases |toks| - pos, 10
    {
      var done: seq<Expr> := [];
      while toks[pos] != close
        invariant Valid() && old(pos) <= pos
        invariant Items(old(Rest()), close, []) == Items(Rest(), close, done)
        decreases |toks| - pos
      {
        var e := ParseExpression();
        if e.None? {
          return None;
        }
        done := done + [e.value];
        var more := Match(TComma);
        if !more {
          return Some(done);
        }
      }
      r := Some(done);
    }

    method PrimaryFrom() returns (r: Option<Expr>)
      requires Valid()
      modifies this
      ensures Valid() && ParsePrimary(old(Rest())) == Outcome(r)
      decreases |toks| - pos, 3
    {
      var t := toks[pos];
      if Opens(t) {
        var _ := Next();
        r := EnclosedFrom(t);
      } else {
        var _ := Next();
        r := match t
          case TNumber(n) => Some(Num(n))
          case TString(s) => Some(Str(s))
          case TTrue => Some(Bool(true))
          case TFalse => Some(Bool(false))
          case TNull => Some(Null)
          case TUndefined => Some(Null)
          case TIdent(name) => Some(Var(name))
          case _ => None;
      }
    }

    method EnclosedFrom(t: Token) returns (r: Option<Expr>)
      requires Valid() && Opens(t)
      modifies this
      ensures Valid() && Enclosed(t, old(Rest())) == Outcome(r)
      decreases |toks| - pos, 12
    {
      if t == TLParen {
        r := ParseExpression();
        r := CloseWith(r, TRParen);
      } else if t == TLBrace {
        r := ObjectFrom();
      } else if t == TLBracket {
        r := ArrayFrom();
      } else {
        r := FunctionLiteralFrom();
      }
    }

    method ObjectFrom() returns (r: Option<Expr>)
      requires Valid()
      modifies this
      ensures Valid() && ObjectLiteral(old(Rest())) == Outcome(r)
      decreases |toks| - pos, 11
    {
      var fields := FieldsUntilBrace();
      fields := CloseWith(fields, TRBrace);
      r := if fields.Some? then Some(Object(fields.value)) else None;
    }

    method ArrayFrom() returns (r: Option<Expr>)
      requires Valid()
      modifies this
      ensures Valid() && ArrayLiteral(old(Rest())) == Outcome(r)
      decreases |toks| - pos, 11
    {
      var items := ItemsUntil(TRBracket);
      items := CloseWith(items, TRBracket);
      r := if items.Some? then Some(Array(items.value)) else None;
    }

    method FunctionLiteralFrom() returns (r: Option<Expr>)
      requires Valid()
      modifies this
      ensures Valid() && FunctionLiteral(old(Rest())) == Outcome(r)
      decreases |toks| - pos, 3
    {
      var f := FunctionFrom();
      r := if f.Some? then Some(Function(f.value.0, f.value.1)) else None;
    }

    method FieldsUntilBrace() returns (r: Option<seq<(string, Expr)>>)
      requires Valid()
      modifies this
      ensures Valid() && Fields(old(Rest()), []) == Outcome(r)
      decreases |toks| - pos, 10
    {
      var done: seq<(string, Expr)> := [];
      while toks[pos] != TRBrace
        invariant Valid() && old(pos) <= pos
        invariant Fields(old(Rest()), []) == Fields(Rest(), done)
        decreases |toks| - pos
      {
        if !toks[pos].TIdent? && !toks[pos].TString? {
          return None;
        }
        var key := Next();
        var ok := Match(TColon);
        if !ok {
          return None;
        }
        var val := ParseExpression();
        if val.None? {
          return None;
        }
        done := SetField(done, key.text, val.value);
        var more := Match(TComma);
        if !more {
          return Some(done);
        }
      }
      r := Some(done);
    }

    // ---- functions and statements ----

    method ParamsUntilParen() returns (r: Option<seq<string>>)
      requires Valid()
      modifies this
      ensures Valid() && Params(old(Rest()), []) == Outcome(r)
    {
      var done: seq<string> := [];
      while toks[pos] != TRParen
        invariant Valid() && old(pos) <= pos
        invariant Params(old(Rest()), []) == Params(Rest(), done)
        decreases |toks| - pos
      {
        var p := NextIdent();
        if p.None? {
          return None;
        }
        done := done + [p.value];
        var more := Match(TComma);
        if !more {
          return Some(done);
        }
      }
      r := Some(done);
    }

    method FunctionHeaderFrom() returns (r: Option<seq<string>>)
      requires Valid()
      modifies this
      ensures Valid() && FunctionHeader(old(Rest())) == Outcome(r)
    {
      var ok := Match(TLParen);
      if !ok {
        return None;
      }
      r := ParamsUntilParen();
      r := CloseWith(r, TRParen);
      r := CloseWith(r, TLBrace);
    }

    method FunctionFrom() returns (r: Option<(seq<string>, seq<Stmt>)>)
      requires Valid()
      modifies this
      ensures Valid() && FunctionBody(old(Rest())) == Outcome(r)
      decreases |toks| - pos, 2
    {
      var params := FunctionHeaderFrom();
      if params.None? {
        return None;
      }
      var body := StatementsUntilBrace();
      r := if body.Some? then Some((params.value, body.value)) else None;
    }

    method StatementsUntilBrace() returns (r: Option<seq<Stmt>>)
      requires Valid()
      modifies this
      ensures Valid() && Statements(old(Rest()), []) == Outcome(r)
      decreases |toks| - pos, 12
    {
      var done: seq<Stmt> := [];
      while toks[pos] != TRBrace
        invariant Valid() && old(pos) <= pos
        invariant Statements(old(Rest()), []) == Statements(Rest(), done)
        decreases |toks| - pos
      {
        if toks[pos] == TEof {
          return None;
        }
        var st := StatementFrom();
        if st.None? {
          return None;
        }
        if st.value.Some? {
          done := done + [st.value.value];
        }
      }
      var _ := Next();
      r := Some(done);
    }

    method BlockOrStatementFrom() returns (r: Option<Option<Stmt>>)
      requires Valid()
      modifies this
      ensures Valid() && BlockOrStatement(old(Rest())) == Outcome(r)
      decreases |toks| - pos, 12
    {
      if toks[pos] == TLBrace {
        var _ := Next();
        var body := StatementsUntilBrace();
        r := if body.Some? then Some(Some(Block(body.value))) else None;
      } else {
        r := StatementFrom();
      }
    }

    method StatementFrom() returns (r: Option<Option<Stmt>>)
      requires Valid()
      modifies this
      ensures Valid() && Statement(old(Rest())) == Outcome(r)
      decreases |toks| - pos, 11
    {
      if Keyword(toks[pos]) {
        var t := Next();
        r := AfterKeywordFrom(t);
      } else {
        var e := ParseExpression();
        if e.None? {
          return None;
        }
        var _ := Match(TSemi);
        r := Some(Some(ExprStmt(e.value)));
      }
    }

    method AfterKeywordFrom(t: Token) returns (r: Option<Option<Stmt>>)
      requires Valid() && Keyword(t)
      modifies this
      ensures Valid() && AfterKeyword(t, old(Rest())) == Outcome(r)
      decreases |toks| - pos, 12
    {
      if t == TSemi {
        r := Some(None);
      } else if t == TFunction {
        r := FunctionDeclFrom();
      } else if t == TIf {
        r := IfFrom();
      } else if t == TFor {
        r := ForFrom();
      } else if t == TReturn {
        r := ReturnFrom();
      } else {
        r := DeclarationFrom();
      }
    }

    method FunctionDeclFrom() returns (r: Option<Option<Stmt>>)
      requires Valid()
      modifies this
      ensures Valid() && FunctionDecl(old(Rest())) == Outcome(r)
      decreases |toks| - pos, 3
    {
      var name := NextIdent();
      if name.None? {
        return None;
      }
      var f := FunctionFrom();
      r := if f.Some? then Some(Some(FnDecl(name.value, f.value.0, f.value.1))) else None;
    }

    method ReturnFrom() returns (r: Option<Option<Stmt>>)
      requires Valid()
      modifies this
      ensures Valid() && ReturnStatement(old(Rest())) == Outcome(r)
      decreases |toks| - pos, 11
    {
      if toks[pos] == TSemi || toks[pos] == TRBrace || toks[pos] == TEof {
        var _ := Match(TSemi);
        return Some(Some(Return(None)));
      }
      var e := ParseExpression();
      if e.None? {
        return None;
      }
      var _ := Match(TSemi);
      r := Some(Some(Return(Some(e.value))));
    }

    method DeclarationFrom() returns (r: Option<Option<Stmt>>)
      requires Valid()
      modifies this
      ensures Valid() && Declaration(old(Rest())) == Outcome(r)
      decreases |toks| - pos, 11
    {
      var name := NextIdent();
      if name.None? {
        return None;
      }
      var init: Option<Expr> := None;
      var hasInit := Match(TAssign);
      if hasInit {
        init := ParseExpression();
        if init.None? {
          return None;
        }
      }
      var semi := Match(TSemi);
      if !semi && toks[pos] != TRBrace && toks[pos] != TEof {
        return None;
      }
      r := Some(Some(VarDecl(name.value, init)));
    }

    method ConditionFrom() returns (r: Option<Expr>)
      requires Valid()
      modifies this
      ensures Valid() && Condition(old(Rest())) == Outcome(r)
      decreases |toks| - pos, 10
    {
      var ok := Match(TLParen);
      if !ok {
        return None;
      }
      r := ParseExpression();
      r := CloseWith(r, TRParen);
    }

    method IfFrom() returns (r: Option<Option<Stmt>>)
      requires Valid()
      modifies this
      ensures Valid() && IfStatement(old(Rest())) == Outcome(r)
      decreases |toks| - pos, 11
    {
      var cond := ConditionFrom();
      if cond.None? {
        return None;
      }
      var yes := BlockOrStatementFrom();
      if yes.None? {
        return None;
      }
      var no := ElseFrom();
      r := if no.Some? then Some(Some(If(cond.value, yes.value, no.value))) else None;
    }

    method ElseFrom() returns (r: Option<Option<Stmt>>)
      requires Valid()
      modifies this
      ensures Valid() && ElsePart(old(Rest())) == Outcome(r)
      decreases |toks| - pos, 10
    {
      var hasElse := Match(TElse);
      if hasElse {
        r := BlockOrStatementFrom();
      } else {
        r := Some(None);
      }
    }

    method LoopVariableFrom() returns (r: Option<string>)
      requires Valid()
      modifies this
      ensures Valid() && LoopVariable(old(Rest())) == Outcome(r)
    {
      var ok := Match(TLParen);
      if !ok {
        return None;
      }
      ok := Match(TVar);
      if !ok {
        ok := Match(TLet);
        if !ok {
          var _ := Match(TConst);
        }
      }
      r := NextIdent();
      r := CloseWith(r, TOf);
    }

    method ForHeaderFrom() returns (r: Option<(string, Expr)>)
      requires Valid()
      modifies this
      ensures Valid() && ForHeader(old(Rest())) == Outcome(r)
      decreases |toks| - pos, 10
    {
      var v := LoopVariableFrom();
      if v.None? {
        return None;
      }
      var it := ParseExpression();
      it := CloseWith(it, TRParen);
      r := if it.Some? then Some((v.value, it.value)) else None;
    }

    method ForFrom() returns (r: Option<Option<Stmt>>)
      requires Valid()
      modifies this
      ensures Valid() && ForStatement(old(Rest())) == Outcome(r)
      decreases |toks| - pos, 11
    {
      var h := ForHeaderFrom();
      if h.None? {
        return None;
      }
      var body := OnlyBlockFrom();
      r := if body.Some? then Some(Some(ForOf(h.value.0, h.value.1, body.value))) else None;
    }

    method OnlyBlockFrom() returns (r: Option<seq<Stmt>>)
      requires Valid()
      modifies this
      ensures Valid() && OnlyBlock(old(Rest())) == Outcome(r)
      decreases |toks| - pos, 13
    {
      var body := BlockOrStatementFrom();
      if body.None? || body.value.None? || !body.value.value.Block? {
        return None;
      }
      r := Some(body.value.value.stmts);
    }

    method ParseProgram() returns (r: Option<seq<Stmt>>)
      requires Valid()
      modifies this
      ensures Valid() && Program(old(Rest()), []) == Outcome(r)
    {
      var done: seq<Stmt> := [];
      while toks[pos] != TEof
        invariant Valid()
        invariant Program(old(Rest()), []) == Program(Rest(), done)
        decreases |toks| - pos
      {
        var st := StatementFrom();
        if st.None? {
          return None;
        }
        if st.value.Some? {
          done := done + [st.value.value];
        }
      }
      r := Some(done);
    }
  }
}
