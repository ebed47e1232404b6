/** A completion by return always comes from a return statement of the very same function. */
module ScriptReturnExact {
  import opened Options
  import opened Script
  import opened ScriptEval
  import opened ScriptReturn

  /** The statement has a return at hole `c`; execution arrives there and the return's value evaluates. */
  predicate Reached(w: World, st: State, env: nat, s: Stmt, c: Context, value: Option<Expr>)
    requires Ready(w, st)
  {
    && Plug(c, Return(value)) == s && Enter(w, st, env, c, Return(value)).Some?
    && var at := Enter(w, st, env, c, Return(value)).value;
       Exec(w, at.0, at.1, Some(Return(value))).c.Returned?
  }

  /** The same for a list of statements in a new scope, the return being in statement `k`. */
  predicate ReachedIn(w: World, st: State, parent: nat, vars: map<string, Value>, stmts: seq<Stmt>,
                      k: nat, c: Context, value: Option<Expr>)
    requires Ready(w, st)
  {
    && k < |stmts| && Plug(c, Return(value)) == stmts[k]
    && EnterScope(w, st, parent, vars, stmts[..k], c, Return(value)).Some?
    && var at := EnterScope(w, st, parent, vars, stmts[..k], c, Return(value)).value;
       Exec(w, at.0, at.1, Some(Return(value))).c.Returned?
  }

  // ---- where the return was ----

  /** In a list of statements, the one that returned. */
  lemma {:induction false} SeqFound(w: World, st: State, env: nat, stmts: seq<Stmt>) returns (k: nat)
    requires Ready(w, st) && ExecSeq(w, st, env, stmts).c.Returned?
    ensures k < |stmts| && ExecSeq(w, st, env, stmts[..k]).c.Normal?
    ensures Exec(w, ExecSeq(w, st, env, stmts[..k]).st, env, Some(stmts[k])).c.Returned?
    decreases |stmts|
  {
    var d := Exec(w, st, env, Some(stmts[0]));
    if d.c.Normal? {
      var l := SeqFound(w, d.st, env, stmts[1..]);
      k := l + 1;
      assert stmts[..k][0] == stmts[0] && stmts[..k][1..] == stmts[1..][..l];
    } else {
      k := 0;
    }
  }

  /** In a loop, the turn that returned. */
  lemma {:induction false} TurnFound(w: World, st: State, env: nat, arr: nat, i: nat, v: string, body: seq<Stmt>) returns (turn: nat)
    requires Ready(w, st) && ForLoop(w, st, env, arr, i, v, body).c.Returned?
    ensures i <= turn && AfterTurns(w, st, env, arr, i, turn, v, body).Some?
    ensures var t := AfterTurns(w, st, env, arr, i, turn, v, body).value;
            turn < |Items(t.heap, arr)| && Iterate(w, t, env, Items(t.heap, arr)[turn], v, body).c.Returned?
    decreases w.maxSteps - st.steps
  {
    var d := Iterate(w, st, env, Items(st.heap, arr)[i], v, body);
    if d.c.Normal? {
      turn := TurnFound(w, d.st, env, arr, i + 1, v, body);
    } else {
      turn := i;
    }
  }

  lemma AsSplit(stmts: seq<Stmt>, k: nat)
    requires k < |stmts|
    ensures stmts[..k] + [stmts[k]] + stmts[k + 1..] == stmts
  {
  }

  lemma {:induction false} ReturnFound(w: World, st: State, env: nat, s: Stmt) returns (c: Context, value: Option<Expr>)
    requires Ready(w, st) && Exec(w, st, env, Some(s)).c.Returned?
    ensures Reached(w, st, env, s, c, value)
    decreases w.maxSteps - st.steps, 1
  {
    var b := Bump(w, st);
    if s.Return? {
      c, value := Hole, s.value;
    } else if s.Block? {
      var k, inner;
      k, inner, value := ScopeFound(w, b.0, env, map[], s.stmts);
      c := InBlock(s.stmts[..k], inner, s.stmts[k + 1..]);
      AsSplit(s.stmts, k);
    } else if s.If? {
      c, value := BranchFound(w, st, env, s);
    } else {
      c, value := LoopFound(w, st, env, s);
    }
  }

  lemma {:induction false} BranchFound(w: World, st: State, env: nat, s: Stmt) returns (c: Context, value: Option<Expr>)
    requires Ready(w, st) && s.If? && Exec(w, st, env, Some(s)).c.Returned?
    ensures Reached(w, st, env, s, c, value)
    decreases w.maxSteps - st.steps, 0
  {
    var o := Eval(w, Bump(w, st).0, env, s.cond);
    var inner;
    if Truthy(o.r.v) {
      assert Exec(w, o.st, env, s.yes).c.Returned?;
      inner, value := ReturnFound(w, o.st, env, s.yes.value);
      c := InThen(s.cond, inner, s.no);
    } else {
      inner, value := ReturnFound(w, o.st, env, s.no.value);
      c := InElse(s.cond, s.yes, inner);
    }
  }

  lemma {:induction false} LoopFound(w: World, st: State, env: nat, s: Stmt) returns (c: Context, value: Option<Expr>)
    requires Ready(w, st) && s.ForOf? && Exec(w, st, env, Some(s)).c.Returned?
    ensures Reached(w, st, env, s, c, value)
    decreases w.maxSteps - st.steps, 0
  {
    var o := Eval(w, Bump(w, st).0, env, s.it);
    var arr := o.r.v.arr;
    var turn := TurnFound(w, o.st, env, arr, 0, s.v, s.loop);
    var t := AfterTurns(w, o.st, env, arr, 0, turn, s.v, s.loop).value;
    var k, inner;
    k, inner, value := ScopeFound(w, Bump(w, t).0, env, map[s.v := Items(t.heap, arr)[turn]], s.loop);
    c := InLoop(s.v, s.it, s.loop[..k], inner, s.loop[k + 1..], turn);
    AsSplit(s.loop, k);
  }

  lemma {:induction false} ScopeFound(w: World, st: State, parent: nat, vars: map<string, Value>, stmts: seq<Stmt>)
    returns (k: nat, c: Context, value: Option<Expr>)
    requires Ready(w, st)
    requires var e := Child(st.heap, parent, vars); ExecSeq(w, st.(heap := e.0), e.1, stmts).c.Returned?
    ensures ReachedIn(w, st, parent, vars, stmts, k, c, value)
    decreases w.maxSteps - st.steps, 2
  {
    var e := Child(st.heap, parent, vars);
    k := SeqFound(w, st.(heap := e.0), e.1, stmts);
    var d := ExecSeq(w, st.(heap := e.0), e.1, stmts[..k]);
    c, value := ReturnFound(w, d.st, e.1, stmts[k]);
  }

  // ---- exactly ----

  /**
    A statement completes by return exactly when execution arrives at a return
    statement of its own, under its blocks, branches and loop turns.  Function bodies
    it calls or declares are no context, so their returns never count.
   */
  lemma ReturnExactly(w: World, st: State, env: nat, s: Stmt)
    requires Ready(w, st)
    ensures Exec(w, st, env, Some(s)).c.Returned? <==> exists c, value :: Reached(w, st, env, s, c, value)
  {
    if Exec(w, st, env, Some(s)).c.Returned? {
      var c, value := ReturnFound(w, st, env, s);
    }
    if c, value :| Reached(w, st, env, s, c, value) {
      ReturnReaches(w, st, env, c, Return(value));
    }
  }

  /** A body run in a new scope completes by return exactly when it arrives at a return of its own. */
  lemma BodyReturnsExactly(w: World, st: State, parent: nat, vars: map<string, Value>, stmts: seq<Stmt>)
    requires Ready(w, st)
    ensures var e := Child(st.heap, parent, vars);
            ExecSeq(w, st.(heap := e.0), e.1, stmts).c.Returned?
            <==> exists k: nat, c, value :: ReachedIn(w, st, parent, vars, stmts, k, c, value)
  {
    var e := Child(st.heap, parent, vars);
    if ExecSeq(w, st.(heap := e.0), e.1, stmts).c.Returned? {
      var k, c, value := ScopeFound(w, st, parent, vars, stmts);
    }
    if k: nat, c, value :| ReachedIn(w, st, parent, vars, stmts, k, c, value) {
      ScopeReached(w, st, parent, vars, stmts[..k], c, stmts[k + 1..], Return(value));
      AsSplit(stmts, k);
    }
  }

  /** The call ended at that return of its own body: its value, in its state. */
  predicate EndsCall(w: World, st: State, f: Value, args: seq<Value>, k: nat, c: Context, value: Option<Expr>)
    requires Ready(w, st) && f.VFn? && |f.params| <= |args| && Bump(w, st).1.None? && st.depth < w.maxDepth
  {
    && ReachedIn(w, InBody(w, st), f.env, Bind(f.params, args), f.body, k, c, value)
    && var at := EnterScope(w, InBody(w, st), f.env, Bind(f.params, args), f.body[..k], c, Return(value)).value;
       var d := Exec(w, at.0, at.1, Some(Return(value)));
       CallValue(w, st, f, args) == Out(d.st.(depth := st.depth), Val(d.c.v))
  }

  /** A call that yields a value ran its body to the end and yields null, or ended at a return of its own body. */
  lemma CallReturnsOwn(w: World, st: State, f: Value, args: seq<Value>)
    requires Ready(w, st) && f.VFn? && |f.params| <= |args| && Bump(w, st).1.None? && st.depth < w.maxDepth
    requires CallValue(w, st, f, args).r.Val?
    ensures var e := Child(InBody(w, st).heap, f.env, Bind(f.params, args));
            || (ExecSeq(w, InBody(w, st).(heap := e.0), e.1, f.body).c.Normal? && CallValue(w, st, f, args).r == Val(VNull))
            || exists k: nat, c, value :: EndsCall(w, st, f, args, k, c, value)
  {
    CallRunsBody(w, st, f, args);
    var e := Child(InBody(w, st).heap, f.env, Bind(f.params, args));
    if !ExecSeq(w, InBody(w, st).(heap := e.0), e.1, f.body).c.Normal? {
      var k, c, value := ScopeFound(w, InBody(w, st), f.env, Bind(f.params, args), f.body);
      AsSplit(f.body, k);
      NestedReturnEndsCall(w, st, f, args, f.body[..k], c, value, f.body[k + 1..]);
      assert EndsCall(w, st, f, args, k, c, value);
    }
  }
}
