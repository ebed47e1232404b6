/** A return, however deeply nested, ends exactly its own function with its value. */
module ScriptReturn {
  import opened Options
  import opened Script
  import opened ScriptEval

  /** A list of statements runs its first part, and its second only if the first completed normally. */
  lemma {:induction false} SeqSplits(w: World, st: State, env: nat, a: seq<Stmt>, b: seq<Stmt>)
    requires Ready(w, st)
    ensures var d := ExecSeq(w, st, env, a);
            ExecSeq(w, st, env, a + b) == if d.c.Normal? then ExecSeq(w, d.st, env, b) else d
    decreases |a|
  {
    if a == [] {
      assert a + b == b;
    } else {
      var d := Exec(w, st, env, Some(a[0]));
      assert (a + b)[0] == a[0] && (a + b)[1..] == a[1..] + b;
      if d.c.Normal? {
        SeqSplits(w, d.st, env, a[1..], b);
      }
    }
  }

  /** Where a statement can sit: under any blocks, branches and loop turns, between other statements. */
  datatype Context =
    | Hole
    | InBlock(before: seq<Stmt>, inner: Context, after: seq<Stmt>)
    | InThen(cond: Expr, inner: Context, no: Option<Stmt>)
    | InElse(cond: Expr, yes: Option<Stmt>, inner: Context)
    | InLoop(v: string, it: Expr, before: seq<Stmt>, inner: Context, after: seq<Stmt>, turn: nat)

  function Plug(c: Context, s: Stmt): Stmt {
    match c
    case Hole => s
    case InBlock(before, inner, after) => Block(before + [Plug(inner, s)] + after)
    case InThen(cond, inner, no) => If(cond, Some(Plug(inner, s)), no)
    case InElse(cond, yes, inner) => If(cond, yes, Some(Plug(inner, s)))
    case InLoop(v, it, before, inner, after, _) => ForOf(v, it, before + [Plug(inner, s)] + after)
  }

  /** The state before turn `turn` of a loop, if every turn until then runs and completes normally. */
  function AfterTurns(w: World, st: State, env: nat, arr: nat, i: nat, turn: nat, v: string, body: seq<Stmt>): (r: Option<State>)
    requires Ready(w, st) && i <= turn
    ensures r.Some? ==> Ready(w, r.value) && r.value.depth == st.depth && st.steps <= r.value.steps
    decreases turn - i
  {
    if i == turn then Some(st)
    else if i >= |Items(st.heap, arr)| then None
    else
      var d := Iterate(w, st, env, Items(st.heap, arr)[i], v, body);
      if d.c.Normal? then AfterTurns(w, d.st, env, arr, i + 1, turn, v, body) else None
  }

  /** Runs the statements before the hole in a new scope, and goes on to the hole. */
  function EnterScope(w: World, st: State, parent: nat, vars: map<string, Value>,
                      before: seq<Stmt>, inner: Context, s: Stmt): (r: Option<(State, nat)>)
    requires Ready(w, st)
    ensures r.Some? ==> Ready(w, r.value.0)
    decreases inner, 1
  {
    var c := Child(st.heap, parent, vars);
    var d := ExecSeq(w, st.(heap := c.0), c.1, before);
    if d.c.Normal? then Enter(w, d.st, c.1, inner, s) else None
  }

  /** The state and scope in which execution of the plugged statement arrives at the hole, if it does. */
  function Enter(w: World, st: State, env: nat, c: Context, s: Stmt): (r: Option<(State, nat)>)
    requires Ready(w, st)
    ensures r.Some? ==> Ready(w, r.value.0)
    decreases c, 0
  {
    if c.Hole? then Some((st, env))
    else
      var b := Bump(w, st);
      if b.1.Some? then None
      else if c.InBlock? then EnterScope(w, b.0, env, map[], c.before, c.inner, s)
      else
        var o := Eval(w, b.0, env, if c.InLoop? then c.it else c.cond);
        if o.r.Raise? then None
        else if c.InThen? then (if Truthy(o.r.v) then Enter(w, o.st, env, c.inner, s) else None)
        else if c.InElse? then (if Truthy(o.r.v) then None else Enter(w, o.st, env, c.inner, s))
        else if o.r.v.VArr? then EnterLoop(w, o.st, env, o.r.v.arr, c, s)
        else None
  }

  function EnterLoop(w: World, st: State, env: nat, arr: nat, c: Context, s: Stmt): (r: Option<(State, nat)>)
    requires Ready(w, st) && c.InLoop?
    ensures r.Some? ==> Ready(w, r.value.0)
    decreases c.inner, 2
  {
    var t := AfterTurns(w, st, env, arr, 0, c.turn, c.v, c.before + [Plug(c.inner, s)] + c.after);
    if t.None? || c.turn >= |Items(t.value.heap, arr)| then None
    else
      var b := Bump(w, t.value);
      if b.1.Some? then None
      else EnterScope(w, b.0, env, map[c.v := Items(t.value.heap, arr)[c.turn]], c.before, c.inner, s)
  }

  // ---- a return reached at the hole is what the whole statement completes with ----

  lemma {:induction false} LoopReturns(w: World, st: State, env: nat, arr: nat, i: nat, turn: nat,
                                       v: string, body: seq<Stmt>)
    requires Ready(w, st) && i <= turn
    requires var t := AfterTurns(w, st, env, arr, i, turn, v, body);
             t.Some? && turn < |Items(t.value.heap, arr)|
             && Iterate(w, t.value, env, Items(t.value.heap, arr)[turn], v, body).c.Returned?
    ensures var t := AfterTurns(w, st, env, arr, i, turn, v, body).value;
            ForLoop(w, st, env, arr, i, v, body) == Iterate(w, t, env, Items(t.heap, arr)[turn], v, body)
    decreases turn - i
  {
    if i < turn {
      var d := Iterate(w, st, env, Items(st.heap, arr)[i], v, body);
      LoopReturns(w, d.st, env, arr, i + 1, turn, v, body);
    }
  }

  /** In a scope: the statements before the hole, the one in it, and those after it. */
  lemma ScopeReturns(w: World, st: State, env: nat, before: seq<Stmt>, mid: Stmt, after: seq<Stmt>)
    requires Ready(w, st) && ExecSeq(w, st, env, before).c.Normal?
    requires Exec(w, ExecSeq(w, st, env, before).st, env, Some(mid)).c.Returned?
    ensures ExecSeq(w, st, env, before + [mid] + after)
         == Exec(w, ExecSeq(w, st, env, before).st, env, Some(mid))
  {
    assert before + [mid] + after == before + ([mid] + after);
    SeqSplits(w, st, env, before, [mid] + after);
    assert ([mid] + after)[0] == mid;
  }

  lemma {:induction false} ReturnReaches(w: World, st: State, env: nat, c: Context, s: Stmt)
    requires Ready(w, st) && Enter(w, st, env, c, s).Some?
    requires var at := Enter(w, st, env, c, s).value; Exec(w, at.0, at.1, Some(s)).c.Returned?
    ensures var at := Enter(w, st, env, c, s).value;
            Exec(w, st, env, Some(Plug(c, s))) == Exec(w, at.0, at.1, Some(s))
    decreases c, 0
  {
    if !c.Hole? {
      var b := Bump(w, st);
      if c.InBlock? {
        ScopeReached(w, b.0, env, map[], c.before, c.inner, c.after, s);
      } else if c.InThen? {
        ReturnReaches(w, Eval(w, b.0, env, c.cond).st, env, c.inner, s);
      } else if c.InElse? {
        ReturnReaches(w, Eval(w, b.0, env, c.cond).st, env, c.inner, s);
      } else {
        var o := Eval(w, b.0, env, c.it);
        LoopReached(w, o.st, env, o.r.v.arr, c, s);
      }
    }
  }

  lemma {:induction false} ScopeReached(w: World, st: State, parent: nat, vars: map<string, Value>,
                                        before: seq<Stmt>, inner: Context, after: seq<Stmt>, s: Stmt)
    requires Ready(w, st) && EnterScope(w, st, parent, vars, before, inner, s).Some?
    requires var at := EnterScope(w, st, parent, vars, before, inner, s).value; Exec(w, at.0, at.1, Some(s)).c.Returned?
    ensures var at := EnterScope(w, st, parent, vars, before, inner, s).value;
            var c := Child(st.heap, parent, vars);
            ExecSeq(w, st.(heap := c.0), c.1, before + [Plug(inner, s)] + after) == Exec(w, at.0, at.1, Some(s))
    decreases inner, 1
  {
    var c := Child(st.heap, parent, vars);
    var d := ExecSeq(w, st.(heap := c.0), c.1, before);
    ReturnReaches(w, d.st, c.1, inner, s);
    ScopeReturns(w, st.(heap := c.0), c.1, before, Plug(inner, s), after);
  }

  lemma {:induction false} LoopReached(w: World, st: State, env: nat, arr: nat, c: Context, s: Stmt)
    requires Ready(w, st) && c.InLoop? && EnterLoop(w, st, env, arr, c, s).Some?
    requires var at := EnterLoop(w, st, env, arr, c, s).value; Exec(w, at.0, at.1, Some(s)).c.Returned?
    ensures var at := EnterLoop(w, st, env, arr, c, s).value;
            ForLoop(w, st, env, arr, 0, c.v, c.before + [Plug(c.inner, s)] + c.after) == Exec(w, at.0, at.1, Some(s))
    decreases c.inner, 2
  {
    var body := c.before + [Plug(c.inner, s)] + c.after;
    var t := AfterTurns(w, st, env, arr, 0, c.turn, c.v, body).value;
    var item := Items(t.heap, arr)[c.turn];
    ScopeReached(w, Bump(w, t).0, env, map[c.v := item], c.before, c.inner, c.after, s);
    LoopReturns(w, st, env, arr, 0, c.turn, c.v, body);
  }

  /**
    Calling a function whose body, after some statements that complete
    normally, reaches a return nested in any blocks, branches and loop turns:
    the call yields exactly the returned value, in the state of the return, and
    nothing after it runs.
   */
  lemma NestedReturnEndsCall(w: World, st: State, f: Value, args: seq<Value>, before: seq<Stmt>, c: Context,
                             value: Option<Expr>, after: seq<Stmt>)
    requires Ready(w, st) && f.VFn? && |f.params| <= |args|
    requires f.body == before + [Plug(c, Return(value))] + after
    requires Bump(w, st).1.None? && st.depth < w.maxDepth
    requires EnterScope(w, InBody(w, st), f.env, Bind(f.params, args), before, c, Return(value)).Some?
    requires var at := EnterScope(w, InBody(w, st), f.env, Bind(f.params, args), before, c, Return(value)).value;
             Exec(w, at.0, at.1, Some(Return(value))).c.Returned?
    ensures var at := EnterScope(w, InBody(w, st), f.env, Bind(f.params, args), before, c, Return(value)).value;
            var d := Exec(w, at.0, at.1, Some(Return(value)));
            CallValue(w, st, f, args) == Out(d.st.(depth := st.depth), Val(d.c.v))
  {
    CallRunsBody(w, st, f, args);
    ScopeReached(w, InBody(w, st), f.env, Bind(f.params, args), before, c, after, Return(value));
  }

  lemma CallRunsBody(w: World, st: State, f: Value, args: seq<Value>)
    requires Ready(w, st) && f.VFn? && |f.params| <= |args|
    requires Bump(w, st).1.None? && st.depth < w.maxDepth
    ensures var c := Child(InBody(w, st).heap, f.env, Bind(f.params, args));
            var d := ExecSeq(w, InBody(w, st).(heap := c.0), c.1, f.body);
            CallValue(w, st, f, args) == Out(d.st.(depth := st.depth), CallResult(d.c))
  {
  }

  /** The state in which the body of a called function starts, before its scope exists. */
  function InBody(w: World, st: State): (r: State)
    requires Ready(w, st) && Bump(w, st).1.None? && st.depth < w.maxDepth
    ensures Ready(w, r) && r.depth == st.depth + 1
  {
    Bump(w, st).0.(depth := st.depth + 1)
  }

  /** A return reached outside any function ends the script with an error, and main is not called. */
  lemma TopLevelReturnFails(w: World, heap: Heap, root: nat, before: seq<Stmt>, c: Context, value: Option<Expr>, after: seq<Stmt>)
    requires ExecSeq(w, State(0, 0, heap), root, before).c.Normal?
    requires Enter(w, ExecSeq(w, State(0, 0, heap), root, before).st, root, c, Return(value)).Some?
    requires var at := Enter(w, ExecSeq(w, State(0, 0, heap), root, before).st, root, c, Return(value)).value;
             Exec(w, at.0, at.1, Some(Return(value))).c.Returned?
    ensures ExecuteScript(w, heap, root, before + [Plug(c, Return(value))] + after).r == Raise(Runtime)
  {
    var d := ExecSeq(w, State(0, 0, heap), root, before);
    ReturnReaches(w, d.st, root, c, Return(value));
    ScopeReturns(w, State(0, 0, heap), root, before, Plug(c, Return(value)), after);
  }
}
