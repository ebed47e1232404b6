/**
  The evaluator as it runs: one machine whose step counter, call depth and heap
  change in place, with a return carried on the error channel. Each method is
  tied to the reference semantics, where a return is a completion of its own.
 */
module ScriptMachine {
  import opened Options
  import opened Script
  import opened ScriptEval

  /** What the source passes up as an error; a return travels as one. */
  datatype Error = Nil | RetSignal(value: Value) | RunnerErr(kind: Kind)

  ghost function Answer<T>(v: T, err: Error): Res<T>
    requires !err.RetSignal?
  {
    if err.Nil? then Val(v) else Raise(err.kind)
  }

  ghost function Ending(err: Error): Completion {
    match err
    case Nil => Normal
    case RetSignal(v) => Returned(v)
    case RunnerErr(k) => Failed(k)
  }

  class Vm {
    const w: World
    var steps: nat
    var callDepth: nat
    var heap: Heap

    ghost function View(): State
      reads this
    {
      State(steps, callDepth, heap)
    }

    constructor (w: World, heap: Heap)
      ensures this.w == w && View() == State(0, 0, heap)
    {
      this.w, this.heap, steps, callDepth := w, heap, 0, 0;
    }

    method CountStep() returns (err: Error)
      requires Ready(w, View())
      modifies this`steps
      ensures !err.RetSignal?
      ensures Bump(w, old(View())) == (View(), if err.Nil? then None else Some(err.kind))
    {
      steps := steps + 1;
      if steps > w.maxSteps {
        return RunnerErr(Budget);
      }
      if steps % 1024 == 0 && w.expired(steps) {
        return RunnerErr(Timeout);
      }
      err := Nil;
    }

    /** Walks outwards to the scope that holds a name. */
    method Lookup(env: nat, name: string) returns (at: Option<nat>)
      ensures at == Find(heap, env, name)
    {
      var cur := env;
      while name !in Scope(heap, cur).vars
        invariant Find(heap, env, name) == Find(heap, cur, name)
        decreases cur
      {
        var parent := Scope(heap, cur).parent;
        if parent.None? || parent.value >= cur {
          return None;
        }
        cur := parent.value;
      }
      at := Some(cur);
    }

    method NewScope(parent: nat, vars: map<string, Value>) returns (env: nat)
      modifies this`heap
      ensures Child(old(heap), parent, vars) == (heap, env)
    {
      env := |heap.envs|;
      heap := heap.(envs := heap.envs + [Env(Some(parent), vars)]);
    }

    // ---- expressions ----

    method EvalExpr(env: nat, e: Expr) returns (v: Value, err: Error)
      requires Ready(w, View())
      modifies this
      ensures !err.RetSignal?
      ensures Eval(w, old(View()), env, e) == Out(View(), Answer(v, err))
      decreases w.maxSteps - steps, 20
    {
      v := VNull;
      err := CountStep();
      if err != Nil {
        return;
      }
      v, err := Dispatch(env, e);
    }

    method Dispatch(env: nat, e: Expr) returns (v: Value, err: Error)
      requires Ready(w, View())
      modifies this
      ensures !err.RetSignal?
      ensures EvalNode(w, old(View()), env, e) == Out(View(), Answer(v, err))
      decreases w.maxSteps - steps, 30
    {
      v, err := VNull, Nil;
      match e
      case Num(n) => v := VNum(n);
      case Str(s) => v := VStr(s);
      case Bool(b) => v := VBool(b);
      case Null =>
      case Var(name) =>
        var at := Lookup(env, name);
        if at.None? {
          return VNull, RunnerErr(Reference);
        }
        v := heap.envs[at.value].vars[name];
      case Object(fields) => v, err := ObjectLiteral(env, e);
      case Array(items) => v, err := ArrayLiteral(env, e);
      case Member(obj, prop) => v, err := MemberOf(env, obj, prop);
      case Call(fn, args) => v, err := CallOf(env, fn, args);
      case Binary(op, l, r) => v, err := BinaryOf(env, e);
      case Unary(uop, x) => v, err := UnaryOf(env, e);
      case Function(params, body) => v := VFn(params, body, env);
      case Assign(target, val) => v, err := AssignOf(env, e);
    }

    method ObjectLiteral(env: nat, e: Expr) returns (v: Value, err: Error)
      requires Ready(w, View()) && e.Object?
      modifies this
      ensures !err.RetSignal?
      ensures EvalNode(w, old(View()), env, e) == Out(View(), Answer(v, err))
      decreases w.maxSteps - steps, 29
    {
      var fields;
      v := VNull;
      fields, err := AllFields(env, e.fields);
      if err != Nil {
        return;
      }
      v := VObj(|heap.objs|);
      heap := heap.(objs := heap.objs + [fields]);
    }

    method ArrayLiteral(env: nat, e: Expr) returns (v: Value, err: Error)
      requires Ready(w, View()) && e.Array?
      modifies this
      ensures !err.RetSignal?
      ensures EvalNode(w, old(View()), env, e) == Out(View(), Answer(v, err))
      decreases w.maxSteps - steps, 29
    {
      var items;
      v := VNull;
      items, err := AllItems(env, e.items);
      if err != Nil {
        return;
      }
      v := VArr(|heap.arrs|);
      heap := heap.(arrs := heap.arrs + [items]);
    }

    method UnaryOf(env: nat, e: Expr) returns (v: Value, err: Error)
      requires Ready(w, View()) && e.Unary?
      modifies this
      ensures !err.RetSignal?
      ensures EvalNode(w, old(View()), env, e) == Out(View(), Answer(v, err))
      decreases w.maxSteps - steps, 29
    {
      v, err := EvalExpr(env, e.x);
      if err != Nil {
        return;
      }
      if e.uop == Not {
        return VBool(!Truthy(v)), Nil;
      }
      v, err := Unpack(w.negate(v));
    }

    method AssignOf(env: nat, e: Expr) returns (v: Value, err: Error)
      requires Ready(w, View()) && e.Assign?
      modifies this
      ensures !err.RetSignal?
      ensures EvalNode(w, old(View()), env, e) == Out(View(), Answer(v, err))
      decreases w.maxSteps - steps, 29
    {
      v, err := EvalExpr(env, e.val);
      if err != Nil {
        return;
      }
      err := AssignTarget(env, e.target, v);
    }

    method AllItems(env: nat, items: seq<Expr>) returns (vs: seq<Value>, err: Error)
      requires Ready(w, View())
      modifies this
      ensures !err.RetSignal?
      ensures EvalItems(w, old(View()), env, items, []) == Out(View(), Answer(vs, err))
      decreases w.maxSteps - steps, 25
    {
      vs, err := [], Nil;
      var i := 0;
      while i < |items|
        invariant i <= |items| && Ready(w, View()) && old(steps) <= steps
        invariant EvalItems(w, old(View()), env, items, []) == EvalItems(w, View(), env, items[i..], vs)
        invariant err == Nil
      {
        var v;
        assert items[i..][0] == items[i] && items[i..][1..] == items[i + 1..];
        v, err := EvalExpr(env, items[i]);
        if err != Nil {
          return;
        }
        vs := vs + [v];
        i := i + 1;
      }
    }

    method AllFields(env: nat, fields: seq<(string, Expr)>) returns (vs: map<string, Value>, err: Error)
      requires Ready(w, View())
      modifies this
      ensures !err.RetSignal?
      ensures EvalFields(w, old(View()), env, fields, map[]) == Out(View(), Answer(vs, err))
      decreases w.maxSteps - steps, 25
    {
      vs, err := map[], Nil;
      var left := fields;
      while left != []
        invariant Ready(w, View()) && old(steps) <= steps
        invariant EvalFields(w, old(View()), env, fields, map[]) == EvalFields(w, View(), env, left, vs)
        invariant err == Nil
        decreases |left|
      {
        var v;
        var i := w.pick(steps, |left|) % |left|;
        v, err := EvalExpr(env, left[i].1);
        if err != Nil {
          return;
        }
        vs := vs[left[i].0 := v];
        left := left[..i] + left[i + 1..];
      }
    }

    method KeyOf(env: nat, prop: Expr) returns (key: string, err: Error)
      requires Ready(w, View())
      modifies this
      ensures !err.RetSignal?
      ensures PropKey(w, old(View()), env, prop) == Out(View(), Answer(key, err))
      decreases w.maxSteps - steps, 21
    {
      if prop.Str? {
        return prop.s, Nil;
      }
      var v;
      key := "";
      v, err := EvalExpr(env, prop);
      if err != Nil {
        return;
      }
      var t := w.text(v);
      if t.None? {
        return "", RunnerErr(TypeError);
      }
      key := t.value;
    }

    method MemberOf(env: nat, obj: Expr, prop: Expr) returns (v: Value, err: Error)
      requires Ready(w, View())
      modifies this
      ensures !err.RetSignal?
      ensures EvalMember(w, old(View()), env, obj, prop) == Out(View(), Answer(v, err))
      decreases w.maxSteps - steps, 22
    {
      v, err := EvalExpr(env, obj);
      if err != Nil {
        return;
      }
      v, err := PropertyOf(env, v, prop);
    }

    method PropertyOf(env: nat, base: Value, prop: Expr) returns (v: Value, err: Error)
      requires Ready(w, View())
      modifies this
      ensures !err.RetSignal?
      ensures EvalProperty(w, old(View()), env, base, prop) == Out(View(), Answer(v, err))
      decreases w.maxSteps - steps, 22
    {
      var key;
      v := VNull;
      key, err := KeyOf(env, prop);
      if err != Nil {
        return;
      }
      v, err := Unpack(ReadMember(w, heap, base, key));
    }

    /** A result as the pair of a value and an error. */
    method Unpack(r: Res<Value>) returns (v: Value, err: Error)
      ensures !err.RetSignal? && Answer(v, err) == r
    {
      if r.Raise? {
        return VNull, RunnerErr(r.k);
      }
      return r.v, Nil;
    }

    method AssignTarget(env: nat, target: Expr, val: Value) returns (err: Error)
      requires Ready(w, View())
      modifies this
      ensures !err.RetSignal?
      ensures AssignTo(w, old(View()), env, target, val) == Out(View(), Answer((), err))
      decreases w.maxSteps - steps, 22
    {
      if target.Var? {
        var at := Lookup(env, target.name);
        if at.None? {
          return RunnerErr(Reference);
        }
        heap := Define(heap, at.value, target.name, val);
        return Nil;
      }
      if target.Member? {
        var base, key;
        base, err := EvalExpr(env, target.obj);
        if err != Nil {
          return;
        }
        if !base.VObj? {
          return RunnerErr(TypeError);
        }
        key, err := KeyOf(env, target.prop);
        if err != Nil {
          return;
        }
        heap := SetField(heap, base.obj, key, val);
        return Nil;
      }
      err := RunnerErr(TypeError);
    }

    method BinaryOf(env: nat, e: Expr) returns (v: Value, err: Error)
      requires Ready(w, View()) && e.Binary?
      modifies this
      ensures !err.RetSignal?
      ensures EvalBinary(w, old(View()), env, e.op, e.l, e.r) == Out(View(), Answer(v, err))
      decreases w.maxSteps - steps, 22
    {
      v, err := EvalExpr(env, e.l);
      if err != Nil {
        return;
      }
      v, err := RightOf(env, e, v);
    }

    method RightOf(env: nat, e: Expr, a: Value) returns (v: Value, err: Error)
      requires Ready(w, View()) && e.Binary?
      modifies this
      ensures !err.RetSignal?
      ensures EvalRight(w, old(View()), env, e.op, a, e.r) == Out(View(), Answer(v, err))
      decreases w.maxSteps - steps, 22
    {
      if e.op == And && !Truthy(a) {
        return VBool(false), Nil;
      }
      if e.op == Or && Truthy(a) {
        return VBool(true), Nil;
      }
      v, err := EvalExpr(env, e.r);
      if err != Nil || e.op == And || e.op == Or {
        return;
      }
      v, err := Unpack(Operate(w, e.op, a, v));
    }

    method CallOf(env: nat, fn: Expr, args: seq<Expr>) returns (v: Value, err: Error)
      requires Ready(w, View())
      modifies this
      ensures !err.RetSignal?
      ensures EvalCall(w, old(View()), env, fn, args) == Out(View(), Answer(v, err))
      decreases w.maxSteps - steps, 26
    {
      var vs;
      v, err := EvalExpr(env, fn);
      if err != Nil {
        return;
      }
      vs, err := AllItems(env, args);
      if err != Nil {
        return;
      }
      v, err := Invoke(v, vs);
    }

    /** A call: whatever error its body ends with, a return signal stops here. */
    method Invoke(callee: Value, args: seq<Value>) returns (v: Value, err: Error)
      requires Ready(w, View())
      modifies this
      ensures !err.RetSignal?
      ensures CallValue(w, old(View()), callee, args) == Out(View(), Answer(v, err))
      decreases w.maxSteps - steps, 20
    {
      v := VNull;
      err := CountStep();
      if err != Nil {
        return;
      }
      if callee.VNative? {
        v, err := InvokeNative(callee.name, callee.self, args);
        return;
      }
      if !callee.VFn? || |args| < |callee.params| {
        return VNull, RunnerErr(TypeError);
      }
      callDepth := callDepth + 1;
      if callDepth > w.maxDepth {
        callDepth := callDepth - 1;
        return VNull, RunnerErr(Budget);
      }
      var env := NewScope(callee.env, Bind(callee.params, args));
      err := Statements(env, callee.body);
      callDepth := callDepth - 1;
      if err.RetSignal? {
        return err.value, Nil;
      }
    }

    method InvokeNative(name: string, self: Option<Value>, args: seq<Value>) returns (v: Value, err: Error)
      modifies this`heap
      ensures !err.RetSignal?
      ensures CallNative(w, old(View()), name, self, args) == Out(View(), Answer(v, err))
    {
      if name == "push" && self.Some? && self.value.VArr? && self.value.arr < |heap.arrs| {
        var arr := self.value.arr;
        heap := heap.(arrs := heap.arrs[arr := heap.arrs[arr] + args]);
        return VNum(|heap.arrs[arr]| as real), Nil;
      }
      var r := w.native(steps, name, self, args, heap);
      heap := r.0;
      v, err := Unpack(r.1);
    }

    // ---- statements ----

    method ExecStmt(env: nat, s: Option<Stmt>) returns (err: Error)
      requires Ready(w, View())
      modifies this
      ensures Exec(w, old(View()), env, s) == Done(View(), Ending(err))
      decreases w.maxSteps - steps, 20
    {
      err := CountStep();
      if err != Nil || s.None? {
        return;
      }
      match s.value
      case VarDecl(name, init) => err := DeclareVar(env, s.value);
      case ExprStmt(x) =>
        var v;
        v, err := EvalExpr(env, x);
      case Return(value) => err := ReturnWith(env, s.value);
      case Block(stmts) =>
        var child := NewScope(env, map[]);
        err := Statements(child, stmts);
      case If(cond, yes, no) => err := Branch(env, s.value);
      case ForOf(v, it, loop) => err := Loop(env, s.value);
      case FnDecl(fname, params, fbody) =>
        if fname != "" {
          heap := Define(heap, env, fname, VFn(params, fbody, env));
        }
    }

    method DeclareVar(env: nat, s: Stmt) returns (err: Error)
      requires Ready(w, View()) && s.VarDecl?
      modifies this
      ensures ExecNode(w, old(View()), env, s) == Done(View(), Ending(err))
      decreases w.maxSteps - steps, 29
    {
      if s.init.None? {
        heap := Define(heap, env, s.name, VNull);
        return Nil;
      }
      var v;
      v, err := EvalExpr(env, s.init.value);
      if err != Nil {
        return;
      }
      heap := Define(heap, env, s.name, v);
    }

    method ReturnWith(env: nat, s: Stmt) returns (err: Error)
      requires Ready(w, View()) && s.Return?
      modifies this
      ensures ExecNode(w, old(View()), env, s) == Done(View(), Ending(err))
      decreases w.maxSteps - steps, 29
    {
      if s.value.None? {
        return RetSignal(VNull);
      }
      var v;
      v, err := EvalExpr(env, s.value.value);
      if err != Nil {
        return;
      }
      err := RetSignal(v);
    }

    method Branch(env: nat, s: Stmt) returns (err: Error)
      requires Ready(w, View()) && s.If?
      modifies this
      ensures ExecNode(w, old(View()), env, s) == Done(View(), Ending(err))
      decreases w.maxSteps - steps, 29
    {
      var v;
      v, err := EvalExpr(env, s.cond);
      if err != Nil {
        return;
      }
      if Truthy(v) {
        err := ExecStmt(env, s.yes);
      } else if s.no.Some? {
        err := ExecStmt(env, s.no);
      }
    }

    method Loop(env: nat, s: Stmt) returns (err: Error)
      requires Ready(w, View()) && s.ForOf?
      modifies this
      ensures ExecNode(w, old(View()), env, s) == Done(View(), Ending(err))
      decreases w.maxSteps - steps, 29
    {
      var v;
      v, err := EvalExpr(env, s.it);
      if err != Nil {
        return;
      }
      if !v.VArr? {
        return RunnerErr(TypeError);
      }
      err := LoopOver(env, v.arr, s.v, s.loop);
    }

    /** The length is read again before every turn; each turn costs a step, so the loop ends with the budget. */
    method LoopOver(env: nat, arr: nat, v: string, body: seq<Stmt>) returns (err: Error)
      requires Ready(w, View())
      modifies this
      ensures ForLoop(w, old(View()), env, arr, 0, v, body) == Done(View(), Ending(err))
      decreases w.maxSteps - steps, 28
    {
      err := Nil;
      var i := 0;
      while i < |Items(heap, arr)|
        invariant err == Nil && Ready(w, View()) && old(steps) <= steps
        invariant ForLoop(w, old(View()), env, arr, 0, v, body) == ForLoop(w, View(), env, arr, i, v, body)
        decreases w.maxSteps - steps
      {
        err := Turn(env, Items(heap, arr)[i], v, body);
        if err != Nil {
          return;
        }
        i := i + 1;
      }
    }

    method Turn(env: nat, item: Value, v: string, body: seq<Stmt>) returns (err: Error)
      requires Ready(w, View())
      modifies this
      ensures Iterate(w, old(View()), env, item, v, body) == Done(View(), Ending(err))
      decreases w.maxSteps - steps, 27
    {
      err := CountStep();
      if err != Nil {
        return;
      }
      var child := NewScope(env, map[v := item]);
      err := Statements(child, body);
    }

    method Statements(env: nat, stmts: seq<Stmt>) returns (err: Error)
      requires Ready(w, View())
      modifies this
      ensures ExecSeq(w, old(View()), env, stmts) == Done(View(), Ending(err))
      decreases w.maxSteps - steps, 25
    {
      err := Nil;
      var i := 0;
      while i < |stmts|
        invariant i <= |stmts| && err == Nil && Ready(w, View()) && old(steps) <= steps
        invariant ExecSeq(w, old(View()), env, stmts) == ExecSeq(w, View(), env, stmts[i..])
      {
        assert stmts[i..][0] == stmts[i] && stmts[i..][1..] == stmts[i + 1..];
        err := ExecStmt(env, Some(stmts[i]));
        if err != Nil {
          return;
        }
        i := i + 1;
      }
    }

    method RunScript(root: nat, body: seq<Stmt>) returns (v: Value, err: Error)
      requires View() == State(0, 0, heap)
      modifies this
      ensures !err.RetSignal?
      ensures ExecuteScript(w, old(heap), root, body) == Out(View(), Answer(v, err))
      ensures callDepth == 0 && steps <= w.maxSteps + 1
    {
      v := VNull;
      err := Statements(root, body);
      if err.RetSignal? {
        return VNull, RunnerErr(Runtime);
      }
      if err != Nil {
        return;
      }
      var at := Lookup(root, "main");
      if at.None? {
        return VNull, RunnerErr(Schema);
      }
      var req := Lookup(root, "req");
      v, err := Invoke(heap.envs[at.value].vars["main"],
                       [if req.Some? then heap.envs[req.value].vars["req"] else VNull]);
    }
  }
}
