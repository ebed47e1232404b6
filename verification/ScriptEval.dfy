/**
  Reference semantics of hook scripts: expressions yield a value or a failure,
  statements complete normally, with a return, or with a failure. Every bump of
  the step counter is part of the meaning, so the functions terminate under the
  step budget for every script.
 */
module ScriptEval {
  import opened Options
  import opened Script

  datatype Value =
    | VNum(n: real) | VStr(s: string) | VBool(b: bool) | VNull
    | VObj(obj: nat) | VArr(arr: nat)
    | VFn(params: seq<string>, body: seq<Stmt>, env: nat)
    | VNative(name: string, self: Option<Value>)

  datatype Kind = Budget | Timeout | TypeError | Reference | Reflection | Schema | Runtime

  datatype Env = Env(parent: Option<nat>, vars: map<string, Value>)

  /** Scopes, objects and boxed arrays, each allocated by appending. */
  datatype Heap = Heap(envs: seq<Env>, objs: seq<map<string, Value>>, arrs: seq<seq<Value>>)

  datatype State = State(steps: nat, depth: nat, heap: Heap)

  datatype Res<T> = Val(v: T) | Raise(k: Kind)

  datatype Out<T> = Out(st: State, r: Res<T>)

  datatype Completion = Normal | Returned(v: Value) | Failed(k: Kind)

  datatype Done = Done(st: State, c: Completion)

  /**
    The limits, and everything the semantics leaves open: whether the deadline
    has passed at a given step, which object-literal field comes next, number
    and text conversion, and the native functions other than array push. The
    step count is handed along where answers may differ from call to call.
   */
  datatype World = World(
    maxSteps: nat,
    maxDepth: nat,
    expired: nat -> bool,
    pick: (nat, nat) -> nat,
    operate: (BinOp, Value, Value) -> Res<Value>,
    negate: Value -> Res<Value>,
    text: Value -> Option<string>,
    index: string -> Option<int>,
    native: (nat, string, Option<Value>, seq<Value>, Heap) -> (Heap, Res<Value>))

  /** The budget is not used up and the call depth is within its limit. */
  predicate Ready(w: World, st: State) {
    st.steps <= w.maxSteps && st.depth <= w.maxDepth
  }

  /** What every evaluation keeps: the call depth is back, and the steps stay within one over the budget. */
  predicate Kept(w: World, st: State, after: State, fine: bool) {
    && after.depth == st.depth
    && st.steps <= after.steps <= w.maxSteps + 1
    && (fine ==> after.steps <= w.maxSteps)
  }

  predicate Spent(w: World, st: State, after: State, fine: bool) {
    Kept(w, st, after, fine) && st.steps < after.steps
  }

  function Bump(w: World, st: State): (r: (State, Option<Kind>))
    requires Ready(w, st)
    ensures Spent(w, st, r.0, r.1.None?) && r.0.heap == st.heap
  {
    var st1 := st.(steps := st.steps + 1);
    if st1.steps > w.maxSteps then (st1, Some(Budget))
    else if st1.steps % 1024 == 0 && w.expired(st1.steps) then (st1, Some(Timeout))
    else (st1, None)
  }

  // ---- scopes, objects and arrays ----

  function Scope(h: Heap, env: nat): Env {
    if env < |h.envs| then h.envs[env] else Env(None, map[])
  }

  /** The scope that holds a name, looking outwards; a parent is always an older scope. */
  function Find(h: Heap, env: nat, name: string): (r: Option<nat>)
    ensures r.Some? ==> r.value < |h.envs| && name in h.envs[r.value].vars
    decreases env
  {
    if name in Scope(h, env).vars then Some(env)
    else if Scope(h, env).parent.Some? && Scope(h, env).parent.value < env
    then Find(h, Scope(h, env).parent.value, name)
    else None
  }

  function Define(h: Heap, env: nat, name: string, v: Value): Heap {
    if env < |h.envs| then h.(envs := h.envs[env := h.envs[env].(vars := h.envs[env].vars[name := v])]) else h
  }

  function Child(h: Heap, parent: nat, vars: map<string, Value>): (r: (Heap, nat)) {
    (h.(envs := h.envs + [Env(Some(parent), vars)]), |h.envs|)
  }

  function Fields(h: Heap, obj: nat): map<string, Value> {
    if obj < |h.objs| then h.objs[obj] else map[]
  }

  function Items(h: Heap, arr: nat): seq<Value> {
    if arr < |h.arrs| then h.arrs[arr] else []
  }

  function SetField(h: Heap, obj: nat, key: string, v: Value): Heap {
    if obj < |h.objs| then h.(objs := h.objs[obj := h.objs[obj][key := v]]) else h
  }

  function Bind(params: seq<string>, args: seq<Value>): map<string, Value>
    requires |params| <= |args|
  {
    if params == [] then map[]
    else Bind(params[..|params| - 1], args)[params[|params| - 1] := args[|params| - 1]]
  }

  // ---- value functions ----

  predicate Truthy(v: Value) {
    match v
    case VBool(b) => b
    case VNum(n) => n != 0.0
    case VStr(s) => s != ""
    case VNull => false
    case _ => true
  }

  /** Equality of like scalars; anything else is unequal. */
  predicate LooseEq(a: Value, b: Value) {
    match a
    case VStr(s) => b.VStr? && s == b.s
    case VNum(n) => b.VNum? && n == b.n
    case VBool(x) => b.VBool? && x == b.b
    case VNull => b.VNull?
    case _ => false
  }

  function Operate(w: World, op: BinOp, l: Value, r: Value): Res<Value> {
    if op == Eq || op == StrictEq then Val(VBool(LooseEq(l, r)))
    else if op == Neq || op == StrictNeq then Val(VBool(!LooseEq(l, r)))
    else w.operate(op, l, r)
  }

  function ReadMember(w: World, h: Heap, base: Value, key: string): Res<Value> {
    match base
    case VObj(obj) =>
      if key in Fields(h, obj) then Val(Fields(h, obj)[key])
      else if key == "length" then Val(VNum(|Fields(h, obj)| as real))
      else Raise(Reference)
    case VArr(arr) =>
      if key == "length" then Val(VNum(|Items(h, arr)| as real))
      else if key in ["push", "sort", "join"] then Val(VNative(key, Some(base)))
      else if w.index(key).Some? && 0 <= w.index(key).value < |Items(h, arr)|
      then Val(Items(h, arr)[w.index(key).value])
      else Raise(Reference)
    case VStr(s) =>
      if key == "length" then Val(VNum(|s| as real))
      else if key in ["toUpperCase", "toLowerCase", "split", "indexOf", "substring"]
      then Val(VNative(key, Some(base)))
      else Raise(Reference)
    case VNative(_, _) => Raise(Reflection)
    case VFn(_, _, _) => Raise(Reflection)
    case _ => Raise(TypeError)
  }

  /** Native calls touch neither the step counter nor the call depth. */
  function CallNative(w: World, st: State, name: string, self: Option<Value>, args: seq<Value>): (o: Out<Value>)
    ensures o.st.steps == st.steps && o.st.depth == st.depth
  {
    if name == "push" && self.Some? && self.value.VArr? && self.value.arr < |st.heap.arrs| then
      var arr := self.value.arr;
      var items := st.heap.arrs[arr] + args;
      Out(st.(heap := st.heap.(arrs := st.heap.arrs[arr := items])), Val(VNum(|items| as real)))
    else
      var r := w.native(st.steps, name, self, args, st.heap);
      Out(st.(heap := r.0), r.1)
  }

  // ---- expressions ----

  function Eval(w: World, st: State, env: nat, e: Expr): (o: Out<Value>)
    requires Ready(w, st)
    ensures Spent(w, st, o.st, o.r.Val?)
    decreases w.maxSteps - st.steps, 20
  {
    var b := Bump(w, st);
    if b.1.Some? then Out(b.0, Raise(b.1.value)) else EvalNode(w, b.0, env, e)
  }

  /** An expression after its own step has been counted. */
  function EvalNode(w: World, st: State, env: nat, e: Expr): (o: Out<Value>)
    requires Ready(w, st)
    ensures Kept(w, st, o.st, o.r.Val?)
    decreases w.maxSteps - st.steps, 30
  {
    match e
    case Num(n) => Out(st, Val(VNum(n)))
    case Str(s) => Out(st, Val(VStr(s)))
    case Bool(b) => Out(st, Val(VBool(b)))
    case Null => Out(st, Val(VNull))
    case Var(name) =>
      var at := Find(st.heap, env, name);
      Out(st, if at.Some? then Val(st.heap.envs[at.value].vars[name]) else Raise(Reference))
    case Object(fields) =>
      var o := EvalFields(w, st, env, fields, map[]);
      if o.r.Raise? then Out(o.st, Raise(o.r.k))
      else Out(o.st.(heap := o.st.heap.(objs := o.st.heap.objs + [o.r.v])), Val(VObj(|o.st.heap.objs|)))
    case Array(items) =>
      var o := EvalItems(w, st, env, items, []);
      if o.r.Raise? then Out(o.st, Raise(o.r.k))
      else Out(o.st.(heap := o.st.heap.(arrs := o.st.heap.arrs + [o.r.v])), Val(VArr(|o.st.heap.arrs|)))
    case Member(obj, prop) => EvalMember(w, st, env, obj, prop)
    case Call(fn, args) => EvalCall(w, st, env, fn, args)
    case Binary(op, l, r) => EvalBinary(w, st, env, op, l, r)
    case Unary(uop, x) =>
      var o := Eval(w, st, env, x);
      if o.r.Raise? then o
      else Out(o.st, if uop == Not then Val(VBool(!Truthy(o.r.v))) else w.negate(o.r.v))
    case Function(params, body) => Out(st, Val(VFn(params, body, env)))
    case Assign(target, val) =>
      var o := Eval(w, st, env, val);
      if o.r.Raise? then o
      else
        var a := AssignTo(w, o.st, env, target, o.r.v);
        Out(a.st, if a.r.Raise? then Raise(a.r.k) else o.r)
  }

  /** The values of a list of expressions, left to right. */
  function EvalItems(w: World, st: State, env: nat, items: seq<Expr>, done: seq<Value>): (o: Out<seq<Value>>)
    requires Ready(w, st)
    ensures Kept(w, st, o.st, o.r.Val?)
    decreases w.maxSteps - st.steps, 25, |items|
  {
    if items == [] then Out(st, Val(done))
    else
      var o := Eval(w, st, env, items[0]);
      if o.r.Raise? then Out(o.st, Raise(o.r.k)) else EvalItems(w, o.st, env, items[1..], done + [o.r.v])
  }

  /** The fields of an object literal, in any order. */
  function EvalFields(w: World, st: State, env: nat, left: seq<(string, Expr)>, done: map<string, Value>): (o: Out<map<string, Value>>)
    requires Ready(w, st)
    ensures Kept(w, st, o.st, o.r.Val?)
    decreases w.maxSteps - st.steps, 25, |left|
  {
    if left == [] then Out(st, Val(done))
    else
      var i := w.pick(st.steps, |left|) % |left|;
      var o := Eval(w, st, env, left[i].1);
      if o.r.Raise? then Out(o.st, Raise(o.r.k))
      else EvalFields(w, o.st, env, left[..i] + left[i + 1..], done[left[i].0 := o.r.v])
  }

  /** A property name: constant, or the text of a value. */
  function PropKey(w: World, st: State, env: nat, prop: Expr): (o: Out<string>)
    requires Ready(w, st)
    ensures Kept(w, st, o.st, o.r.Val?)
    decreases w.maxSteps - st.steps, 21
  {
    if prop.Str? then Out(st, Val(prop.s))
    else
      var o := Eval(w, st, env, prop);
      if o.r.Raise? then Out(o.st, Raise(o.r.k))
      else if w.text(o.r.v).None? then Out(o.st, Raise(TypeError))
      else Out(o.st, Val(w.text(o.r.v).value))
  }

  function EvalMember(w: World, st: State, env: nat, obj: Expr, prop: Expr): (o: Out<Value>)
    requires Ready(w, st)
    ensures Kept(w, st, o.st, o.r.Val?)
    decreases w.maxSteps - st.steps, 22
  {
    var b := Eval(w, st, env, obj);
    if b.r.Raise? then b else EvalProperty(w, b.st, env, b.r.v, prop)
  }

  function EvalProperty(w: World, st: State, env: nat, base: Value, prop: Expr): (o: Out<Value>)
    requires Ready(w, st)
    ensures Kept(w, st, o.st, o.r.Val?)
    decreases w.maxSteps - st.steps, 22
  {
    var k := PropKey(w, st, env, prop);
    if k.r.Raise? then Out(k.st, Raise(k.r.k)) else Out(k.st, ReadMember(w, k.st.heap, base, k.r.v))
  }

  function AssignTo(w: World, st: State, env: nat, target: Expr, val: Value): (o: Out<()>)
    requires Ready(w, st)
    ensures Kept(w, st, o.st, o.r.Val?)
    decreases w.maxSteps - st.steps, 22
  {
    if target.Var? then
      var at := Find(st.heap, env, target.name);
      if at.None? then Out(st, Raise(Reference))
      else Out(st.(heap := Define(st.heap, at.value, target.name, val)), Val(()))
    else if target.Member? then
      var b := Eval(w, st, env, target.obj);
      if b.r.Raise? then Out(b.st, Raise(b.r.k))
      else if !b.r.v.VObj? then Out(b.st, Raise(TypeError))
      else
        var k := PropKey(w, b.st, env, target.prop);
        if k.r.Raise? then Out(k.st, Raise(k.r.k))
        else Out(k.st.(heap := SetField(k.st.heap, b.r.v.obj, k.r.v, val)), Val(()))
    else Out(st, Raise(TypeError))
  }

  function EvalBinary(w: World, st: State, env: nat, op: BinOp, l: Expr, r: Expr): (o: Out<Value>)
    requires Ready(w, st)
    ensures Kept(w, st, o.st, o.r.Val?)
    decreases w.maxSteps - st.steps, 22
  {
    var a := Eval(w, st, env, l);
    if a.r.Raise? then a else EvalRight(w, a.st, env, op, a.r.v, r)
  }

  /** The rest of a binary expression; && and || may stop short of their right operand. */
  function EvalRight(w: World, st: State, env: nat, op: BinOp, a: Value, r: Expr): (o: Out<Value>)
    requires Ready(w, st)
    ensures Kept(w, st, o.st, o.r.Val?)
    decreases w.maxSteps - st.steps, 22
  {
    if op == And && !Truthy(a) then Out(st, Val(VBool(false)))
    else if op == Or && Truthy(a) then Out(st, Val(VBool(true)))
    else
      var b := Eval(w, st, env, r);
      if b.r.Raise? || op == And || op == Or then b else Out(b.st, Operate(w, op, a, b.r.v))
  }

  function EvalCall(w: World, st: State, env: nat, fn: Expr, args: seq<Expr>): (o: Out<Value>)
    requires Ready(w, st)
    ensures Kept(w, st, o.st, o.r.Val?)
    decreases w.maxSteps - st.steps, 26
  {
    var f := Eval(w, st, env, fn);
    if f.r.Raise? then f
    else
      var a := EvalItems(w, f.st, env, args, []);
      if a.r.Raise? then Out(a.st, Raise(a.r.k)) else CallValue(w, a.st, f.r.v, a.r.v)
  }

  /** A call gives a value or fails; a return in the body ends here. */
  function CallValue(w: World, st: State, callee: Value, args: seq<Value>): (o: Out<Value>)
    requires Ready(w, st)
    ensures Spent(w, st, o.st, o.r.Val?)
    decreases w.maxSteps - st.steps, 20
  {
    var b := Bump(w, st);
    if b.1.Some? then Out(b.0, Raise(b.1.value))
    else if callee.VNative? then CallNative(w, b.0, callee.name, callee.self, args)
    else if !callee.VFn? || |args| < |callee.params| then Out(b.0, Raise(TypeError))
    else if b.0.depth + 1 > w.maxDepth then Out(b.0, Raise(Budget))
    else
      var c := Child(b.0.heap, callee.env, Bind(callee.params, args));
      var d := ExecSeq(w, b.0.(depth := b.0.depth + 1, heap := c.0), c.1, callee.body);
      Out(d.st.(depth := d.st.depth - 1), CallResult(d.c))
  }

  function CallResult(c: Completion): Res<Value> {
    match c
    case Normal => Val(VNull)
    case Returned(v) => Val(v)
    case Failed(k) => Raise(k)
  }

  // ---- statements ----

  function Exec(w: World, st: State, env: nat, s: Option<Stmt>): (d: Done)
    requires Ready(w, st)
    ensures Spent(w, st, d.st, !d.c.Failed?)
    decreases w.maxSteps - st.steps, 20
  {
    var b := Bump(w, st);
    if b.1.Some? then Done(b.0, Failed(b.1.value))
    else if s.None? then Done(b.0, Normal)
    else ExecNode(w, b.0, env, s.value)
  }

  /** A statement after its own step has been counted. */
  function ExecNode(w: World, st: State, env: nat, s: Stmt): (d: Done)
    requires Ready(w, st)
    ensures Kept(w, st, d.st, !d.c.Failed?)
    decreases w.maxSteps - st.steps, 30
  {
    match s
    case VarDecl(name, init) =>
      if init.None? then Done(st.(heap := Define(st.heap, env, name, VNull)), Normal)
      else
        var o := Eval(w, st, env, init.value);
        if o.r.Raise? then Done(o.st, Failed(o.r.k))
        else Done(o.st.(heap := Define(o.st.heap, env, name, o.r.v)), Normal)
    case ExprStmt(x) =>
      var o := Eval(w, st, env, x);
      Done(o.st, if o.r.Raise? then Failed(o.r.k) else Normal)
    case Return(value) =>
      if value.None? then Done(st, Returned(VNull))
      else
        var o := Eval(w, st, env, value.value);
        Done(o.st, if o.r.Raise? then Failed(o.r.k) else Returned(o.r.v))
    case Block(stmts) =>
      var c := Child(st.heap, env, map[]);
      ExecSeq(w, st.(heap := c.0), c.1, stmts)
    case If(cond, yes, no) =>
      var o := Eval(w, st, env, cond);
      if o.r.Raise? then Done(o.st, Failed(o.r.k))
      else if Truthy(o.r.v) then Exec(w, o.st, env, yes)
      else if no.Some? then Exec(w, o.st, env, no)
      else Done(o.st, Normal)
    case ForOf(v, it, loop) =>
      var o := Eval(w, st, env, it);
      if o.r.Raise? then Done(o.st, Failed(o.r.k))
      else if !o.r.v.VArr? then Done(o.st, Failed(TypeError))
      else ForLoop(w, o.st, env, o.r.v.arr, 0, v, loop)
    case FnDecl(fname, params, fbody) =>
      Done(st.(heap := if fname == "" then st.heap else Define(st.heap, env, fname, VFn(params, fbody, env))), Normal)
  }

  /** Statements in order, up to the first that does not complete normally. */
  function ExecSeq(w: World, st: State, env: nat, stmts: seq<Stmt>): (d: Done)
    requires Ready(w, st)
    ensures Kept(w, st, d.st, !d.c.Failed?)
    decreases w.maxSteps - st.steps, 25, |stmts|
  {
    if stmts == [] then Done(st, Normal)
    else
      var d := Exec(w, st, env, Some(stmts[0]));
      if d.c.Normal? then ExecSeq(w, d.st, env, stmts[1..]) else d
  }

  /** for..of from index i over the live array, which the body may be growing. */
  function ForLoop(w: World, st: State, env: nat, arr: nat, i: nat, v: string, body: seq<Stmt>): (d: Done)
    requires Ready(w, st)
    ensures Kept(w, st, d.st, !d.c.Failed?)
    decreases w.maxSteps - st.steps, 28
  {
    if i >= |Items(st.heap, arr)| then Done(st, Normal)
    else
      var d := Iterate(w, st, env, Items(st.heap, arr)[i], v, body);
      if d.c.Normal? then ForLoop(w, d.st, env, arr, i + 1, v, body) else d
  }

  /** One turn of the loop, which costs a step of its own. */
  function Iterate(w: World, st: State, env: nat, item: Value, v: string, body: seq<Stmt>): (d: Done)
    requires Ready(w, st)
    ensures Spent(w, st, d.st, !d.c.Failed?)
    decreases w.maxSteps - st.steps, 27
  {
    var b := Bump(w, st);
    if b.1.Some? then Done(b.0, Failed(b.1.value))
    else
      var c := Child(b.0.heap, env, map[v := item]);
      ExecSeq(w, b.0.(heap := c.0), c.1, body)
  }

  /**
    A whole script: its statements in the root scope, then main(req). A return
    outside any function is a failure of the script.
   */
  function ExecuteScript(w: World, heap: Heap, root: nat, body: seq<Stmt>): (o: Out<Value>)
    ensures o.st.depth == 0 && o.st.steps <= w.maxSteps + 1
    ensures o.r.Val? ==> o.st.steps <= w.maxSteps
  {
    var d := ExecSeq(w, State(0, 0, heap), root, body);
    if d.c.Failed? then Out(d.st, Raise(d.c.k))
    else if d.c.Returned? then Out(d.st, Raise(Runtime))
    else
      var at := Find(d.st.heap, root, "main");
      if at.None? then Out(d.st, Raise(Schema))
      else
        var req := Find(d.st.heap, root, "req");
        CallValue(w, d.st, d.st.heap.envs[at.value].vars["main"],
                  [if req.Some? then d.st.heap.envs[req.value].vars["req"] else VNull])
  }
}
