/**
  No script ever holds a dangling reference: every scope, object and array it can
  reach has been allocated, and a scope's parent is always older than the scope.
 */
module ScriptHeap {
  import opened Options
  import opened Script
  import opened ScriptEval

  // ---- well-formed heaps ----

  predicate ValueOk(h: Heap, v: Value) {
    match v
    case VObj(obj) => obj < |h.objs|
    case VArr(arr) => arr < |h.arrs|
    case VFn(_, _, env) => env < |h.envs|
    case VNative(_, self) => self.Some? ==> ValueOk(h, self.value)
    case _ => true
  }

  predicate MapOk(h: Heap, m: map<string, Value>) {
    forall k | k in m :: ValueOk(h, m[k])
  }

  predicate SeqOk(h: Heap, vs: seq<Value>) {
    forall i | 0 <= i < |vs| :: ValueOk(h, vs[i])
  }

  predicate EnvsOk(h: Heap) {
    forall e | 0 <= e < |h.envs| ::
      (h.envs[e].parent.Some? ==> h.envs[e].parent.value < e) && MapOk(h, h.envs[e].vars)
  }

  predicate ObjsOk(h: Heap) {
    forall o | 0 <= o < |h.objs| :: MapOk(h, h.objs[o])
  }

  predicate ArrsOk(h: Heap) {
    forall a | 0 <= a < |h.arrs| :: SeqOk(h, h.arrs[a])
  }

  predicate HeapOk(h: Heap) {
    EnvsOk(h) && ObjsOk(h) && ArrsOk(h)
  }

  /** Nothing allocated is ever freed. */
  predicate Grows(h: Heap, g: Heap) {
    |h.envs| <= |g.envs| && |h.objs| <= |g.objs| && |h.arrs| <= |g.arrs|
  }

  predicate Fine(h: Heap, g: Heap) {
    HeapOk(g) && Grows(h, g)
  }

  lemma {:induction false} ValueStays(h: Heap, g: Heap, v: Value)
    requires Grows(h, g) && ValueOk(h, v)
    ensures ValueOk(g, v)
    decreases v
  {
    if v.VNative? && v.self.Some? {
      ValueStays(h, g, v.self.value);
    }
  }

  lemma MapStays(h: Heap, g: Heap, m: map<string, Value>)
    requires Grows(h, g) && MapOk(h, m)
    ensures MapOk(g, m)
  {
    forall k | k in m ensures ValueOk(g, m[k]) {
      ValueStays(h, g, m[k]);
    }
  }

  lemma SeqStays(h: Heap, g: Heap, vs: seq<Value>)
    requires Grows(h, g) && SeqOk(h, vs)
    ensures SeqOk(g, vs)
  {
    forall i | 0 <= i < |vs| ensures ValueOk(g, vs[i]) {
      ValueStays(h, g, vs[i]);
    }
  }

  // ---- the heap operations ----

  lemma EnvsStay(h: Heap, g: Heap)
    requires Grows(h, g) && EnvsOk(h) && g.envs == h.envs
    ensures EnvsOk(g)
  {
    forall e | 0 <= e < |g.envs| ensures MapOk(g, g.envs[e].vars) {
      MapStays(h, g, h.envs[e].vars);
    }
  }

  lemma ObjsStay(h: Heap, g: Heap)
    requires Grows(h, g) && ObjsOk(h) && g.objs == h.objs
    ensures ObjsOk(g)
  {
    forall o | 0 <= o < |g.objs| ensures MapOk(g, g.objs[o]) {
      MapStays(h, g, h.objs[o]);
    }
  }

  lemma ArrsStay(h: Heap, g: Heap)
    requires Grows(h, g) && ArrsOk(h) && g.arrs == h.arrs
    ensures ArrsOk(g)
  {
    forall a | 0 <= a < |g.arrs| ensures SeqOk(g, g.arrs[a]) {
      SeqStays(h, g, h.arrs[a]);
    }
  }

  lemma ChildFine(h: Heap, parent: nat, vars: map<string, Value>)
    requires HeapOk(h) && parent < |h.envs| && MapOk(h, vars)
    ensures Fine(h, Child(h, parent, vars).0) && Child(h, parent, vars).1 < |Child(h, parent, vars).0.envs|
  {
    var g := Child(h, parent, vars).0;
    MapStays(h, g, vars);
    forall e | 0 <= e < |g.envs| ensures MapOk(g, g.envs[e].vars) {
      if e < |h.envs| {
        MapStays(h, g, h.envs[e].vars);
      }
    }
    ObjsStay(h, g);
    ArrsStay(h, g);
  }

  lemma DefineFine(h: Heap, env: nat, name: string, v: Value)
    requires HeapOk(h) && ValueOk(h, v)
    ensures Fine(h, Define(h, env, name, v))
  {
    var g := Define(h, env, name, v);
    forall e | 0 <= e < |g.envs| ensures MapOk(g, g.envs[e].vars) {
      MapStays(h, g, h.envs[e].vars);
      ValueStays(h, g, v);
    }
    ObjsStay(h, g);
    ArrsStay(h, g);
  }

  lemma SetFieldFine(h: Heap, obj: nat, key: string, v: Value)
    requires HeapOk(h) && ValueOk(h, v)
    ensures Fine(h, SetField(h, obj, key, v))
  {
    var g := SetField(h, obj, key, v);
    EnvsStay(h, g);
    forall o | 0 <= o < |g.objs| ensures MapOk(g, g.objs[o]) {
      MapStays(h, g, h.objs[o]);
      ValueStays(h, g, v);
    }
    ArrsStay(h, g);
  }

  lemma NewObjectFine(h: Heap, m: map<string, Value>)
    requires HeapOk(h) && MapOk(h, m)
    ensures Fine(h, h.(objs := h.objs + [m]))
  {
    var g := h.(objs := h.objs + [m]);
    EnvsStay(h, g);
    MapStays(h, g, m);
    forall o | 0 <= o < |g.objs| ensures MapOk(g, g.objs[o]) {
      if o < |h.objs| {
        MapStays(h, g, h.objs[o]);
      }
    }
    ArrsStay(h, g);
  }

  lemma NewArrayFine(h: Heap, vs: seq<Value>)
    requires HeapOk(h) && SeqOk(h, vs)
    ensures Fine(h, h.(arrs := h.arrs + [vs]))
  {
    var g := h.(arrs := h.arrs + [vs]);
    EnvsStay(h, g);
    ObjsStay(h, g);
    SeqStays(h, g, vs);
    forall a | 0 <= a < |g.arrs| ensures SeqOk(g, g.arrs[a]) {
      if a < |h.arrs| {
        SeqStays(h, g, h.arrs[a]);
      }
    }
  }

  lemma PushFine(h: Heap, arr: nat, vs: seq<Value>)
    requires HeapOk(h) && arr < |h.arrs| && SeqOk(h, vs)
    ensures Fine(h, h.(arrs := h.arrs[arr := h.arrs[arr] + vs]))
  {
    var g := h.(arrs := h.arrs[arr := h.arrs[arr] + vs]);
    EnvsStay(h, g);
    ObjsStay(h, g);
    forall a | 0 <= a < |g.arrs| ensures SeqOk(g, g.arrs[a]) {
      SeqStays(h, g, h.arrs[a]);
      SeqStays(h, g, vs);
    }
  }

  lemma {:induction false} BindOk(h: Heap, params: seq<string>, args: seq<Value>)
    requires |params| <= |args| && SeqOk(h, args)
    ensures MapOk(h, Bind(params, args))
    decreases |params|
  {
    if params != [] {
      BindOk(h, params[..|params| - 1], args);
    }
  }

  // ---- what is left open does not invent references ----

  predicate Scalar(v: Value) {
    v.VNum? || v.VStr? || v.VBool? || v.VNull?
  }

  /** Operators give scalars; a native keeps the heap well-formed and answers with an allocated value. */
  ghost predicate Honest(w: World) {
    && (forall op, l, r :: w.operate(op, l, r).Val? ==> Scalar(w.operate(op, l, r).v))
    && (forall v :: w.negate(v).Val? ==> Scalar(w.negate(v).v))
    && (forall steps, name, self: Option<Value>, args, h ::
          HeapOk(h) && SeqOk(h, args) && (self.Some? ==> ValueOk(h, self.value)) ==>
            Answered(h, w.native(steps, name, self, args, h)))
  }

  predicate Answered(h: Heap, r: (Heap, Res<Value>)) {
    Fine(h, r.0) && (r.1.Val? ==> ValueOk(r.0, r.1.v))
  }

  /** The scope is allocated in a well-formed heap. */
  predicate In(st: State, env: nat) {
    HeapOk(st.heap) && env < |st.heap.envs|
  }

  predicate ValueOut(st: State, o: Out<Value>) {
    Fine(st.heap, o.st.heap) && (o.r.Val? ==> ValueOk(o.st.heap, o.r.v))
  }

  lemma NativeKeeps(w: World, st: State, name: string, self: Option<Value>, args: seq<Value>)
    requires Honest(w) && HeapOk(st.heap) && SeqOk(st.heap, args) && (self.Some? ==> ValueOk(st.heap, self.value))
    ensures ValueOut(st, CallNative(w, st, name, self, args))
  {
    if name == "push" && self.Some? && self.value.VArr? && self.value.arr < |st.heap.arrs| {
      PushFine(st.heap, self.value.arr, args);
    } else {
      assert Answered(st.heap, w.native(st.steps, name, self, args, st.heap));
    }
  }

  lemma MemberOk(w: World, h: Heap, base: Value, key: string)
    requires HeapOk(h) && ValueOk(h, base)
    ensures ReadMember(w, h, base, key).Val? ==> ValueOk(h, ReadMember(w, h, base, key).v)
  {
    if base.VObj? && key in Fields(h, base.obj) {
      assert MapOk(h, h.objs[base.obj]);
    } else if base.VArr? {
      assert SeqOk(h, h.arrs[base.arr]);
    }
  }

  // ---- expressions ----

  lemma {:induction false} EvalKeeps(w: World, st: State, env: nat, e: Expr)
    requires Honest(w) && Ready(w, st) && In(st, env)
    ensures ValueOut(st, Eval(w, st, env, e))
    decreases w.maxSteps - st.steps, 20
  {
    var b := Bump(w, st);
    if b.1.None? {
      NodeKeeps(w, b.0, env, e);
    }
  }

  lemma {:induction false} NodeKeeps(w: World, st: State, env: nat, e: Expr)
    requires Honest(w) && Ready(w, st) && In(st, env)
    ensures ValueOut(st, EvalNode(w, st, env, e))
    decreases w.maxSteps - st.steps, 30
  {
    if e.Var? {
      VarOk(st.heap, env, e.name);
    } else if e.Object? {
      FieldsKeep(w, st, env, e.fields, map[]);
      var o := EvalFields(w, st, env, e.fields, map[]);
      if o.r.Val? {
        NewObjectFine(o.st.heap, o.r.v);
      }
    } else if e.Array? {
      ItemsKeep(w, st, env, e.items, []);
      var o := EvalItems(w, st, env, e.items, []);
      if o.r.Val? {
        NewArrayFine(o.st.heap, o.r.v);
      }
    } else if e.Member? {
      MemberKeeps(w, st, env, e.obj, e.prop);
    } else if e.Call? {
      CallExprKeeps(w, st, env, e.fn, e.args);
    } else if e.Binary? {
      BinaryKeeps(w, st, env, e);
    } else if e.Unary? {
      EvalKeeps(w, st, env, e.x);
    } else if e.Assign? {
      AssignKeeps(w, st, env, e);
    }
  }

  lemma VarOk(h: Heap, env: nat, name: string)
    requires HeapOk(h)
    ensures Find(h, env, name).Some? ==> ValueOk(h, h.envs[Find(h, env, name).value].vars[name])
  {
    var at := Find(h, env, name);
    if at.Some? {
      assert MapOk(h, h.envs[at.value].vars);
    }
  }

  lemma {:induction false} AssignKeeps(w: World, st: State, env: nat, e: Expr)
    requires Honest(w) && Ready(w, st) && In(st, env) && e.Assign?
    ensures ValueOut(st, EvalNode(w, st, env, e))
    decreases w.maxSteps - st.steps, 29
  {
    EvalKeeps(w, st, env, e.val);
    var o := Eval(w, st, env, e.val);
    if o.r.Val? {
      TargetKeeps(w, o.st, env, e.target, o.r.v);
      var a := AssignTo(w, o.st, env, e.target, o.r.v);
      ValueStays(o.st.heap, a.st.heap, o.r.v);
    }
  }

  lemma {:induction false} ItemsKeep(w: World, st: State, env: nat, items: seq<Expr>, done: seq<Value>)
    requires Honest(w) && Ready(w, st) && In(st, env) && SeqOk(st.heap, done)
    ensures var o := EvalItems(w, st, env, items, done);
            Fine(st.heap, o.st.heap) && (o.r.Val? ==> SeqOk(o.st.heap, o.r.v))
    decreases w.maxSteps - st.steps, 25, |items|
  {
    if items != [] {
      EvalKeeps(w, st, env, items[0]);
      var o := Eval(w, st, env, items[0]);
      if o.r.Val? {
        SeqStays(st.heap, o.st.heap, done);
        ItemsKeep(w, o.st, env, items[1..], done + [o.r.v]);
      }
    }
  }

  lemma {:induction false} FieldsKeep(w: World, st: State, env: nat, left: seq<(string, Expr)>, done: map<string, Value>)
    requires Honest(w) && Ready(w, st) && In(st, env) && MapOk(st.heap, done)
    ensures var o := EvalFields(w, st, env, left, done);
            Fine(st.heap, o.st.heap) && (o.r.Val? ==> MapOk(o.st.heap, o.r.v))
    decreases w.maxSteps - st.steps, 25, |left|
  {
    if left != [] {
      var i := w.pick(st.steps, |left|) % |left|;
      EvalKeeps(w, st, env, left[i].1);
      var o := Eval(w, st, env, left[i].1);
      if o.r.Val? {
        MapStays(st.heap, o.st.heap, done);
        FieldsKeep(w, o.st, env, left[..i] + left[i + 1..], done[left[i].0 := o.r.v]);
      }
    }
  }

  lemma {:induction false} KeyKeeps(w: World, st: State, env: nat, prop: Expr)
    requires Honest(w) && Ready(w, st) && In(st, env)
    ensures Fine(st.heap, PropKey(w, st, env, prop).st.heap)
    decreases w.maxSteps - st.steps, 21
  {
    if !prop.Str? {
      EvalKeeps(w, st, env, prop);
    }
  }

  lemma {:induction false} MemberKeeps(w: World, st: State, env: nat, obj: Expr, prop: Expr)
    requires Honest(w) && Ready(w, st) && In(st, env)
    ensures ValueOut(st, EvalMember(w, st, env, obj, prop))
    decreases w.maxSteps - st.steps, 22
  {
    EvalKeeps(w, st, env, obj);
    var b := Eval(w, st, env, obj);
    if b.r.Val? {
      PropertyKeeps(w, b.st, env, b.r.v, prop);
    }
  }

  lemma {:induction false} PropertyKeeps(w: World, st: State, env: nat, base: Value, prop: Expr)
    requires Honest(w) && Ready(w, st) && In(st, env) && ValueOk(st.heap, base)
    ensures ValueOut(st, EvalProperty(w, st, env, base, prop))
    decreases w.maxSteps - st.steps, 22
  {
    KeyKeeps(w, st, env, prop);
    var k := PropKey(w, st, env, prop);
    if k.r.Val? {
      ValueStays(st.heap, k.st.heap, base);
      MemberOk(w, k.st.heap, base, k.r.v);
    }
  }

  lemma {:induction false} TargetKeeps(w: World, st: State, env: nat, target: Expr, val: Value)
    requires Honest(w) && Ready(w, st) && In(st, env) && ValueOk(st.heap, val)
    ensures Fine(st.heap, AssignTo(w, st, env, target, val).st.heap)
    decreases w.maxSteps - st.steps, 22
  {
    if target.Var? {
      var at := Find(st.heap, env, target.name);
      if at.Some? {
        DefineFine(st.heap, at.value, target.name, val);
      }
    } else if target.Member? {
      EvalKeeps(w, st, env, target.obj);
      var b := Eval(w, st, env, target.obj);
      if b.r.Val? && b.r.v.VObj? {
        KeyKeeps(w, b.st, env, target.prop);
        var k := PropKey(w, b.st, env, target.prop);
        ValueStays(st.heap, k.st.heap, val);
        if k.r.Val? {
          SetFieldFine(k.st.heap, b.r.v.obj, k.r.v, val);
        }
      }
    }
  }

  lemma {:induction false} BinaryKeeps(w: World, st: State, env: nat, e: Expr)
    requires Honest(w) && Ready(w, st) && In(st, env) && e.Binary?
    ensures ValueOut(st, EvalBinary(w, st, env, e.op, e.l, e.r))
    decreases w.maxSteps - st.steps, 22
  {
    EvalKeeps(w, st, env, e.l);
    var a := Eval(w, st, env, e.l);
    if a.r.Val? {
      RightKeeps(w, a.st, env, e, a.r.v);
    }
  }

  lemma {:induction false} RightKeeps(w: World, st: State, env: nat, e: Expr, a: Value)
    requires Honest(w) && Ready(w, st) && In(st, env) && e.Binary?
    ensures ValueOut(st, EvalRight(w, st, env, e.op, a, e.r))
    decreases w.maxSteps - st.steps, 22
  {
    EvalKeeps(w, st, env, e.r);
  }

  lemma {:induction false} CallExprKeeps(w: World, st: State, env: nat, fn: Expr, args: seq<Expr>)
    requires Honest(w) && Ready(w, st) && In(st, env)
    ensures ValueOut(st, EvalCall(w, st, env, fn, args))
    decreases w.maxSteps - st.steps, 26
  {
    EvalKeeps(w, st, env, fn);
    var f := Eval(w, st, env, fn);
    if f.r.Val? {
      ItemsKeep(w, f.st, env, args, []);
      var a := EvalItems(w, f.st, env, args, []);
      if a.r.Val? {
        ValueStays(f.st.heap, a.st.heap, f.r.v);
        CallKeeps(w, a.st, f.r.v, a.r.v);
      }
    }
  }

  lemma {:induction false} CallKeeps(w: World, st: State, callee: Value, args: seq<Value>)
    requires Honest(w) && Ready(w, st) && HeapOk(st.heap) && ValueOk(st.heap, callee) && SeqOk(st.heap, args)
    ensures ValueOut(st, CallValue(w, st, callee, args))
    decreases w.maxSteps - st.steps, 20
  {
    var b := Bump(w, st);
    if b.1.None? {
      if callee.VNative? {
        NativeKeeps(w, b.0, callee.name, callee.self, args);
      } else if callee.VFn? && |args| >= |callee.params| && b.0.depth + 1 <= w.maxDepth {
        BindOk(b.0.heap, callee.params, args);
        ChildFine(b.0.heap, callee.env, Bind(callee.params, args));
        var c := Child(b.0.heap, callee.env, Bind(callee.params, args));
        SeqKeeps(w, b.0.(depth := b.0.depth + 1, heap := c.0), c.1, callee.body);
      }
    }
  }

  // ---- statements ----

  predicate DoneOk(st: State, d: Done) {
    Fine(st.heap, d.st.heap) && (d.c.Returned? ==> ValueOk(d.st.heap, d.c.v))
  }

  lemma {:induction false} ExecKeeps(w: World, st: State, env: nat, s: Option<Stmt>)
    requires Honest(w) && Ready(w, st) && In(st, env)
    ensures DoneOk(st, Exec(w, st, env, s))
    decreases w.maxSteps - st.steps, 20
  {
    var b := Bump(w, st);
    if b.1.None? && s.Some? {
      StmtKeeps(w, b.0, env, s.value);
    }
  }

  lemma {:induction false} StmtKeeps(w: World, st: State, env: nat, s: Stmt)
    requires Honest(w) && Ready(w, st) && In(st, env)
    ensures DoneOk(st, ExecNode(w, st, env, s))
    decreases w.maxSteps - st.steps, 30
  {
    if s.VarDecl? {
      DeclKeeps(w, st, env, s);
    } else if s.ExprStmt? {
      EvalKeeps(w, st, env, s.x);
    } else if s.Return? {
      if s.value.Some? {
        EvalKeeps(w, st, env, s.value.value);
      }
    } else if s.Block? {
      ChildFine(st.heap, env, map[]);
      var c := Child(st.heap, env, map[]);
      SeqKeeps(w, st.(heap := c.0), c.1, s.stmts);
    } else if s.If? {
      IfKeeps(w, st, env, s);
    } else if s.ForOf? {
      EvalKeeps(w, st, env, s.it);
      var o := Eval(w, st, env, s.it);
      if o.r.Val? && o.r.v.VArr? {
        LoopKeeps(w, o.st, env, o.r.v.arr, 0, s.v, s.loop);
      }
    } else {
      DefineFine(st.heap, env, s.fname, VFn(s.params, s.fbody, env));
    }
  }

  lemma {:induction false} DeclKeeps(w: World, st: State, env: nat, s: Stmt)
    requires Honest(w) && Ready(w, st) && In(st, env) && s.VarDecl?
    ensures DoneOk(st, ExecNode(w, st, env, s))
    decreases w.maxSteps - st.steps, 29
  {
    if s.init.None? {
      DefineFine(st.heap, env, s.name, VNull);
    } else {
      EvalKeeps(w, st, env, s.init.value);
      var o := Eval(w, st, env, s.init.value);
      if o.r.Val? {
        DefineFine(o.st.heap, env, s.name, o.r.v);
      }
    }
  }

  lemma {:induction false} IfKeeps(w: World, st: State, env: nat, s: Stmt)
    requires Honest(w) && Ready(w, st) && In(st, env) && s.If?
    ensures DoneOk(st, ExecNode(w, st, env, s))
    decreases w.maxSteps - st.steps, 29
  {
    EvalKeeps(w, st, env, s.cond);
    var o := Eval(w, st, env, s.cond);
    if o.r.Val? {
      ExecKeeps(w, o.st, env, s.yes);
      ExecKeeps(w, o.st, env, s.no);
    }
  }

  lemma {:induction false} SeqKeeps(w: World, st: State, env: nat, stmts: seq<Stmt>)
    requires Honest(w) && Ready(w, st) && In(st, env)
    ensures DoneOk(st, ExecSeq(w, st, env, stmts))
    decreases w.maxSteps - st.steps, 25, |stmts|
  {
    if stmts != [] {
      ExecKeeps(w, st, env, Some(stmts[0]));
      var d := Exec(w, st, env, Some(stmts[0]));
      if d.c.Normal? {
        SeqKeeps(w, d.st, env, stmts[1..]);
      }
    }
  }

  lemma {:induction false} LoopKeeps(w: World, st: State, env: nat, arr: nat, i: nat, v: string, body: seq<Stmt>)
    requires Honest(w) && Ready(w, st) && In(st, env) && arr < |st.heap.arrs|
    ensures DoneOk(st, ForLoop(w, st, env, arr, i, v, body))
    decreases w.maxSteps - st.steps, 28
  {
    if i < |Items(st.heap, arr)| {
      assert SeqOk(st.heap, st.heap.arrs[arr]);
      TurnKeeps(w, st, env, Items(st.heap, arr)[i], v, body);
      var d := Iterate(w, st, env, Items(st.heap, arr)[i], v, body);
      if d.c.Normal? {
        LoopKeeps(w, d.st, env, arr, i + 1, v, body);
      }
    }
  }

  lemma {:induction false} TurnKeeps(w: World, st: State, env: nat, item: Value, v: string, body: seq<Stmt>)
    requires Honest(w) && Ready(w, st) && In(st, env) && ValueOk(st.heap, item)
    ensures DoneOk(st, Iterate(w, st, env, item, v, body))
    decreases w.maxSteps - st.steps, 27
  {
    var b := Bump(w, st);
    if b.1.None? {
      ChildFine(b.0.heap, env, map[v := item]);
      var c := Child(b.0.heap, env, map[v := item]);
      SeqKeeps(w, b.0.(heap := c.0), c.1, body);
    }
  }

  /** A whole script ends with a well-formed heap, and with an allocated value if it succeeds. */
  lemma ScriptKeepsHeap(w: World, heap: Heap, root: nat, body: seq<Stmt>)
    requires Honest(w) && HeapOk(heap) && root < |heap.envs|
    ensures ValueOut(State(0, 0, heap), ExecuteScript(w, heap, root, body))
  {
    var st := State(0, 0, heap);
    SeqKeeps(w, st, root, body);
    var d := ExecSeq(w, st, root, body);
    if d.c.Normal? && Find(d.st.heap, root, "main").Some? {
      VarOk(d.st.heap, root, "main");
      VarOk(d.st.heap, root, "req");
      var req := Find(d.st.heap, root, "req");
      var main := d.st.heap.envs[Find(d.st.heap, root, "main").value].vars["main"];
      CallKeeps(w, d.st, main, [if req.Some? then d.st.heap.envs[req.value].vars["req"] else VNull]);
    }
  }

  // ---- the guards on references are dead ----

  /** The walk outwards with nothing but the parent to stop it. */
  function Outwards(h: Heap, env: nat, name: string): Option<nat>
    requires HeapOk(h) && env < |h.envs|
    decreases env
  {
    if name in h.envs[env].vars then Some(env)
    else if h.envs[env].parent.Some? then Outwards(h, h.envs[env].parent.value, name)
    else None
  }

  lemma {:induction false} FindWalksOutwards(h: Heap, env: nat, name: string)
    requires HeapOk(h) && env < |h.envs|
    ensures Find(h, env, name) == Outwards(h, env, name)
    decreases env
  {
    if name !in h.envs[env].vars && h.envs[env].parent.Some? {
      FindWalksOutwards(h, h.envs[env].parent.value, name);
    }
  }
}
