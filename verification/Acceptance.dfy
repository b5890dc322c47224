// Which programs the code generator accepts, read off their text.
module Acceptance {
  import opened Wrappers
  import opened Syntax
  import opened Semantics
  import opened Cfg
  import opened CodegenSpec
  import opened Framing
  import opened Simulation
  import opened Correctness
  import opened Endings
  import opened Depth

  // The label at i stands behind a binding in dead code, which collects no
  // labels: it is missing when its turn comes.
  predicate Hidden(ss: seq<Stmt>, i: nat)
    requires i <= |ss|
  {
    SegmentStart(ss, i) > 0 && EndsItems(ss, SegmentStart(ss, i) - 1)
  }

  // No live break or continue stands outside a loop, no label or binding
  // outside a block, and no label behind a binding in dead code.
  predicate Regular(s: Stmt, loop: bool)
    decreases s, 0
  {
    match s
    case Block(body) => RegularItems(body, |body|, loop)
    case Label(_) => false
    case Var(_) => false
    case If(_, kind, _, thn, els) => (kind.StaticFalse? || Regular(thn, loop)) && (kind.StaticTrue? || Regular(els, loop))
    case While(_, _, body) => Regular(body, true)
    case Break => loop
    case Continue => loop
    case Try(tried, handler) => Regular(tried, loop) && Regular(handler, loop)
    case _ => true
  }

  predicate RegularItems(ss: seq<Stmt>, n: nat, loop: bool)
    requires n <= |ss|
    decreases ss, n
  {
    n == 0 || (RegularItems(ss, n - 1, loop) && RegularItem(ss, n - 1, loop))
  }

  predicate RegularItem(ss: seq<Stmt>, i: nat, loop: bool)
    requires i < |ss|
    decreases ss, 0
  {
    if ss[i].Label? then !Hidden(ss, i) else ss[i].Var? || EndsItems(ss, i) || Regular(ss[i], loop)
  }

  // Cleanup bodies, and theirs, are regular.
  predicate Tidy(s: Stmt)
    decreases s, 0
  {
    match s
    case Block(body) => TidyAll(body)
    case If(_, _, _, thn, els) => Tidy(thn) && Tidy(els)
    case While(_, _, body) => Tidy(body)
    case Try(tried, handler) => Tidy(tried) && Tidy(handler)
    case Finally(b) => TidyAll(b) && RegularItems(b, |b|, false)
    case OnError(b) => TidyAll(b) && RegularItems(b, |b|, false)
    case _ => true
  }

  predicate TidyAll(ss: seq<Stmt>)
    decreases ss, 0
  {
    forall i :: 0 <= i < |ss| ==> Tidy(ss[i])
  }

  predicate Settled(es: seq<Entry>) {
    forall i :: 0 <= i < |es| && !es[i].Value? ==> TidyAll(es[i].body) && RegularItems(es[i].body, |es[i].body|, false)
  }

  lemma SettledConcat(a: seq<Entry>, b: seq<Entry>)
    requires Settled(a) && Settled(b)
    ensures Settled(a + b)
  {
  }

  lemma {:induction false} OwnSettled(ss: seq<Stmt>, i: nat)
    requires i <= |ss| && TidyAll(ss)
    ensures Settled(Own(ss, i))
  {
    hide Settled, Pushes;
    if i == 0 {
      SettledNone();
    } else {
      OwnSettled(ss, i - 1);
      PushSettled(ss[i - 1]);
      SettledConcat(Own(ss, i - 1), Pushes(ss[i - 1]));
    }
  }

  lemma PushSettled(s: Stmt)
    requires Tidy(s)
    ensures Settled(Pushes(s))
  {
  }

  lemma SettledNone()
    ensures Settled([])
  {
  }

  lemma {:induction false} PreSettled(pre: seq<Stmt>, n: nat)
    requires n <= |pre| && Simple(pre)
    ensures Settled(Own(pre, n))
  {
    hide Settled, Pushes;
    if n == 0 {
      SettledNone();
    } else {
      PreSettled(pre, n - 1);
      PushSettled(pre[n - 1]);
      SettledConcat(Own(pre, n - 1), Pushes(pre[n - 1]));
    }
  }

  // Inside a loop no less is accepted.
  lemma {:induction false} RegularInLoop(s: Stmt, loop: bool)
    requires Regular(s, false)
    ensures Regular(s, loop)
    decreases s, 0
  {
    match s
    case Block(body) => RegularItemsInLoop(body, |body|, loop);
    case If(_, kind, _, thn, els) =>
      if !kind.StaticFalse? { RegularInLoop(thn, loop); }
      if !kind.StaticTrue? { RegularInLoop(els, loop); }
    case Try(tried, handler) => RegularInLoop(tried, loop); RegularInLoop(handler, loop);
    case _ =>
  }

  lemma {:induction false} RegularItemsInLoop(ss: seq<Stmt>, n: nat, loop: bool)
    requires n <= |ss| && RegularItems(ss, n, false)
    ensures RegularItems(ss, n, loop)
    decreases ss, n
  {
    if n > 0 {
      RegularItemsInLoop(ss, n - 1, loop);
      if !ss[n - 1].Label? && !ss[n - 1].Var? && !EndsItems(ss, n - 1) { RegularInLoop(ss[n - 1], loop); }
    }
  }

  // ----- states in which compilation is under way ---------------------------

  ghost predicate UnderWay(st: Ctx, scope: set<string>, cleanup: bool) {
    && Ready(st, scope) && Settled(st.stack)
    && (st.check ==> st.excs != []) && (!cleanup ==> st.rets != [])
    && (st.breaks == [] <==> st.continues == [])
  }

  // Nothing but a lack of depth stops compilation.
  predicate Fine<T>(r: Compiled<T>) {
    r.Ok? || r.error == TooDeep
  }

  // What is accepted is regular, and the regular is accepted.
  predicate Judged<T>(r: Compiled<T>, regular: bool) {
    (r.Ok? ==> regular) && (regular ==> Fine(r))
  }

  lemma WayInside(st: Ctx, x: Ctx, own: seq<Entry>, scope: set<string>, cleanup: bool)
    requires UnderWay(st, scope, cleanup) && Frame(st, x, {}) && x.stack == st.stack + own && Tame(own) && Settled(own)
    ensures UnderWay(x, scope, cleanup) && (x.breaks == [] <==> st.breaks == []) && Within(x) && Tame(x.stack)
    ensures x.labels.Keys <= st.labels.Keys
  {
    hide Ext;
    ReadyInside(st, x, own, scope);
    SettledConcat(st.stack, own);
  }

  lemma WaySame(st: Ctx, x: Ctx, scope: set<string>, cleanup: bool)
    requires UnderWay(st, scope, cleanup) && Frame(st, x, {}) && x.stack == st.stack
    ensures UnderWay(x, scope, cleanup) && (x.breaks == [] <==> st.breaks == []) && Within(x) && Tame(x.stack)
  {
    assert x.stack == st.stack + [];
    WayInside(st, x, [], scope, cleanup);
  }

  lemma WayValues(st: Ctx, x: Ctx, vs: seq<Slot>, cleanup: bool)
    requires UnderWay(st, {}, cleanup) && Frame(st, x, {}) && x.stack == st.stack + Values(vs)
    ensures UnderWay(x, {}, cleanup) && Within(x) && Tame(x.stack)
  {
    FitValues(vs, 0);
    WayInside(st, x, Values(vs), {}, cleanup);
  }

  lemma WayWithin(st: Ctx, x: Ctx, scope: set<string>, ls: set<string>, cleanup: bool)
    requires UnderWay(st, scope, cleanup) && Within(x) && x.stack == st.stack && SameTargets(st, x) && LabelsKept(st, x, ls)
    ensures UnderWay(x, scope, cleanup) && (x.breaks == [] <==> st.breaks == [])
  {
    hide Within, LabelsKept;
    ReadyWithin(st, x, scope, ls);
  }

  lemma WayLess(st: Ctx, scope: set<string>, cleanup: bool)
    requires UnderWay(st, scope, cleanup)
    ensures UnderWay(st, {}, cleanup) && Within(st) && Tame(st.stack) && Settled(st.stack)
  {
  }

  // ----- cleanup ------------------------------------------------------------

  lemma {:induction false} FineEntry(e: Entry, exn: bool, st: Ctx, lvl: nat, cleanup: bool)
    requires UnderWay(st, {}, cleanup) && TameEntry(e) && Settled([e])
    ensures Fine(DestroyEntry(e, exn, st, lvl))
    decreases lvl, 0, 1
  {
    assert [e][0] == e;
    match e
    case Value(_) =>
    case Final(b) => FineCleanup(b, st, lvl, cleanup);
    case Error(b) => FineCleanup(b, st, lvl, cleanup);
  }

  lemma {:induction false} FineCleanup(b: seq<Stmt>, st: Ctx, lvl: nat, cleanup: bool)
    requires UnderWay(st, {}, cleanup) && WellFormedAll(b, |b|, true, false, {}) && TidyAll(b) && RegularItems(b, |b|, false)
    ensures Fine(RunCleanup(b, st, lvl))
    decreases lvl, 0, 0
  {
    if lvl > 0 {
      CleanupHasNoLabels(b, |b|, false, {});
      assert b[..|b|] == b;
      var x := st.(check := false);
      assert UnderWay(x, {}, true);
      AcceptStmt(Block(b), x, lvl - 1, true, false, {});
      RegularItemsInLoop(b, |b|, st.breaks != []);
    }
  }

  lemma {:induction false} FineDestroy(es: seq<Entry>, exn: bool, st: Ctx, lvl: nat, cleanup: bool)
    requires UnderWay(st, {}, cleanup) && Tame(es) && Settled(es)
    ensures Fine(Destroy(es, exn, st, lvl))
    decreases lvl, 1, |es|
  {
    hide UnderWay, Tame, DestroyEntry;
    if es != [] {
      var n := |es| - 1;
      LastEntry(es);
      FineEntry(es[n], exn, st, lvl, cleanup);
      var r := DestroyEntry(es[n], exn, st, lvl);
      if r.Ok? {
        WayLess(st, {}, cleanup);
        FrameEntry(es[n], exn, st, lvl);
        WaySame(st, r.value, {}, cleanup);
        FineDestroy(es[..n], exn, r.value, lvl, cleanup);
      }
    }
  }

  lemma LastEntry(es: seq<Entry>)
    requires es != [] && Tame(es) && Settled(es)
    ensures TameEntry(es[|es| - 1]) && Settled([es[|es| - 1]]) && Tame(es[..|es| - 1]) && Settled(es[..|es| - 1])
  {
  }

  // Temporaries are popped whatever the depth.
  lemma {:induction false} FineDrop(vs: seq<Slot>, marker: nat, st: Ctx, lvl: nat)
    requires marker <= |st.stack| && st.stack[marker..] == Values(vs)
    ensures DestroyPop(marker, false, st, lvl).Ok?
    decreases |vs|
  {
    if vs != [] {
      var n := |st.stack| - 1;
      assert st.stack[marker..][|vs| - 1] == Values(vs)[|vs| - 1];
      assert st.stack[n] == Value(vs[|vs| - 1]);
      var x := DestroyEntry(st.stack[n], false, PopTo(st, n), lvl).value;
      assert x.stack[marker..] == Values(vs)[..|vs| - 1] == Values(vs[..|vs| - 1]);
      FineDrop(vs[..|vs| - 1], marker, x, lvl);
    }
  }

  lemma {:induction false} FineJump(jt: Target, exn: bool, st: Ctx, lvl: nat, cleanup: bool)
    requires UnderWay(st, {}, cleanup) && jt.marker <= |st.stack|
    ensures Fine(Jump(jt, exn, st, lvl))
    decreases lvl, 2
  {
    WayLess(st, {}, cleanup);
    var es := st.stack[jt.marker..];
    assert Tame(es) && Settled(es);
    FineDestroy(es, exn, st, lvl, cleanup);
  }

  // ----- expressions --------------------------------------------------------

  lemma {:induction false} FineCall(f: Fn, args: seq<Slot>, out: Slot, st: Ctx, lvl: nat, cleanup: bool)
    requires UnderWay(st, {}, cleanup)
    ensures Fine(CgCall(f, args, out, st, lvl))
    decreases lvl, 3
  {
    hide *;
    if st.check {
      WayExcs(st, cleanup);
      WayLess(st, {}, cleanup);
      CallFork(f, args, out, st);
      var y := Fork(Emit(st, ICall(f, args, out)), 2, IExcBr(st.next + 1, st.next));
      CallIs(f, args, out, st, lvl);
      WaySame(st, y, {}, cleanup);
      FineJump(st.excs[|st.excs| - 1], true, y, lvl, cleanup);
      FineAfter(Jump(st.excs[|st.excs| - 1], true, y, lvl), CgCall(f, args, out, st, lvl));
    } else {
      UncheckedCall(f, args, out, st, lvl);
    }
  }

  lemma FineAfter<S, T>(r: Compiled<S>, r': Compiled<T>)
    requires Fine(r) && (r.Fail? ==> r' == Fail(r.error)) && (r.Ok? ==> r'.Ok?)
    ensures Fine(r')
  {
  }

  lemma UncheckedCall(f: Fn, args: seq<Slot>, out: Slot, st: Ctx, lvl: nat)
    requires !st.check
    ensures Fine(CgCall(f, args, out, st, lvl))
  {
  }

  lemma WayExcs(st: Ctx, cleanup: bool)
    requires UnderWay(st, {}, cleanup) && st.check
    ensures st.excs != [] && st.excs[|st.excs| - 1].marker <= |st.stack|
  {
    hide Within, Tame, Settled;
  }

  lemma CallFork(f: Fn, args: seq<Slot>, out: Slot, st: Ctx)
    requires Within(st)
    ensures var y := Fork(Emit(st, ICall(f, args, out)), 2, IExcBr(st.next + 1, st.next));
            Frame(st, y, {}) && y.stack == st.stack && y.excs == st.excs
  {
    hide Ext, LabelsKept, SameTargets, Within, Fork, NewBlocks;
    var x := Emit(st, ICall(f, args, out));
    Self(st, {});
    EmitFrame(st, st, ICall(f, args, out), {});
    ForkFrame(st, x, 2, IExcBr(st.next + 1, st.next), {});
    ForkTwins(x, x.stack, 2, IExcBr(st.next + 1, st.next));
  }

  lemma {:induction false} FineInto(e: Expr, out: Slot, st: Ctx, lvl: nat, cleanup: bool)
    requires UnderWay(st, {}, cleanup)
    ensures Fine(CgInto(e, out, st, lvl))
    decreases lvl, 4, e, 1
  {
    hide UnderWay;
    match e
    case Lit(_, _) =>
    case Call(f, args, _, _) =>
      FineArgs(args, |args|, st, lvl, cleanup);
      var r := CgArgs(args, |args|, st, lvl);
      if r.Ok? {
        WayLess(st, {}, cleanup);
        FrameArgs(args, |args|, st, lvl);
        WayValues(st, r.value, TempsArgs(args, |args|), cleanup);
        FineCall(f, Homes(args), out, r.value, lvl, cleanup);
      }
    case And(_, _, _) => FineAndOr(e, out, st, lvl, cleanup);
    case Or(_, _, _) => FineAndOr(e, out, st, lvl, cleanup);
  }

  lemma {:induction false} FineAndOr(e: Expr, out: Slot, st: Ctx, lvl: nat, cleanup: bool)
    requires (e.And? || e.Or?) && UnderWay(st, {}, cleanup)
    ensures Fine(CgAndOr(e, out, st, lvl))
    decreases lvl, 4, e, 0
  {
    hide UnderWay, Within, Tame, SameTargets, Ext, LabelsKept, NewBlocks, CgRef, CgArm;
    FineRef(e.l, st, lvl, cleanup);
    var r := CgRef(e.l, st, lvl);
    if r.Ok? {
      var st1 := r.value;
      var br := if e.Or? then ICondBr(Home(e.l), st1.next + 1, st1.next) else ICondBr(Home(e.l), st1.next, st1.next + 1);
      WayLess(st, {}, cleanup);
      FrameRef(e.l, st, lvl);
      ForkFrame(st, st1, 3, br, {});
      ForkIs(st1, 3, br);
      WayValues(st, Fork(st1, 3, br), TempsRef(e.l), cleanup);
      FineArm(e.r, out, st1.next + 2, Fork(st1, 3, br), lvl, cleanup);
    }
  }

  lemma {:induction false} FineArm(e: Expr, out: Slot, merge: nat, st: Ctx, lvl: nat, cleanup: bool)
    requires UnderWay(st, {}, cleanup)
    ensures Fine(CgArm(e, out, merge, st, lvl))
    decreases lvl, 4, e, 3
  {
    hide UnderWay, CgRef, DestroyPop;
    FineRef(e, st, lvl, cleanup);
    var r := CgRef(e, st, lvl);
    if r.Ok? {
      Tail(st.stack, Values(TempsRef(e)));
      FineDrop(TempsRef(e), |st.stack|, Emit(r.value, ICopy(out, Home(e))), lvl);
    }
  }

  lemma {:induction false} FineRef(e: Expr, st: Ctx, lvl: nat, cleanup: bool)
    requires UnderWay(st, {}, cleanup)
    ensures Fine(CgRef(e, st, lvl))
    decreases lvl, 4, e, 2
  {
    hide UnderWay;
    FineInto(e, Home(e), st, lvl, cleanup);
  }

  lemma {:induction false} FineArgs(args: seq<Expr>, n: nat, st: Ctx, lvl: nat, cleanup: bool)
    requires n <= |args| && UnderWay(st, {}, cleanup)
    ensures Fine(CgArgs(args, n, st, lvl))
    decreases lvl, 4, args, n
  {
    hide UnderWay, Within, Tame, Ext, LabelsKept, SameTargets;
    if n > 0 {
      FineArgs(args, n - 1, st, lvl, cleanup);
      var r := CgArgs(args, n - 1, st, lvl);
      if r.Ok? {
        WayLess(st, {}, cleanup);
        FrameArgs(args, n - 1, st, lvl);
        WayValues(st, r.value, TempsArgs(args, n - 1), cleanup);
        FineRef(args[n - 1], r.value, lvl, cleanup);
      }
    }
  }

  lemma {:induction false} FineWhole(e: Expr, st: Ctx, lvl: nat, cleanup: bool)
    requires UnderWay(st, {}, cleanup)
    ensures Fine(CgWhole(e, st, lvl))
    decreases lvl, 5
  {
    hide UnderWay, CgRef, DestroyPop;
    FineRef(e, st, lvl, cleanup);
    var r := CgRef(e, st, lvl);
    if r.Ok? {
      Tail(st.stack, Values(TempsRef(e)));
      FineDrop(TempsRef(e), |st.stack|, r.value, lvl);
    }
  }

  lemma {:induction false} FineOneInto(e: Expr, out: Slot, st: Ctx, lvl: nat, cleanup: bool)
    requires UnderWay(st, {}, cleanup)
    ensures Fine(CgOneInto(e, out, st, lvl))
    decreases lvl, 5
  {
    hide UnderWay, CgInto, DestroyPop;
    FineInto(e, out, st, lvl, cleanup);
    var r := CgInto(e, out, st, lvl);
    if r.Ok? {
      Tail(st.stack, Values(TempsInto(e)));
      FineDrop(TempsInto(e), |st.stack|, r.value, lvl);
    }
  }

  lemma {:induction false} FineInits(inits: seq<Init>, n: nat, st: Ctx, lvl: nat, cleanup: bool)
    requires n <= |inits| && UnderWay(st, {}, cleanup)
    ensures Fine(CgInits(inits, n, st, lvl))
    decreases lvl, 6, n
  {
    hide UnderWay, Within, Tame, Ext, LabelsKept, SameTargets, CgOneInto;
    if n > 0 {
      FineInits(inits, n - 1, st, lvl, cleanup);
      var r := CgInits(inits, n - 1, st, lvl);
      if r.Ok? {
        WayLess(st, {}, cleanup);
        FrameInits(inits, n - 1, st, lvl);
        WayValues(st, r.value, Slots(inits[..n - 1]), cleanup);
        FineOneInto(inits[n - 1].e, inits[n - 1].out, r.value, lvl, cleanup);
      }
    }
  }

  lemma {:induction false} FineVar(inits: seq<Init>, st: Ctx, lvl: nat, cleanup: bool)
    requires UnderWay(st, {}, cleanup)
    ensures Fine(CgVar(inits, st, lvl))
    decreases lvl, 7, 0
  {
    hide UnderWay;
    FineInits(inits, |inits|, st, lvl, cleanup);
  }

  lemma {:induction false} FinePre(pre: seq<Stmt>, n: nat, st: Ctx, lvl: nat, cleanup: bool)
    requires n <= |pre| && Simple(pre) && UnderWay(st, {}, cleanup)
    ensures Fine(CgPre(pre, n, st, lvl))
    decreases lvl, 7, 1, n
  {
    hide UnderWay, Within, Tame, Ext, LabelsKept, SameTargets, CgVar, CgWhole;
    if n > 0 {
      FinePre(pre, n - 1, st, lvl, cleanup);
      var r := CgPre(pre, n - 1, st, lvl);
      if r.Ok? {
        WayLess(st, {}, cleanup);
        FramePre(pre, n - 1, st, lvl);
        OwnPlain(pre, n - 1, 0);
        PreSettled(pre, n - 1);
        WayInside(st, r.value, Own(pre, n - 1), {}, cleanup);
        if pre[n - 1].Var? {
          FineVar(pre[n - 1].inits, r.value, lvl, cleanup);
        } else {
          FineWhole(pre[n - 1].e, r.value, lvl, cleanup);
        }
      }
    }
  }

  // The bindings of a condition, and the condition.
  lemma {:induction false} FineHead(pre: seq<Stmt>, cond: Expr, st: Ctx, lvl: nat, scope: set<string>, cleanup: bool)
    requires UnderWay(st, scope, cleanup) && Simple(pre)
    ensures Fine(CgPre(pre, |pre|, st, lvl)) && Tame(Own(pre, |pre|)) && Settled(Own(pre, |pre|))
    ensures var p := CgPre(pre, |pre|, st, lvl);
            p.Ok? ==> && Fine(CgWhole(cond, p.value, lvl))
                      && (CgWhole(cond, p.value, lvl).Ok? ==>
                            var x := CgWhole(cond, p.value, lvl).value;
                            && Frame(st, x, {}) && x.stack == st.stack + Own(pre, |pre|) && UnderWay(x, scope, cleanup)
                            && (x.breaks == [] <==> st.breaks == []) && x.labels.Keys <= st.labels.Keys && Within(x) && Tame(x.stack))
    decreases lvl, 7, 2
  {
    hide UnderWay, SameTargets, Ext, LabelsKept, Tame, Within, CgPre, CgWhole;
    WayLess(st, scope, cleanup);
    FinePre(pre, |pre|, st, lvl, cleanup);
    OwnPlain(pre, |pre|, 0);
    PreSettled(pre, |pre|);
    var p := CgPre(pre, |pre|, st, lvl);
    if p.Ok? {
      FramePre(pre, |pre|, st, lvl);
      WayInside(st, p.value, Own(pre, |pre|), scope, cleanup);
      WayLess(p.value, scope, cleanup);
      FineWhole(cond, p.value, lvl, cleanup);
      var c := CgWhole(cond, p.value, lvl);
      if c.Ok? {
        FrameWhole(cond, p.value, lvl);
        Then(st, p.value, c.value, {}, {});
        WayInside(st, c.value, Own(pre, |pre|), scope, cleanup);
      }
    }
  }

  lemma {:induction false} FineEndScope(marker: nat, term: bool, st: Ctx, own: seq<Entry>, lvl: nat, cleanup: bool)
    requires marker <= |st.stack| && (!term ==> UnderWay(st, {}, cleanup) && st.stack[marker..] == own && Tame(own) && Settled(own))
    ensures Fine(EndScope(marker, term, st, lvl))
    decreases lvl, 2
  {
    hide UnderWay;
    if !term { FineDestroy(own, false, st, lvl, cleanup); }
  }

  // ----- statements ---------------------------------------------------------

  lemma {:induction false} AcceptStmt(s: Stmt, st: Ctx, lvl: nat, cleanup: bool, inLoop: bool, scope: set<string>)
    requires UnderWay(st, scope, cleanup) && WellFormed(s, cleanup, inLoop, scope) && st.labels.Keys !! LabelsOf(s) && Tidy(s)
    ensures Judged(CgStmt(s, st, lvl), Regular(s, st.breaks != []))
    decreases lvl, 8, s, 2
  {
    hide Ext, LabelsKept, SameTargets, Jump, Settled, Tame;
    WayLess(st, scope, cleanup);
    match s
    case Block(body) => AcceptBlock(body, st, lvl, cleanup, inLoop, scope);
    case Goto(l) => FineJump(st.labels[l], false, st, lvl, cleanup);
    case Eval(e) => FineWhole(e, st, lvl, cleanup);
    case Return(inits) => FineReturn(inits, st, lvl);
    case Throw(args) => FineThrow(args, st, lvl, cleanup);
    case If(_, _, _, _, _) => AcceptIf(s, st, lvl, cleanup, inLoop, scope);
    case While(_, _, _) => AcceptWhile(s, st, lvl, cleanup, inLoop, scope);
    case Break => if st.breaks != [] { FineJump(st.breaks[|st.breaks| - 1], false, st, lvl, cleanup); }
    case Continue => if st.continues != [] { FineJump(st.continues[|st.continues| - 1], false, st, lvl, cleanup); }
    case Try(_, _) => AcceptTry(s, st, lvl, cleanup, inLoop, scope);
    case _ =>
  }

  lemma {:induction false} FineReturn(inits: seq<Init>, st: Ctx, lvl: nat)
    requires UnderWay(st, {}, false)
    ensures Fine(CgStmt(Return(inits), st, lvl))
    decreases lvl, 8, Return(inits), 1
  {
    hide Ext, LabelsKept, Within, Tame, Settled, Jump, CgInits;
    WayLess(st, {}, false);
    FineInits(inits, |inits|, st, lvl, false);
    var r := CgMultiInto(inits, st, lvl);
    if r.Ok? {
      FrameInits(inits, |inits|, st, lvl);
      MultiSame(inits, st, lvl);
      WaySame(st, r.value, {}, false);
      FineJump(r.value.rets[|r.value.rets| - 1], false, r.value, lvl, false);
    }
  }

  lemma {:induction false} FineThrow(args: seq<Expr>, st: Ctx, lvl: nat, cleanup: bool)
    requires UnderWay(st, {}, cleanup)
    ensures Fine(CgStmt(Throw(args), st, lvl))
    decreases lvl, 8, Throw(args), 1
  {
    hide UnderWay, SameTargets, Ext, LabelsKept, Tame, Within, CgCall, CgArgs, DestroyPop;
    WayLess(st, {}, cleanup);
    FineArgs(args, |args|, st, lvl, cleanup);
    var r := CgArgs(args, |args|, st, lvl);
    if r.Ok? {
      var out := Slot(Temp, 0, true);
      FrameArgs(args, |args|, st, lvl);
      WayValues(st, r.value, TempsArgs(args, |args|), cleanup);
      FineCall(ThrowValue, Homes(args), out, r.value, lvl, cleanup);
      var r2 := CgCall(ThrowValue, Homes(args), out, r.value, lvl);
      if r2.Ok? {
        Tail(st.stack, Values(TempsArgs(args, |args|)));
        FineDrop(TempsArgs(args, |args|), |st.stack|, r2.value, lvl);
      }
    }
  }

  lemma {:induction false} AcceptIf(s: Stmt, st: Ctx, lvl: nat, cleanup: bool, inLoop: bool, scope: set<string>)
    requires s.If? && UnderWay(st, scope, cleanup) && WellFormed(s, cleanup, inLoop, scope) && st.labels.Keys !! LabelsOf(s) && Tidy(s)
    ensures Judged(CgIf(s, st, lvl), Regular(s, st.breaks != []))
    decreases lvl, 8, s, 1
  {
    hide UnderWay, SameTargets, Ext, LabelsKept, Tame, Within, CgPre, CgWhole, CgArms, Settled, EndScope, Regular;
    FineHead(s.pre, s.cond, st, lvl, scope, cleanup);
    var p := CgPre(s.pre, |s.pre|, st, lvl);
    if p.Ok? && CgWhole(s.cond, p.value, lvl).Ok? {
      var st1 := CgWhole(s.cond, p.value, lvl).value;
      AcceptArms(s, st1, lvl, cleanup, inLoop, scope);
      if CgArms(s, st1, lvl).Ok? {
        var d := CgArms(s, st1, lvl).value;
        FrameArms(s, st1, lvl, cleanup, inLoop, scope);
        WayAfter(st1, d.st, scope, LabelsOf(s), cleanup);
        Tail(st.stack, Own(s.pre, |s.pre|));
        FineEndScope(|st.stack|, d.term, d.st, Own(s.pre, |s.pre|), lvl, cleanup);
      }
    }
  }

  // A part has been compiled; the stack is as before.
  lemma WayAfter(st: Ctx, x: Ctx, scope: set<string>, ls: set<string>, cleanup: bool)
    requires UnderWay(st, scope, cleanup) && Frame(st, x, ls) && x.stack == st.stack
    ensures UnderWay(x, scope, cleanup) && UnderWay(x, {}, cleanup) && (x.breaks == [] <==> st.breaks == [])
    ensures x.labels.Keys <= st.labels.Keys + ls
  {
    hide Ext;
    WayWithin(st, x, scope, ls, cleanup);
    WayLess(x, scope, cleanup);
  }

  lemma {:induction false} AcceptArms(s: Stmt, st: Ctx, lvl: nat, cleanup: bool, inLoop: bool, scope: set<string>)
    requires s.If? && UnderWay(st, scope, cleanup) && WellFormed(s, cleanup, inLoop, scope) && st.labels.Keys !! LabelsOf(s) && Tidy(s)
    ensures Judged(CgArms(s, st, lvl), Regular(s, st.breaks != []))
    decreases lvl, 8, s, 0
  {
    hide UnderWay, SameTargets, Ext, LabelsKept, Tame, Within, CgArms, CgStmt, NewBlocks, Fork, Merge, BranchToEnd, CodeFrame, Settled;
    WayLess(st, scope, cleanup);
    Self(st, {});
    if s.kind.Dynamic? {
      var br := ICondBr(Home(s.cond), st.next, st.next + 1);
      ForkFrame(st, st, 2, br, {});
      TwoArms(s, st, lvl);
      var x := Fork(st, 2, br);
      WaySame(st, x, scope, cleanup);
      AcceptStmt(s.thn, x, lvl, cleanup, inLoop, scope);
      if CgStmt(s.thn, x, lvl).Ok? {
        var d1 := CgStmt(s.thn, x, lvl).value;
        FrameStmt(s.thn, x, lvl, cleanup, inLoop, scope);
        NoBinding(s.thn, x, lvl);
        BranchFrame(x, d1, None, LabelsOf(s.thn));
        CurBack(st, x, BranchToEnd(d1, None), st.next + 1, LabelsOf(s.thn));
        var y := BranchToEnd(d1, None).(cur := st.next + 1);
        WayAfter(st, y, scope, LabelsOf(s.thn), cleanup);
        AcceptStmt(s.els, y, lvl, cleanup, inLoop, scope);
      }
    } else {
      var b := if s.kind.StaticTrue? then s.thn else s.els;
      ForkFrame(st, st, 1, IBr(st.next), {});
      OneArm(s, st, lvl);
      var x := Fork(st, 1, IBr(st.next));
      WaySame(st, x, scope, cleanup);
      AcceptStmt(b, x, lvl, cleanup, inLoop, scope);
    }
  }

  lemma {:induction false} AcceptWhile(s: Stmt, st: Ctx, lvl: nat, cleanup: bool, inLoop: bool, scope: set<string>)
    requires s.While? && UnderWay(st, scope, cleanup) && WellFormed(s, cleanup, inLoop, scope) && st.labels.Keys !! LabelsOf(s) && Tidy(s)
    ensures Judged(CgWhile(s, st, lvl), Regular(s, st.breaks != []))
    decreases lvl, 8, s, 1
  {
    hide UnderWay, SameTargets, Ext, LabelsKept, Tame, Within, CgTest, LoopBody, LoopEnd, NewBlocks, Enter, Fork, Own, Frame, Settled;
    var begin, body, cont, end := st.next, st.next + 1, st.next + 2, st.next + 3;
    WayLess(st, scope, cleanup);
    Self(st, {});
    ForkFrame(st, st, 4, IBr(begin), {});
    ForkIs(st, 4, IBr(begin));
    var st0 := Fork(st, 4, IBr(begin));
    WaySame(st, st0, scope, cleanup);
    AcceptTest(s, body, end, st, st0, lvl, scope, cleanup);
    if CgTest(s, body, end, st0, lvl).Ok? {
      var st1 := CgTest(s, body, end, st0, lvl).value;
      var st2 := Enter(body, cont, end, st1);
      WayEnter(st1, st2, body, cont, end, scope, cleanup);
      AcceptBody(s, |st.stack|, cont, st2, Own(s.pre, |s.pre|), lvl, cleanup, scope);
      if LoopBody(s, |st.stack|, cont, st2, lvl).Ok? {
        var st3 := LoopBody(s, |st.stack|, cont, st2, lvl).value;
        var st4 := Emit(st3, IBr(begin)).(breaks := Pop(st3.breaks), continues := Pop(st3.continues), cur := end);
        WayLess(st1, scope, cleanup);
        WayPop(st1, st2, st3, st4, body, cont, end, IBr(begin), cleanup);
        FineLoopEnd(s, |st.stack|, begin, end, st3, Own(s.pre, |s.pre|), lvl, cleanup);
      }
    }
  }

  lemma WayPop(st1: Ctx, st2: Ctx, st3: Ctx, x: Ctx, body: nat, cont: nat, end: nat, i: Instr, cleanup: bool)
    requires UnderWay(st1, {}, cleanup) && st2 == Enter(body, cont, end, st1) && SameTargets(st2, st3) && st3.stack == st1.stack
    requires Within(st3) && end < st3.next && x == Emit(st3, i).(breaks := Pop(st3.breaks), continues := Pop(st3.continues), cur := end)
    ensures UnderWay(x, {}, cleanup)
  {
    hide Tame, Settled;
    assert Within(x);
    var n := |st1.breaks|;
    assert n > 0 ==> x.breaks[n - 1] == st3.breaks[n - 1] && st2.breaks[n - 1] == st1.breaks[n - 1];
    var m := |st1.continues|;
    assert m > 0 ==> x.continues[m - 1] == st2.continues[m - 1] == st1.continues[m - 1];
  }

  lemma {:induction false} AcceptTest(s: Stmt, body: nat, end: nat, a: Ctx, st: Ctx, lvl: nat, scope: set<string>, cleanup: bool)
    requires s.While? && Frame(a, st, {}) && UnderWay(st, scope, cleanup) && Simple(s.pre) && st.labels == a.labels && st.stack == a.stack
    ensures Fine(CgTest(s, body, end, st, lvl)) && Tame(Own(s.pre, |s.pre|)) && Settled(Own(s.pre, |s.pre|))
    ensures CgTest(s, body, end, st, lvl).Ok? ==>
              var x := CgTest(s, body, end, st, lvl).value;
              && st.next <= x.next && x.stack == a.stack + Own(s.pre, |s.pre|) && UnderWay(x, scope, cleanup)
              && x.stack[|a.stack|..] == Own(s.pre, |s.pre|) && x.labels.Keys <= a.labels.Keys
    decreases lvl, 8, s, 0
  {
    hide UnderWay, SameTargets, Ext, LabelsKept, Tame, Within, CgPre, CgWhole, Settled;
    FineHead(s.pre, s.cond, st, lvl, scope, cleanup);
    if CgTest(s, body, end, st, lvl).Ok? {
      var st1 := CgWhole(s.cond, CgPre(s.pre, |s.pre|, st, lvl).value, lvl).value;
      EmitFrame(st, st1, ICondBr(Home(s.cond), body, end), {});
      var x := Emit(st1, ICondBr(Home(s.cond), body, end));
      WayInside(st, x, Own(s.pre, |s.pre|), scope, cleanup);
      Tail(a.stack, Own(s.pre, |s.pre|));
    }
  }

  lemma WayEnter(st1: Ctx, st2: Ctx, body: nat, cont: nat, end: nat, scope: set<string>, cleanup: bool)
    requires UnderWay(st1, scope, cleanup) && st2 == Enter(body, cont, end, st1) && body < st1.next
    ensures UnderWay(st2, scope, cleanup) && st2.stack == st1.stack && st2.labels == st1.labels && st2.next == st1.next
    ensures st2.breaks != []
  {
  }

  lemma {:induction false} AcceptBody(s: Stmt, marker: nat, cont: nat, st: Ctx, own: seq<Entry>, lvl: nat, cleanup: bool, scope: set<string>)
    requires s.While? && marker <= |st.stack| && st.stack[marker..] == own && Tame(own) && Settled(own) && Tidy(s.loop)
    requires UnderWay(st, scope, cleanup) && !Bare(s.loop) && WellFormed(s.loop, cleanup, true, scope) && st.breaks != []
    requires st.labels.Keys !! LabelsOf(s.loop) && cont < st.next
    ensures Judged(LoopBody(s, marker, cont, st, lvl), Regular(s.loop, true))
    ensures LoopBody(s, marker, cont, st, lvl).Ok? ==>
              var x := LoopBody(s, marker, cont, st, lvl).value;
              SameTargets(st, x) && x.stack == st.stack && Within(x) && st.next <= x.next
    decreases lvl, 8, s, 0
  {
    hide UnderWay, SameTargets, Ext, LabelsKept, Tame, CgStmt, Settled, Regular;
    AcceptStmt(s.loop, st, lvl, cleanup, true, scope);
    if CgStmt(s.loop, st, lvl).Ok? {
      var d := CgStmt(s.loop, st, lvl).value;
      WayLess(st, scope, cleanup);
      FrameStmt(s.loop, st, lvl, cleanup, true, scope);
      NoBinding(s.loop, st, lvl);
      EmitFrame(st, d.st, IBr(cont), LabelsOf(s.loop));
      var e := if d.term then d.st else Emit(d.st, IBr(cont));
      WayAfter(st, e, scope, LabelsOf(s.loop), cleanup);
      var x := e.(cur := cont);
      WayCur(e, cont, cleanup);
      FineDestroy(own, false, x, lvl, cleanup);
      if LoopBody(s, marker, cont, st, lvl).Ok? {
        WayLess(x, {}, cleanup);
        FrameDestroy(own, false, x, lvl);
        SameThrough(st, e, x, Destroy(own, false, x, lvl).value, LabelsOf(s.loop));
      }
    }
  }

  lemma SameThrough(a: Ctx, e: Ctx, x: Ctx, y: Ctx, ls: set<string>)
    requires Frame(a, e, ls) && x == e.(cur := x.cur) && Frame(x, y, {})
    ensures SameTargets(a, y) && Within(y) && a.next <= y.next
  {
    hide Ext, LabelsKept;
  }

  lemma WayCur(st: Ctx, b: nat, cleanup: bool)
    requires UnderWay(st, {}, cleanup) && b < st.next
    ensures UnderWay(st.(cur := b), {}, cleanup)
  {
  }

  lemma {:induction false} FineLoopEnd(s: Stmt, marker: nat, begin: nat, end: nat, st: Ctx, own: seq<Entry>, lvl: nat, cleanup: bool)
    requires s.While? && marker <= |st.stack| && st.stack[marker..] == own && Tame(own) && Settled(own)
    requires UnderWay(Emit(st, IBr(begin)).(breaks := Pop(st.breaks), continues := Pop(st.continues), cur := end), {}, cleanup)
    ensures Fine(LoopEnd(s, marker, begin, end, st, lvl))
    decreases lvl, 3
  {
    hide UnderWay, Tame, Settled;
    FineEndScope(marker, false, Emit(st, IBr(begin)).(breaks := Pop(st.breaks), continues := Pop(st.continues), cur := end), own, lvl, cleanup);
  }

  lemma {:induction false} AcceptTry(s: Stmt, st: Ctx, lvl: nat, cleanup: bool, inLoop: bool, scope: set<string>)
    requires s.Try? && UnderWay(st, scope, cleanup) && WellFormed(s, cleanup, inLoop, scope) && st.labels.Keys !! LabelsOf(s) && Tidy(s)
    ensures Judged(CgStmt(s, st, lvl), Regular(s, st.breaks != []))
    decreases lvl, 8, s, 1
  {
    hide UnderWay, Ext, Tame, Within, BranchToEnd, Settled;
    var jt := Target(st.next, |st.stack|, 0);
    WayLess(st, scope, cleanup);
    var x := NewBlock(st).(excs := st.excs + [jt]);
    WayTry(st, x, scope, cleanup);
    AcceptStmt(s.tried, x, lvl, cleanup, inLoop, scope);
    if CgStmt(s.tried, x, lvl).Ok? {
      var d1 := CgStmt(s.tried, x, lvl).value;
      WayLess(x, scope, cleanup);
      FrameStmt(s.tried, x, lvl, cleanup, inLoop, scope);
      NoBinding(s.tried, x, lvl);
      BranchFrame(x, d1, None, LabelsOf(s.tried));
      var e := BranchToEnd(d1, None);
      var y := e.(excs := Pop(e.excs), cur := st.next);
      assert st.stack + [] == st.stack;
      WayHandler(st, x, e, y, LabelsOf(s.tried), scope, cleanup);
      AcceptStmt(s.handler, y, lvl, cleanup, inLoop, scope);
    }
  }

  lemma WayTry(st: Ctx, x: Ctx, scope: set<string>, cleanup: bool)
    requires UnderWay(st, scope, cleanup) && x == NewBlock(st).(excs := st.excs + [Target(st.next, |st.stack|, 0)])
    ensures UnderWay(x, scope, cleanup) && x.breaks == st.breaks
  {
    hide Tame, Settled;
    assert Within(x);
  }

  lemma WayHandler(st: Ctx, x: Ctx, e: Ctx, y: Ctx, ls: set<string>, scope: set<string>, cleanup: bool)
    requires UnderWay(st, scope, cleanup) && x == NewBlock(st).(excs := st.excs + [Target(st.next, |st.stack|, 0)])
    requires Frame(x, e, ls) && e.stack == x.stack && y == e.(excs := Pop(e.excs), cur := st.next)
    ensures UnderWay(y, scope, cleanup) && (y.breaks == [] <==> st.breaks == []) && y.labels.Keys <= st.labels.Keys + ls
  {
    hide Ext, Tame, Settled;
    assert Pop(x.excs) == st.excs;
    HandlerState(st, x, e, y, ls, scope);
  }

  // ----- blocks -------------------------------------------------------------

  // Of the labels ahead whose segment has begun, those not hidden are collected.
  ghost predicate Known(ss: seq<Stmt>, n: nat, st: Ctx) {
    forall q :: n <= q < |ss| && ss[q].Label? && SegmentStart(ss, q) <= n ==> (ss[q].l in st.labels <==> !Hidden(ss, q))
  }

  lemma {:induction false} KnownItems(ss: seq<Stmt>, n: nat, a: Ctx, lvl: nat, cleanup: bool, inLoop: bool, scope: set<string>)
    requires n <= |ss| && Within(a) && Tame(a.stack) && WellFormedAll(ss, |ss|, cleanup, inLoop, scope)
    requires a.labels.Keys !! LabelsOfAll(ss) && CollectLabels(ss, 0, a).Ok?
    requires CgItems(ss, n, Done(CollectLabels(ss, 0, a).value, false), lvl).Ok?
    ensures Known(ss, n, CgItems(ss, n, Done(CollectLabels(ss, 0, a).value, false), lvl).value.st)
    decreases n
  {
    hide Known, ItemsInv, CgItem, Within, Tame, LabelsOfAll, WellFormedAll, CollectLabels;
    var d0 := Done(CollectLabels(ss, 0, a).value, false);
    if n == 0 {
      StartOfBlock(ss, a, cleanup, inLoop, scope);
      KnownAtStart(ss, a, d0);
    } else {
      var d := CgItems(ss, n - 1, d0, lvl).value;
      KnownItems(ss, n - 1, a, lvl, cleanup, inLoop, scope);
      FrameItems(ss, n - 1, a, lvl, cleanup, inLoop, scope);
      PrefixWellFormed(ss, n - 1, cleanup, inLoop, scope);
      CollectKeepsStack(ss, a);
      EndsAll(ss, n - 1, d0, lvl, cleanup, inLoop, scope);
      KnownItem(ss, n - 1, a, d, lvl, cleanup, inLoop, scope);
    }
  }

  lemma CollectKeepsStack(ss: seq<Stmt>, a: Ctx)
    requires CollectLabels(ss, 0, a).Ok? && Tame(a.stack)
    ensures Tame(CollectLabels(ss, 0, a).value.stack)
  {
  }

  lemma PrefixWellFormed(ss: seq<Stmt>, n: nat, cleanup: bool, inLoop: bool, scope: set<string>)
    requires n < |ss| && WellFormedAll(ss, |ss|, cleanup, inLoop, scope)
    ensures WellFormedAll(ss, n, cleanup, inLoop, scope)
  {
    WellFormedItem(ss, |ss|, n, cleanup, inLoop, scope);
  }

  lemma KnownAtStart(ss: seq<Stmt>, a: Ctx, d: Done)
    requires ItemsInv(ss, 0, a, d) && !d.term
    ensures Known(ss, 0, d.st)
  {
    hide Frame, Unplaced, Unseen;
  }

  lemma {:induction false} KnownItem(ss: seq<Stmt>, i: nat, a: Ctx, d: Done, lvl: nat, cleanup: bool, inLoop: bool, scope: set<string>)
    requires i < |ss| && Within(a) && Tame(a.stack) && WellFormedAll(ss, |ss|, cleanup, inLoop, scope)
    requires ItemsInv(ss, i, a, d) && d.term == EndsItems(ss, i) && Known(ss, i, d.st) && CgItem(ss, i, d, lvl).Ok?
    ensures Known(ss, i + 1, CgItem(ss, i, d, lvl).value.st)
  {
    hide Within, Tame, Ext, LabelsKept, SameTargets, Unplaced, Unseen, Reachable, Dead, LabelsOfAll, WellFormedAll, Hidden;
    WellFormedItem(ss, |ss|, i, cleanup, inLoop, scope);
    var e := CgItem(ss, i, d, lvl).value;
    if ss[i].Label? {
      KnownOn(ss, i, d.st, e.st);
    } else if ss[i].Var? {
      NotYet(ss, i, a, d);
      if d.term {
        KnownVar(ss, i, d, e, false);
      } else {
        LiveItem(ss, i, a, d);
        OwnTame(ss, i, cleanup, inLoop, scope);
        TameConcat(a.stack, Own(ss, i));
        LiveStack(ss, i, a, d);
        KnownBound(ss, i, a, d, lvl, cleanup, inLoop, scope);
        KnownVar(ss, i, d, e, true);
      }
    } else if d.term {
      KnownOn(ss, i, d.st, e.st);
    } else {
      LiveItem(ss, i, a, d);
      OwnTame(ss, i, cleanup, inLoop, scope);
      TameConcat(a.stack, Own(ss, i));
      LiveStack(ss, i, a, d);
      UnseenItem(ss, i, d.st);
      FrameStmt(ss[i], d.st, lvl, cleanup, inLoop, scope + Visible(ss, i));
      WellFormedDistinct(ss, cleanup, inLoop, scope);
      DistinctFrom(ss, i);
      SameNames(ss, d.st, e.st, LabelsOf(ss[i]));
      KnownOn(ss, i, d.st, e.st);
    }
  }

  lemma SameNames(ss: seq<Stmt>, x: Ctx, y: Ctx, ls: set<string>)
    requires Frame(x, y, ls) && forall q :: 0 <= q < |ss| && ss[q].Label? ==> ss[q].l !in ls
    ensures forall q :: 0 <= q < |ss| && ss[q].Label? ==> (ss[q].l in y.labels <==> ss[q].l in x.labels)
  {
    hide Ext, SameTargets, Within;
  }

  lemma KnownOn(ss: seq<Stmt>, i: nat, x: Ctx, y: Ctx)
    requires i < |ss| && !ss[i].Var? && Known(ss, i, x)
    requires forall q :: 0 <= q < |ss| && ss[q].Label? ==> (ss[q].l in y.labels <==> ss[q].l in x.labels)
    ensures Known(ss, i + 1, y)
  {
    hide Hidden;
    forall q | i + 1 <= q < |ss| && SegmentStart(ss, q) <= i + 1 ensures SegmentStart(ss, q) <= i {
      SegmentsInOrder(ss, i + 1, q);
    }
  }

  // Labels behind a binding have not been collected before it.
  lemma NotYet(ss: seq<Stmt>, i: nat, a: Ctx, d: Done)
    requires i < |ss| && ss[i].Var? && ItemsInv(ss, i, a, d)
    ensures forall q :: i < q < |ss| && ss[q].Label? ==> ss[q].l !in d.st.labels
  {
    hide Frame, Unplaced, Unseen, Own;
    forall q | i < q < |ss| && ss[q].Label? ensures ss[q].l !in d.st.labels {
      SegmentsInOrder(ss, i, q);
    }
  }

  lemma KnownVar(ss: seq<Stmt>, i: nat, d: Done, e: Done, collected: bool)
    requires i < |ss| && ss[i].Var? && EndsItems(ss, i) == !collected
    requires forall q :: i < q < |ss| && ss[q].Label? && SegmentStart(ss, q) == i + 1 ==> (ss[q].l in e.st.labels <==> collected)
    ensures Known(ss, i + 1, e.st)
  {
    forall q | i + 1 <= q < |ss| && SegmentStart(ss, q) <= i + 1 ensures SegmentStart(ss, q) == i + 1 {
      SegmentsInOrder(ss, i, q);
    }
  }

  // A live binding collects the labels of the segment it begins.
  lemma KnownBound(ss: seq<Stmt>, i: nat, a: Ctx, d: Done, lvl: nat, cleanup: bool, inLoop: bool, scope: set<string>)
    requires i < |ss| && ss[i].Var? && !d.term && ItemsInv(ss, i, a, d) && Within(d.st) && Tame(d.st.stack) && CgItem(ss, i, d, lvl).Ok?
    requires WellFormedAll(ss, |ss|, cleanup, inLoop, scope)
    ensures forall q :: i < q < |ss| && ss[q].Label? && SegmentStart(ss, q) == i + 1 ==> ss[q].l in CgItem(ss, i, d, lvl).value.st.labels
  {
    hide *;
    VarItemIs(ss, i, d, lvl);
    var st1 := CgVar(ss[i].inits, d.st, lvl).value;
    FrameVar(ss[i].inits, d.st, lvl);
    WellFormedDistinct(ss, cleanup, inLoop, scope);
    BoundState(ss, i, a, d, st1);
    Collecting(ss, i + 1, i + 1, a, st1);
    SegmentAt(ss, i);
    CollectedSegment(ss, i + 1, st1, CollectLabels(ss, i + 1, st1).value);
  }

  lemma BoundState(ss: seq<Stmt>, i: nat, a: Ctx, d: Done, st1: Ctx)
    requires i < |ss| && ItemsInv(ss, i, a, d) && Frame(d.st, st1, {})
    ensures Frame(a, st1, LabelsOfAll(ss)) && Unplaced(ss, i + 1, st1) && Unseen(ss, i + 1, st1)
  {
    hide Within, Ext, LabelsKept, SameTargets, Unplaced, Unseen, Reachable, Dead, LabelsOfAll;
    Then(a, d.st, st1, LabelsOfAll(ss), {});
    Weaken(ss, i, d.st);
    KeepUnplaced(ss, i + 1, d.st, st1, {});
    KeepUnseen(ss, i + 1, d.st, st1, {});
  }

  lemma CollectedSegment(ss: seq<Stmt>, i: nat, st: Ctx, st': Ctx)
    requires i <= |ss| && CollectedFrom(ss, i, st, st')
    ensures forall q :: i <= q < |ss| && ss[q].Label? && SegmentStart(ss, q) == SegmentStart(ss, i) ==> ss[q].l in st'.labels
  {
  }

  lemma VarItemIs(ss: seq<Stmt>, i: nat, d: Done, lvl: nat)
    requires i < |ss| && ss[i].Var? && !d.term && CgItem(ss, i, d, lvl).Ok?
    ensures CgVar(ss[i].inits, d.st, lvl).Ok? && CollectLabels(ss, i + 1, CgVar(ss[i].inits, d.st, lvl).value).Ok?
    ensures CgItem(ss, i, d, lvl).value.st == CollectLabels(ss, i + 1, CgVar(ss[i].inits, d.st, lvl).value).value
  {
    hide CgVar, CollectLabels;
  }

  lemma SegmentAt(ss: seq<Stmt>, i: nat)
    requires i < |ss| && ss[i].Var?
    ensures SegmentStart(ss, i + 1) == i + 1
  {
  }

  // Labels of their own can all be collected.
  lemma {:induction false} Collects(ss: seq<Stmt>, i: nat, st: Ctx)
    requires i <= |ss| && Distinct(ss) && forall q :: i <= q < |ss| && ss[q].Label? && SegmentStart(ss, q) == SegmentStart(ss, i) ==> ss[q].l !in st.labels
    ensures CollectLabels(ss, i, st).Ok?
    decreases |ss| - i
  {
    if i < |ss| && !ss[i].Var? {
      assert SegmentStart(ss, i + 1) == SegmentStart(ss, i);
      if ss[i].Label? {
        forall q | i < q < |ss| && ss[q].Label? ensures ss[q].l != ss[i].l { assert LabelsOf(ss[i]) !! LabelsOf(ss[q]); }
      }
      Collects(ss, i + 1, CollectOne(ss, i, st));
    }
  }

  lemma {:induction false} AcceptBlock(ss: seq<Stmt>, st: Ctx, lvl: nat, cleanup: bool, inLoop: bool, scope: set<string>)
    requires UnderWay(st, scope, cleanup) && WellFormedAll(ss, |ss|, cleanup, inLoop, scope) && st.labels.Keys !! LabelsOfAll(ss) && TidyAll(ss)
    ensures Judged(CgStmt(Block(ss), st, lvl), RegularItems(ss, |ss|, st.breaks != []))
    decreases lvl, 8, ss, |ss| + 1
  {
    hide UnderWay, Ext, Tame, Within, SameTargets, LabelsKept, CgItems, CollectLabels, Settled, RegularItems;
    WellFormedDistinct(ss, cleanup, inLoop, scope);
    NoneSeen(ss, st, cleanup, inLoop, scope);
    Collects(ss, 0, st);
    AcceptItems(ss, |ss|, st, lvl, cleanup, inLoop, scope);
    var d := CgItems(ss, |ss|, Done(CollectLabels(ss, 0, st).value, false), lvl);
    if d.Ok? {
      WayLess(st, scope, cleanup);
      FrameItems(ss, |ss|, st, lvl, cleanup, inLoop, scope);
      CloseFine(ss, st, d.value, lvl, cleanup, inLoop, scope);
    }
  }

  lemma {:induction false} CloseFine(ss: seq<Stmt>, a: Ctx, d: Done, lvl: nat, cleanup: bool, inLoop: bool, scope: set<string>)
    requires ItemsInv(ss, |ss|, a, d) && UnderWay(a, scope, cleanup) && WellFormedAll(ss, |ss|, cleanup, inLoop, scope) && TidyAll(ss)
    requires |a.stack| <= |d.st.stack|
    ensures Fine(EndScope(|a.stack|, d.term, d.st, lvl))
    decreases lvl, 3
  {
    hide UnderWay, Settled, Tame, Ext, LabelsKept, SameTargets, Within, Unplaced, Unseen;
    if !d.term {
      OwnTame(ss, |ss|, cleanup, inLoop, scope);
      OwnSettled(ss, |ss|);
      WayItem(ss, |ss|, a, d, scope, cleanup);
      Tail(a.stack, Own(ss, |ss|));
    }
    FineEndScope(|a.stack|, d.term, d.st, Own(ss, |ss|), lvl, cleanup);
  }

  // The state in front of a live item.
  lemma WayItem(ss: seq<Stmt>, i: nat, a: Ctx, d: Done, scope: set<string>, cleanup: bool)
    requires i <= |ss| && UnderWay(a, scope, cleanup) && ItemsInv(ss, i, a, d) && !d.term && Tame(Own(ss, i)) && Settled(Own(ss, i))
    ensures UnderWay(d.st, scope + Visible(ss, i), cleanup) && UnderWay(d.st, {}, cleanup) && d.st.stack == a.stack + Own(ss, i)
    ensures (d.st.breaks == [] <==> a.breaks == []) && Within(d.st) && Tame(d.st.stack)
  {
    hide Ext, LabelsKept, Tame, Settled, Unplaced, Unseen, Visible, Own;
    LiveItem(ss, i, a, d);
    LiveStack(ss, i, a, d);
    ItemReady(ss, i, a, d, scope);
    SettledConcat(a.stack, Own(ss, i));
    hide Within;
    WayLess(d.st, scope + Visible(ss, i), cleanup);
  }

  lemma {:induction false} AcceptItems(ss: seq<Stmt>, n: nat, a: Ctx, lvl: nat, cleanup: bool, inLoop: bool, scope: set<string>)
    requires n <= |ss| && UnderWay(a, scope, cleanup) && WellFormedAll(ss, |ss|, cleanup, inLoop, scope) && TidyAll(ss)
    requires a.labels.Keys !! LabelsOfAll(ss) && CollectLabels(ss, 0, a).Ok?
    ensures Judged(CgItems(ss, n, Done(CollectLabels(ss, 0, a).value, false), lvl), RegularItems(ss, n, a.breaks != []))
    decreases lvl, 8, ss, n
  {
    hide UnderWay, Ext, Tame, Within, SameTargets, LabelsKept, CgItem, CollectLabels, ItemsInv, Known, RegularItem, LabelsOfAll, WellFormedAll;
    if n > 0 {
      var d0 := Done(CollectLabels(ss, 0, a).value, false);
      AcceptItems(ss, n - 1, a, lvl, cleanup, inLoop, scope);
      var d := CgItems(ss, n - 1, d0, lvl);
      if d.Ok? {
        WayLess(a, scope, cleanup);
        FrameItems(ss, n - 1, a, lvl, cleanup, inLoop, scope);
        KnownItems(ss, n - 1, a, lvl, cleanup, inLoop, scope);
        PrefixWellFormed(ss, n - 1, cleanup, inLoop, scope);
        CollectKeepsStack(ss, a);
        EndsAll(ss, n - 1, d0, lvl, cleanup, inLoop, scope);
        AcceptItem(ss, n - 1, a, d.value, lvl, cleanup, inLoop, scope);
      }
    }
  }

  lemma {:induction false} AcceptItem(ss: seq<Stmt>, i: nat, a: Ctx, d: Done, lvl: nat, cleanup: bool, inLoop: bool, scope: set<string>)
    requires i < |ss| && UnderWay(a, scope, cleanup) && WellFormedAll(ss, |ss|, cleanup, inLoop, scope) && TidyAll(ss)
    requires ItemsInv(ss, i, a, d) && d.term == EndsItems(ss, i) && Known(ss, i, d.st)
    ensures Judged(CgItem(ss, i, d, lvl), RegularItem(ss, i, a.breaks != []))
    decreases lvl, 8, ss, 0
  {
    hide UnderWay, Ext, Tame, Within, SameTargets, LabelsKept, CgStmt, CgVar, CollectLabels, Unplaced, Unseen, Dead, Reachable, Own, Settled, Regular, Hidden, EndsItems, LabelsOfAll, WellFormedAll;
    if ss[i].Label? { SegmentBefore(ss, i); return; }
    if d.term { return; }
    WellFormedItem(ss, |ss|, i, cleanup, inLoop, scope);
    OwnTame(ss, i, cleanup, inLoop, scope);
    OwnSettled(ss, i);
    WayItem(ss, i, a, d, scope, cleanup);
    if ss[i].Var? {
      FineVar(ss[i].inits, d.st, lvl, cleanup);
      if CgVar(ss[i].inits, d.st, lvl).Ok? {
        var st1 := CgVar(ss[i].inits, d.st, lvl).value;
        FrameVar(ss[i].inits, d.st, lvl);
        NotYet(ss, i, a, d);
        SameNames(ss, d.st, st1, {});
        WellFormedDistinct(ss, cleanup, inLoop, scope);
        Collects(ss, i + 1, st1);
      }
    } else {
      UnseenItem(ss, i, d.st);
      assert Tidy(ss[i]);
      AcceptStmt(ss[i], d.st, lvl, cleanup, inLoop, scope + Visible(ss, i));
    }
  }

  lemma SegmentBefore(ss: seq<Stmt>, i: nat)
    requires i < |ss|
    ensures SegmentStart(ss, i) <= i
  {
  }

  // ----- the theorems -------------------------------------------------------

  // A program compiles, given depth enough, if and only if it is regular and,
  // where it must return a value, does not fall off its end.
  lemma CompilesIff(body: Stmt, needsReturn: bool, lvl: nat)
    requires Proper(body) && Tidy(body) && Nesting(body) <= lvl
    ensures CgFunction(body, needsReturn, lvl).Ok? <==> Regular(body, false) && (needsReturn ==> Ends(body))
  {
    StartUnderWay();
    hide CgStmt, UnderWay, Tame, SameTargets, LabelsKept, Ext, Jump, Regular;
    AcceptStmt(body, Start(), lvl, false, false, {});
    var r := CgStmt(body, Start(), lvl);
    DepthEnough(body, needsReturn, lvl);
    if r.Ok? {
      EndsStmt(body, Start(), lvl, false, false, {});
      LastJump(body, r.value, lvl);
    }
  }

  lemma StartUnderWay()
    ensures UnderWay(Start(), {}, false) && Within(Start()) && Start().breaks == [] && Start().labels == map[]
  {
  }

  lemma LastJump(body: Stmt, d: Done, lvl: nat)
    requires Proper(body) && CgStmt(body, Start(), lvl) == Ok(d)
    ensures Jump(Target(RETURN, 0, 0), false, d.st, lvl).Ok?
  {
    hide CgStmt, Ext, LabelsKept, SameTargets, WellFormed;
    StartUnderWay();
    FrameStmt(body, Start(), lvl, false, false, {});
    EndStack(body, d, lvl);
    assert d.st.stack[0..] == [];
    assert Destroy([], false, d.st, lvl) == Ok(d.st);
  }

  // The live parts of a block are regular.
  predicate RegularParts(ss: seq<Stmt>, loop: bool) {
    forall i :: 0 <= i < |ss| && !ss[i].Label? && !ss[i].Var? && !EndsItems(ss, i) ==> Regular(ss[i], loop)
  }

  ghost predicate HidesLabel(ss: seq<Stmt>) {
    exists i :: 0 <= i < |ss| && ss[i].Label? && Hidden(ss, i)
  }

  // A block whose live parts are regular fails an assertion if and only if it
  // has a label behind a binding in dead code.
  lemma HiddenLabelIff(ss: seq<Stmt>, lvl: nat)
    requires Proper(Block(ss)) && TidyAll(ss) && NestingAll(ss) <= lvl && RegularParts(ss, false)
    ensures CgFunction(Block(ss), false, lvl) == Fail(AssertionFailed) <==> HidesLabel(ss)
    ensures CgFunction(Block(ss), false, lvl).Ok? <==> !HidesLabel(ss)
  {
    hide Hidden, CgStmt, CgFunction;
    RegularIffNoneHidden(ss, |ss|);
    CompilesIff(Block(ss), false, lvl);
    if HidesLabel(ss) { HiddenFails(ss, lvl); }
  }

  lemma {:induction false} RegularIffNoneHidden(ss: seq<Stmt>, n: nat)
    requires n <= |ss| && RegularParts(ss, false)
    ensures RegularItems(ss, n, false) <==> !exists i :: 0 <= i < n && ss[i].Label? && Hidden(ss, i)
  {
    hide Hidden;
    if n > 0 { RegularIffNoneHidden(ss, n - 1); }
  }

  lemma HiddenFails(ss: seq<Stmt>, lvl: nat)
    requires Proper(Block(ss)) && TidyAll(ss) && NestingAll(ss) <= lvl && RegularParts(ss, false)
    requires !CgFunction(Block(ss), false, lvl).Ok?
    ensures CgFunction(Block(ss), false, lvl) == Fail(AssertionFailed)
  {
    StartUnderWay();
    EmptyRoomy(lvl);
    hide UnderWay, Roomy, Hidden, CgItems, CollectLabels;
    WellFormedDistinct(ss, false, false, {});
    NoneSeen(ss, Start(), false, false, {});
    Collects(ss, 0, Start());
    ItemsFail(ss, |ss|, lvl);
    BlockFails(ss, lvl);
  }

  // If the items compile, so does the function.
  lemma BlockFails(ss: seq<Stmt>, lvl: nat)
    requires Proper(Block(ss)) && TidyAll(ss) && NestingAll(ss) <= lvl && CollectLabels(ss, 0, Start()).Ok?
    requires !CgFunction(Block(ss), false, lvl).Ok?
    ensures var r := CgItems(ss, |ss|, Done(CollectLabels(ss, 0, Start()).value, false), lvl);
            r.Fail? && CgFunction(Block(ss), false, lvl) == Fail(r.error)
  {
    StartUnderWay();
    hide UnderWay, CgItems, CollectLabels, RegularItems;
    var r := CgItems(ss, |ss|, Done(CollectLabels(ss, 0, Start()).value, false), lvl);
    if r.Ok? {
      AcceptItems(ss, |ss|, Start(), lvl, false, false, {});
      CompilesIff(Block(ss), false, lvl);
    }
  }

  lemma {:induction false} ItemsFail(ss: seq<Stmt>, n: nat, lvl: nat)
    requires n <= |ss| && UnderWay(Start(), {}, false) && Roomy(Start(), lvl, 0, false, false)
    requires Proper(Block(ss)) && TidyAll(ss) && NestingAll(ss) <= lvl && RegularParts(ss, false)
    requires CollectLabels(ss, 0, Start()).Ok?
    ensures var r := CgItems(ss, n, Done(CollectLabels(ss, 0, Start()).value, false), lvl); r.Ok? || r.error == AssertionFailed
    decreases n
  {
    hide UnderWay, Roomy, Hidden, CgItem, CollectLabels, ItemsInv, Known, WellFormedAll, Within, Tame, Regular, EndsItems;
    if n > 0 {
      var a := Start();
      var d0 := Done(CollectLabels(ss, 0, a).value, false);
      ItemsFail(ss, n - 1, lvl);
      var d := CgItems(ss, n - 1, d0, lvl);
      if d.Ok? {
        WayLess(a, {}, false);
        FrameItems(ss, n - 1, a, lvl, false, false, {});
        KnownItems(ss, n - 1, a, lvl, false, false, {});
        PrefixWellFormed(ss, n - 1, false, false, {});
        CollectKeepsStack(ss, a);
        EndsAll(ss, n - 1, d0, lvl, false, false, {});
        AcceptItem(ss, n - 1, a, d.value, lvl, false, false, {});
        DeepItem(ss, n - 1, a, d.value, lvl, 0, false, false, {});
        LabelFails(ss, n - 1, d.value, lvl);
      }
    }
  }

  lemma LabelFails(ss: seq<Stmt>, i: nat, d: Done, lvl: nat)
    requires i < |ss|
    ensures ss[i].Label? && CgItem(ss, i, d, lvl).Fail? ==> CgItem(ss, i, d, lvl).error == AssertionFailed
  {
  }

  // ----- programs that are not well formed ----------------------------------

  // The labels from i to the next binding are collected if and only if they are
  // new and no two are the same.
  lemma {:induction false} CollectsIff(ss: seq<Stmt>, i: nat, st: Ctx)
    requires i <= |ss|
    ensures var r := CollectLabels(ss, i, st);
            && (r.Ok? <==> forall q :: i <= q < |ss| && InSegment(ss, i, q) && ss[q].Label? ==>
                             ss[q].l !in st.labels && forall q' :: i <= q' < q && ss[q'].Label? ==> ss[q'].l != ss[q].l)
            && (r.Fail? ==> r.error == LabelRedefined)
    decreases |ss| - i
  {
    if i < |ss| && !ss[i].Var? {
      var next := if ss[i].Label? then NewBlock(st).(labels := st.labels[ss[i].l := Target(st.next, |st.stack|, 0)]) else st;
      CollectsIff(ss, i + 1, next);
      forall q | i < q < |ss| ensures InSegment(ss, i, q) <==> InSegment(ss, i + 1, q) { }
      assert InSegment(ss, i, i);
    }
  }

  // No binding between i and q.
  predicate InSegment(ss: seq<Stmt>, i: nat, q: nat)
    requires i <= q < |ss|
  {
    forall j :: i <= j <= q ==> !ss[j].Var?
  }

  // What the compiler says to statements out of place, and to jumps that lead
  // nowhere.
  lemma Complaints(l: string, inits: seq<Init>, lvl: nat)
    ensures CgFunction(Goto(l), false, lvl) == Fail(LabelNotFound)
    ensures CgFunction(Break, false, lvl) == Fail(InvalidBreak) && CgFunction(Continue, false, lvl) == Fail(InvalidContinue)
    ensures CgFunction(Label(l), false, lvl) == Fail(InvalidLabel) && CgFunction(Var(inits), false, lvl) == Fail(InvalidBinding)
    ensures CgFunction(Block([Label(l), Label(l)]), false, lvl) == Fail(LabelRedefined)
  {
    var ss, a := [Label(l), Label(l)], Start();
    var x := NewBlock(a).(labels := a.labels[l := Target(a.next, 0, 0)]);
    assert CollectLabels(ss, 1, x) == Fail(LabelRedefined);
    assert CollectLabels(ss, 0, a) == Fail(LabelRedefined);
  }

  // In front of a condition it takes bindings and expressions only.
  lemma ConditionComplaints(s: Stmt, kind: CondKind, cond: Expr, thn: Stmt, els: Stmt, st: Ctx, lvl: nat)
    requires !s.Var? && !s.Eval?
    ensures CgStmt(If([s], kind, cond, thn, els), st, lvl) == Fail(AssertionFailed)
    ensures CgStmt(While([s], cond, thn), st, lvl) == Fail(AssertionFailed)
  {
    hide CgWhole, CgArms, LoopBody, LoopEnd;
    var pre := [s];
    forall x ensures CgPre(pre, |pre|, x, lvl) == Fail(AssertionFailed) {
      assert CgPre(pre, 0, x, lvl) == Ok(x) && CgPreItem(pre[0], x, lvl) == Fail(AssertionFailed);
    }
    hide CgPre;
    assert CgIf(If(pre, kind, cond, thn, els), st, lvl) == Fail(AssertionFailed);
    var loop := While(pre, cond, thn);
    assert forall x, body: nat, end: nat :: CgTest(loop, body, end, x, lvl) == Fail(AssertionFailed);
    assert CgWhile(loop, st, lvl) == Fail(AssertionFailed);
  }
}
