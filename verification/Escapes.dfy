// Cleanup bodies with returns in them: compiling one cleans up for the return,
// which compiles the body again, with the body still on the stack.
module Escapes {
  import opened Wrappers
  import opened Syntax
  import opened Cfg
  import opened CodegenSpec
  import opened Framing
  import opened Simulation
  import opened Correctness
  import opened Endings
  import opened Depth
  import opened Acceptance
  import opened Blocks

  // A return that is not dead code, cleanup bodies apart.
  predicate LiveReturn(s: Stmt)
    decreases s, 0
  {
    match s
    case Return(_) => true
    case Block(body) => LiveReturnItems(body, |body|)
    case If(_, kind, _, thn, els) => (!kind.StaticFalse? && LiveReturn(thn)) || (!kind.StaticTrue? && LiveReturn(els))
    case While(_, _, body) => LiveReturn(body)
    case Try(tried, handler) => LiveReturn(tried) || LiveReturn(handler)
    case _ => false
  }

  predicate LiveReturnItems(ss: seq<Stmt>, n: nat)
    requires n <= |ss|
    decreases ss, n
  {
    n > 0 && (LiveReturnItems(ss, n - 1) || (!EndsItems(ss, n - 1) && LiveReturn(ss[n - 1])))
  }

  // A body that would do for a function and has no labels.
  predicate Candidate(b: seq<Stmt>) {
    WellFormedAll(b, |b|, false, false, {}) && LabelsOfAll(b) == {} && TidyAll(b) && RegularItems(b, |b|, false)
  }

  lemma {:induction false} NoReturnInCleanup(s: Stmt, inLoop: bool, scope: set<string>)
    requires WellFormed(s, true, inLoop, scope)
    ensures !LiveReturn(s)
    decreases s, 0
  {
    match s
    case Block(body) => NoReturnInItems(body, |body|, inLoop, scope);
    case If(_, _, _, thn, els) => NoReturnInCleanup(thn, inLoop, scope); NoReturnInCleanup(els, inLoop, scope);
    case While(_, _, body) => NoReturnInCleanup(body, true, scope);
    case Try(tried, handler) => NoReturnInCleanup(tried, inLoop, scope); NoReturnInCleanup(handler, inLoop, scope);
    case _ =>
  }

  lemma {:induction false} NoReturnInItems(ss: seq<Stmt>, n: nat, inLoop: bool, scope: set<string>)
    requires n <= |ss| && WellFormedAll(ss, n, true, inLoop, scope)
    ensures !LiveReturnItems(ss, n)
    decreases ss, n
  {
    if n > 0 {
      NoReturnInItems(ss, n - 1, inLoop, scope);
      NoReturnInCleanup(ss[n - 1], inLoop, scope + Visible(ss, n - 1));
    }
  }

  // ----- the body and a plug in its place -----------------------------------

  const PLUG: Entry := Value(Slot(Local, 0, true))

  predicate High(ts: seq<Target>) {
    forall i :: 0 <= i < |ts| ==> ts[i].marker >= 1
  }

  // st has the cleanup body b at the bottom of its stack, and returns lead below
  // it; f has a value there that needs no destruction.
  predicate Twin(st: Ctx, f: Ctx, b: seq<Stmt>) {
    && f == st.(stack := f.stack) && |st.stack| == |f.stack| >= 1
    && st.stack[0] == Final(b) && f.stack[0] == PLUG && st.stack[1..] == f.stack[1..]
    && !st.check && st.rets != [] && st.rets[|st.rets| - 1].marker == 0
    && High(st.breaks) && High(st.continues)
  }

  // Both succeed, or both run out of depth.
  predicate Twins(r: Compiled<Ctx>, r': Compiled<Ctx>, b: seq<Stmt>) {
    if r'.Ok? then r.Ok? && Twin(r.value, r'.value, b) else r == r' == Fail(TooDeep)
  }

  lemma TwinSuffix(st: Ctx, f: Ctx, b: seq<Stmt>, n: nat)
    requires Twin(st, f, b) && 1 <= n <= |st.stack|
    ensures st.stack[n..] == f.stack[n..]
  {
    assert st.stack[n..] == st.stack[1..][n - 1..];
    assert f.stack[n..] == f.stack[1..][n - 1..];
  }

  lemma TwinCode(st: Ctx, f: Ctx, b: seq<Stmt>, code: Code, next: nat, cur: nat)
    requires Twin(st, f, b)
    ensures Twin(st.(code := code, next := next, cur := cur), f.(code := code, next := next, cur := cur), b)
  {
  }

  lemma TwinPush(st: Ctx, f: Ctx, b: seq<Stmt>, es: seq<Entry>)
    requires Twin(st, f, b)
    ensures Twin(st.(stack := st.stack + es), f.(stack := f.stack + es), b)
  {
    assert (st.stack + es)[1..] == st.stack[1..] + es;
    assert (f.stack + es)[1..] == f.stack[1..] + es;
  }

  lemma TwinPop(st: Ctx, f: Ctx, b: seq<Stmt>, n: nat)
    requires Twin(st, f, b) && 1 <= n <= |st.stack|
    ensures Twin(PopTo(st, n), PopTo(f, n), b)
  {
    assert st.stack[..n][1..] == st.stack[1..][..n - 1];
    assert f.stack[..n][1..] == f.stack[1..][..n - 1];
  }

  // ----- expressions --------------------------------------------------------

  // Temporaries are popped alike.
  lemma {:induction false} TwinDrop(vs: seq<Slot>, marker: nat, st: Ctx, f: Ctx, b: seq<Stmt>, lvl: nat)
    requires Twin(st, f, b) && 1 <= marker <= |st.stack| && st.stack[marker..] == Values(vs)
    ensures DestroyPop(marker, false, st, lvl).Ok? && DestroyPop(marker, false, f, lvl).Ok?
    ensures Twin(DestroyPop(marker, false, st, lvl).value, DestroyPop(marker, false, f, lvl).value, b)
    decreases |vs|
  {
    hide *;
    TwinSuffix(st, f, b, marker);
    TwinSame(st, f, b);
    if vs != [] {
      var n := |st.stack| - 1;
      var v := vs[|vs| - 1];
      TopTemp(vs, marker, st.stack);
      TopTemp(vs, marker, f.stack);
      TwinPop(st, f, b, n);
      TwinValue(PopTo(st, n), PopTo(f, n), b, v, lvl);
      var x, y := DestroyEntry(Value(v), false, PopTo(st, n), lvl).value, DestroyEntry(Value(v), false, PopTo(f, n), lvl).value;
      PoppedStack(st, n);
      TwinDrop(vs[..|vs| - 1], marker, x, y, b, lvl);
      PopOnce(st, v, marker, lvl);
      PopOnce(f, v, marker, lvl);
    } else {
      PopNothing(st, marker, lvl);
      PopNothing(f, marker, lvl);
    }
  }

  lemma TopTemp(vs: seq<Slot>, marker: nat, es: seq<Entry>)
    requires marker <= |es| && es[marker..] == Values(vs) && vs != []
    ensures |es| > marker && es[|es| - 1] == Value(vs[|vs| - 1]) && es[..|es| - 1][marker..] == Values(vs[..|vs| - 1])
  {
    assert es[marker..][|vs| - 1] == Values(vs)[|vs| - 1];
    assert es[..|es| - 1][marker..] == es[marker..][..|vs| - 1];
  }

  lemma PoppedStack(st: Ctx, n: nat)
    requires n <= |st.stack|
    ensures PopTo(st, n).stack == st.stack[..n]
  {
  }

  lemma TwinValue(st: Ctx, f: Ctx, b: seq<Stmt>, v: Slot, lvl: nat)
    requires Twin(st, f, b)
    ensures var r, r' := DestroyEntry(Value(v), false, st, lvl), DestroyEntry(Value(v), false, f, lvl);
            r.Ok? && r'.Ok? && r.value.stack == st.stack && Twin(r.value, r'.value, b)
  {
    var x := if v.prim then st else Emit(st, IDestroy(v));
    TwinCode(st, f, b, x.code, x.next, x.cur);
  }

  lemma PopOnce(st: Ctx, v: Slot, marker: nat, lvl: nat)
    requires marker < |st.stack| && st.stack[|st.stack| - 1] == Value(v)
    ensures var r := DestroyEntry(Value(v), false, PopTo(st, |st.stack| - 1), lvl);
            r.Ok? && marker <= |r.value.stack| && DestroyPop(marker, false, st, lvl) == DestroyPop(marker, false, r.value, lvl)
  {
  }

  lemma PopNothing(st: Ctx, marker: nat, lvl: nat)
    requires marker <= |st.stack| && st.stack[marker..] == Values([])
    ensures DestroyPop(marker, false, st, lvl) == Ok(st)
  {
  }

  lemma TwinSame(st: Ctx, f: Ctx, b: seq<Stmt>)
    requires Twin(st, f, b)
    ensures |st.stack| == |f.stack| >= 1 && f == st.(stack := f.stack) && !st.check
  {
  }

  lemma {:induction false} TwinInto(e: Expr, out: Slot, st: Ctx, f: Ctx, b: seq<Stmt>, lvl: nat)
    requires Twin(st, f, b)
    ensures CgInto(e, out, st, lvl).Ok? && CgInto(e, out, f, lvl).Ok? && Twin(CgInto(e, out, st, lvl).value, CgInto(e, out, f, lvl).value, b)
    decreases e, 1
  {
    hide Twin;
    TwinSame(st, f, b);
    match e
    case Lit(c, _) =>
      var x := Emit(st, IStore(out, c));
      TwinCode(st, f, b, x.code, x.next, x.cur);
    case Call(fn, args, _, _) =>
      TwinArgs(args, |args|, st, f, b, lvl);
      TwinCall(fn, Homes(args), out, CgArgs(args, |args|, st, lvl).value, CgArgs(args, |args|, f, lvl).value, b, lvl);
    case And(_, _, _) => TwinAndOr(e, out, st, f, b, lvl);
    case Or(_, _, _) => TwinAndOr(e, out, st, f, b, lvl);
  }

  lemma TwinCall(fn: Fn, args: seq<Slot>, out: Slot, st: Ctx, f: Ctx, b: seq<Stmt>, lvl: nat)
    requires Twin(st, f, b)
    ensures CgCall(fn, args, out, st, lvl).Ok? && CgCall(fn, args, out, f, lvl).Ok?
    ensures Twin(CgCall(fn, args, out, st, lvl).value, CgCall(fn, args, out, f, lvl).value, b)
  {
    var x := Emit(st, ICallUnchecked(fn, args, out));
    TwinCode(st, f, b, x.code, x.next, x.cur);
  }

  lemma {:induction false} TwinAndOr(e: Expr, out: Slot, st: Ctx, f: Ctx, b: seq<Stmt>, lvl: nat)
    requires (e.And? || e.Or?) && Twin(st, f, b)
    ensures CgAndOr(e, out, st, lvl).Ok? && CgAndOr(e, out, f, lvl).Ok? && Twin(CgAndOr(e, out, st, lvl).value, CgAndOr(e, out, f, lvl).value, b)
    decreases e, 0
  {
    hide *;
    TwinRef(e.l, st, f, b, lvl);
    var st1, f1 := CgRef(e.l, st, lvl).value, CgRef(e.l, f, lvl).value;
    TwinFork(st1, f1, b, 3, Choice(e, st1.next));
    var st2, f2 := Fork(st1, 3, Choice(e, st1.next)), Fork(f1, 3, Choice(e, st1.next));
    TwinArm(e.r, out, st1.next + 2, st2, f2, b, lvl);
    TwinSkip(CgArm(e.r, out, st1.next + 2, st2, lvl).value, CgArm(e.r, out, st1.next + 2, f2, lvl).value, b, e, out, st1.next);
    AndOrFrom(e, out, st, lvl);
    AndOrFrom(e, out, f, lvl);
  }

  lemma TwinFork(st: Ctx, f: Ctx, b: seq<Stmt>, n: nat, br: Instr)
    requires Twin(st, f, b) && 1 <= n <= 4
    ensures Twin(Fork(st, n, br), Fork(f, n, br), b) && f.next == st.next
  {
    hide Twin, Fork;
    TwinSame(st, f, b);
    ForkTwins(st, f.stack, n, br);
    var x := Fork(st, n, br);
    TwinCode(st, f, b, x.code, x.next, x.cur);
  }

  // What follows the second operand, whose blocks are n and the next two.
  function Skipped(x: Ctx, e: Expr, out: Slot, n: nat): Ctx {
    Emit(Emit(x.(cur := n + 1), IStore(out, e.Or?)), IBr(n + 2)).(cur := n + 2)
  }

  lemma TwinSkip(st: Ctx, f: Ctx, b: seq<Stmt>, e: Expr, out: Slot, n: nat)
    requires Twin(st, f, b)
    ensures Twin(Skipped(st, e, out, n), Skipped(f, e, out, n), b)
  {
    hide Twin;
    TwinSame(st, f, b);
    var x := Skipped(st, e, out, n);
    TwinCode(st, f, b, x.code, x.next, x.cur);
  }

  lemma AndOrFrom(e: Expr, out: Slot, st: Ctx, lvl: nat)
    requires (e.And? || e.Or?) && CgRef(e.l, st, lvl).Ok?
    requires var st1 := CgRef(e.l, st, lvl).value; CgArm(e.r, out, st1.next + 2, Fork(st1, 3, Choice(e, st1.next)), lvl).Ok?
    ensures var st1 := CgRef(e.l, st, lvl).value;
            CgAndOr(e, out, st, lvl) == Ok(Skipped(CgArm(e.r, out, st1.next + 2, Fork(st1, 3, Choice(e, st1.next)), lvl).value, e, out, st1.next))
  {
    hide CgRef, CgArm, NewBlocks, Fork;
    var st1 := CgRef(e.l, st, lvl).value;
    ForkIs(st1, 3, Choice(e, st1.next));
  }

  lemma {:induction false} TwinArm(e: Expr, out: Slot, merge: nat, st: Ctx, f: Ctx, b: seq<Stmt>, lvl: nat)
    requires Twin(st, f, b)
    ensures CgArm(e, out, merge, st, lvl).Ok? && CgArm(e, out, merge, f, lvl).Ok?
    ensures Twin(CgArm(e, out, merge, st, lvl).value, CgArm(e, out, merge, f, lvl).value, b)
    decreases e, 3
  {
    hide Twin, CgRef, DestroyPop;
    TwinSame(st, f, b);
    TwinRef(e, st, f, b, lvl);
    var st1, f1 := CgRef(e, st, lvl).value, CgRef(e, f, lvl).value;
    TwinSame(st1, f1, b);
    var i := ICopy(out, Home(e));
    var x := Emit(st1, i);
    TwinCode(st1, f1, b, x.code, x.next, x.cur);
    Tail(st.stack, Values(TempsRef(e)));
    TwinDrop(TempsRef(e), |st.stack|, x, Emit(f1, i), b, lvl);
    var st3, f3 := DestroyPop(|st.stack|, false, x, lvl).value, DestroyPop(|st.stack|, false, Emit(f1, i), lvl).value;
    TwinSame(st3, f3, b);
    var y := Emit(st3, IBr(merge));
    TwinCode(st3, f3, b, y.code, y.next, y.cur);
  }

  lemma {:induction false} TwinRef(e: Expr, st: Ctx, f: Ctx, b: seq<Stmt>, lvl: nat)
    requires Twin(st, f, b)
    ensures CgRef(e, st, lvl).Ok? && CgRef(e, f, lvl).Ok? && Twin(CgRef(e, st, lvl).value, CgRef(e, f, lvl).value, b)
    decreases e, 2
  {
    hide Twin;
    TwinInto(e, Home(e), st, f, b, lvl);
    TwinPush(CgInto(e, Home(e), st, lvl).value, CgInto(e, Home(e), f, lvl).value, b, [Value(Home(e))]);
  }

  lemma {:induction false} TwinArgs(args: seq<Expr>, n: nat, st: Ctx, f: Ctx, b: seq<Stmt>, lvl: nat)
    requires n <= |args| && Twin(st, f, b)
    ensures CgArgs(args, n, st, lvl).Ok? && CgArgs(args, n, f, lvl).Ok? && Twin(CgArgs(args, n, st, lvl).value, CgArgs(args, n, f, lvl).value, b)
    decreases args, n
  {
    hide Twin;
    if n > 0 {
      TwinArgs(args, n - 1, st, f, b, lvl);
      TwinRef(args[n - 1], CgArgs(args, n - 1, st, lvl).value, CgArgs(args, n - 1, f, lvl).value, b, lvl);
    }
  }

  lemma TwinWhole(e: Expr, st: Ctx, f: Ctx, b: seq<Stmt>, lvl: nat)
    requires Twin(st, f, b)
    ensures CgWhole(e, st, lvl).Ok? && CgWhole(e, f, lvl).Ok? && Twin(CgWhole(e, st, lvl).value, CgWhole(e, f, lvl).value, b)
  {
    hide Twin, CgRef, DestroyPop;
    TwinSame(st, f, b);
    TwinRef(e, st, f, b, lvl);
    Tail(st.stack, Values(TempsRef(e)));
    TwinDrop(TempsRef(e), |st.stack|, CgRef(e, st, lvl).value, CgRef(e, f, lvl).value, b, lvl);
  }

  lemma {:induction false} TwinInits(inits: seq<Init>, n: nat, st: Ctx, f: Ctx, b: seq<Stmt>, lvl: nat)
    requires n <= |inits| && Twin(st, f, b)
    ensures CgInits(inits, n, st, lvl).Ok? && CgInits(inits, n, f, lvl).Ok?
    ensures Twin(CgInits(inits, n, st, lvl).value, CgInits(inits, n, f, lvl).value, b)
  {
    hide Twin, CgInto, DestroyPop;
    if n > 0 {
      TwinInits(inits, n - 1, st, f, b, lvl);
      var e, out := inits[n - 1].e, inits[n - 1].out;
      var st1, f1 := CgInits(inits, n - 1, st, lvl).value, CgInits(inits, n - 1, f, lvl).value;
      TwinSame(st1, f1, b);
      TwinInto(e, out, st1, f1, b, lvl);
      Tail(st1.stack, Values(TempsInto(e)));
      TwinDrop(TempsInto(e), |st1.stack|, CgInto(e, out, st1, lvl).value, CgInto(e, out, f1, lvl).value, b, lvl);
      TwinPush(CgOneInto(e, out, st1, lvl).value, CgOneInto(e, out, f1, lvl).value, b, [Value(out)]);
    }
  }

  lemma TwinMulti(inits: seq<Init>, st: Ctx, f: Ctx, b: seq<Stmt>, lvl: nat)
    requires Twin(st, f, b)
    ensures CgMultiInto(inits, st, lvl).Ok? && CgMultiInto(inits, f, lvl).Ok?
    ensures Twin(CgMultiInto(inits, st, lvl).value, CgMultiInto(inits, f, lvl).value, b)
  {
    hide Twin, CgInits;
    TwinSame(st, f, b);
    TwinInits(inits, |inits|, st, f, b, lvl);
    TwinPop(CgInits(inits, |inits|, st, lvl).value, CgInits(inits, |inits|, f, lvl).value, b, |st.stack|);
  }

  lemma TwinVar(inits: seq<Init>, st: Ctx, f: Ctx, b: seq<Stmt>, lvl: nat)
    requires Twin(st, f, b)
    ensures CgVar(inits, st, lvl).Ok? && CgVar(inits, f, lvl).Ok? && Twin(CgVar(inits, st, lvl).value, CgVar(inits, f, lvl).value, b)
  {
    hide Twin, CgMultiInto;
    TwinMulti(inits, st, f, b, lvl);
    TwinPush(CgMultiInto(inits, st, lvl).value, CgMultiInto(inits, f, lvl).value, b, Outs(inits));
  }

  lemma {:induction false} TwinPre(pre: seq<Stmt>, n: nat, st: Ctx, f: Ctx, b: seq<Stmt>, lvl: nat)
    requires n <= |pre| && Simple(pre) && Twin(st, f, b)
    ensures CgPre(pre, n, st, lvl).Ok? && CgPre(pre, n, f, lvl).Ok? && Twin(CgPre(pre, n, st, lvl).value, CgPre(pre, n, f, lvl).value, b)
  {
    hide Twin, CgVar, CgWhole;
    if n > 0 {
      TwinPre(pre, n - 1, st, f, b, lvl);
      var st1, f1 := CgPre(pre, n - 1, st, lvl).value, CgPre(pre, n - 1, f, lvl).value;
      if pre[n - 1].Var? { TwinVar(pre[n - 1].inits, st1, f1, b, lvl); } else { TwinWhole(pre[n - 1].e, st1, f1, b, lvl); }
    }
  }

  // ----- cleanup ------------------------------------------------------------

  // The states of a compilation under way with b at the bottom of the stack.
  ghost predicate Inside(st: Ctx, f: Ctx, b: seq<Stmt>) {
    Twin(st, f, b) && UnderWay(f, {}, false)
  }

  lemma InsideIs(st: Ctx, f: Ctx, b: seq<Stmt>)
    requires Inside(st, f, b)
    ensures Twin(st, f, b) && UnderWay(f, {}, false) && Within(f) && Tame(f.stack) && Settled(f.stack)
  {
  }

  // The parts above the body clean up alike.
  lemma {:induction false} TwinDestroy(es: seq<Entry>, st: Ctx, f: Ctx, b: seq<Stmt>, lvl: nat)
    requires Candidate(b) && Inside(st, f, b) && Tame(es) && Settled(es)
    ensures Twins(Destroy(es, false, st, lvl), Destroy(es, false, f, lvl), b)
    ensures Destroy(es, false, f, lvl).Ok? ==> UnderWay(Destroy(es, false, f, lvl).value, {}, false)
    decreases lvl, 1, |es|
  {
    hide Twin, UnderWay, Tame, DestroyEntry, Candidate;
    if es != [] {
      var e, rest := es[|es| - 1], es[..|es| - 1];
      LastEntry(es);
      TwinEntry(e, st, f, b, lvl);
      var r, r' := DestroyEntry(e, false, st, lvl), DestroyEntry(e, false, f, lvl);
      if r'.Ok? {
        InsideIs(st, f, b);
        FrameEntry(e, false, f, lvl);
        WaySame(f, r'.value, {}, false);
        TwinDestroy(rest, r.value, r'.value, b, lvl);
      }
    }
  }

  lemma {:induction false} TwinEntry(e: Entry, st: Ctx, f: Ctx, b: seq<Stmt>, lvl: nat)
    requires Candidate(b) && Inside(st, f, b) && TameEntry(e) && Settled([e])
    ensures Twins(DestroyEntry(e, false, st, lvl), DestroyEntry(e, false, f, lvl), b)
    decreases lvl, 0, 1
  {
    assert [e][0] == e;
    match e
    case Value(v) =>
      var x := if v.prim then st else Emit(st, IDestroy(v));
      TwinCode(st, f, b, x.code, x.next, x.cur);
    case Final(c) => TwinCleanup(c, st, f, b, lvl);
    case Error(c) =>
  }

  lemma {:induction false} TwinCleanup(c: seq<Stmt>, st: Ctx, f: Ctx, b: seq<Stmt>, lvl: nat)
    requires Candidate(b) && Inside(st, f, b) && WellFormedAll(c, |c|, true, false, {}) && TidyAll(c) && RegularItems(c, |c|, false)
    ensures Twins(RunCleanup(c, st, lvl), RunCleanup(c, f, lvl), b)
    decreases lvl, 0, 0
  {
    if lvl > 0 {
      CleanupHasNoLabels(c, |c|, false, {});
      assert c[..|c|] == c;
      NoReturnInItems(c, |c|, false, {});
      RegularItemsInLoop(c, |c|, f.breaks != []);
      var x, y := st.(check := false), f.(check := false);
      assert x == st && y == f by { TwinSame(st, f, b); }
      TwinStmt(Block(c), x, y, b, lvl - 1, true, false);
    }
  }

  // Cleaning up everything, the body included, does not end.
  lemma {:induction false} EscapeAll(es: seq<Entry>, st: Ctx, f: Ctx, b: seq<Stmt>, lvl: nat)
    requires Candidate(b) && LiveReturnItems(b, |b|) && Inside(st, f, b)
    requires es != [] && es[0] == Final(b) && Tame(es[1..]) && Settled(es[1..])
    ensures Destroy(es, false, st, lvl) == Fail(TooDeep)
    decreases lvl, 1, |es|
  {
    hide UnderWay, Tame, DestroyEntry, Settled, Candidate;
    var n := |es| - 1;
    if n == 0 {
      EscapeEntry(st, f, b, lvl);
    } else {
      var e := es[n];
      assert e == es[1..][n - 1] && es[..n][1..] == es[1..][..n - 1];
      LastEntry(es[1..]);
      TwinEntry(e, st, f, b, lvl);
      var r, r' := DestroyEntry(e, false, st, lvl), DestroyEntry(e, false, f, lvl);
      if r'.Ok? {
        InsideIs(st, f, b);
        FrameEntry(e, false, f, lvl);
        WaySame(f, r'.value, {}, false);
        EscapeAll(es[..n], r.value, r'.value, b, lvl);
      }
    }
  }

  lemma {:induction false} EscapeEntry(st: Ctx, f: Ctx, b: seq<Stmt>, lvl: nat)
    requires Candidate(b) && LiveReturnItems(b, |b|) && Inside(st, f, b)
    ensures DestroyEntry(Final(b), false, st, lvl) == Fail(TooDeep)
    decreases lvl, 0, 1
  {
    if lvl > 0 {
      RegularItemsInLoop(b, |b|, f.breaks != []);
      var x, y := st.(check := false), f.(check := false);
      assert x == st && y == f by { TwinSame(st, f, b); }
      TwinStmt(Block(b), x, y, b, lvl - 1, false, false);
    }
  }

  lemma {:induction false} TwinJump(jt: Target, st: Ctx, f: Ctx, b: seq<Stmt>, lvl: nat)
    requires Candidate(b) && Inside(st, f, b) && 1 <= jt.marker <= |st.stack|
    ensures Twins(Jump(jt, false, st, lvl), Jump(jt, false, f, lvl), b)
    decreases lvl, 2
  {
    InsideIs(st, f, b);
    TwinSuffix(st, f, b, jt.marker);
    var es := f.stack[jt.marker..];
    assert Tame(es) && Settled(es);
    TwinDestroy(es, st, f, b, lvl);
    var r, r' := Destroy(es, false, st, lvl), Destroy(es, false, f, lvl);
    if r'.Ok? {
      var x := Emit(r.value, IBr(jt.block));
      TwinCode(r.value, r'.value, b, x.code, x.next, x.cur);
    }
  }

  // ----- statements ---------------------------------------------------------

  // A statement with a live return runs out of depth; any other is compiled as
  // with the plug.
  predicate Escaped(r: Compiled<Done>, r': Compiled<Done>, live: bool, b: seq<Stmt>) {
    if live then r == Fail(TooDeep)
    else if r'.Ok? then r.Ok? && Twin(r.value.st, r'.value.st, b) && r.value.term == r'.value.term
    else r == r' == Fail(TooDeep)
  }

  lemma {:induction false} TwinStmt(s: Stmt, st: Ctx, f: Ctx, b: seq<Stmt>, lvl: nat, cleanup: bool, inLoop: bool)
    requires Candidate(b) && Inside(st, f, b) && WellFormed(s, cleanup, inLoop, {}) && LabelsOf(s) == {} && Tidy(s)
    requires Regular(s, f.breaks != []) && (LiveReturn(s) ==> LiveReturnItems(b, |b|))
    ensures Escaped(CgStmt(s, st, lvl), CgStmt(s, f, lvl), LiveReturn(s), b)
    decreases lvl, 8, s, 2
  {
    hide Candidate, UnderWay, Jump, CgWhole, CgMultiInto, Twin, CgArgs, CgCall, CgItems, DestroyPop, EndScope, Within, Tame, Settled;
    InsideIs(st, f, b);
    TwinSame(st, f, b);
    match s
    case Block(body) => TwinBlock(body, st, f, b, lvl, cleanup, inLoop);
    case Eval(e) => TwinWhole(e, st, f, b, lvl);
    case Return(inits) => TwinReturn(inits, st, f, b, lvl);
    case Throw(args) => TwinThrow(args, st, f, b, lvl);
    case If(_, _, _, _, _) => TwinIf(s, st, f, b, lvl, cleanup, inLoop);
    case While(_, _, _) => TwinWhile(s, st, f, b, lvl, cleanup, inLoop);
    case Break => TwinLeave(s, st, f, b, lvl);
    case Continue => TwinLeave(s, st, f, b, lvl);
    case Try(_, _) => TwinTry(s, st, f, b, lvl, cleanup, inLoop);
    case Finally(c) => TwinPush(st, f, b, [Final(c)]);
    case OnError(c) => TwinPush(st, f, b, [Error(c)]);
    case Unreachable =>
      var x := Emit(st, IUnreachable);
      TwinCode(st, f, b, x.code, x.next, x.cur);
    case _ =>
  }

  lemma {:induction false} TwinReturn(inits: seq<Init>, st: Ctx, f: Ctx, b: seq<Stmt>, lvl: nat)
    requires Candidate(b) && Inside(st, f, b) && LiveReturnItems(b, |b|)
    ensures CgStmt(Return(inits), st, lvl) == Fail(TooDeep)
    decreases lvl, 8, Return(inits), 1
  {
    hide UnderWay, CgInits, Candidate;
    InsideIs(st, f, b);
    TwinMulti(inits, st, f, b, lvl);
    var x, y := CgMultiInto(inits, st, lvl).value, CgMultiInto(inits, f, lvl).value;
    FrameInits(inits, |inits|, f, lvl);
    MultiSame(inits, f, lvl);
    WaySame(f, y, {}, false);
    assert x.stack[0..] == x.stack && x.stack[1..] == y.stack[1..];
    assert Tame(y.stack[1..]) && Settled(y.stack[1..]) by { InsideIs(x, y, b); }
    EscapeAll(x.stack, x, y, b, lvl);
  }

  lemma {:induction false} TwinThrow(args: seq<Expr>, st: Ctx, f: Ctx, b: seq<Stmt>, lvl: nat)
    requires Inside(st, f, b)
    ensures Escaped(CgStmt(Throw(args), st, lvl), CgStmt(Throw(args), f, lvl), false, b)
    decreases lvl, 8, Throw(args), 1
  {
    hide UnderWay, Twin, CgArgs, CgCall, DestroyPop;
    InsideIs(st, f, b);
    TwinSame(st, f, b);
    var out := Slot(Temp, 0, true);
    TwinArgs(args, |args|, st, f, b, lvl);
    var st1, f1 := CgArgs(args, |args|, st, lvl).value, CgArgs(args, |args|, f, lvl).value;
    TwinCall(ThrowValue, Homes(args), out, st1, f1, b, lvl);
    var st2, f2 := CgCall(ThrowValue, Homes(args), out, st1, lvl).value, CgCall(ThrowValue, Homes(args), out, f1, lvl).value;
    Tail(st.stack, Values(TempsArgs(args, |args|)));
    TwinDrop(TempsArgs(args, |args|), |st.stack|, st2, f2, b, lvl);
    var st3, f3 := DestroyPop(|st.stack|, false, st2, lvl).value, DestroyPop(|st.stack|, false, f2, lvl).value;
    TwinSame(st3, f3, b);
    var x := Emit(st3, IUnreachable);
    TwinCode(st3, f3, b, x.code, x.next, x.cur);
  }

  lemma {:induction false} TwinLeave(s: Stmt, st: Ctx, f: Ctx, b: seq<Stmt>, lvl: nat)
    requires (s.Break? || s.Continue?) && Candidate(b) && Inside(st, f, b) && f.breaks != []
    ensures Escaped(CgStmt(s, st, lvl), CgStmt(s, f, lvl), false, b)
    decreases lvl, 8, s, 1
  {
    hide Jump, Candidate;
    InsideIs(st, f, b);
    var jt := if s.Break? then f.breaks[|f.breaks| - 1] else f.continues[|f.continues| - 1];
    TwinJump(jt, st, f, b, lvl);
  }

  // The ends of scopes.
  lemma {:induction false} TwinEnd(marker: nat, term: bool, st: Ctx, f: Ctx, b: seq<Stmt>, lvl: nat)
    requires Candidate(b) && Twin(st, f, b) && (!term ==> UnderWay(f, {}, false)) && 1 <= marker <= |st.stack|
    ensures Escaped(EndScope(marker, term, st, lvl), EndScope(marker, term, f, lvl), false, b)
    decreases lvl, 2
  {
    hide Candidate, UnderWay;
    TwinSuffix(st, f, b, marker);
    if term {
      TwinPop(st, f, b, marker);
    } else {
      InsideIs(st, f, b);
      var es := f.stack[marker..];
      assert Tame(es) && Settled(es);
      TwinDestroy(es, st, f, b, lvl);
      var r, r' := Destroy(es, false, st, lvl), Destroy(es, false, f, lvl);
      if r'.Ok? { TwinPop(r.value, r'.value, b, marker); }
    }
  }

  lemma TwinBranch(d: Done, d': Done, b: seq<Stmt>, end: Option<nat>)
    requires Twin(d.st, d'.st, b) && d.term == d'.term
    ensures Twin(BranchToEnd(d, end), BranchToEnd(d', end), b)
  {
    if !d.term {
      var x := BranchToEnd(d, end);
      TwinCode(d.st, d'.st, b, x.code, x.next, x.cur);
    }
  }

  lemma TwinMerge(d1: Done, d1': Done, d2: Done, d2': Done, b: seq<Stmt>)
    requires Twin(d1.st, d1'.st, b) && d1.term == d1'.term && Twin(d2.st, d2'.st, b) && d2.term == d2'.term
    ensures Twin(Merge(d1, d2).st, Merge(d1', d2').st, b) && Merge(d1, d2).term == Merge(d1', d2').term
  {
    hide BranchToEnd;
    TwinSame(d1.st, d1'.st, b);
    var end := if d1.term then None else Some(d1.st.next);
    TwinBranch(d2, d2', b, end);
    var x, y := BranchToEnd(d2, end), BranchToEnd(d2', end);
    TwinSame(d2.st, d2'.st, b);
    TwinCode(x, y, b, x.code, x.next, Merge(d1, d2).st.cur);
  }

  lemma {:induction false} TwinIf(s: Stmt, st: Ctx, f: Ctx, b: seq<Stmt>, lvl: nat, cleanup: bool, inLoop: bool)
    requires s.If? && Candidate(b) && Inside(st, f, b) && WellFormed(s, cleanup, inLoop, {}) && LabelsOf(s) == {} && Tidy(s)
    requires Regular(s, f.breaks != []) && (LiveReturn(s) ==> LiveReturnItems(b, |b|))
    ensures Escaped(CgIf(s, st, lvl), CgIf(s, f, lvl), LiveReturn(s), b)
    decreases lvl, 8, s, 1
  {
    hide Candidate, UnderWay, Twin, CgPre, CgWhole, CgArms, EndScope, Regular, LiveReturn, Own;
    InsideIs(st, f, b);
    TwinSame(st, f, b);
    TwinPre(s.pre, |s.pre|, st, f, b, lvl);
    var p, p' := CgPre(s.pre, |s.pre|, st, lvl).value, CgPre(s.pre, |s.pre|, f, lvl).value;
    TwinWhole(s.cond, p, p', b, lvl);
    var st1, f1 := CgWhole(s.cond, p, lvl).value, CgWhole(s.cond, p', lvl).value;
    FineHead(s.pre, s.cond, f, lvl, {}, false);
    TwinArms(s, st1, f1, b, lvl, cleanup, inLoop);
    if !LiveReturn(s) && CgArms(s, f1, lvl).Ok? {
      var d, d' := CgArms(s, st1, lvl).value, CgArms(s, f1, lvl).value;
      FrameArms(s, f1, lvl, cleanup, inLoop, {});
      WayAfter(f1, d'.st, {}, {}, false);
      TwinSame(d.st, d'.st, b);
      TwinEnd(|st.stack|, d.term, d.st, d'.st, b, lvl);
    }
  }

  lemma {:induction false} TwinArms(s: Stmt, st: Ctx, f: Ctx, b: seq<Stmt>, lvl: nat, cleanup: bool, inLoop: bool)
    requires s.If? && Candidate(b) && Inside(st, f, b) && WellFormed(s, cleanup, inLoop, {}) && LabelsOf(s) == {} && Tidy(s)
    requires Regular(s, f.breaks != []) && (LiveReturn(s) ==> LiveReturnItems(b, |b|))
    ensures Escaped(CgArms(s, st, lvl), CgArms(s, f, lvl), LiveReturn(s), b)
    decreases lvl, 8, s, 0
  {
    hide Candidate, UnderWay, Twin, CgArms, CgStmt, Merge, BranchToEnd, Fork, Within, Tame, Settled, Ext, LabelsKept, SameTargets;
    InsideIs(st, f, b);
    TwinSame(st, f, b);
    Self(f, {});
    if s.kind.Dynamic? {
      var br := ICondBr(Home(s.cond), st.next, st.next + 1);
      ForkFrame(f, f, 2, br, {});
      TwinFork(st, f, b, 2, br);
      WaySame(f, Fork(f, 2, br), {}, false);
      TwinBoth(s, f, Fork(st, 2, br), Fork(f, 2, br), st.next + 1, b, lvl, cleanup, inLoop);
      TwoArms(s, st, lvl);
      TwoArms(s, f, lvl);
    } else {
      ForkFrame(f, f, 1, IBr(st.next), {});
      TwinFork(st, f, b, 1, IBr(st.next));
      WaySame(f, Fork(f, 1, IBr(st.next)), {}, false);
      TwinOne(s, if s.kind.StaticTrue? then s.thn else s.els, Fork(st, 1, IBr(st.next)), Fork(f, 1, IBr(st.next)), b, lvl, cleanup, inLoop);
      OneArm(s, st, lvl);
      OneArm(s, f, lvl);
    }
  }

  lemma {:induction false} TwinBoth(s: Stmt, a: Ctx, x: Ctx, x': Ctx, no: nat, b: seq<Stmt>, lvl: nat, cleanup: bool, inLoop: bool)
    requires s.If? && s.kind.Dynamic? && Candidate(b) && Inside(x, x', b) && WellFormed(s, cleanup, inLoop, {}) && LabelsOf(s) == {} && Tidy(s)
    requires UnderWay(a, {}, false) && Frame(a, x', {}) && x'.stack == a.stack && a.next <= no < x'.next && (x'.breaks == [] <==> a.breaks == [])
    requires Regular(s, a.breaks != []) && (LiveReturn(s) ==> LiveReturnItems(b, |b|))
    ensures var r1, r1' := CgStmt(s.thn, x, lvl), CgStmt(s.thn, x', lvl);
            if LiveReturn(s.thn) then r1 == Fail(TooDeep)
            else if r1'.Fail? then r1 == r1' == Fail(TooDeep)
            else
              && r1.Ok?
              && var r2, r2' := CgStmt(s.els, BranchToEnd(r1.value, None).(cur := no), lvl), CgStmt(s.els, BranchToEnd(r1'.value, None).(cur := no), lvl);
              if LiveReturn(s.els) then r2 == Fail(TooDeep)
              else if r2'.Fail? then r2 == r2' == Fail(TooDeep)
              else && r2.Ok? && Twin(Merge(r1.value, r2.value).st, Merge(r1'.value, r2'.value).st, b)
                   && Merge(r1.value, r2.value).term == Merge(r1'.value, r2'.value).term
    decreases lvl, 8, s, 0, 0
  {
    hide Candidate, UnderWay, Twin, CgStmt, Merge, BranchToEnd, Frame;
    TwinStmt(s.thn, x, x', b, lvl, cleanup, inLoop);
    if !LiveReturn(s.thn) && CgStmt(s.thn, x', lvl).Ok? {
      var d1, d1' := CgStmt(s.thn, x, lvl).value, CgStmt(s.thn, x', lvl).value;
      TwinSecond(s, s.thn, a, x', d1', lvl, cleanup, inLoop, no);
      TwinBranch(d1, d1', b, None);
      var e, e' := BranchToEnd(d1, None), BranchToEnd(d1', None);
      TwinSame(e, e', b);
      TwinCode(e, e', b, e.code, e.next, no);
      var y, y' := e.(cur := no), e'.(cur := no);
      TwinStmt(s.els, y, y', b, lvl, cleanup, inLoop);
      if !LiveReturn(s.els) && CgStmt(s.els, y', lvl).Ok? {
        TwinMerge(d1, d1', CgStmt(s.els, y, lvl).value, CgStmt(s.els, y', lvl).value, b);
      }
    }
  }

  lemma {:induction false} TwinOne(s: Stmt, part: Stmt, x: Ctx, x': Ctx, b: seq<Stmt>, lvl: nat, cleanup: bool, inLoop: bool)
    requires s.If? && (part == s.thn || part == s.els) && Candidate(b) && Inside(x, x', b) && WellFormed(part, cleanup, inLoop, {})
    requires LabelsOf(part) == {} && Tidy(part) && Regular(part, x'.breaks != []) && (LiveReturn(part) ==> LiveReturnItems(b, |b|))
    ensures var r, r' := CgStmt(part, x, lvl), CgStmt(part, x', lvl);
            && Escaped(r, r', LiveReturn(part), b)
            && (r.Ok? && r'.Ok? && !r.value.term ==>
                  Twin(BranchToEnd(r.value, None).(cur := r.value.st.next), BranchToEnd(r'.value, None).(cur := r'.value.st.next), b))
    decreases lvl, 8, s, 0, 0
  {
    hide Candidate, UnderWay, Twin, CgStmt, BranchToEnd;
    TwinStmt(part, x, x', b, lvl, cleanup, inLoop);
    if !LiveReturn(part) && CgStmt(part, x', lvl).Ok? {
      var d, d' := CgStmt(part, x, lvl).value, CgStmt(part, x', lvl).value;
      TwinBranch(d, d', b, None);
      TwinSame(d.st, d'.st, b);
      var e, e' := BranchToEnd(d, None), BranchToEnd(d', None);
      TwinSame(e, e', b);
      TwinCode(e, e', b, e.code, e.next, d.st.next);
    }
  }

  // The state in which the second of two parts is compiled.
  lemma TwinSecond(s: Stmt, part: Stmt, f: Ctx, x: Ctx, d: Done, lvl: nat, cleanup: bool, inLoop: bool, no: nat)
    requires UnderWay(f, {}, false) && UnderWay(x, {}, false) && Frame(f, x, {}) && x.stack == f.stack
    requires WellFormed(part, cleanup, inLoop, {}) && LabelsOf(part) == {} && !Bare(part) && CgStmt(part, x, lvl) == Ok(d) && f.next <= no < x.next
    ensures var y := BranchToEnd(d, None).(cur := no); UnderWay(y, {}, false) && (y.breaks == [] <==> f.breaks == [])
  {
    hide UnderWay, CgStmt, BranchToEnd, Ext, LabelsKept, SameTargets, CodeFrame;
    WayLess(x, {}, false);
    FrameStmt(part, x, lvl, cleanup, inLoop, {});
    NoBinding(part, x, lvl);
    BranchFrame(x, d, None, {});
    CurBack(f, x, BranchToEnd(d, None), no, {});
    WayAfter(f, BranchToEnd(d, None).(cur := no), {}, {}, false);
  }

  lemma {:induction false} TwinTry(s: Stmt, st: Ctx, f: Ctx, b: seq<Stmt>, lvl: nat, cleanup: bool, inLoop: bool)
    requires s.Try? && Candidate(b) && Inside(st, f, b) && WellFormed(s, cleanup, inLoop, {}) && LabelsOf(s) == {} && Tidy(s)
    requires Regular(s, f.breaks != []) && (LiveReturn(s) ==> LiveReturnItems(b, |b|))
    ensures Escaped(CgStmt(s, st, lvl), CgStmt(s, f, lvl), LiveReturn(s), b)
    decreases lvl, 8, s, 1
  {
    hide Candidate, UnderWay, Twin, Merge, BranchToEnd;
    InsideIs(st, f, b);
    TwinSame(st, f, b);
    var jt := Target(st.next, |st.stack|, 0);
    var x, x' := NewBlock(st).(excs := st.excs + [jt]), NewBlock(f).(excs := f.excs + [jt]);
    TwinGuarded(st, f, b, jt);
    WayTry(f, x', {}, false);
    TwinStmt(s.tried, x, x', b, lvl, cleanup, inLoop);
    if !LiveReturn(s.tried) && CgStmt(s.tried, x', lvl).Ok? {
      var d1, d1' := CgStmt(s.tried, x, lvl).value, CgStmt(s.tried, x', lvl).value;
      TwinHandler(s.tried, f, x', d1', lvl, cleanup, inLoop);
      TwinBranch(d1, d1', b, None);
      var e, e' := BranchToEnd(d1, None), BranchToEnd(d1', None);
      TwinUnguarded(e, e', b, st.next);
      var y, y' := e.(excs := Pop(e.excs), cur := st.next), e'.(excs := Pop(e'.excs), cur := st.next);
      TwinStmt(s.handler, y, y', b, lvl, cleanup, inLoop);
      if !LiveReturn(s.handler) && CgStmt(s.handler, y', lvl).Ok? {
        TwinMerge(d1, d1', CgStmt(s.handler, y, lvl).value, CgStmt(s.handler, y', lvl).value, b);
      }
    }
  }

  lemma TwinGuarded(st: Ctx, f: Ctx, b: seq<Stmt>, jt: Target)
    requires Twin(st, f, b)
    ensures Twin(NewBlock(st).(excs := st.excs + [jt]), NewBlock(f).(excs := f.excs + [jt]), b)
  {
  }

  lemma TwinUnguarded(e: Ctx, e': Ctx, b: seq<Stmt>, cur: nat)
    requires Twin(e, e', b)
    ensures Twin(e.(excs := Pop(e.excs), cur := cur), e'.(excs := Pop(e'.excs), cur := cur), b)
  {
  }

  lemma TwinHandler(part: Stmt, f: Ctx, x: Ctx, d: Done, lvl: nat, cleanup: bool, inLoop: bool)
    requires UnderWay(f, {}, false) && UnderWay(x, {}, false) && x == NewBlock(f).(excs := f.excs + [Target(f.next, |f.stack|, 0)])
    requires WellFormed(part, cleanup, inLoop, {}) && LabelsOf(part) == {} && !Bare(part) && CgStmt(part, x, lvl) == Ok(d)
    ensures var e := BranchToEnd(d, None);
            var y := e.(excs := Pop(e.excs), cur := f.next);
            UnderWay(y, {}, false) && (y.breaks == [] <==> f.breaks == [])
  {
    hide UnderWay, CgStmt, BranchToEnd, Ext, LabelsKept, SameTargets, CodeFrame;
    WayLess(x, {}, false);
    FrameStmt(part, x, lvl, cleanup, inLoop, {});
    NoBinding(part, x, lvl);
    assert f.stack + [] == f.stack;
    BranchFrame(x, d, None, {});
    var e := BranchToEnd(d, None);
    WayHandler(f, x, e, e.(excs := Pop(e.excs), cur := f.next), {}, {}, false);
  }

  lemma {:induction false} TwinWhile(s: Stmt, st: Ctx, f: Ctx, b: seq<Stmt>, lvl: nat, cleanup: bool, inLoop: bool)
    requires s.While? && Candidate(b) && Inside(st, f, b) && WellFormed(s, cleanup, inLoop, {}) && LabelsOf(s) == {} && Tidy(s)
    requires Regular(s, f.breaks != []) && (LiveReturn(s) ==> LiveReturnItems(b, |b|))
    ensures Escaped(CgWhile(s, st, lvl), CgWhile(s, f, lvl), LiveReturn(s), b)
    decreases lvl, 8, s, 1
  {
    hide *;
    LoopParts(s, cleanup, inLoop, f.breaks != []);
    var begin, body, cont, end := st.next, st.next + 1, st.next + 2, st.next + 3;
    InsideIs(st, f, b);
    TwinSame(st, f, b);
    LoopEntered(st, f, b);
    var st0, f0 := Fork(st, 4, IBr(begin)), Fork(f, 4, IBr(begin));
    AcceptTest(s, body, end, f, f0, lvl, {}, false);
    TwinTest(s, body, end, st0, f0, b, lvl);
    WhileIs(s, st, lvl);
    WhileIs(s, f, lvl);
    var st1, f1 := CgTest(s, body, end, st0, lvl).value, CgTest(s, body, end, f0, lvl).value;
    var st2, f2 := Enter(body, cont, end, st1), Enter(body, cont, end, f1);
    TwinEnter(st1, f1, b, body, cont, end);
    WayEnter(f1, f2, body, cont, end, {}, false);
    AcceptBody(s, |f.stack|, cont, f2, Own(s.pre, |s.pre|), lvl, false, {});
    EnteredInside(st2, f2, b);
    TwinBody(s, |st.stack|, cont, st2, f2, b, lvl, cleanup);
    TwinRest(s, st, f, f1, st2, f2, b, lvl);
  }

  // What follows a loop's body.
  lemma TwinRest(s: Stmt, st: Ctx, f: Ctx, f1: Ctx, st2: Ctx, f2: Ctx, b: seq<Stmt>, lvl: nat)
    requires s.While? && Candidate(b) && |st.stack| == |f.stack| >= 1 && f.next == st.next && |st.stack| <= |st2.stack| && |f.stack| <= |f2.stack|
    requires var begin, body, cont, end := st.next, st.next + 1, st.next + 2, st.next + 3;
             && UnderWay(f1, {}, false) && f2 == Enter(body, cont, end, f1)
             && (var r := LoopBody(s, |st.stack|, cont, st2, lvl);
                 && (r.Fail? ==> CgWhile(s, st, lvl) == Fail(r.error))
                 && (r.Ok? ==> |st.stack| <= |r.value.stack| && CgWhile(s, st, lvl) == LoopEnd(s, |st.stack|, begin, end, r.value, lvl)))
             && (var r' := LoopBody(s, |f.stack|, cont, f2, lvl);
                 && (r'.Fail? ==> CgWhile(s, f, lvl) == Fail(r'.error))
                 && (r'.Ok? ==> |f.stack| <= |r'.value.stack| && CgWhile(s, f, lvl) == LoopEnd(s, |f.stack|, begin, end, r'.value, lvl))
                 && (r'.Ok? ==> SameTargets(f2, r'.value) && r'.value.stack == f1.stack && Within(r'.value) && end < r'.value.next))
    requires if LiveReturn(s) then LoopBody(s, |st.stack|, st.next + 2, st2, lvl) == Fail(TooDeep)
             else Twins(LoopBody(s, |st.stack|, st.next + 2, st2, lvl), LoopBody(s, |f.stack|, st.next + 2, f2, lvl), b)
    ensures Escaped(CgWhile(s, st, lvl), CgWhile(s, f, lvl), LiveReturn(s), b)
    decreases lvl, 8, s, 0
  {
    hide *;
    var begin, body, cont, end := st.next, st.next + 1, st.next + 2, st.next + 3;
    var r, r' := LoopBody(s, |st.stack|, cont, st2, lvl), LoopBody(s, |f.stack|, cont, f2, lvl);
    if LiveReturn(s) {
      DeepFirst(CgWhile(s, st, lvl), CgWhile(s, f, lvl), b);
    } else {
      TwinsSplit(r, r', b);
      if r'.Ok? {
        var x := r'.value;
        WayPop(f1, f2, x, Emit(x, IBr(begin)).(breaks := Pop(x.breaks), continues := Pop(x.continues), cur := end), body, cont, end, IBr(begin), false);
        TwinLoopEnd(s, |st.stack|, begin, end, r.value, x, b, lvl);
      } else {
        DeepBoth(CgWhile(s, st, lvl), CgWhile(s, f, lvl), b);
      }
    }
  }

  lemma EnteredInside(st: Ctx, f: Ctx, b: seq<Stmt>)
    requires Twin(st, f, b) && UnderWay(f, {}, false)
    ensures Inside(st, f, b) && |st.stack| == |f.stack| >= 1
  {
    hide UnderWay;
  }

  lemma TwinsSplit(r: Compiled<Ctx>, r': Compiled<Ctx>, b: seq<Stmt>)
    requires Twins(r, r', b)
    ensures r'.Ok? ==> r.Ok? && Twin(r.value, r'.value, b) && |r.value.stack| == |r'.value.stack|
    ensures r'.Fail? ==> r == r' == Fail(TooDeep)
  {
  }

  lemma DeepBoth(r: Compiled<Done>, r': Compiled<Done>, b: seq<Stmt>)
    requires r == r' == Fail(TooDeep)
    ensures Escaped(r, r', false, b)
  {
  }

  lemma DeepFirst(r: Compiled<Done>, r': Compiled<Done>, b: seq<Stmt>)
    requires r == Fail(TooDeep)
    ensures Escaped(r, r', true, b)
  {
  }

  lemma LoopParts(s: Stmt, cleanup: bool, inLoop: bool, loop: bool)
    requires s.While? && WellFormed(s, cleanup, inLoop, {}) && LabelsOf(s) == {} && Tidy(s) && Regular(s, loop)
    ensures Simple(s.pre) && !Bare(s.loop) && WellFormed(s.loop, cleanup, true, {}) && WellFormed(s.loop, false, true, {})
    ensures LabelsOf(s.loop) == {} && Tidy(s.loop) && Regular(s.loop, true) && LiveReturn(s) == LiveReturn(s.loop)
  {
    LooserLoop(s.loop, cleanup);
  }

  lemma LoopEntered(st: Ctx, f: Ctx, b: seq<Stmt>)
    requires Inside(st, f, b)
    ensures var br := IBr(st.next);
            var st0, f0 := Fork(st, 4, br), Fork(f, 4, br);
            && f.next == st.next && f0.next == st.next + 4 && Twin(st0, f0, b) && Frame(f, f0, {}) && UnderWay(f0, {}, false)
            && f0.labels == f.labels && f0.stack == f.stack && 1 <= |st.stack| == |f.stack|
  {
    hide Twin, UnderWay, Fork;
    InsideIs(st, f, b);
    TwinSame(st, f, b);
    Self(f, {});
    ForkFrame(f, f, 4, IBr(st.next), {});
    TwinFork(st, f, b, 4, IBr(st.next));
    WaySame(f, Fork(f, 4, IBr(st.next)), {}, false);
  }

  // The compilation of a loop, step by step.
  lemma WhileIs(s: Stmt, st: Ctx, lvl: nat)
    requires s.While?
    ensures var begin, body, cont, end := st.next, st.next + 1, st.next + 2, st.next + 3;
            var r1 := CgTest(s, body, end, Fork(st, 4, IBr(begin)), lvl);
            && Fork(st, 4, IBr(begin)).stack == st.stack
            && (r1.Fail? ==> CgWhile(s, st, lvl) == Fail(r1.error))
            && (r1.Ok? ==>
                  var st2 := Enter(body, cont, end, r1.value);
                  && |st.stack| <= |st2.stack|
                  && var r3 := LoopBody(s, |st.stack|, cont, st2, lvl);
                  && (r3.Fail? ==> CgWhile(s, st, lvl) == Fail(r3.error))
                  && (r3.Ok? ==> |st.stack| <= |r3.value.stack| && CgWhile(s, st, lvl) == LoopEnd(s, |st.stack|, begin, end, r3.value, lvl)))
  {
    ForkIs(st, 4, IBr(st.next));
    ForkStack(st);
    hide CgTest, LoopBody, LoopEnd, Fork, NewBlocks;
  }

  lemma ForkStack(st: Ctx)
    ensures Fork(st, 4, IBr(st.next)).stack == st.stack
  {
    NewTwins(st, st.stack, 4);
  }

  // A cleanup body's parts would do outside as well.
  lemma {:induction false} LooserLoop(s: Stmt, cleanup: bool)
    requires WellFormed(s, cleanup, true, {})
    ensures WellFormed(s, false, true, {})
    decreases s, 0
  {
    Looser(s, cleanup, true, {});
  }

  lemma {:induction false} Looser(s: Stmt, cleanup: bool, inLoop: bool, scope: set<string>)
    requires WellFormed(s, cleanup, inLoop, scope)
    ensures WellFormed(s, false, inLoop, scope)
    decreases s, 0
  {
    match s
    case Block(body) => LooserAll(body, |body|, cleanup, inLoop, scope);
    case If(_, _, _, thn, els) => Looser(thn, cleanup, inLoop, scope); Looser(els, cleanup, inLoop, scope);
    case While(_, _, body) => Looser(body, cleanup, true, scope);
    case Try(tried, handler) => Looser(tried, cleanup, inLoop, scope); Looser(handler, cleanup, inLoop, scope);
    case _ =>
  }

  lemma {:induction false} LooserAll(ss: seq<Stmt>, n: nat, cleanup: bool, inLoop: bool, scope: set<string>)
    requires n <= |ss| && WellFormedAll(ss, n, cleanup, inLoop, scope)
    ensures WellFormedAll(ss, n, false, inLoop, scope)
    decreases ss, n
  {
    hide SegmentStart, Visible, LabelsOfAll;
    if n > 0 {
      LooserAll(ss, n - 1, cleanup, inLoop, scope);
      Looser(ss[n - 1], cleanup, inLoop, scope + Visible(ss, n - 1));
    }
  }

  lemma TwinTest(s: Stmt, body: nat, end: nat, st: Ctx, f: Ctx, b: seq<Stmt>, lvl: nat)
    requires s.While? && Simple(s.pre) && Twin(st, f, b)
    ensures CgTest(s, body, end, st, lvl).Ok? && CgTest(s, body, end, f, lvl).Ok?
    ensures Twin(CgTest(s, body, end, st, lvl).value, CgTest(s, body, end, f, lvl).value, b)
  {
    hide Twin, CgPre, CgWhole;
    TwinPre(s.pre, |s.pre|, st, f, b, lvl);
    var p, p' := CgPre(s.pre, |s.pre|, st, lvl).value, CgPre(s.pre, |s.pre|, f, lvl).value;
    TwinWhole(s.cond, p, p', b, lvl);
    var c, c' := CgWhole(s.cond, p, lvl).value, CgWhole(s.cond, p', lvl).value;
    TwinSame(c, c', b);
    var x := Emit(c, ICondBr(Home(s.cond), body, end));
    TwinCode(c, c', b, x.code, x.next, x.cur);
  }

  lemma TwinEnter(st: Ctx, f: Ctx, b: seq<Stmt>, body: nat, cont: nat, end: nat)
    requires Twin(st, f, b)
    ensures Twin(Enter(body, cont, end, st), Enter(body, cont, end, f), b)
  {
  }

  lemma {:induction false} TwinBody(s: Stmt, marker: nat, cont: nat, st: Ctx, f: Ctx, b: seq<Stmt>, lvl: nat, cleanup: bool)
    requires s.While? && Candidate(b) && Inside(st, f, b) && f.breaks != [] && WellFormed(s.loop, cleanup, true, {}) && !Bare(s.loop)
    requires LabelsOf(s.loop) == {} && Tidy(s.loop) && Regular(s.loop, true) && (LiveReturn(s.loop) ==> LiveReturnItems(b, |b|))
    requires 1 <= marker <= |st.stack| && cont < f.next
    ensures marker <= |f.stack|
    ensures if LiveReturn(s.loop) then LoopBody(s, marker, cont, st, lvl) == Fail(TooDeep)
            else Twins(LoopBody(s, marker, cont, st, lvl), LoopBody(s, marker, cont, f, lvl), b)
    decreases lvl, 8, s, 0
  {
    hide Candidate, UnderWay, CgStmt, Ext, LabelsKept, SameTargets, Regular, Tame, Settled;
    InsideIs(st, f, b);
    TwinSame(st, f, b);
    TwinStmt(s.loop, st, f, b, lvl, cleanup, true);
    if !LiveReturn(s.loop) && CgStmt(s.loop, f, lvl).Ok? {
      var d, d' := CgStmt(s.loop, st, lvl).value, CgStmt(s.loop, f, lvl).value;
      var e, e' := if d.term then d.st else Emit(d.st, IBr(cont)), if d'.term then d'.st else Emit(d'.st, IBr(cont));
      FrameStmt(s.loop, f, lvl, cleanup, true, {});
      NoBinding(s.loop, f, lvl);
      EmitFrame(f, d'.st, IBr(cont), {});
      assert f.stack + [] == f.stack;
      WayAfter(f, e', {}, {}, false);
      TwinCode(d.st, d'.st, b, e.code, e.next, cont);
      var x, x' := e.(cur := cont), e'.(cur := cont);
      WayCur(e', cont, false);
      TwinSuffix(x, x', b, marker);
      var es := x'.stack[marker..];
      SuffixGood(x', marker);
      TwinDestroy(es, x, x', b, lvl);
    }
  }

  lemma SuffixGood(x: Ctx, n: nat)
    requires UnderWay(x, {}, false) && n <= |x.stack|
    ensures Tame(x.stack[n..]) && Settled(x.stack[n..])
  {
  }

  lemma {:induction false} TwinLoopEnd(s: Stmt, marker: nat, begin: nat, end: nat, st: Ctx, f: Ctx, b: seq<Stmt>, lvl: nat)
    requires s.While? && Candidate(b) && Twin(st, f, b) && 1 <= marker <= |st.stack|
    requires UnderWay(Emit(f, IBr(begin)).(breaks := Pop(f.breaks), continues := Pop(f.continues), cur := end), {}, false)
    ensures marker <= |f.stack|
    ensures Escaped(LoopEnd(s, marker, begin, end, st, lvl), LoopEnd(s, marker, begin, end, f, lvl), false, b)
    decreases lvl, 3
  {
    hide Candidate, UnderWay, EndScope;
    var x, x' := Emit(st, IBr(begin)), Emit(f, IBr(begin));
    var y, y' := x.(breaks := Pop(x.breaks), continues := Pop(x.continues), cur := end), x'.(breaks := Pop(x'.breaks), continues := Pop(x'.continues), cur := end);
    assert Twin(y, y', b);
    var used := x.breaks != [] && x.breaks[|x.breaks| - 1].uses > 0;
    if !used && s.cond == Lit(true, s.cond.id) {
      var z := Emit(y, IUnreachable);
      TwinCode(y, y', b, z.code, z.next, z.cur);
      TwinEnd(marker, true, z, Emit(y', IUnreachable), b, lvl);
    } else {
      TwinEnd(marker, false, y, y', b, lvl);
    }
  }

  // ----- blocks -------------------------------------------------------------

  lemma {:induction false} NoLabelsCollected(ss: seq<Stmt>, i: nat, st: Ctx)
    requires i <= |ss| && forall q :: 0 <= q < |ss| ==> !ss[q].Label?
    ensures CollectLabels(ss, i, st) == Ok(st)
    decreases |ss| - i
  {
    if i < |ss| && !ss[i].Var? { NoLabelsCollected(ss, i + 1, st); }
  }

  lemma LabelFree(ss: seq<Stmt>, i: nat)
    requires i < |ss| && LabelsOfAll(ss) == {}
    ensures LabelsOf(ss[i]) == {} && !ss[i].Label?
  {
    if ss[i].Label? { LabelNamed(ss[i]); }
    assert ss[..|ss|] == ss;
    LabelsOfItem(ss, |ss|, i);
  }

  lemma LabelNamed(s: Stmt)
    requires s.Label?
    ensures s.l in LabelsOf(s)
  {
  }

  lemma NothingToSee(ss: seq<Stmt>, i: nat)
    requires i <= |ss| && LabelsOfAll(ss) == {}
    ensures {} + Visible(ss, i) == {} && forall q :: 0 <= q < |ss| ==> !ss[q].Label?
  {
    forall q | 0 <= q < |ss| ensures !ss[q].Label? { LabelFree(ss, q); }
  }

  lemma {:induction false} TwinBlock(ss: seq<Stmt>, st: Ctx, f: Ctx, b: seq<Stmt>, lvl: nat, cleanup: bool, inLoop: bool)
    requires Candidate(b) && Inside(st, f, b) && WellFormedAll(ss, |ss|, cleanup, inLoop, {}) && LabelsOfAll(ss) == {} && TidyAll(ss)
    requires RegularItems(ss, |ss|, f.breaks != []) && (LiveReturnItems(ss, |ss|) ==> LiveReturnItems(b, |b|))
    ensures Escaped(CgStmt(Block(ss), st, lvl), CgStmt(Block(ss), f, lvl), LiveReturnItems(ss, |ss|), b)
    decreases lvl, 8, ss, |ss| + 1
  {
    hide Candidate, UnderWay, Twin, CgItems, RegularItems, LiveReturnItems, EndScope, ItemsInv, CollectLabels;
    InsideIs(st, f, b);
    TwinSame(st, f, b);
    NothingToSee(ss, 0);
    NoLabelsCollected(ss, 0, st);
    NoLabelsCollected(ss, 0, f);
    TwinItems(ss, |ss|, st, f, b, lvl, cleanup, inLoop);
    var r' := CgItems(ss, |ss|, Done(f, false), lvl);
    if !LiveReturnItems(ss, |ss|) && r'.Ok? {
      var d, d' := CgItems(ss, |ss|, Done(st, false), lvl).value, r'.value;
      FrameItems(ss, |ss|, f, lvl, cleanup, inLoop, {});
      TwinSame(d.st, d'.st, b);
      BlockEnd(ss, |ss|, f, d', cleanup, inLoop);
      TwinEnd(|st.stack|, d.term, d.st, d'.st, b, lvl);
    }
  }

  lemma BlockEnd(ss: seq<Stmt>, i: nat, a: Ctx, d: Done, cleanup: bool, inLoop: bool)
    requires i <= |ss| && UnderWay(a, {}, false) && ItemsInv(ss, i, a, d) && WellFormedAll(ss, |ss|, cleanup, inLoop, {}) && TidyAll(ss)
    requires LabelsOfAll(ss) == {}
    ensures !d.term ==> UnderWay(d.st, {}, false) && (d.st.breaks == [] <==> a.breaks == [])
  {
    hide UnderWay, ItemsInv;
    if !d.term {
      if i < |ss| { WellFormedItem(ss, |ss|, i, cleanup, inLoop, {}); }
      OwnTame(ss, i, cleanup, inLoop, {});
      OwnSettled(ss, i);
      WayItem(ss, i, a, d, {}, false);
    }
  }

  lemma {:induction false} TwinItems(ss: seq<Stmt>, n: nat, st: Ctx, f: Ctx, b: seq<Stmt>, lvl: nat, cleanup: bool, inLoop: bool)
    requires n <= |ss| && Candidate(b) && Inside(st, f, b) && WellFormedAll(ss, |ss|, cleanup, inLoop, {}) && LabelsOfAll(ss) == {} && TidyAll(ss)
    requires RegularItems(ss, n, f.breaks != []) && (LiveReturnItems(ss, n) ==> LiveReturnItems(b, |b|))
    ensures Escaped(CgItems(ss, n, Done(st, false), lvl), CgItems(ss, n, Done(f, false), lvl), LiveReturnItems(ss, n), b)
    decreases lvl, 8, ss, n
  {
    hide Candidate, UnderWay, CgItem, ItemsInv, CollectLabels, WellFormedAll, LabelsOfAll, RegularItem, LiveReturn;
    if n > 0 {
      TwinItems(ss, n - 1, st, f, b, lvl, cleanup, inLoop);
      var r' := CgItems(ss, n - 1, Done(f, false), lvl);
      if !LiveReturnItems(ss, n - 1) && r'.Ok? {
        var d, d' := CgItems(ss, n - 1, Done(st, false), lvl).value, r'.value;
        InsideIs(st, f, b);
        NothingToSee(ss, 0);
        NoLabelsCollected(ss, 0, f);
        NoLabelsOutside(f, ss);
        FrameItems(ss, n - 1, f, lvl, cleanup, inLoop, {});
        PrefixWellFormed(ss, n - 1, cleanup, inLoop, {});
        EndsAll(ss, n - 1, Done(f, false), lvl, cleanup, inLoop, {});
        BlockEnd(ss, n - 1, f, d', cleanup, inLoop);
        TwinItem(ss, n - 1, f, d, d', b, lvl, cleanup, inLoop);
      }
    }
  }

  lemma NoLabelsOutside(f: Ctx, ss: seq<Stmt>)
    requires LabelsOfAll(ss) == {}
    ensures f.labels.Keys !! LabelsOfAll(ss)
  {
  }

  lemma {:induction false} TwinItem(ss: seq<Stmt>, i: nat, a: Ctx, d: Done, d': Done, b: seq<Stmt>, lvl: nat, cleanup: bool, inLoop: bool)
    requires i < |ss| && Candidate(b) && WellFormedAll(ss, |ss|, cleanup, inLoop, {}) && LabelsOfAll(ss) == {} && TidyAll(ss)
    requires Twin(d.st, d'.st, b) && d.term == d'.term == EndsItems(ss, i)
    requires !d.term ==> UnderWay(d'.st, {}, false) && (d'.st.breaks == [] <==> a.breaks == [])
    requires RegularItem(ss, i, a.breaks != []) && (!EndsItems(ss, i) && LiveReturn(ss[i]) ==> LiveReturnItems(b, |b|))
    ensures Escaped(CgItem(ss, i, d, lvl), CgItem(ss, i, d', lvl), !EndsItems(ss, i) && LiveReturn(ss[i]), b)
    decreases lvl, 8, ss, 0
  {
    hide Candidate, UnderWay, CgStmt, CgVar, CollectLabels, WellFormedAll, LabelsOfAll, EndsItems;
    NothingToSee(ss, i);
    LabelFree(ss, i);
    if d.term { return; }
    WellFormedItem(ss, |ss|, i, cleanup, inLoop, {});
    if ss[i].Var? {
      TwinVar(ss[i].inits, d.st, d'.st, b, lvl);
      NoLabelsCollected(ss, i + 1, CgVar(ss[i].inits, d.st, lvl).value);
      NoLabelsCollected(ss, i + 1, CgVar(ss[i].inits, d'.st, lvl).value);
    } else {
      assert Tidy(ss[i]);
      TwinStmt(ss[i], d.st, d'.st, b, lvl, cleanup, inLoop);
    }
  }

  // ----- the theorem --------------------------------------------------------

  // A body that would do for a function, used as a cleanup body: compiling it
  // exceeds every depth if and only if it has a return that is not dead code.
  lemma EscapeIff(b: seq<Stmt>)
    requires Candidate(b)
    ensures (forall lvl :: CgFunction(Block([Finally(b)]), false, lvl) == Fail(TooDeep)) <==> LiveReturnItems(b, |b|)
  {
    hide CgFunction, Candidate;
    if LiveReturnItems(b, |b|) {
      forall lvl ensures CgFunction(Block([Finally(b)]), false, lvl) == Fail(TooDeep) { EscapesAt(b, lvl); }
    } else {
      StaysAt(b, NestingAll(b) + 1);
    }
  }

  lemma FirstTwin(b: seq<Stmt>) returns (st: Ctx, f: Ctx)
    ensures st == Push(Start(), Final(b)).(check := false) && f == Start().(check := false, stack := [PLUG])
    ensures Twin(st, f, b) && UnderWay(f, {}, false) && f.breaks == []
  {
    st := Push(Start(), Final(b)).(check := false);
    f := st.(stack := [PLUG]);
    StartUnderWay();
  }

  // The function's code is that of its cleanup body.
  lemma AloneIs(b: seq<Stmt>, lvl: nat)
    ensures var r := RunCleanup(b, Push(Start(), Final(b)), lvl);
            && (r.Fail? ==> CgFunction(Block([Finally(b)]), false, lvl) == Fail(r.error))
            && (r.Ok? ==> CgFunction(Block([Finally(b)]), false, lvl).Ok?)
  {
    LonePushed(b, lvl);
    LoneClosed(b, Push(Start(), Final(b)), lvl);
    hide RunCleanup, CgItems, CollectLabels;
    var r := RunCleanup(b, Push(Start(), Final(b)), lvl);
    if r.Ok? {
      var st1 := PopTo(r.value, 0);
      assert st1.stack == [] && st1.stack[0..] == [];
      assert Destroy([], false, st1, lvl) == Ok(st1);
      assert Jump(Target(RETURN, 0, 0), false, st1, lvl) == Ok(Emit(st1, IBr(RETURN)));
    }
  }

  lemma EscapesAt(b: seq<Stmt>, lvl: nat)
    requires Candidate(b) && LiveReturnItems(b, |b|)
    ensures CgFunction(Block([Finally(b)]), false, lvl) == Fail(TooDeep)
  {
    hide *;
    AloneIs(b, lvl);
    var st, f := FirstTwin(b);
    if lvl > 0 {
      WholeCandidate(b);
      EnteredInside(st, f, b);
      TwinStmt(Block(b), st, f, b, lvl - 1, false, false);
      EscapesOnce(b, CgStmt(Block(b), f, lvl - 1), lvl);
    } else {
      NoDepth(b);
    }
  }

  lemma EscapesOnce(b: seq<Stmt>, r': Compiled<Done>, lvl: nat)
    requires lvl > 0 && Escaped(CgStmt(Block(b), Push(Start(), Final(b)).(check := false), lvl - 1), r', true, b)
    ensures RunCleanup(b, Push(Start(), Final(b)), lvl) == Fail(TooDeep)
  {
    hide CgStmt;
  }

  lemma NoDepth(b: seq<Stmt>)
    ensures RunCleanup(b, Push(Start(), Final(b)), 0) == Fail(TooDeep)
  {
  }

  lemma StaysAt(b: seq<Stmt>, lvl: nat)
    requires Candidate(b) && !LiveReturnItems(b, |b|) && lvl == NestingAll(b) + 1
    ensures CgFunction(Block([Finally(b)]), false, lvl).Ok?
  {
    hide *;
    AloneIs(b, lvl);
    var st, f := FirstTwin(b);
    WholeCandidate(b);
    TwinStmt(Block(b), st, f, b, lvl - 1, false, false) by { EnteredInside(st, f, b); }
    AcceptStmt(Block(b), f, lvl - 1, false, false, {});
    PlugRoomy(f, lvl - 1);
    DeepStmt(Block(b), f, lvl - 1, 0, false, false, {});
    StaysOk(b, CgStmt(Block(b), st, lvl - 1), CgStmt(Block(b), f, lvl - 1), lvl);
  }

  lemma WholeCandidate(b: seq<Stmt>)
    requires Candidate(b)
    ensures WellFormed(Block(b), false, false, {}) && LabelsOf(Block(b)) == {} && Tidy(Block(b)) && Regular(Block(b), false)
    ensures LiveReturn(Block(b)) == LiveReturnItems(b, |b|) && Nesting(Block(b)) == NestingAll(b)
  {
  }

  lemma StaysOk(b: seq<Stmt>, r: Compiled<Done>, r': Compiled<Done>, lvl: nat)
    requires Escaped(r, r', false, b) && Judged(r', true) && r' != Fail(TooDeep) && lvl > 0
    requires r == CgStmt(Block(b), Push(Start(), Final(b)).(check := false), lvl - 1)
    ensures RunCleanup(b, Push(Start(), Final(b)), lvl).Ok?
  {
    hide CgStmt;
  }

  lemma PlugRoomy(f: Ctx, lvl: nat)
    requires f == Start().(check := false, stack := [PLUG])
    ensures Roomy(f, lvl, 0, false, false)
  {
  }
}
