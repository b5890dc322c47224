// What emitting code leaves alone: blocks other than the insertion point and
// fresh ones, the jump targets, the labels already collected.
module Framing {
  import opened Wrappers
  import opened Syntax
  import opened Cfg
  import opened CodegenSpec

  ghost predicate Within(st: Ctx) {
    && st.cur < st.next
    && forall b: nat :: b in st.code ==> b < st.next
  }

  // Only a's insertion point, which grows, and blocks fresh in a differ in b.
  ghost predicate Ext(a: Ctx, b: Ctx) {
    && (forall i: nat :: i < a.next && i != a.cur ==> At(b.code, i) == At(a.code, i))
    && At(a.code, a.cur) <= At(b.code, a.cur)
    && (b.cur == a.cur || b.cur >= a.next)
  }

  ghost predicate LabelsKept(a: Ctx, b: Ctx, ls: set<string>) {
    && (forall l :: l in a.labels ==> l in b.labels && b.labels[l] == a.labels[l])
    && (forall l :: l in b.labels && l !in a.labels ==> l in ls && a.next <= b.labels[l].block < b.next)
  }

  ghost predicate CodeFrame(a: Ctx, b: Ctx, ls: set<string>) {
    Within(b) && a.next <= b.next && Ext(a, b) && LabelsKept(a, b, ls)
  }

  ghost predicate SameTargets(a: Ctx, b: Ctx) {
    && |b.breaks| == |a.breaks|
    && (forall i :: 0 <= i < |a.breaks| ==>
          && b.breaks[i].block == a.breaks[i].block
          && b.breaks[i].marker == a.breaks[i].marker
          && b.breaks[i].uses >= a.breaks[i].uses)
    && b.continues == a.continues && b.rets == a.rets && b.excs == a.excs
    && b.check == a.check
  }

  ghost predicate Frame(a: Ctx, b: Ctx, ls: set<string>) {
    CodeFrame(a, b, ls) && SameTargets(a, b)
  }

  // Cleanup bodies that run to their end.
  predicate TameEntry(e: Entry) {
    match e
    case Value(_) => true
    case Final(b) => WellFormedAll(b, |b|, true, false, {})
    case Error(b) => WellFormedAll(b, |b|, true, false, {})
  }

  predicate Tame(es: seq<Entry>) {
    forall i :: 0 <= i < |es| ==> TameEntry(es[i])
  }

  // ----- steps of a chain ---------------------------------------------------

  lemma Self(a: Ctx, ls: set<string>)
    requires Within(a)
    ensures Frame(a, a, ls)
  {
  }

  lemma EmitFrame(a: Ctx, x: Ctx, i: Instr, ls: set<string>)
    requires CodeFrame(a, x, ls)
    ensures CodeFrame(a, Emit(x, i), ls)
    ensures Frame(a, x, ls) ==> Frame(a, Emit(x, i), ls)
  {
    var y := Emit(x, i);
    assert forall b: nat :: b != x.cur ==> At(y.code, b) == At(x.code, b);
  }

  lemma NewFrame(a: Ctx, x: Ctx, ls: set<string>)
    requires CodeFrame(a, x, ls)
    ensures CodeFrame(a, NewBlock(x), ls)
    ensures Frame(a, x, ls) ==> Frame(a, NewBlock(x), ls)
    ensures At(NewBlock(x).code, x.next) == []
  {
    var y := NewBlock(x);
    assert forall b: nat :: b < x.next ==> At(y.code, b) == At(x.code, b);
  }

  lemma CurFrame(a: Ctx, x: Ctx, b: nat, ls: set<string>)
    requires CodeFrame(a, x, ls) && (b == a.cur || a.next <= b) && b < x.next
    ensures CodeFrame(a, x.(cur := b), ls)
    ensures Frame(a, x, ls) ==> Frame(a, x.(cur := b), ls)
  {
  }

  // The value stack plays no part.
  lemma StackFrame(a: Ctx, x: Ctx, ls: set<string>, es: seq<Entry>, es': seq<Entry>)
    requires CodeFrame(a, x, ls)
    ensures CodeFrame(a.(stack := es), x.(stack := es'), ls)
    ensures Frame(a, x, ls) ==> Frame(a.(stack := es), x.(stack := es'), ls)
  {
  }

  // Nor do the jump targets, for the code.
  lemma TargetsFrame(a: Ctx, x: Ctx, ls: set<string>, bs: seq<Target>, cs: seq<Target>, es: seq<Target>)
    requires CodeFrame(a, x, ls)
    ensures CodeFrame(a, x.(breaks := bs, continues := cs, excs := es), ls)
  {
  }

  lemma FewLabels(a: Ctx, x: Ctx, ls: set<string>)
    requires CodeFrame(a, x, ls)
    ensures x.labels.Keys <= a.labels.Keys + ls
  {
  }

  lemma Then(a: Ctx, x: Ctx, y: Ctx, ls: set<string>, ls': set<string>)
    requires CodeFrame(a, x, ls) && CodeFrame(x, y, ls') && ls' <= ls
    ensures CodeFrame(a, y, ls)
    ensures SameTargets(a, x) && SameTargets(x, y) ==> Frame(a, y, ls)
  {
  }

  // n more blocks.
  function NewBlocks(x: Ctx, n: nat): Ctx {
    if n == 0 then x else NewBlock(NewBlocks(x, n - 1))
  }

  lemma NewBlocksFrame(a: Ctx, x: Ctx, n: nat, ls: set<string>)
    requires CodeFrame(a, x, ls)
    ensures CodeFrame(a, NewBlocks(x, n), ls)
    ensures var y := NewBlocks(x, n);
            && y == x.(code := y.code, next := x.next + n)
            && (forall b: nat :: b < x.next ==> At(y.code, b) == At(x.code, b))
            && (forall b: nat :: x.next <= b ==> At(y.code, b) == [])
  {
    if n > 0 {
      NewBlocksFrame(a, x, n - 1, ls);
      var z := NewBlocks(x, n - 1);
      NewFrame(a, z, ls);
      assert forall b: nat :: At(NewBlock(z).code, b) == if b == z.next then [] else At(z.code, b);
    }
  }

  // Creating n blocks, ending the current one and moving to the first of them.
  function Fork(x: Ctx, n: nat, br: Instr): Ctx {
    Emit(NewBlocks(x, n), br).(cur := x.next)
  }

  lemma ForkFrame(a: Ctx, x: Ctx, n: nat, br: Instr, ls: set<string>)
    requires CodeFrame(a, x, ls) && 1 <= n <= 4
    ensures CodeFrame(a, Fork(x, n, br), ls)
    ensures Frame(a, x, ls) ==> Frame(a, Fork(x, n, br), ls)
    ensures Fork(x, n, br).next == x.next + n && Fork(x, n, br).stack == x.stack
    ensures Fork(x, n, br).labels == x.labels
  {
    ForkIs(x, n, br);
    NewBlocksFrame(a, x, n, ls);
    EmitFrame(a, NewBlocks(x, n), br, ls);
    CurFrame(a, Emit(NewBlocks(x, n), br), x.next, ls);
  }

  lemma ForkIs(x: Ctx, n: nat, br: Instr)
    requires 1 <= n <= 4
    ensures n == 1 ==> Fork(x, n, br) == Emit(NewBlock(x), br).(cur := x.next)
    ensures n == 2 ==> Fork(x, n, br) == Emit(NewBlock(NewBlock(x)), br).(cur := x.next)
    ensures n == 3 ==> Fork(x, n, br) == Emit(NewBlock(NewBlock(NewBlock(x))), br).(cur := x.next)
    ensures n == 4 ==> Fork(x, n, br) == Emit(NewBlock(NewBlock(NewBlock(NewBlock(x)))), br).(cur := x.next)
  {
    assert NewBlocks(x, 1) == NewBlock(NewBlocks(x, 0));
    assert NewBlocks(x, 2) == NewBlock(NewBlocks(x, 1));
    assert n >= 3 ==> NewBlocks(x, 3) == NewBlock(NewBlocks(x, 2));
  }

  // The stack plays no part in a fork.
  lemma ForkTwins(st: Ctx, es: seq<Entry>, n: nat, br: Instr)
    requires 1 <= n <= 4
    ensures var x := Fork(st, n, br);
            && x == st.(code := x.code, next := x.next, cur := x.cur)
            && Fork(st.(stack := es), n, br) == x.(stack := es)
  {
    NewTwins(st, es, n);
  }

  lemma NewTwins(st: Ctx, es: seq<Entry>, n: nat)
    ensures var x := NewBlocks(st, n);
            && x == st.(code := x.code, next := x.next)
            && NewBlocks(st.(stack := es), n) == x.(stack := es)
  {
    if n > 0 { NewTwins(st, es, n - 1); }
  }

  // The two branches of an if, and a branch known at compile time.
  lemma TwoArms(s: Stmt, st: Ctx, lvl: nat)
    requires s.If? && s.kind.Dynamic?
    ensures var r1 := CgStmt(s.thn, Fork(st, 2, ICondBr(Home(s.cond), st.next, st.next + 1)), lvl);
            && (r1.Fail? ==> CgArms(s, st, lvl) == Fail(r1.error))
            && (r1.Ok? ==>
                  var r2 := CgStmt(s.els, BranchToEnd(r1.value, None).(cur := st.next + 1), lvl);
                  CgArms(s, st, lvl) == if r2.Fail? then Fail(r2.error) else Ok(Merge(r1.value, r2.value)))
  {
    hide CgStmt, Merge, BranchToEnd, NewBlocks, Fork;
    ForkIs(st, 2, ICondBr(Home(s.cond), st.next, st.next + 1));
  }

  lemma OneArm(s: Stmt, st: Ctx, lvl: nat)
    requires s.If? && !s.kind.Dynamic?
    ensures var r := CgStmt(if s.kind.StaticTrue? then s.thn else s.els, Fork(st, 1, IBr(st.next)), lvl);
            && (r.Fail? ==> CgArms(s, st, lvl) == Fail(r.error))
            && (r.Ok? ==>
                  var d := r.value;
                  CgArms(s, st, lvl) == Ok(if d.term then d else Done(BranchToEnd(d, None).(cur := d.st.next), false)))
  {
    hide CgStmt, BranchToEnd, NewBlocks, Fork;
    ForkIs(st, 1, IBr(st.next));
  }

  // A call whose result is tested.
  lemma CallIs(f: Fn, args: seq<Slot>, out: Slot, st: Ctx, lvl: nat)
    requires st.check && st.excs != []
    ensures var y := Fork(Emit(st, ICall(f, args, out)), 2, IExcBr(st.next + 1, st.next));
            var r := Jump(st.excs[|st.excs| - 1], true, y, lvl);
            && y.excs == st.excs
            && CgCall(f, args, out, st, lvl) == if r.Fail? then Fail(r.error) else Ok(r.value.(cur := st.next + 1))
  {
    hide Jump, NewBlocks, Fork;
    var x := Emit(st, ICall(f, args, out));
    var br := IExcBr(st.next + 1, st.next);
    ForkIs(x, 2, br);
    assert Fork(x, 2, br) == Emit(NewBlock(NewBlock(x)), br).(cur := st.next);
  }

  // Filling a fresh block with two instructions and moving on.
  function Fill(x: Ctx, b: nat, i: Instr, j: Instr, b': nat): Ctx {
    Emit(Emit(x.(cur := b), i), j).(cur := b')
  }

  lemma FillFrame(a: Ctx, x: Ctx, b: nat, i: Instr, j: Instr, b': nat, ls: set<string>)
    requires Frame(a, x, ls) && a.next <= b < x.next && a.next <= b' < x.next
    ensures Frame(a, Fill(x, b, i, j, b'), ls)
  {
    CurFrame(a, x, b, ls);
    EmitFrame(a, x.(cur := b), i, ls);
    EmitFrame(a, Emit(x.(cur := b), i), j, ls);
    CurFrame(a, Emit(Emit(x.(cur := b), i), j), b', ls);
  }

  lemma CleanupHasNoLabels(ss: seq<Stmt>, n: nat, inLoop: bool, scope: set<string>)
    requires n <= |ss| && WellFormedAll(ss, n, true, inLoop, scope)
    ensures LabelsOfAll(ss[..n]) == {}
    decreases ss, n
  {
    if n > 0 {
      CleanupHasNoLabels(ss, n - 1, inLoop, scope);
      StmtHasNoLabels(ss[n - 1], inLoop, scope + Visible(ss, n - 1));
      assert ss[..n][..n - 1] == ss[..n - 1];
    }
  }

  lemma StmtHasNoLabels(s: Stmt, inLoop: bool, scope: set<string>)
    requires WellFormed(s, true, inLoop, scope)
    ensures LabelsOf(s) == {}
    decreases s
  {
    match s
    case Block(body) =>
      CleanupHasNoLabels(body, |body|, inLoop, scope);
      assert body[..|body|] == body;
    case If(_, _, _, thn, els) =>
      StmtHasNoLabels(thn, inLoop, scope);
      StmtHasNoLabels(els, inLoop, scope);
    case While(_, _, loop) => StmtHasNoLabels(loop, true, scope);
    case Try(tried, handler) =>
      StmtHasNoLabels(tried, inLoop, scope);
      StmtHasNoLabels(handler, inLoop, scope);
    case _ =>
  }

  // ----- cleanup ------------------------------------------------------------

  lemma FrameEntry(e: Entry, exn: bool, st: Ctx, lvl: nat)
    requires Within(st) && TameEntry(e) && Tame(st.stack) && DestroyEntry(e, exn, st, lvl).Ok?
    ensures Frame(st, DestroyEntry(e, exn, st, lvl).value, {})
    decreases lvl, 0, 1
  {
    Self(st, {});
    match e
    case Value(v) => if !v.prim { EmitFrame(st, st, IDestroy(v), {}); }
    case Final(b) => FrameCleanup(b, st, lvl);
    case Error(b) => if exn { FrameCleanup(b, st, lvl); }
  }

  lemma FrameCleanup(b: seq<Stmt>, st: Ctx, lvl: nat)
    requires Within(st) && WellFormedAll(b, |b|, true, false, {}) && Tame(st.stack)
    requires RunCleanup(b, st, lvl).Ok?
    ensures Frame(st, RunCleanup(b, st, lvl).value, {})
    decreases lvl, 0, 0
  {
    CleanupHasNoLabels(b, |b|, false, {});
    assert b[..|b|] == b;
    FrameStmt(Block(b), st.(check := false), lvl - 1, true, false, {});
  }

  lemma FrameDestroy(es: seq<Entry>, exn: bool, st: Ctx, lvl: nat)
    requires Within(st) && Tame(es) && Tame(st.stack) && Destroy(es, exn, st, lvl).Ok?
    ensures Frame(st, Destroy(es, exn, st, lvl).value, {})
    decreases lvl, 1, |es|
  {
    Self(st, {});
    if es != [] {
      FrameEntry(es[|es| - 1], exn, st, lvl);
      var st1 := DestroyEntry(es[|es| - 1], exn, st, lvl).value;
      FrameDestroy(es[..|es| - 1], exn, st1, lvl);
      Then(st, st1, Destroy(es, exn, st, lvl).value, {}, {});
    }
  }

  lemma FrameDestroyPop(marker: nat, exn: bool, st: Ctx, lvl: nat)
    requires Within(st) && Tame(st.stack) && marker <= |st.stack| && DestroyPop(marker, exn, st, lvl).Ok?
    ensures Frame(st, DestroyPop(marker, exn, st, lvl).value, {})
    decreases lvl, 1, |st.stack|
  {
    hide Ext, LabelsKept, SameTargets, DestroyEntry, TameEntry;
    Self(st, {});
    if |st.stack| != marker {
      var n := |st.stack| - 1;
      var x := PopTo(st, n);
      FrameEntry(st.stack[n], exn, x, lvl);
      var st1 := DestroyEntry(st.stack[n], exn, x, lvl).value;
      FrameDestroyPop(marker, exn, st1, lvl);
      FromPopped(st, n, st1, {});
      Then(st, st1, DestroyPop(marker, exn, st, lvl).value, {}, {});
    }
  }

  lemma FromPopped(st: Ctx, n: nat, x: Ctx, ls: set<string>)
    requires Frame(PopTo(st, n), x, ls)
    ensures Frame(st, x, ls)
  {
  }

  lemma FrameJump(jt: Target, exn: bool, st: Ctx, lvl: nat)
    requires Within(st) && Tame(st.stack) && Jump(jt, exn, st, lvl).Ok?
    ensures Frame(st, Jump(jt, exn, st, lvl).value, {})
    decreases lvl, 2
  {
    FrameDestroy(st.stack[jt.marker..], exn, st, lvl);
    EmitFrame(st, Destroy(st.stack[jt.marker..], exn, st, lvl).value, IBr(jt.block), {});
  }

  // ----- expressions --------------------------------------------------------

  lemma FrameCall(f: Fn, args: seq<Slot>, out: Slot, st: Ctx, lvl: nat)
    requires Within(st) && Tame(st.stack) && CgCall(f, args, out, st, lvl).Ok?
    ensures Frame(st, CgCall(f, args, out, st, lvl).value, {})
    decreases lvl, 3
  {
    hide Ext, LabelsKept, SameTargets, Tame, Jump;
    Self(st, {});
    if !st.check {
      EmitFrame(st, st, ICallUnchecked(f, args, out), {});
    } else {
      var a := Emit(st, ICall(f, args, out));
      EmitFrame(st, st, ICall(f, args, out), {});
      NewFrame(st, a, {});
      NewFrame(st, NewBlock(a), {});
      var st1 := Emit(NewBlock(NewBlock(a)), IExcBr(st.next + 1, st.next));
      EmitFrame(st, NewBlock(NewBlock(a)), IExcBr(st.next + 1, st.next), {});
      var at := st1.(cur := st.next);
      CurFrame(st, st1, st.next, {});
      FrameJump(st1.excs[|st1.excs| - 1], true, at, lvl);
      var st2 := Jump(st1.excs[|st1.excs| - 1], true, at, lvl).value;
      Then(st, at, st2, {}, {});
      CurFrame(st, st2, st.next + 1, {});
    }
  }

  lemma FrameInto(e: Expr, out: Slot, st: Ctx, lvl: nat)
    requires Within(st) && Tame(st.stack) && CgInto(e, out, st, lvl).Ok?
    ensures Frame(st, CgInto(e, out, st, lvl).value, {})
    decreases lvl, 4, e, 1
  {
    Self(st, {});
    match e
    case Lit(b, _) => EmitFrame(st, st, IStore(out, b), {});
    case Call(f, args, _, _) =>
      FrameArgs(args, |args|, st, lvl);
      var st1 := CgArgs(args, |args|, st, lvl).value;
      FrameCall(f, Homes(args), out, st1, lvl);
      Then(st, st1, CgInto(e, out, st, lvl).value, {}, {});
    case And(_, _, _) => FrameAndOr(e, out, st, lvl);
    case Or(_, _, _) => FrameAndOr(e, out, st, lvl);
  }

  lemma FrameAndOr(e: Expr, out: Slot, st: Ctx, lvl: nat)
    requires e.And? || e.Or?
    requires Within(st) && Tame(st.stack) && CgAndOr(e, out, st, lvl).Ok?
    ensures Frame(st, CgAndOr(e, out, st, lvl).value, {})
    decreases lvl, 4, e, 0
  {
    hide Ext, LabelsKept, SameTargets, Within, Tame, CgRef, CgArm, NewBlocks;
    var st1 := CgRef(e.l, st, lvl).value;
    var arm, skip, merge := st1.next, st1.next + 1, st1.next + 2;
    var br := if e.Or? then ICondBr(Home(e.l), skip, arm) else ICondBr(Home(e.l), arm, skip);
    FrameRef(e.l, st, lvl);
    ForkFrame(st, st1, 3, br, {});
    ForkIs(st1, 3, br);
    var st2 := Fork(st1, 3, br);
    FrameArm(e.r, out, merge, st2, lvl);
    var st3 := CgArm(e.r, out, merge, st2, lvl).value;
    Then(st, st2, st3, {}, {});
    FillFrame(st, st3, skip, IStore(out, e.Or?), IBr(merge), merge, {});
  }

  lemma FrameArm(e: Expr, out: Slot, merge: nat, st: Ctx, lvl: nat)
    requires Within(st) && Tame(st.stack) && CgArm(e, out, merge, st, lvl).Ok?
    ensures Frame(st, CgArm(e, out, merge, st, lvl).value, {})
    decreases lvl, 4, e, 3
  {
    FrameRef(e, st, lvl);
    var st1 := CgRef(e, st, lvl).value;
    EmitFrame(st, st1, ICopy(out, Home(e)), {});
    var st2 := Emit(st1, ICopy(out, Home(e)));
    FrameDestroyPop(|st.stack|, false, st2, lvl);
    var st3 := DestroyPop(|st.stack|, false, st2, lvl).value;
    Then(st, st2, st3, {}, {});
    EmitFrame(st, st3, IBr(merge), {});
  }

  lemma FrameRef(e: Expr, st: Ctx, lvl: nat)
    requires Within(st) && Tame(st.stack) && CgRef(e, st, lvl).Ok?
    ensures Frame(st, CgRef(e, st, lvl).value, {})
    ensures Tame(CgRef(e, st, lvl).value.stack)
    decreases lvl, 4, e, 2
  {
    FrameInto(e, Home(e), st, lvl);
  }

  lemma FrameArgs(args: seq<Expr>, n: nat, st: Ctx, lvl: nat)
    requires n <= |args| && Within(st) && Tame(st.stack) && CgArgs(args, n, st, lvl).Ok?
    ensures Frame(st, CgArgs(args, n, st, lvl).value, {})
    ensures Tame(CgArgs(args, n, st, lvl).value.stack)
    decreases lvl, 4, args, n
  {
    Self(st, {});
    if n > 0 {
      FrameArgs(args, n - 1, st, lvl);
      var st1 := CgArgs(args, n - 1, st, lvl).value;
      FrameRef(args[n - 1], st1, lvl);
      Then(st, st1, CgArgs(args, n, st, lvl).value, {}, {});
    }
  }

  lemma FrameWhole(e: Expr, st: Ctx, lvl: nat)
    requires Within(st) && Tame(st.stack) && CgWhole(e, st, lvl).Ok?
    ensures Frame(st, CgWhole(e, st, lvl).value, {})
    decreases lvl, 5
  {
    FrameRef(e, st, lvl);
    var st1 := CgRef(e, st, lvl).value;
    FrameDestroyPop(|st.stack|, false, st1, lvl);
    Then(st, st1, CgWhole(e, st, lvl).value, {}, {});
  }

  lemma FrameInits(inits: seq<Init>, n: nat, st: Ctx, lvl: nat)
    requires n <= |inits| && Within(st) && Tame(st.stack) && CgInits(inits, n, st, lvl).Ok?
    ensures Frame(st, CgInits(inits, n, st, lvl).value, {})
    decreases lvl, 6, n
  {
    hide Ext, LabelsKept, SameTargets, Within, CgInto;
    Self(st, {});
    if n > 0 {
      FrameInits(inits, n - 1, st, lvl);
      var st1 := CgInits(inits, n - 1, st, lvl).value;
      var e, out := inits[n - 1].e, inits[n - 1].out;
      FrameInto(e, out, st1, lvl);
      var st2 := CgInto(e, out, st1, lvl).value;
      FrameDestroyPop(|st1.stack|, false, st2, lvl);
      var st3 := CgOneInto(e, out, st1, lvl).value;
      Then(st, st1, st2, {}, {});
      Then(st, st2, st3, {}, {});
      assert st.(stack := st.stack) == st;
      StackFrame(st, st3, {}, st.stack, CgInits(inits, n, st, lvl).value.stack);
    }
  }

  // ----- statements ---------------------------------------------------------

  lemma FrameVar(inits: seq<Init>, st: Ctx, lvl: nat)
    requires Within(st) && Tame(st.stack) && CgVar(inits, st, lvl).Ok?
    ensures Frame(st, CgVar(inits, st, lvl).value, {})
    decreases lvl, 7, 1
  {
    FrameInits(inits, |inits|, st, lvl);
  }

  lemma OwnTame(ss: seq<Stmt>, i: nat, cleanup: bool, inLoop: bool, scope: set<string>)
    requires i <= |ss| && WellFormedAll(ss, i, cleanup, inLoop, scope)
    ensures Tame(Own(ss, i))
  {
    if i > 0 {
      OwnTame(ss, i - 1, cleanup, inLoop, scope);
    }
  }

  lemma FramePre(pre: seq<Stmt>, n: nat, st: Ctx, lvl: nat)
    requires n <= |pre| && Within(st) && Tame(st.stack) && CgPre(pre, n, st, lvl).Ok?
    ensures Frame(st, CgPre(pre, n, st, lvl).value, {})
    ensures CgPre(pre, n, st, lvl).value.stack == st.stack + Own(pre, n)
    ensures Tame(CgPre(pre, n, st, lvl).value.stack)
    decreases lvl, 8, pre, n
  {
    hide *;
    PreStep(pre, n, st, lvl);
    if n == 0 {
      Self(st, {});
    } else {
      FramePre(pre, n - 1, st, lvl);
      var st1 := CgPre(pre, n - 1, st, lvl).value;
      FrameWithin(st, st1, {});
      FramePreItem(pre[n - 1], st1, lvl);
      StackAfter(pre, n - 1, st, st1, CgPre(pre, n, st, lvl).value);
      Joined(st, st1, CgPre(pre, n, st, lvl).value);
    }
  }

  lemma FrameWithin(a: Ctx, x: Ctx, ls: set<string>)
    requires Frame(a, x, ls)
    ensures Within(x)
  {
  }

  lemma Joined(a: Ctx, x: Ctx, y: Ctx)
    requires Frame(a, x, {}) && Frame(x, y, {})
    ensures Frame(a, y, {})
  {
    hide Ext, LabelsKept, Within;
    Then(a, x, y, {}, {});
  }

  lemma PreStep(pre: seq<Stmt>, n: nat, st: Ctx, lvl: nat)
    requires n <= |pre| && CgPre(pre, n, st, lvl).Ok?
    ensures n == 0 ==> CgPre(pre, n, st, lvl).value == st && st.stack == st.stack + Own(pre, n)
    ensures n > 0 ==> && CgPre(pre, n - 1, st, lvl).Ok?
                      && CgPreItem(pre[n - 1], CgPre(pre, n - 1, st, lvl).value, lvl) == CgPre(pre, n, st, lvl)
  {
    hide CgPreItem, Pushes;
  }

  lemma FramePreItem(s: Stmt, st: Ctx, lvl: nat)
    requires Within(st) && Tame(st.stack) && CgPreItem(s, st, lvl).Ok?
    ensures Frame(st, CgPreItem(s, st, lvl).value, {})
    ensures CgPreItem(s, st, lvl).value.stack == st.stack + Pushes(s)
    ensures Tame(st.stack + Pushes(s))
    decreases lvl, 8, s, 0
  {
    match s
    case Var(inits) => FrameVar(inits, st, lvl);
    case Eval(e) => FrameWhole(e, st, lvl);
    case _ =>
  }

  lemma FrameEndScope(marker: nat, term: bool, st: Ctx, lvl: nat)
    requires Within(st) && Tame(st.stack) && marker <= |st.stack| && EndScope(marker, term, st, lvl).Ok?
    ensures Frame(st, EndScope(marker, term, st, lvl).value.st, {})
    decreases lvl, 2
  {
    Self(st, {});
    if !term { FrameDestroy(st.stack[marker..], false, st, lvl); }
  }

  lemma FrameReturn(inits: seq<Init>, st: Ctx, lvl: nat)
    requires Within(st) && Tame(st.stack) && CgStmt(Return(inits), st, lvl).Ok?
    ensures Frame(st, CgStmt(Return(inits), st, lvl).value.st, {})
    ensures CgStmt(Return(inits), st, lvl).value.st.stack == st.stack
    decreases lvl, 8, Return(inits), 1
  {
    hide Ext, LabelsKept, SameTargets, Within, Jump, CgInits;
    FrameInits(inits, |inits|, st, lvl);
    FrameMulti(inits, st, lvl);
    var st1 := CgMultiInto(inits, st, lvl).value;
    FrameJump(st1.rets[|st1.rets| - 1], false, st1, lvl);
    Then(st, st1, CgStmt(Return(inits), st, lvl).value.st, {}, {});
  }

  lemma FrameMulti(inits: seq<Init>, st: Ctx, lvl: nat)
    requires CgMultiInto(inits, st, lvl).Ok? && Frame(st, CgInits(inits, |inits|, st, lvl).value, {})
    ensures Frame(st, CgMultiInto(inits, st, lvl).value, {}) && CgMultiInto(inits, st, lvl).value.stack == st.stack
    ensures Within(CgMultiInto(inits, st, lvl).value)
  {
    hide CgInits;
  }

  lemma FrameBreak(st: Ctx, lvl: nat)
    requires Within(st) && Tame(st.stack) && CgStmt(Break, st, lvl).Ok?
    ensures Frame(st, CgStmt(Break, st, lvl).value.st, {})
    ensures CgStmt(Break, st, lvl).value.st.stack == st.stack
    ensures var bs := CgStmt(Break, st, lvl).value.st.breaks; |bs| > 0 && bs[|bs| - 1].uses > 0
    decreases lvl, 8, Break, 1
  {
    FrameJump(st.breaks[|st.breaks| - 1], false, st, lvl);
  }

  lemma FrameThrow(args: seq<Expr>, st: Ctx, lvl: nat)
    requires Within(st) && Tame(st.stack) && CgStmt(Throw(args), st, lvl).Ok?
    ensures Frame(st, CgStmt(Throw(args), st, lvl).value.st, {})
    ensures CgStmt(Throw(args), st, lvl).value.st.stack == st.stack
    decreases lvl, 8, Throw(args), 1
  {
    hide Ext, LabelsKept;
    FrameArgs(args, |args|, st, lvl);
    var st1 := CgArgs(args, |args|, st, lvl).value;
    FrameCall(ThrowValue, Homes(args), Slot(Temp, 0, true), st1, lvl);
    var st2 := CgCall(ThrowValue, Homes(args), Slot(Temp, 0, true), st1, lvl).value;
    Then(st, st1, st2, {}, {});
    FrameDestroyPop(|st.stack|, false, st2, lvl);
    var st3 := DestroyPop(|st.stack|, false, st2, lvl).value;
    Then(st, st2, st3, {}, {});
    EmitFrame(st, st3, IUnreachable, {});
  }

  lemma FrameStmt(s: Stmt, st: Ctx, lvl: nat, cleanup: bool, inLoop: bool, scope: set<string>)
    requires Within(st) && Tame(st.stack) && WellFormed(s, cleanup, inLoop, scope)
    requires st.labels.Keys !! LabelsOf(s)
    requires CgStmt(s, st, lvl).Ok?
    ensures Frame(st, CgStmt(s, st, lvl).value.st, LabelsOf(s))
    ensures CgStmt(s, st, lvl).value.st.stack == st.stack + Pushes(s)
    decreases lvl, 8, s, 2
  {
    Self(st, {});
    match s
    case Block(body) =>
      hide Ext, LabelsKept, SameTargets;
      FrameBlock(body, st, lvl, cleanup, inLoop, scope);
      var d := CgItems(body, |body|, Done(CollectLabels(body, 0, st).value, false), lvl).value;
      FrameEndOfBlock(st, d, LabelsOf(s), lvl);
    case Label(_) => assert false;
    case Var(_) => assert false;
    case Goto(l) => FrameJump(st.labels[l], false, st, lvl);
    case Eval(e) => FrameWhole(e, st, lvl);
    case Return(inits) => FrameReturn(inits, st, lvl);
    case Throw(args) => FrameThrow(args, st, lvl);
    case If(_, _, _, _, _) => FrameIf(s, st, lvl, cleanup, inLoop, scope);
    case While(_, _, _) => FrameWhile(s, st, lvl, cleanup, inLoop, scope);
    case Break => FrameBreak(st, lvl);
    case Continue => FrameJump(st.continues[|st.continues| - 1], false, st, lvl);
    case Try(_, _) => FrameTry(s, st, lvl, cleanup, inLoop, scope);
    case Finally(b) =>
    case OnError(b) =>
    case Unreachable => EmitFrame(st, st, IUnreachable, {});
  }

  lemma FrameEndOfBlock(a: Ctx, d: Done, ls: set<string>, lvl: nat)
    requires Within(a) && Frame(a, d.st, ls) && |a.stack| <= |d.st.stack| && EndScope(|a.stack|, d.term, d.st, lvl).Ok?
    requires !d.term ==> Tame(d.st.stack)
    ensures Frame(a, EndScope(|a.stack|, d.term, d.st, lvl).value.st, ls)
    decreases lvl, 3
  {
    if !d.term {
      FrameEndScope(|a.stack|, d.term, d.st, lvl);
      Then(a, d.st, EndScope(|a.stack|, d.term, d.st, lvl).value.st, ls, {});
    }
  }

  lemma FrameIf(s: Stmt, st: Ctx, lvl: nat, cleanup: bool, inLoop: bool, scope: set<string>)
    requires s.If? && Within(st) && Tame(st.stack) && WellFormed(s, cleanup, inLoop, scope)
    requires st.labels.Keys !! LabelsOf(s)
    requires CgIf(s, st, lvl).Ok?
    ensures Frame(st, CgIf(s, st, lvl).value.st, LabelsOf(s))
    decreases lvl, 8, s, 1
  {
    hide Ext, LabelsKept, SameTargets, Within;
    var ls := LabelsOf(s);
    FramePre(s.pre, |s.pre|, st, lvl);
    var p := CgPre(s.pre, |s.pre|, st, lvl).value;
    FrameWhole(s.cond, p, lvl);
    var st1 := CgWhole(s.cond, p, lvl).value;
    Then(st, p, st1, {}, {});
    FewLabels(st, st1, {});
    FrameArms(s, st1, lvl, cleanup, inLoop, scope);
    var d := CgArms(s, st1, lvl).value;
    Self(st, ls);
    Then(st, st, st1, ls, {});
    Then(st, st1, d.st, ls, ls);
    FrameEndScope(|st.stack|, d.term, d.st, lvl);
    Then(st, d.st, CgIf(s, st, lvl).value.st, ls, {});
  }

  lemma FrameArms(s: Stmt, st: Ctx, lvl: nat, cleanup: bool, inLoop: bool, scope: set<string>)
    requires s.If? && Within(st) && Tame(st.stack) && WellFormed(s, cleanup, inLoop, scope)
    requires st.labels.Keys !! LabelsOf(s)
    requires CgArms(s, st, lvl).Ok?
    ensures Frame(st, CgArms(s, st, lvl).value.st, LabelsOf(s))
    ensures CgArms(s, st, lvl).value.st.stack == st.stack
    decreases lvl, 8, s, 0, 1
  {
    hide Ext, LabelsKept, SameTargets, Within, Tame;
    var ls := LabelsOf(s);
    Self(st, ls);
    if s.kind.Dynamic? {
      var br := ICondBr(Home(s.cond), st.next, st.next + 1);
      ForkFrame(st, st, 2, br, ls);
      ForkIs(st, 2, br);
      FrameTwo(s, st, Fork(st, 2, br), st.next + 1, ls, lvl, cleanup, inLoop, scope);
    } else {
      FrameOne(s, st, lvl, cleanup, inLoop, scope);
    }
  }

  lemma FrameOne(s: Stmt, st: Ctx, lvl: nat, cleanup: bool, inLoop: bool, scope: set<string>)
    requires s.If? && !s.kind.Dynamic? && Within(st) && Tame(st.stack) && WellFormed(s, cleanup, inLoop, scope)
    requires st.labels.Keys !! LabelsOf(s)
    requires CgArms(s, st, lvl).Ok?
    ensures Frame(st, CgArms(s, st, lvl).value.st, LabelsOf(s))
    ensures CgArms(s, st, lvl).value.st.stack == st.stack
    decreases lvl, 8, s, 0, 0
  {
    hide Ext, LabelsKept, SameTargets, Within, Tame;
    var ls := LabelsOf(s);
    Self(st, ls);
    var b := if s.kind.StaticTrue? then s.thn else s.els;
    ForkFrame(st, st, 1, IBr(st.next), ls);
    ForkIs(st, 1, IBr(st.next));
    var st2 := Fork(st, 1, IBr(st.next));
    FrameArm1(b, st, st2, ls, lvl, cleanup, inLoop, scope);
    var d := CgStmt(b, st2, lvl).value;
    BranchFrame(st, d, None, ls);
    if !d.term { CurFrame(st, BranchToEnd(d, None), d.st.next, ls); }
  }

  lemma FrameTwo(s: Stmt, a: Ctx, st: Ctx, no: nat, ls: set<string>, lvl: nat, cleanup: bool, inLoop: bool, scope: set<string>)
    requires s.If? && Frame(a, st, ls) && Tame(st.stack) && !Bare(s.thn) && !Bare(s.els) && a.next <= no < st.next
    requires WellFormed(s.thn, cleanup, inLoop, scope) && WellFormed(s.els, cleanup, inLoop, scope)
    requires st.labels.Keys !! LabelsOf(s.thn) !! LabelsOf(s.els) && LabelsOf(s.thn) <= ls && LabelsOf(s.els) <= ls
    requires CgStmt(s.thn, st, lvl).Ok?
    requires CgStmt(s.els, BranchToEnd(CgStmt(s.thn, st, lvl).value, None).(cur := no), lvl).Ok?
    ensures var d1 := CgStmt(s.thn, st, lvl).value;
            var d2 := CgStmt(s.els, BranchToEnd(d1, None).(cur := no), lvl).value;
            Frame(a, Merge(d1, d2).st, ls) && Merge(d1, d2).st.stack == st.stack
    decreases lvl, 8, s, 0, 0
  {
    hide Ext, LabelsKept, SameTargets, Within, Tame;
    FrameArm1(s.thn, a, st, ls, lvl, cleanup, inLoop, scope);
    var d1 := CgStmt(s.thn, st, lvl).value;
    BranchFrame(a, d1, None, ls);
    CurFrame(a, BranchToEnd(d1, None), no, ls);
    var st3 := BranchToEnd(d1, None).(cur := no);
    FrameArm1(s.els, a, st3, ls, lvl, cleanup, inLoop, scope);
    MergeFrame(a, d1, CgStmt(s.els, st3, lvl).value, ls);
  }

  // A branch, as part of the statement entered in state a.
  lemma FrameArm1(s: Stmt, a: Ctx, st: Ctx, ls: set<string>, lvl: nat, cleanup: bool, inLoop: bool, scope: set<string>)
    requires Frame(a, st, ls) && Tame(st.stack) && WellFormed(s, cleanup, inLoop, scope) && !Bare(s)
    requires st.labels.Keys !! LabelsOf(s) && LabelsOf(s) <= ls
    requires CgStmt(s, st, lvl).Ok?
    ensures Frame(a, CgStmt(s, st, lvl).value.st, ls)
    ensures CgStmt(s, st, lvl).value.st.stack == st.stack
    ensures CgStmt(s, st, lvl).value.st.labels.Keys <= st.labels.Keys + LabelsOf(s)
    ensures st.next <= CgStmt(s, st, lvl).value.st.next
    decreases lvl, 8, s, 3
  {
    FrameStmt(s, st, lvl, cleanup, inLoop, scope);
    Then(a, st, CgStmt(s, st, lvl).value.st, ls, LabelsOf(s));
    FewLabels(st, CgStmt(s, st, lvl).value.st, LabelsOf(s));
  }

  lemma BranchFrame(a: Ctx, d: Done, end: Option<nat>, ls: set<string>)
    requires CodeFrame(a, d.st, ls)
    ensures CodeFrame(a, BranchToEnd(d, end), ls)
    ensures Frame(a, d.st, ls) ==> Frame(a, BranchToEnd(d, end), ls)
    ensures BranchToEnd(d, end).stack == d.st.stack && BranchToEnd(d, end).labels == d.st.labels
    ensures d.st.next <= BranchToEnd(d, end).next
    ensures end == None && !d.term ==> BranchToEnd(d, end).next == d.st.next + 1
  {
    if !d.term {
      match end {
        case Some(b) => EmitFrame(a, d.st, IBr(b), ls);
        case None =>
          NewFrame(a, d.st, ls);
          EmitFrame(a, NewBlock(d.st), IBr(d.st.next), ls);
      }
    }
  }

  lemma MergeFrame(a: Ctx, d1: Done, d2: Done, ls: set<string>)
    requires CodeFrame(a, d2.st, ls) && (!d1.term ==> a.next <= d1.st.next < d2.st.next)
    ensures CodeFrame(a, Merge(d1, d2).st, ls)
    ensures Frame(a, d2.st, ls) ==> Frame(a, Merge(d1, d2).st, ls)
    ensures Merge(d1, d2).st.stack == d2.st.stack
  {
    var end := if d1.term then None else Some(d1.st.next);
    BranchFrame(a, d2, end, ls);
    if !(d1.term && d2.term) {
      CurFrame(a, BranchToEnd(d2, end), if d1.term then d2.st.next else d1.st.next, ls);
    }
  }

  lemma FrameWhile(s: Stmt, st: Ctx, lvl: nat, cleanup: bool, inLoop: bool, scope: set<string>)
    requires s.While? && Within(st) && Tame(st.stack) && WellFormed(s, cleanup, inLoop, scope)
    requires st.labels.Keys !! LabelsOf(s)
    requires CgWhile(s, st, lvl).Ok?
    ensures Frame(st, CgWhile(s, st, lvl).value.st, LabelsOf(s))
    decreases lvl, 8, s, 1
  {
    hide Ext, LabelsKept, SameTargets, Within, Tame, LoopEnd, LoopBody, CgTest;
    var ls := LabelsOf(s);
    var begin, body, cont, end := st.next, st.next + 1, st.next + 2, st.next + 3;
    Self(st, ls);
    ForkFrame(st, st, 4, IBr(begin), ls);
    ForkIs(st, 4, IBr(begin));
    var st0 := Fork(st, 4, IBr(begin));
    FrameTest(s, body, end, st, st0, ls, lvl);
    var st1 := CgTest(s, body, end, st0, lvl).value;
    EnterFrame(st, body, cont, end, st1, ls);
    var st2 := Enter(body, cont, end, st1);
    FrameLoop(s, st, st2, cont, ls, lvl, cleanup, scope);
    FrameLoopEnd(s, st, st1, LoopBody(s, |st.stack|, cont, st2, lvl).value, begin, body, cont, end, ls, lvl);
  }

  lemma EnterFrame(a: Ctx, body: nat, cont: nat, end: nat, st: Ctx, ls: set<string>)
    requires CodeFrame(a, st, ls) && a.next <= body < st.next
    ensures CodeFrame(a, Enter(body, cont, end, st), ls)
  {
  }

  lemma FrameTest(s: Stmt, body: nat, end: nat, a: Ctx, st: Ctx, ls: set<string>, lvl: nat)
    requires s.While? && Frame(a, st, ls) && Tame(st.stack) && CgTest(s, body, end, st, lvl).Ok?
    ensures var st1 := CgTest(s, body, end, st, lvl).value;
            && Frame(a, st1, ls) && Tame(st1.stack) && st.next <= st1.next && st1.labels == st.labels
            && st1.stack == st.stack + Own(s.pre, |s.pre|)
    decreases lvl, 8, s, 0
  {
    hide Ext, Within, Tame;
    FramePre(s.pre, |s.pre|, st, lvl);
    var p := CgPre(s.pre, |s.pre|, st, lvl).value;
    FrameWhole(s.cond, p, lvl);
    var st1 := CgWhole(s.cond, p, lvl).value;
    Then(a, st, p, ls, {});
    Then(a, p, st1, ls, {});
    EmitFrame(a, st1, ICondBr(Home(s.cond), body, end), ls);
  }

  lemma FrameLoop(s: Stmt, a: Ctx, st: Ctx, cont: nat, ls: set<string>, lvl: nat, cleanup: bool, scope: set<string>)
    requires s.While? && CodeFrame(a, st, ls) && Tame(st.stack) && WellFormed(s.loop, cleanup, true, scope) && !Bare(s.loop)
    requires |a.stack| <= |st.stack| && a.next <= cont < st.next
    requires st.labels.Keys !! LabelsOf(s.loop) && LabelsOf(s.loop) <= ls
    requires LoopBody(s, |a.stack|, cont, st, lvl).Ok?
    ensures var st1 := LoopBody(s, |a.stack|, cont, st, lvl).value;
            CodeFrame(a, st1, ls) && SameTargets(st, st1) && st1.stack == st.stack && st.next <= st1.next
    decreases lvl, 8, s, 0
  {
    hide Ext, LabelsKept, Within;
    FrameStmt(s.loop, st, lvl, cleanup, true, scope);
    var d := CgStmt(s.loop, st, lvl).value;
    Then(a, st, d.st, ls, LabelsOf(s.loop));
    EmitFrame(a, d.st, IBr(cont), ls);
    var e := if d.term then d.st else Emit(d.st, IBr(cont));
    CurFrame(a, e, cont, ls);
    var st1 := e.(cur := cont);
    FrameDestroy(st1.stack[|a.stack|..], false, st1, lvl);
    Then(a, st1, Destroy(st1.stack[|a.stack|..], false, st1, lvl).value, ls, {});
  }

  // The loop's targets are dropped again.
  lemma FrameLoopEnd(s: Stmt, a: Ctx, st0: Ctx, st: Ctx, begin: nat, body: nat, cont: nat, end: nat, ls: set<string>, lvl: nat)
    requires s.While? && Within(a) && CodeFrame(a, st, ls) && a.next <= end < st.next
    requires SameTargets(a, st0) && SameTargets(Enter(body, cont, end, st0), st)
    requires |a.stack| <= |st.stack| && Tame(st.stack)
    requires LoopEnd(s, |a.stack|, begin, end, st, lvl).Ok?
    ensures Frame(a, LoopEnd(s, |a.stack|, begin, end, st, lvl).value.st, ls)
    decreases lvl, 7, 2
  {
    var st1 := Emit(st, IBr(begin));
    EmitFrame(a, st, IBr(begin), ls);
    var st2 := st1.(breaks := Pop(st1.breaks), continues := Pop(st1.continues), cur := end);
    TargetsFrame(a, st1, ls, Pop(st1.breaks), Pop(st1.continues), st1.excs);
    CurFrame(a, st1.(breaks := Pop(st1.breaks), continues := Pop(st1.continues)), end, ls);
    assert SameTargets(a, st2);
    EmitFrame(a, st2, IUnreachable, ls);
    if !(st1.breaks[|st1.breaks| - 1].uses == 0 && s.cond == Lit(true, s.cond.id)) {
      FrameEndScope(|a.stack|, false, st2, lvl);
      Then(a, st2, EndScope(|a.stack|, false, st2, lvl).value.st, ls, {});
    }
  }

  lemma FrameTry(s: Stmt, st: Ctx, lvl: nat, cleanup: bool, inLoop: bool, scope: set<string>)
    requires s.Try? && Within(st) && Tame(st.stack) && WellFormed(s, cleanup, inLoop, scope)
    requires st.labels.Keys !! LabelsOf(s)
    requires CgStmt(s, st, lvl).Ok?
    ensures Frame(st, CgStmt(s, st, lvl).value.st, LabelsOf(s))
    ensures CgStmt(s, st, lvl).value.st.stack == st.stack
    decreases lvl, 8, s, 1
  {
    hide Ext, LabelsKept, Within, Tame, SameTargets, BranchToEnd, Merge, NewBlock;
    var ls := LabelsOf(s);
    var st0 := EnterTry(st, ls);
    FrameStmt(s.tried, st0, lvl, cleanup, inLoop, scope);
    var d1 := CgStmt(s.tried, st0, lvl).value;
    FewLabels(st0, d1.st, LabelsOf(s.tried));
    var st1 := EnterHandler(st, st0, d1, LabelsOf(s.tried), ls);
    FrameStmt(s.handler, st1, lvl, cleanup, inLoop, scope);
    var d2 := CgStmt(s.handler, st1, lvl).value;
    Then(st, st1, d2.st, ls, LabelsOf(s.handler));
    MergeFrame(st, d1, d2, ls);
  }

  lemma EnterTry(st: Ctx, ls: set<string>) returns (st0: Ctx)
    requires Within(st)
    ensures st0 == NewBlock(st).(excs := st.excs + [Target(st.next, |st.stack|, 0)])
    ensures CodeFrame(st, st0, ls) && Within(st0) && st0.stack == st.stack && st0.labels == st.labels && st0.next == st.next + 1
  {
    st0 := NewBlock(st).(excs := st.excs + [Target(st.next, |st.stack|, 0)]);
    Self(st, ls);
    NewFrame(st, st, ls);
    TargetsFrame(st, NewBlock(st), ls, st.breaks, st.continues, st0.excs);
  }

  lemma EnterHandler(st: Ctx, st0: Ctx, d1: Done, ls1: set<string>, ls: set<string>) returns (st1: Ctx)
    requires CodeFrame(st, st0, ls) && st0 == NewBlock(st).(excs := st.excs + [Target(st.next, |st.stack|, 0)])
    requires Frame(st0, d1.st, ls1) && ls1 <= ls
    ensures var e := BranchToEnd(d1, None); st1 == e.(excs := Pop(e.excs), cur := st.next)
    ensures Frame(st, st1, ls) && st1.stack == d1.st.stack && st1.labels == d1.st.labels
    ensures !d1.term ==> st1.next == d1.st.next + 1
    ensures Within(st1) && d1.st.next <= st1.next && st.next < d1.st.next
  {
    hide Ext, LabelsKept;
    Then(st, st0, d1.st, ls, ls1);
    BranchFrame(st, d1, None, ls);
    var e := BranchToEnd(d1, None);
    st1 := e.(excs := Pop(e.excs), cur := st.next);
    TargetsFrame(st, e, ls, e.breaks, e.continues, Pop(e.excs));
    CurFrame(st, e.(excs := Pop(e.excs)), st.next, ls);
    assert SameTargets(st0, d1.st) && SameTargets(d1.st, e);
  }

  // ----- blocks and labels --------------------------------------------------

  predicate Distinct(ss: seq<Stmt>) {
    forall i, j :: 0 <= i < j < |ss| ==> LabelsOf(ss[i]) !! LabelsOf(ss[j])
  }

  lemma LabelsOfItem(ss: seq<Stmt>, n: nat, i: nat)
    requires i < n <= |ss|
    ensures LabelsOf(ss[i]) <= LabelsOfAll(ss[..n])
  {
    assert ss[..n][..n - 1] == ss[..n - 1];
    if i < n - 1 { LabelsOfItem(ss, n - 1, i); }
  }

  lemma WellFormedItem(ss: seq<Stmt>, n: nat, i: nat, cleanup: bool, inLoop: bool, scope: set<string>)
    requires i < n <= |ss| && WellFormedAll(ss, n, cleanup, inLoop, scope)
    ensures WellFormed(ss[i], cleanup, inLoop, scope + Visible(ss, i))
    ensures WellFormedAll(ss, i, cleanup, inLoop, scope)
    ensures LabelsOf(ss[i]) <= LabelsOfAll(ss)
    ensures LabelsOfAll(ss[..i]) !! LabelsOf(ss[i])
    ensures ss[i].Label? ==> forall j :: SegmentStart(ss, i) <= j < i ==> !Bare(ss[j])
    decreases n
  {
    hide SegmentStart, Visible, LabelsOf, LabelsOfAll;
    if i < n - 1 { WellFormedItem(ss, n - 1, i, cleanup, inLoop, scope); }
    LabelsOfItem(ss, |ss|, i);
    assert ss[..|ss|] == ss;
  }

  lemma WellFormedDistinct(ss: seq<Stmt>, cleanup: bool, inLoop: bool, scope: set<string>)
    requires WellFormedAll(ss, |ss|, cleanup, inLoop, scope)
    ensures Distinct(ss)
  {
    forall i, j | 0 <= i < j < |ss| ensures LabelsOf(ss[i]) !! LabelsOf(ss[j]) {
      WellFormedItem(ss, |ss|, j, cleanup, inLoop, scope);
      LabelsOfItem(ss, j, i);
    }
  }

  lemma SegmentsInOrder(ss: seq<Stmt>, i: nat, q: nat)
    requires i <= q <= |ss|
    ensures SegmentStart(ss, i) <= SegmentStart(ss, q)
    ensures SegmentStart(ss, q) == SegmentStart(ss, i) || SegmentStart(ss, q) > i
    ensures forall j :: i <= j < q && ss[j].Var? ==> SegmentStart(ss, q) > j
    ensures SegmentStart(ss, q) == SegmentStart(ss, i) ==> forall j :: i <= j < q ==> !ss[j].Var?
    decreases q
  {
    if i < q { SegmentsInOrder(ss, i, q - 1); }
  }

  // Nothing is pushed between a label and the start of its segment.
  lemma OwnSame(ss: seq<Stmt>, i: nat, q: nat)
    requires i <= q <= |ss|
    requires forall j :: i <= j < q ==> !Bare(ss[j]) && !ss[j].Var?
    ensures Own(ss, i) == Own(ss, q)
    decreases q
  {
    if i < q {
      OwnSame(ss, i, q - 1);
      NothingPushed(ss[q - 1]);
      assert Own(ss, q - 1) + [] == Own(ss, q - 1);
    }
  }

  lemma NothingPushed(s: Stmt)
    requires !Bare(s) && !s.Var?
    ensures Pushes(s) == []
  {
  }

  // The labels collected are those of the segments that start at or before c.
  ghost predicate Collected(ss: seq<Stmt>, c: nat, a: Ctx, st: Ctx) {
    forall q :: 0 <= q < |ss| && ss[q].Label? ==>
      && (ss[q].l in st.labels <==> SegmentStart(ss, q) <= c)
      && (SegmentStart(ss, q) <= c ==>
            && a.next <= st.labels[ss[q].l].block < st.next
            && st.labels[ss[q].l].marker == |a.stack| + |Own(ss, SegmentStart(ss, q))|)
  }

  // The labels from position n on have blocks of their own, still empty.
  ghost predicate Unplaced(ss: seq<Stmt>, n: nat, st: Ctx) {
    && (forall q :: n <= q < |ss| && ss[q].Label? && ss[q].l in st.labels ==>
          && st.labels[ss[q].l].block < st.next
          && st.labels[ss[q].l].block != st.cur
          && At(st.code, st.labels[ss[q].l].block) == [])
    && (forall q, r :: n <= q < r < |ss| && ss[q].Label? && ss[r].Label? && ss[q].l in st.labels && ss[r].l in st.labels ==>
          st.labels[ss[q].l].block != st.labels[ss[r].l].block)
  }

  // Labels of compound items have not been seen before the item.
  ghost predicate Unseen(ss: seq<Stmt>, n: nat, st: Ctx) {
    forall i :: n <= i < |ss| && !ss[i].Label? ==> st.labels.Keys !! LabelsOf(ss[i])
  }

  // Reachable, or revivable by a label of the current segment.
  ghost predicate Reachable(ss: seq<Stmt>, n: nat, a: Ctx, d: Done)
    requires n <= |ss|
  {
    && Collected(ss, SegmentStart(ss, n), a, d.st)
    && (!d.term ==> d.st.stack == a.stack + Own(ss, n))
    && (d.term ==> forall q :: n <= q < |ss| && ss[q].Label? && SegmentStart(ss, q) == SegmentStart(ss, n) ==>
          d.st.stack == a.stack + Own(ss, q))
  }

  // Unreachable for good: a binding in dead code stops label collection.
  ghost predicate Dead(ss: seq<Stmt>, n: nat, d: Done) {
    d.term && forall q :: n <= q < |ss| && ss[q].Label? ==> ss[q].l !in d.st.labels
  }

  ghost predicate ItemsInv(ss: seq<Stmt>, n: nat, a: Ctx, d: Done)
    requires n <= |ss|
  {
    && Frame(a, d.st, LabelsOfAll(ss))
    && Unplaced(ss, n, d.st)
    && Unseen(ss, n, d.st)
    && (Reachable(ss, n, a, d) || Dead(ss, n, d))
  }

  // What collecting labels from position i does to those of the block.
  ghost predicate CollectedFrom(ss: seq<Stmt>, i: nat, st: Ctx, st': Ctx)
    requires i <= |ss|
  {
    && (forall q :: 0 <= q < |ss| && ss[q].Label? && ss[q].l in st.labels ==>
          ss[q].l in st'.labels && st'.labels[ss[q].l] == st.labels[ss[q].l])
    && (forall q :: 0 <= q < |ss| && ss[q].Label? && ss[q].l in st'.labels ==>
          ss[q].l in st.labels || (i <= q && SegmentStart(ss, q) == SegmentStart(ss, i)))
    && (forall q :: i <= q < |ss| && ss[q].Label? && SegmentStart(ss, q) == SegmentStart(ss, i) ==>
          && ss[q].l in st'.labels
          && st'.labels[ss[q].l].marker == |st.stack|
          && st.next <= st'.labels[ss[q].l].block < st'.next)
  }

  lemma Collecting(ss: seq<Stmt>, n: nat, i: nat, a: Ctx, st: Ctx)
    requires n <= i <= |ss| && Distinct(ss) && Frame(a, st, LabelsOfAll(ss)) && CollectLabels(ss, i, st).Ok?
    requires Unplaced(ss, n, st) && Unseen(ss, n, st)
    ensures var st' := CollectLabels(ss, i, st).value;
            && Frame(a, st', LabelsOfAll(ss)) && Unplaced(ss, n, st') && Unseen(ss, n, st')
            && st'.cur == st.cur && st.next <= st'.next && CollectedFrom(ss, i, st, st')
    decreases |ss| - i
  {
    hide Ext, LabelsKept, SameTargets, Within, Unplaced, Unseen, Distinct;
    if i == |ss| || ss[i].Var? {
      forall q | i <= q < |ss| && ss[q].Label? && SegmentStart(ss, q) == SegmentStart(ss, i) ensures false {
        SegmentsInOrder(ss, i, q);
      }
    } else {
      hide CollectedFrom;
      var x := CollectOne(ss, i, st);
      CollectOneFrame(ss, n, i, a, st);
      Collecting(ss, n, i + 1, a, x);
      CollectedMore(ss, i, st, CollectLabels(ss, i, st).value);
    }
  }

  // One step of codegenCollectLabels.
  function CollectOne(ss: seq<Stmt>, i: nat, st: Ctx): Ctx
    requires i < |ss|
  {
    if ss[i].Label? then NewBlock(st).(labels := st.labels[ss[i].l := Target(st.next, |st.stack|, 0)]) else st
  }

  lemma CollectedMore(ss: seq<Stmt>, i: nat, st: Ctx, st': Ctx)
    requires i < |ss| && !ss[i].Var? && (ss[i].Label? ==> ss[i].l !in st.labels) && Distinct(ss)
    requires CollectedFrom(ss, i + 1, CollectOne(ss, i, st), st') && CollectOne(ss, i, st).next <= st'.next
    ensures CollectedFrom(ss, i, st, st')
  {
  }

  lemma CollectOneFrame(ss: seq<Stmt>, n: nat, i: nat, a: Ctx, st: Ctx)
    requires n <= i < |ss| && Distinct(ss) && Frame(a, st, LabelsOfAll(ss))
    requires Unplaced(ss, n, st) && Unseen(ss, n, st) && (ss[i].Label? ==> ss[i].l !in st.labels)
    ensures var x := CollectOne(ss, i, st);
            Frame(a, x, LabelsOfAll(ss)) && Unplaced(ss, n, x) && Unseen(ss, n, x)
  {
    hide Ext, LabelsKept, Unplaced, Unseen, Distinct;
    if ss[i].Label? {
      LabelsOfItem(ss, |ss|, i);
      assert ss[..|ss|] == ss;
      NewFrame(a, st, LabelsOfAll(ss));
      LabelFrame(a, NewBlock(st), ss[i].l, Target(st.next, |st.stack|, 0), LabelsOfAll(ss));
      CollectOneUnplaced(ss, n, i, st);
      CollectOneUnseen(ss, n, i, st);
    }
  }

  lemma LabelFrame(a: Ctx, x: Ctx, l: string, jt: Target, ls: set<string>)
    requires Frame(a, x, ls) && l !in x.labels && l in ls && a.next <= jt.block < x.next
    ensures Frame(a, x.(labels := x.labels[l := jt]), ls)
  {
  }

  lemma CollectOneUnplaced(ss: seq<Stmt>, n: nat, i: nat, st: Ctx)
    requires n <= i < |ss| && Distinct(ss) && Within(st) && ss[i].Label?
    requires Unplaced(ss, n, st) && ss[i].l !in st.labels
    ensures Unplaced(ss, n, CollectOne(ss, i, st))
  {
    var x := CollectOne(ss, i, st);
    forall q | 0 <= q < |ss| && q != i && ss[q].Label? ensures ss[q].l != ss[i].l {
      assert LabelsOf(ss[q]) !! LabelsOf(ss[i]);
    }
    hide Distinct;
    assert forall b: nat :: b != st.next ==> At(x.code, b) == At(st.code, b);
  }

  lemma CollectOneUnseen(ss: seq<Stmt>, n: nat, i: nat, st: Ctx)
    requires n <= i < |ss| && Distinct(ss) && ss[i].Label? && Unseen(ss, n, st)
    ensures Unseen(ss, n, CollectOne(ss, i, st))
  {
    forall j | n <= j < |ss| && !ss[j].Label?
      ensures CollectOne(ss, i, st).labels.Keys !! LabelsOf(ss[j])
    {
      assert LabelsOf(ss[j]) !! LabelsOf(ss[i]);
    }
  }

  lemma FrameBlock(ss: seq<Stmt>, st: Ctx, lvl: nat, cleanup: bool, inLoop: bool, scope: set<string>)
    requires Within(st) && Tame(st.stack) && WellFormedAll(ss, |ss|, cleanup, inLoop, scope)
    requires st.labels.Keys !! LabelsOfAll(ss)
    requires CollectLabels(ss, 0, st).Ok?
    requires CgItems(ss, |ss|, Done(CollectLabels(ss, 0, st).value, false), lvl).Ok?
    ensures var d := CgItems(ss, |ss|, Done(CollectLabels(ss, 0, st).value, false), lvl).value;
            Frame(st, d.st, LabelsOfAll(ss)) && (!d.term ==> Tame(d.st.stack))
    decreases lvl, 8, ss, |ss| + 1, 1
  {
    hide Ext, LabelsKept, SameTargets;
    FrameItems(ss, |ss|, st, lvl, cleanup, inLoop, scope);
    OwnTame(ss, |ss|, cleanup, inLoop, scope);
  }

  // The invariant of codegenStatement's loop over a block entered in state a.
  lemma FrameItems(ss: seq<Stmt>, n: nat, a: Ctx, lvl: nat, cleanup: bool, inLoop: bool, scope: set<string>)
    requires n <= |ss| && Within(a) && Tame(a.stack) && WellFormedAll(ss, |ss|, cleanup, inLoop, scope)
    requires a.labels.Keys !! LabelsOfAll(ss)
    requires CollectLabels(ss, 0, a).Ok?
    requires CgItems(ss, n, Done(CollectLabels(ss, 0, a).value, false), lvl).Ok?
    ensures ItemsInv(ss, n, a, CgItems(ss, n, Done(CollectLabels(ss, 0, a).value, false), lvl).value)
    decreases lvl, 8, ss, n, 1
  {
    var d0 := Done(CollectLabels(ss, 0, a).value, false);
    if n == 0 {
      StartOfBlock(ss, a, cleanup, inLoop, scope);
    } else {
      hide ItemsInv, CgItem;
      FrameItems(ss, n - 1, a, lvl, cleanup, inLoop, scope);
      FrameItem(ss, n - 1, a, CgItems(ss, n - 1, d0, lvl).value, lvl, cleanup, inLoop, scope);
    }
  }

  lemma StartOfBlock(ss: seq<Stmt>, a: Ctx, cleanup: bool, inLoop: bool, scope: set<string>)
    requires Within(a) && WellFormedAll(ss, |ss|, cleanup, inLoop, scope)
    requires a.labels.Keys !! LabelsOfAll(ss) && CollectLabels(ss, 0, a).Ok?
    ensures ItemsInv(ss, 0, a, Done(CollectLabels(ss, 0, a).value, false))
  {
    hide Ext, LabelsKept, SameTargets, Within;
    WellFormedDistinct(ss, cleanup, inLoop, scope);
    Self(a, LabelsOfAll(ss));
    NoneSeen(ss, a, cleanup, inLoop, scope);
    hide Distinct, Unplaced, Unseen;
    Collecting(ss, 0, 0, a, a);
    hide CollectedFrom;
    LiveAtStart(ss, a, CollectLabels(ss, 0, a).value);
  }

  lemma NoneSeen(ss: seq<Stmt>, a: Ctx, cleanup: bool, inLoop: bool, scope: set<string>)
    requires WellFormedAll(ss, |ss|, cleanup, inLoop, scope) && a.labels.Keys !! LabelsOfAll(ss)
    ensures forall i :: 0 <= i < |ss| ==> a.labels.Keys !! LabelsOf(ss[i])
    ensures Unseen(ss, 0, a) && Unplaced(ss, 0, a)
    ensures forall q :: 0 <= q < |ss| && ss[q].Label? ==> ss[q].l !in a.labels
  {
    forall i | 0 <= i < |ss| ensures a.labels.Keys !! LabelsOf(ss[i]) {
      WellFormedItem(ss, |ss|, i, cleanup, inLoop, scope);
    }
    assert forall q :: 0 <= q < |ss| && ss[q].Label? ==> ss[q].l in LabelsOf(ss[q]);
  }

  lemma LiveAtStart(ss: seq<Stmt>, a: Ctx, st: Ctx)
    requires CollectedFrom(ss, 0, a, st) && st.stack == a.stack
    requires forall q :: 0 <= q < |ss| && ss[q].Label? ==> ss[q].l !in a.labels
    ensures Reachable(ss, 0, a, Done(st, false))
  {
    forall q | 0 <= q < |ss| && ss[q].Label? && SegmentStart(ss, q) <= 0
      ensures SegmentStart(ss, q) == SegmentStart(ss, 0)
    {
    }
  }

  lemma FrameItem(ss: seq<Stmt>, i: nat, a: Ctx, d: Done, lvl: nat, cleanup: bool, inLoop: bool, scope: set<string>)
    requires i < |ss| && Within(a) && Tame(a.stack) && WellFormedAll(ss, |ss|, cleanup, inLoop, scope)
    requires a.labels.Keys !! LabelsOfAll(ss)
    requires ItemsInv(ss, i, a, d) && CgItem(ss, i, d, lvl).Ok?
    ensures ItemsInv(ss, i + 1, a, CgItem(ss, i, d, lvl).value)
    decreases lvl, 8, ss, i, 2
  {
    hide Ext, LabelsKept, SameTargets, Tame, Unplaced, Unseen, Reachable, Dead, Within;
    WellFormedDistinct(ss, cleanup, inLoop, scope);
    WellFormedItem(ss, |ss|, i, cleanup, inLoop, scope);
    if ss[i].Label? {
      LabelItem(ss, i, a, d);
    } else if d.term {
      SkipItem(ss, i, a, d);
    } else {
      LiveItem(ss, i, a, d);
      OwnTame(ss, i, cleanup, inLoop, scope);
      TameConcat(a.stack, Own(ss, i));
      assert d.st.stack == a.stack + Own(ss, i) by { LiveStack(ss, i, a, d); }
      if ss[i].Var? {
        FrameVar(ss[i].inits, d.st, lvl);
        VarItem(ss, i, a, d, CgVar(ss[i].inits, d.st, lvl).value);
      } else {
        assert d.st.labels.Keys !! LabelsOf(ss[i]) by { UnseenItem(ss, i, d.st); }
        FrameStmt(ss[i], d.st, lvl, cleanup, inLoop, scope + Visible(ss, i));
        PlainItem(ss, i, a, d, CgStmt(ss[i], d.st, lvl).value, cleanup, inLoop, scope);
      }
    }
  }

  lemma TameConcat(es: seq<Entry>, es': seq<Entry>)
    requires Tame(es) && Tame(es')
    ensures Tame(es + es')
  {
  }

  lemma UnseenItem(ss: seq<Stmt>, i: nat, st: Ctx)
    requires i < |ss| && Unseen(ss, i, st) && !ss[i].Label?
    ensures st.labels.Keys !! LabelsOf(ss[i])
  {
  }

  lemma LiveStack(ss: seq<Stmt>, i: nat, a: Ctx, d: Done)
    requires i <= |ss| && Reachable(ss, i, a, d) && !d.term
    ensures d.st.stack == a.stack + Own(ss, i)
  {
  }

  lemma LiveItem(ss: seq<Stmt>, i: nat, a: Ctx, d: Done)
    requires i <= |ss| && ItemsInv(ss, i, a, d) && !d.term
    ensures Reachable(ss, i, a, d)
  {
  }

  lemma LabelItem(ss: seq<Stmt>, i: nat, a: Ctx, d: Done)
    requires i < |ss| && ss[i].Label? && ItemsInv(ss, i, a, d) && a.labels.Keys !! LabelsOfAll(ss)
    requires ss[i].l in d.st.labels && LabelsOf(ss[i]) <= LabelsOfAll(ss)
    ensures var b := d.st.labels[ss[i].l].block;
            ItemsInv(ss, i + 1, a, Done((if d.term then d.st else Emit(d.st, IBr(b))).(cur := b), false))
  {
    var b := d.st.labels[ss[i].l].block;
    var e := (if d.term then d.st else Emit(d.st, IBr(b))).(cur := b);
    assert a.next <= b < d.st.next by { NewLabel(ss, i, a, d); }
    hide Ext, LabelsKept, SameTargets, Within, Own, Collected, LabelsOfAll, SegmentStart, Emit;
    PlaceFrame(a, d, b, LabelsOfAll(ss));
    PlaceUnplaced(ss, i, d);
    hide Unplaced;
    PlaceUnseen(ss, i, d, e);
    hide Unseen;
    PlaceLive(ss, i, a, d, e);
  }

  lemma NewLabel(ss: seq<Stmt>, i: nat, a: Ctx, d: Done)
    requires i < |ss| && ss[i].Label? && Frame(a, d.st, LabelsOfAll(ss)) && a.labels.Keys !! LabelsOfAll(ss)
    requires ss[i].l in d.st.labels && LabelsOf(ss[i]) <= LabelsOfAll(ss)
    ensures a.next <= d.st.labels[ss[i].l].block < d.st.next
  {
    hide Ext, SameTargets, Within;
    assert ss[i].l in LabelsOf(ss[i]);
  }

  lemma PlaceUnseen(ss: seq<Stmt>, i: nat, d: Done, e: Ctx)
    requires i < |ss| && Unseen(ss, i, d.st) && e.labels == d.st.labels
    ensures Unseen(ss, i + 1, e)
  {
  }

  lemma PlaceLive(ss: seq<Stmt>, i: nat, a: Ctx, d: Done, e: Ctx)
    requires i < |ss| && ss[i].Label? && (Reachable(ss, i, a, d) || Dead(ss, i, d)) && ss[i].l in d.st.labels
    requires e.labels == d.st.labels && e.next == d.st.next && e.stack == d.st.stack
    ensures Reachable(ss, i + 1, a, Done(e, false))
  {
    assert Reachable(ss, i, a, d);
    assert Own(ss, i + 1) == Own(ss, i) + [] == Own(ss, i);
    assert SegmentStart(ss, i + 1) == SegmentStart(ss, i);
    hide Own, SegmentStart;
  }

  lemma PlaceFrame(a: Ctx, d: Done, b: nat, ls: set<string>)
    requires Frame(a, d.st, ls) && a.next <= b < d.st.next
    ensures Frame(a, (if d.term then d.st else Emit(d.st, IBr(b))).(cur := b), ls)
  {
    hide Ext, LabelsKept, Within;
    EmitFrame(a, d.st, IBr(b), ls);
    CurFrame(a, if d.term then d.st else Emit(d.st, IBr(b)), b, ls);
  }

  lemma PlaceUnplaced(ss: seq<Stmt>, i: nat, d: Done)
    requires i < |ss| && ss[i].Label? && ss[i].l in d.st.labels && Unplaced(ss, i, d.st)
    ensures var b := d.st.labels[ss[i].l].block;
            Unplaced(ss, i + 1, (if d.term then d.st else Emit(d.st, IBr(b))).(cur := b))
  {
    var b := d.st.labels[ss[i].l].block;
    assert forall c: nat :: c != d.st.cur ==> At(Emit(d.st, IBr(b)).code, c) == At(d.st.code, c);
  }

  lemma SkipItem(ss: seq<Stmt>, i: nat, a: Ctx, d: Done)
    requires i < |ss| && !ss[i].Label? && ItemsInv(ss, i, a, d) && d.term
    ensures ItemsInv(ss, i + 1, a, d)
  {
    if ss[i].Var? && Reachable(ss, i, a, d) {
      forall q | i + 1 <= q < |ss| && ss[q].Label? ensures ss[q].l !in d.st.labels {
        SegmentsInOrder(ss, i, q);
      }
    }
  }

  // Emitting code that collects labels ls disturbs no label of the block.
  lemma KeepUnplaced(ss: seq<Stmt>, n: nat, x: Ctx, y: Ctx, ls: set<string>)
    requires CodeFrame(x, y, ls) && Unplaced(ss, n, x)
    requires forall q :: 0 <= q < |ss| && ss[q].Label? ==> ss[q].l !in ls
    ensures Unplaced(ss, n, y)
  {
    hide SameTargets;
  }

  lemma KeepUnseen(ss: seq<Stmt>, n: nat, x: Ctx, y: Ctx, ls: set<string>)
    requires CodeFrame(x, y, ls) && Unseen(ss, n, x)
    requires forall j :: n <= j < |ss| && !ss[j].Label? ==> ls !! LabelsOf(ss[j])
    ensures Unseen(ss, n, y)
  {
    hide Ext;
    FewLabels(x, y, ls);
  }

  lemma KeepCollected(ss: seq<Stmt>, c: nat, a: Ctx, x: Ctx, y: Ctx, ls: set<string>)
    requires CodeFrame(x, y, ls) && Collected(ss, c, a, x)
    requires forall q :: 0 <= q < |ss| && ss[q].Label? ==> ss[q].l !in ls
    ensures Collected(ss, c, a, y)
  {
    hide Ext;
  }

  lemma VarItem(ss: seq<Stmt>, i: nat, a: Ctx, d: Done, st1: Ctx)
    requires i < |ss| && ss[i].Var? && ItemsInv(ss, i, a, d) && Reachable(ss, i, a, d) && !d.term && Distinct(ss)
    requires Frame(d.st, st1, {}) && st1.stack == d.st.stack + Pushes(ss[i])
    requires CollectLabels(ss, i + 1, st1).Ok?
    ensures ItemsInv(ss, i + 1, a, Done(CollectLabels(ss, i + 1, st1).value, false))
  {
    hide Ext, LabelsKept, SameTargets, Within, Unplaced, Unseen, Distinct, Collected, CollectedFrom, Own, Pushes, CollectLabels, LabelsOfAll, Reachable, Dead, SegmentStart;
    var st2 := CollectLabels(ss, i + 1, st1).value;
    Then(a, d.st, st1, LabelsOfAll(ss), {});
    Weaken(ss, i, d.st);
    KeepUnplaced(ss, i + 1, d.st, st1, {});
    KeepUnseen(ss, i + 1, d.st, st1, {});
    LiveCollected(ss, i, a, d);
    KeepCollected(ss, SegmentStart(ss, i), a, d.st, st1, {});
    Collecting(ss, i + 1, i + 1, a, st1);
    LiveStack(ss, i, a, d);
    StackAfter(ss, i, a, d.st, st1);
    CollectedNext(ss, i, a, st1, st2);
    LiveNow(ss, i + 1, a, st2);
  }

  lemma LiveNow(ss: seq<Stmt>, i: nat, a: Ctx, st: Ctx)
    requires i <= |ss| && Collected(ss, SegmentStart(ss, i), a, st) && st.stack == a.stack + Own(ss, i)
    ensures Reachable(ss, i, a, Done(st, false))
  {
    hide Collected, Own, SegmentStart;
  }

  lemma Weaken(ss: seq<Stmt>, i: nat, st: Ctx)
    requires Unplaced(ss, i, st) && Unseen(ss, i, st)
    ensures Unplaced(ss, i + 1, st) && Unseen(ss, i + 1, st)
  {
  }

  lemma CollectedNext(ss: seq<Stmt>, i: nat, a: Ctx, st1: Ctx, st2: Ctx)
    requires i < |ss| && ss[i].Var? && Collected(ss, SegmentStart(ss, i), a, st1)
    requires CollectedFrom(ss, i + 1, st1, st2) && a.next <= st1.next <= st2.next
    requires |st1.stack| == |a.stack| + |Own(ss, i + 1)|
    ensures Collected(ss, SegmentStart(ss, i + 1), a, st2)
  {
    forall q | 0 <= q < |ss| && ss[q].Label?
      ensures SegmentStart(ss, q) <= SegmentStart(ss, i) || SegmentStart(ss, q) >= i + 1
      ensures SegmentStart(ss, q) == i + 1 ==> q >= i + 1
    {
      if q <= i { SegmentsInOrder(ss, q, i); } else { SegmentsInOrder(ss, i, q); }
    }
  }

  lemma PlainItem(ss: seq<Stmt>, i: nat, a: Ctx, d: Done, e: Done, cleanup: bool, inLoop: bool, scope: set<string>)
    requires i < |ss| && !ss[i].Label? && !ss[i].Var? && !d.term && Distinct(ss)
    requires WellFormedAll(ss, |ss|, cleanup, inLoop, scope)
    requires ItemsInv(ss, i, a, d) && Reachable(ss, i, a, d)
    requires Frame(d.st, e.st, LabelsOf(ss[i])) && e.st.stack == d.st.stack + Pushes(ss[i])
    requires LabelsOf(ss[i]) <= LabelsOfAll(ss)
    ensures ItemsInv(ss, i + 1, a, e)
  {
    var ls := LabelsOf(ss[i]);
    DistinctFrom(ss, i);
    hide Ext, LabelsKept, SameTargets, Within, Unplaced, Unseen, Distinct, Collected, Reachable, Dead, LabelsOf, LabelsOfAll, WellFormedAll, Own;
    Then(a, d.st, e.st, LabelsOfAll(ss), ls);
    Weaken(ss, i, d.st);
    KeepUnplaced(ss, i + 1, d.st, e.st, ls);
    KeepUnseen(ss, i + 1, d.st, e.st, ls);
    LiveCollected(ss, i, a, d);
    KeepCollected(ss, SegmentStart(ss, i), a, d.st, e.st, ls);
    LiveStack(ss, i, a, d);
    StackAfter(ss, i, a, d.st, e.st);
    StillLive(ss, i, a, e, cleanup, inLoop, scope);
  }

  lemma StackAfter(ss: seq<Stmt>, i: nat, a: Ctx, x: Ctx, y: Ctx)
    requires i < |ss| && x.stack == a.stack + Own(ss, i) && y.stack == x.stack + Pushes(ss[i])
    ensures y.stack == a.stack + Own(ss, i + 1)
  {
  }

  lemma LiveCollected(ss: seq<Stmt>, i: nat, a: Ctx, d: Done)
    requires i <= |ss| && Reachable(ss, i, a, d)
    ensures Collected(ss, SegmentStart(ss, i), a, d.st)
  {
  }

  lemma DistinctFrom(ss: seq<Stmt>, i: nat)
    requires i < |ss| && Distinct(ss) && !ss[i].Label?
    ensures forall j :: 0 <= j < |ss| && j != i ==> LabelsOf(ss[i]) !! LabelsOf(ss[j])
    ensures forall q :: 0 <= q < |ss| && ss[q].Label? ==> ss[q].l !in LabelsOf(ss[i])
  {
    forall q | 0 <= q < |ss| && ss[q].Label? ensures ss[q].l !in LabelsOf(ss[i]) {
      assert ss[q].l in LabelsOf(ss[q]);
    }
  }

  lemma StillLive(ss: seq<Stmt>, i: nat, a: Ctx, e: Done, cleanup: bool, inLoop: bool, scope: set<string>)
    requires i < |ss| && WellFormedAll(ss, |ss|, cleanup, inLoop, scope)
    requires Collected(ss, SegmentStart(ss, i + 1), a, e.st) && e.st.stack == a.stack + Own(ss, i + 1)
    ensures Reachable(ss, i + 1, a, e)
  {
    hide Collected, Own, Bare;
    forall q | i + 1 <= q < |ss| && ss[q].Label? && SegmentStart(ss, q) == SegmentStart(ss, i + 1)
      ensures Own(ss, q) == Own(ss, i + 1)
    {
      WellFormedItem(ss, |ss|, q, cleanup, inLoop, scope);
      SegmentsInOrder(ss, i + 1, q);
      OwnSame(ss, i + 1, q);
    }
  }
}
