// The shape of the emitted graph: every block ends in exactly one terminator,
// every branch leads to a block, and so no run strays.
module Blocks {
  import opened Wrappers
  import opened Syntax
  import opened Semantics
  import opened Cfg
  import opened CodegenSpec
  import opened Framing
  import opened Simulation
  import opened Correctness
  import opened Endings

  predicate Terminator(i: Instr) {
    i.IBr? || i.ICondBr? || i.IExcBr? || i.IUnreachable? || i.IRet?
  }

  // Branch targets are among the first n blocks.
  predicate Aims(i: Instr, n: nat) {
    match i
    case IBr(b) => b < n
    case ICondBr(_, yes, no) => yes < n && no < n
    case IExcBr(normal, landing) => normal < n && landing < n
    case _ => true
  }

  predicate OpenBlock(code: seq<Instr>) {
    forall k :: 0 <= k < |code| ==> !Terminator(code[k])
  }

  predicate Ended(code: seq<Instr>) {
    code != [] && Terminator(code[|code| - 1]) && OpenBlock(code[..|code| - 1])
  }

  ghost predicate WellShaped(g: Code, n: nat) {
    && (forall b: nat :: b in g <==> b < n)
    && forall b: nat :: b < n ==> Ended(At(g, b)) && forall k :: 0 <= k < |At(g, b)| ==> Aims(At(g, b)[k], n)
  }

  // Cleanup bodies, and theirs, let control out at their end.
  predicate FallOut(s: Stmt) {
    match s
    case Block(body) => FallOutAll(body)
    case If(_, _, _, thn, els) => FallOut(thn) && FallOut(els)
    case While(_, _, loop) => FallOut(loop)
    case Try(tried, handler) => FallOut(tried) && FallOut(handler)
    case Finally(b) => FallOutAll(b) && !Ends(Block(b))
    case OnError(b) => FallOutAll(b) && !Ends(Block(b))
    case _ => true
  }

  predicate FallOutAll(ss: seq<Stmt>) {
    forall i :: 0 <= i < |ss| ==> FallOut(ss[i])
  }

  predicate SoundEntry(e: Entry) {
    match e
    case Value(_) => true
    case Final(b) => WellFormedAll(b, |b|, true, false, {}) && FallOutAll(b) && !Ends(Block(b))
    case Error(b) => WellFormedAll(b, |b|, true, false, {}) && FallOutAll(b) && !Ends(Block(b))
  }

  predicate SoundStack(es: seq<Entry>) {
    forall i :: 0 <= i < |es| ==> SoundEntry(es[i])
  }

  // Jump targets are blocks.
  predicate Aimed(ts: seq<Target>, n: nat) {
    forall i :: 0 <= i < |ts| ==> ts[i].block < n
  }

  ghost predicate Targeted(st: Ctx) {
    && Aimed(st.breaks, st.next) && Aimed(st.continues, st.next) && Aimed(st.rets, st.next) && Aimed(st.excs, st.next)
    && forall l :: l in st.labels ==> st.labels[l].block < st.next
  }

  // The blocks reserved for later are empty; all others but the insertion
  // point are ended.
  ghost predicate Shaped(st: Ctx, reserved: set<nat>, term: bool) {
    && st.cur < st.next && st.cur !in reserved
    && (forall b: nat :: b in st.code <==> b < st.next)
    && (forall b: nat :: b < st.next && b != st.cur && b !in reserved ==> Ended(At(st.code, b)))
    && (forall b: nat :: b in reserved ==> b < st.next && At(st.code, b) == [])
    && (if term then Ended(At(st.code, st.cur)) else OpenBlock(At(st.code, st.cur)))
    && (forall b: nat, k: nat :: b < st.next && k < |At(st.code, b)| ==> Aims(At(st.code, b)[k], st.next))
  }

  ghost predicate Sound(st: Ctx, reserved: set<nat>, term: bool) {
    Shaped(st, reserved, term) && Targeted(st) && SoundStack(st.stack)
  }

  // ----- single steps -------------------------------------------------------

  lemma SoundWithin(st: Ctx, reserved: set<nat>, term: bool)
    requires Sound(st, reserved, term)
    ensures Within(st) && Tame(st.stack)
  {
  }

  lemma SoundEmit(st: Ctx, reserved: set<nat>, i: Instr)
    requires Sound(st, reserved, false) && Aims(i, st.next)
    ensures Sound(Emit(st, i), reserved, Terminator(i))
  {
    var x := Emit(st, i);
    var was := At(st.code, st.cur);
    assert forall b: nat :: At(x.code, b) == if b == st.cur then was + [i] else At(st.code, b);
    assert (was + [i])[..|was + [i]| - 1] == was;
    assert forall k: nat :: k < |was| ==> (was + [i])[k] == was[k];
    hide SoundEntry;
    forall b: nat, k: nat | b < x.next && k < |At(x.code, b)| ensures Aims(At(x.code, b)[k], x.next) {
      if b == st.cur && k == |was| {} else { assert At(x.code, b)[k] == At(st.code, b)[k]; }
    }
  }

  lemma AimsMore(i: Instr, n: nat, m: nat)
    requires Aims(i, n) && n <= m
    ensures Aims(i, m)
  {
  }

  lemma SoundNew(st: Ctx, reserved: set<nat>, term: bool)
    requires Sound(st, reserved, term)
    ensures Sound(NewBlock(st), reserved + {st.next}, term)
  {
    var x := NewBlock(st);
    assert forall b: nat :: At(x.code, b) == if b == st.next then [] else At(st.code, b);
    hide SoundEntry;
    forall b: nat, k: nat | b < x.next && k < |At(x.code, b)| ensures Aims(At(x.code, b)[k], x.next) {
      AimsMore(At(x.code, b)[k], st.next, x.next);
    }
  }

  lemma SoundMove(st: Ctx, reserved: set<nat>, b: nat)
    requires Sound(st, reserved, true) && b in reserved
    ensures Sound(st.(cur := b), reserved - {b}, false)
  {
  }

  lemma SoundStackChange(st: Ctx, reserved: set<nat>, term: bool, es: seq<Entry>)
    requires Sound(st, reserved, term) && SoundStack(es)
    ensures Sound(st.(stack := es), reserved, term)
  {
  }

  lemma SoundTargets(st: Ctx, reserved: set<nat>, term: bool, x: Ctx)
    requires Sound(st, reserved, term) && Targeted(x)
    requires x == st.(breaks := x.breaks, continues := x.continues, excs := x.excs, check := x.check)
    ensures Sound(x, reserved, term)
  {
  }

  lemma SoundValues(es: seq<Entry>, vs: seq<Slot>)
    requires SoundStack(es)
    ensures SoundStack(es + Values(vs))
  {
  }

  // The n numbers from lo on.
  function Span(lo: nat, n: nat): set<nat> {
    if n == 0 then {} else Span(lo, n - 1) + {lo + n - 1}
  }

  lemma SpanIs(lo: nat)
    ensures Span(lo, 0) == {} && Span(lo, 1) == {lo} && Span(lo, 2) == {lo, lo + 1}
    ensures Span(lo, 3) == {lo, lo + 1, lo + 2} && Span(lo, 4) == {lo, lo + 1, lo + 2, lo + 3}
  {
    assert Span(lo, 1) == Span(lo, 0) + {lo};
    assert Span(lo, 2) == Span(lo, 1) + {lo + 1};
    assert Span(lo, 3) == Span(lo, 2) + {lo + 2};
  }

  // Ending a block with a branch to one of n new ones, and moving to the first.
  lemma SoundFork(st: Ctx, reserved: set<nat>, n: nat, br: Instr)
    requires Sound(st, reserved, false) && 1 <= n <= 4 && Terminator(br) && Aims(br, st.next + n)
    ensures Fork(st, n, br).next == st.next + n
    ensures Sound(Fork(st, n, br), reserved + Span(st.next + 1, n - 1), false)
  {
    hide Sound, Aims;
    var all := Span(st.next, n);
    SoundNewBlocks(st, reserved, n);
    SoundEmit(NewBlocks(st, n), reserved + all, br);
    SpanIs(st.next);
    SpanIs(st.next + 1);
    assert st.next in all;
    SoundMove(Emit(NewBlocks(st, n), br), reserved + all, st.next);
    NewIsFree(st, reserved, false);
    assert reserved + all - {st.next} == reserved + Span(st.next + 1, n - 1);
  }

  lemma SoundNewBlocks(st: Ctx, reserved: set<nat>, n: nat)
    requires Sound(st, reserved, false)
    ensures NewBlocks(st, n).next == st.next + n
    ensures Sound(NewBlocks(st, n), reserved + Span(st.next, n), false)
  {
    hide Sound;
    if n > 0 {
      SoundNewBlocks(st, reserved, n - 1);
      SoundNew(NewBlocks(st, n - 1), reserved + Span(st.next, n - 1), false);
      assert reserved + Span(st.next, n - 1) + {st.next + n - 1} == reserved + Span(st.next, n);
    } else {
      assert reserved + Span(st.next, n) == reserved;
    }
  }

  // ----- cleanup ------------------------------------------------------------

  lemma ShapeEntry(e: Entry, exn: bool, st: Ctx, lvl: nat, reserved: set<nat>)
    requires SoundEntry(e) && Sound(st, reserved, false) && DestroyEntry(e, exn, st, lvl).Ok?
    ensures Sound(DestroyEntry(e, exn, st, lvl).value, reserved, false)
    decreases lvl, 0, 1
  {
    hide Sound;
    match e
    case Value(v) => if !v.prim { SoundEmit(st, reserved, IDestroy(v)); }
    case Final(b) => ShapeCleanup(b, st, lvl, reserved);
    case Error(b) => if exn { ShapeCleanup(b, st, lvl, reserved); }
  }

  lemma ShapeCleanup(b: seq<Stmt>, st: Ctx, lvl: nat, reserved: set<nat>)
    requires WellFormedAll(b, |b|, true, false, {}) && FallOutAll(b)
    requires Sound(st, reserved, false) && RunCleanup(b, st, lvl).Ok?
    ensures Sound(RunCleanup(b, st, lvl).value, reserved, Ends(Block(b)))
    decreases lvl, 0, 0
  {
    hide Sound, Ends;
    SoundWithin(st, reserved, false);
    var x := st.(check := false);
    UncheckedSound(st, reserved, false, false);
    CleanupHasNoLabels(b, |b|, false, {});
    assert b[..|b|] == b;
    ShapeStmt(Block(b), x, lvl - 1, true, false, {}, reserved);
    EndsStmt(Block(b), x, lvl - 1, true, false, {});
    UncheckedSound(CgStmt(Block(b), x, lvl - 1).value.st, reserved, Ends(Block(b)), st.check);
  }

  lemma UncheckedSound(st: Ctx, reserved: set<nat>, term: bool, check: bool)
    requires Sound(st, reserved, term)
    ensures Sound(st.(check := check), reserved, term)
  {
    SoundTargets(st, reserved, term, st.(check := check));
  }

  lemma ShapeDestroy(es: seq<Entry>, exn: bool, st: Ctx, lvl: nat, reserved: set<nat>)
    requires SoundStack(es) && Sound(st, reserved, false) && Destroy(es, exn, st, lvl).Ok?
    ensures Sound(Destroy(es, exn, st, lvl).value, reserved, false)
    decreases lvl, 1, |es|
  {
    hide Sound, SoundEntry;
    if es != [] {
      ShapeEntry(es[|es| - 1], exn, st, lvl, reserved);
      ShapeDestroy(es[..|es| - 1], exn, DestroyEntry(es[|es| - 1], exn, st, lvl).value, lvl, reserved);
    }
  }

  lemma ShapeDestroyPop(marker: nat, exn: bool, st: Ctx, lvl: nat, reserved: set<nat>)
    requires Sound(st, reserved, false) && marker <= |st.stack| && DestroyPop(marker, exn, st, lvl).Ok?
    ensures Sound(DestroyPop(marker, exn, st, lvl).value, reserved, false)
    decreases lvl, 1, |st.stack|
  {
    hide Shaped, Targeted, SoundEntry;
    if |st.stack| != marker {
      var n := |st.stack| - 1;
      SoundStackChange(st, reserved, false, st.stack[..n]);
      ShapeEntry(st.stack[n], exn, PopTo(st, n), lvl, reserved);
      ShapeDestroyPop(marker, exn, DestroyEntry(st.stack[n], exn, PopTo(st, n), lvl).value, lvl, reserved);
    }
  }

  lemma ShapeJump(jt: Target, exn: bool, st: Ctx, lvl: nat, reserved: set<nat>)
    requires Sound(st, reserved, false) && jt.block < st.next && Jump(jt, exn, st, lvl).Ok?
    ensures Sound(Jump(jt, exn, st, lvl).value, reserved, true)
    decreases lvl, 2
  {
    hide Shaped, Targeted, SoundEntry;
    var st1 := Destroy(st.stack[jt.marker..], exn, st, lvl).value;
    ShapeDestroy(st.stack[jt.marker..], exn, st, lvl, reserved);
    SoundWithin(st, reserved, false);
    FrameDestroy(st.stack[jt.marker..], exn, st, lvl);
    SoundEmit(st1, reserved, IBr(jt.block));
  }

  // ----- expressions --------------------------------------------------------

  lemma ShapeCall(f: Fn, args: seq<Slot>, out: Slot, st: Ctx, lvl: nat, reserved: set<nat>)
    requires Sound(st, reserved, false) && CgCall(f, args, out, st, lvl).Ok?
    ensures Sound(CgCall(f, args, out, st, lvl).value, reserved, false)
    decreases lvl, 3
  {
    hide Sound, Jump, NewBlocks, Span;
    if !st.check {
      SoundEmit(st, reserved, ICallUnchecked(f, args, out));
    } else {
      var a := Emit(st, ICall(f, args, out));
      var landing, normal := st.next, st.next + 1;
      SoundEmit(st, reserved, ICall(f, args, out));
      ForkIs(a, 2, IExcBr(normal, landing));
      ShapeTested(a, reserved, IExcBr(normal, landing));
      var at := Fork(a, 2, IExcBr(normal, landing));
      var jt := st.excs[|st.excs| - 1];
      assert jt.block < at.next by { ExcAimed(at, reserved + {normal}, false); }
      ShapeJump(jt, true, at, lvl, reserved + {normal});
      SoundMove(Jump(jt, true, at, lvl).value, reserved + {normal}, normal);
      assert normal !in reserved by { NewIsFree(st, reserved, false); }
      assert reserved + {normal} - {normal} == reserved;
    }
  }

  lemma ShapeTested(st: Ctx, reserved: set<nat>, br: Instr)
    requires Sound(st, reserved, false) && br == IExcBr(st.next + 1, st.next)
    ensures Sound(Fork(st, 2, br), reserved + {st.next + 1}, false) && Fork(st, 2, br).next == st.next + 2
  {
    hide Sound, Fork;
    SoundFork(st, reserved, 2, br);
    SpanIs(st.next + 1);
  }

  lemma ExcAimed(st: Ctx, reserved: set<nat>, term: bool)
    requires Sound(st, reserved, term)
    ensures st.excs != [] ==> st.excs[|st.excs| - 1].block < st.next
    ensures st.rets != [] ==> st.rets[|st.rets| - 1].block < st.next
    ensures st.breaks != [] ==> st.breaks[|st.breaks| - 1].block < st.next
    ensures st.continues != [] ==> st.continues[|st.continues| - 1].block < st.next
    ensures forall l :: l in st.labels ==> st.labels[l].block < st.next
  {
  }

  lemma NewIsFree(st: Ctx, reserved: set<nat>, term: bool)
    requires Sound(st, reserved, term)
    ensures forall b :: b in reserved ==> b < st.next
  {
  }

  lemma ShapeInto(e: Expr, out: Slot, st: Ctx, lvl: nat, reserved: set<nat>)
    requires Sound(st, reserved, false) && CgInto(e, out, st, lvl).Ok?
    ensures Sound(CgInto(e, out, st, lvl).value, reserved, false)
    decreases lvl, 4, e, 1
  {
    hide Sound;
    match e
    case Lit(b, _) => SoundEmit(st, reserved, IStore(out, b));
    case Call(f, args, _, _) =>
      ShapeArgs(args, |args|, st, lvl, reserved);
      ShapeCall(f, Homes(args), out, CgArgs(args, |args|, st, lvl).value, lvl, reserved);
    case And(_, _, _) => ShapeAndOr(e, out, st, lvl, reserved);
    case Or(_, _, _) => ShapeAndOr(e, out, st, lvl, reserved);
  }

  lemma ShapeAndOr(e: Expr, out: Slot, st: Ctx, lvl: nat, reserved: set<nat>)
    requires (e.And? || e.Or?) && Sound(st, reserved, false) && CgAndOr(e, out, st, lvl).Ok?
    ensures Sound(CgAndOr(e, out, st, lvl).value, reserved, false)
    decreases lvl, 4, e, 0
  {
    hide *;
    AndOrIs(e, out, st, lvl);
    ShapeRef(e.l, st, lvl, reserved);
    var st1 := CgRef(e.l, st, lvl).value;
    var st2 := Fork(st1, 3, Choice(e, st1.next));
    ShapeChoice(e, st1, reserved);
    ShapeArm(e.r, out, st1.next + 2, st2, lvl, reserved + {st1.next + 1, st1.next + 2});
    NewIsFree(st1, reserved, false);
    ShapeSkip(CgArm(e.r, out, st1.next + 2, st2, lvl).value, st1.next + 1, st1.next + 2, IStore(out, e.Or?), reserved);
  }

  // Whether the second operand is evaluated, in block b, or skipped.
  function Choice(e: Expr, b: nat): Instr
    requires e.And? || e.Or?
  {
    if e.Or? then ICondBr(Home(e.l), b + 1, b) else ICondBr(Home(e.l), b, b + 1)
  }

  lemma AndOrIs(e: Expr, out: Slot, st: Ctx, lvl: nat)
    requires (e.And? || e.Or?) && CgAndOr(e, out, st, lvl).Ok?
    ensures CgRef(e.l, st, lvl).Ok?
    ensures var st1 := CgRef(e.l, st, lvl).value;
            var skip, merge := st1.next + 1, st1.next + 2;
            var arm := CgArm(e.r, out, merge, Fork(st1, 3, Choice(e, st1.next)), lvl);
            && arm.Ok?
            && CgAndOr(e, out, st, lvl).value == Emit(Emit(arm.value.(cur := skip), IStore(out, e.Or?)), IBr(merge)).(cur := merge)
  {
    hide CgRef, CgArm, NewBlocks, Fork;
    var st1 := CgRef(e.l, st, lvl).value;
    ForkIs(st1, 3, Choice(e, st1.next));
  }

  lemma ShapeChoice(e: Expr, st: Ctx, reserved: set<nat>)
    requires (e.And? || e.Or?) && Sound(st, reserved, false)
    ensures Sound(Fork(st, 3, Choice(e, st.next)), reserved + {st.next + 1, st.next + 2}, false)
  {
    hide Sound, Fork;
    SoundFork(st, reserved, 3, Choice(e, st.next));
    SpanIs(st.next + 1);
  }

  // The block that skips the second operand, and the meeting of both.
  lemma ShapeSkip(st: Ctx, skip: nat, merge: nat, i: Instr, reserved: set<nat>)
    requires Sound(st, reserved + {skip, merge}, true) && skip != merge && skip !in reserved && merge !in reserved && i.IStore?
    ensures Sound(Emit(Emit(st.(cur := skip), i), IBr(merge)).(cur := merge), reserved, false)
  {
    hide Sound;
    SoundMove(st, reserved + {skip, merge}, skip);
    assert reserved + {skip, merge} - {skip} == reserved + {merge};
    var x := Emit(st.(cur := skip), i);
    SoundEmit(st.(cur := skip), reserved + {merge}, i);
    NewIsFree(x, reserved + {merge}, false);
    SoundEmit(x, reserved + {merge}, IBr(merge));
    SoundMove(Emit(x, IBr(merge)), reserved + {merge}, merge);
    assert reserved + {merge} - {merge} == reserved;
  }

  lemma ShapeArm(e: Expr, out: Slot, merge: nat, st: Ctx, lvl: nat, reserved: set<nat>)
    requires Sound(st, reserved, false) && merge in reserved && CgArm(e, out, merge, st, lvl).Ok?
    ensures Sound(CgArm(e, out, merge, st, lvl).value, reserved, true)
    decreases lvl, 4, e, 3
  {
    hide Sound, CgRef;
    ShapeRef(e, st, lvl, reserved);
    var st1 := CgRef(e, st, lvl).value;
    SoundEmit(st1, reserved, ICopy(out, Home(e)));
    ShapeDestroyPop(|st.stack|, false, Emit(st1, ICopy(out, Home(e))), lvl, reserved);
    var st2 := DestroyPop(|st.stack|, false, Emit(st1, ICopy(out, Home(e))), lvl).value;
    NewIsFree(st2, reserved, false);
    SoundEmit(st2, reserved, IBr(merge));
  }

  lemma ShapeRef(e: Expr, st: Ctx, lvl: nat, reserved: set<nat>)
    requires Sound(st, reserved, false) && CgRef(e, st, lvl).Ok?
    ensures Sound(CgRef(e, st, lvl).value, reserved, false)
    decreases lvl, 4, e, 2
  {
    hide Shaped, Targeted;
    ShapeInto(e, Home(e), st, lvl, reserved);
    var st1 := CgInto(e, Home(e), st, lvl).value;
    SoundStackChange(st1, reserved, false, st1.stack + [Value(Home(e))]);
  }

  lemma ShapeArgs(args: seq<Expr>, n: nat, st: Ctx, lvl: nat, reserved: set<nat>)
    requires n <= |args| && Sound(st, reserved, false) && CgArgs(args, n, st, lvl).Ok?
    ensures Sound(CgArgs(args, n, st, lvl).value, reserved, false)
    decreases lvl, 4, args, n
  {
    hide Sound;
    if n > 0 {
      ShapeArgs(args, n - 1, st, lvl, reserved);
      ShapeRef(args[n - 1], CgArgs(args, n - 1, st, lvl).value, lvl, reserved);
    }
  }

  lemma ShapeWhole(e: Expr, st: Ctx, lvl: nat, reserved: set<nat>)
    requires Sound(st, reserved, false) && CgWhole(e, st, lvl).Ok?
    ensures Sound(CgWhole(e, st, lvl).value, reserved, false)
    decreases lvl, 5
  {
    hide Sound;
    ShapeRef(e, st, lvl, reserved);
    ShapeDestroyPop(|st.stack|, false, CgRef(e, st, lvl).value, lvl, reserved);
  }

  lemma ShapeInits(inits: seq<Init>, n: nat, st: Ctx, lvl: nat, reserved: set<nat>)
    requires n <= |inits| && Sound(st, reserved, false) && CgInits(inits, n, st, lvl).Ok?
    ensures Sound(CgInits(inits, n, st, lvl).value, reserved, false)
    decreases lvl, 6, n
  {
    hide Shaped, Targeted;
    if n > 0 {
      ShapeInits(inits, n - 1, st, lvl, reserved);
      var st1 := CgInits(inits, n - 1, st, lvl).value;
      var e, out := inits[n - 1].e, inits[n - 1].out;
      ShapeInto(e, out, st1, lvl, reserved);
      ShapeDestroyPop(|st1.stack|, false, CgInto(e, out, st1, lvl).value, lvl, reserved);
      var st2 := CgOneInto(e, out, st1, lvl).value;
      SoundStackChange(st2, reserved, false, st2.stack + [Value(out)]);
    }
  }

  lemma ShapeMultiInto(inits: seq<Init>, st: Ctx, lvl: nat, reserved: set<nat>)
    requires Sound(st, reserved, false) && CgMultiInto(inits, st, lvl).Ok?
    ensures Sound(CgMultiInto(inits, st, lvl).value, reserved, false)
    decreases lvl, 7, 0
  {
    hide Shaped, Targeted;
    ShapeInits(inits, |inits|, st, lvl, reserved);
    SoundStackChange(CgInits(inits, |inits|, st, lvl).value, reserved, false, st.stack);
  }

  lemma ShapeVar(inits: seq<Init>, st: Ctx, lvl: nat, reserved: set<nat>)
    requires Sound(st, reserved, false) && CgVar(inits, st, lvl).Ok?
    ensures Sound(CgVar(inits, st, lvl).value, reserved, false)
    decreases lvl, 7, 1
  {
    hide Shaped, Targeted;
    ShapeMultiInto(inits, st, lvl, reserved);
    SoundValues(st.stack, Slots(inits));
    SoundStackChange(CgMultiInto(inits, st, lvl).value, reserved, false, st.stack + Outs(inits));
  }

  lemma ShapePre(pre: seq<Stmt>, n: nat, st: Ctx, lvl: nat, reserved: set<nat>)
    requires n <= |pre| && Sound(st, reserved, false) && CgPre(pre, n, st, lvl).Ok?
    ensures Sound(CgPre(pre, n, st, lvl).value, reserved, false)
    decreases lvl, 8, pre, n
  {
    hide Sound;
    if n > 0 {
      ShapePre(pre, n - 1, st, lvl, reserved);
      var st1 := CgPre(pre, n - 1, st, lvl).value;
      if pre[n - 1].Var? {
        ShapeVar(pre[n - 1].inits, st1, lvl, reserved);
      } else {
        ShapeWhole(pre[n - 1].e, st1, lvl, reserved);
      }
    }
  }

  lemma ShapeEndScope(marker: nat, term: bool, st: Ctx, lvl: nat, reserved: set<nat>)
    requires Sound(st, reserved, term) && marker <= |st.stack| && EndScope(marker, term, st, lvl).Ok?
    ensures Sound(EndScope(marker, term, st, lvl).value.st, reserved, term)
    decreases lvl, 2
  {
    hide Shaped, Targeted;
    if !term { ShapeDestroy(st.stack[marker..], false, st, lvl, reserved); }
    var st1 := if term then st else Destroy(st.stack[marker..], false, st, lvl).value;
    SoundStackChange(st1, reserved, term, st1.stack[..marker]);
  }

  // ----- statements ---------------------------------------------------------

  lemma ShapeStmt(s: Stmt, st: Ctx, lvl: nat, cleanup: bool, inLoop: bool, scope: set<string>, reserved: set<nat>)
    requires Sound(st, reserved, false) && WellFormed(s, cleanup, inLoop, scope) && FallOut(s)
    requires st.labels.Keys !! LabelsOf(s) && CgStmt(s, st, lvl).Ok?
    ensures Sound(CgStmt(s, st, lvl).value.st, reserved, CgStmt(s, st, lvl).value.term)
    decreases lvl, 8, s, 2
  {
    hide Shaped, Targeted, SoundEntry, SoundStack, Jump, CgWhole, CgMultiInto, CgItems, CgArgs, CgCall, DestroyPop;
    ExcAimed(st, reserved, false);
    match s
    case Block(body) => ShapeBlock(body, st, lvl, cleanup, inLoop, scope, reserved);
    case Label(_) => assert false;
    case Var(_) => assert false;
    case Goto(l) => ShapeJump(st.labels[l], false, st, lvl, reserved);
    case Eval(e) => ShapeWhole(e, st, lvl, reserved);
    case Return(inits) =>
      ShapeMultiInto(inits, st, lvl, reserved);
      var st1 := CgMultiInto(inits, st, lvl).value;
      ExcAimed(st1, reserved, false);
      ShapeJump(st1.rets[|st1.rets| - 1], false, st1, lvl, reserved);
    case Throw(args) => ShapeThrow(args, st, lvl, reserved);
    case If(_, _, _, _, _) => ShapeIf(s, st, lvl, cleanup, inLoop, scope, reserved);
    case While(_, _, _) => ShapeWhile(s, st, lvl, cleanup, inLoop, scope, reserved);
    case Break => ShapeBreak(st, lvl, reserved);
    case Continue => ShapeJump(st.continues[|st.continues| - 1], false, st, lvl, reserved);
    case Try(_, _) => ShapeTry(s, st, lvl, cleanup, inLoop, scope, reserved);
    case Finally(b) => ShapePushed(st, Final(b), reserved) by { FinallySound(s, cleanup, inLoop, scope); }
    case OnError(b) => ShapePushed(st, Error(b), reserved) by { FinallySound(s, cleanup, inLoop, scope); }
    case Unreachable => SoundEmit(st, reserved, IUnreachable);
  }

  lemma FinallySound(s: Stmt, cleanup: bool, inLoop: bool, scope: set<string>)
    requires Bare(s) && WellFormed(s, cleanup, inLoop, scope) && FallOut(s)
    ensures SoundEntry(if s.Finally? then Final(s.cleanup) else Error(s.cleanup))
  {
  }

  lemma ShapePushed(st: Ctx, e: Entry, reserved: set<nat>)
    requires Sound(st, reserved, false) && SoundEntry(e)
    ensures Sound(Push(st, e), reserved, false)
  {
    hide Shaped, Targeted, SoundEntry;
    SoundStackChange(st, reserved, false, st.stack + [e]);
  }

  lemma ShapeThrow(args: seq<Expr>, st: Ctx, lvl: nat, reserved: set<nat>)
    requires Sound(st, reserved, false) && CgStmt(Throw(args), st, lvl).Ok?
    ensures Sound(CgStmt(Throw(args), st, lvl).value.st, reserved, true)
    decreases lvl, 8, Throw(args), 1
  {
    hide Sound, CgCall, TempsArgs;
    var thrown := Slot(Temp, 0, true);
    ShapeArgs(args, |args|, st, lvl, reserved);
    var st1 := CgArgs(args, |args|, st, lvl).value;
    ShapeCall(ThrowValue, Homes(args), thrown, st1, lvl, reserved);
    var st2 := CgCall(ThrowValue, Homes(args), thrown, st1, lvl).value;
    ShapeDestroyPop(|st.stack|, false, st2, lvl, reserved);
    SoundEmit(DestroyPop(|st.stack|, false, st2, lvl).value, reserved, IUnreachable);
  }

  lemma ShapeBreak(st: Ctx, lvl: nat, reserved: set<nat>)
    requires Sound(st, reserved, false) && CgStmt(Break, st, lvl).Ok?
    ensures Sound(CgStmt(Break, st, lvl).value.st, reserved, true)
    decreases lvl, 8, Break, 1
  {
    hide Shaped, SoundEntry;
    var jt := st.breaks[|st.breaks| - 1];
    ShapeJump(jt, false, st, lvl, reserved);
    var st1 := Jump(jt, false, st, lvl).value;
    SoundTargets(st1, reserved, true, st1.(breaks := Use(st1.breaks)));
  }

  lemma ShapeBranch(d: Done, reserved: set<nat>)
    requires Sound(d.st, reserved, d.term)
    ensures Sound(BranchToEnd(d, None), reserved + (if d.term then {} else {d.st.next}), true)
    ensures d.st.next !in reserved
  {
    hide Sound;
    NewIsFree(d.st, reserved, d.term);
    if d.term {
      assert reserved + {} == reserved;
    } else {
      SoundNew(d.st, reserved, false);
      SoundEmit(NewBlock(d.st), reserved + {d.st.next}, IBr(d.st.next));
    }
  }

  // m is the merge block the first part has branched to.
  lemma ShapeMerge(d1: Done, d2: Done, reserved: set<nat>)
    requires Sound(d2.st, reserved + (if d1.term then {} else {d1.st.next}), d2.term)
    requires d1.st.next !in reserved
    ensures Sound(Merge(d1, d2).st, reserved, Merge(d1, d2).term)
  {
    hide Sound;
    if d1.term {
      assert reserved + {} == reserved;
      ShapeBranch(d2, reserved);
      if !d2.term {
        SoundMove(BranchToEnd(d2, None), reserved + {d2.st.next}, d2.st.next);
        assert reserved + {d2.st.next} - {d2.st.next} == reserved;
      } else {
        assert BranchToEnd(d2, None) == d2.st;
      }
    } else {
      var m := d1.st.next;
      NewIsFree(d2.st, reserved + {m}, d2.term);
      if !d2.term { SoundEmit(d2.st, reserved + {m}, IBr(m)); }
      SoundMove(BranchToEnd(d2, Some(m)), reserved + {m}, m);
      assert reserved + {m} - {m} == reserved;
    }
  }

  lemma SameLabels(x: Ctx, y: Ctx)
    requires CodeFrame(x, y, {})
    ensures y.labels.Keys == x.labels.Keys
  {
    hide Ext, Within;
  }

  lemma ShapeIf(s: Stmt, st: Ctx, lvl: nat, cleanup: bool, inLoop: bool, scope: set<string>, reserved: set<nat>)
    requires s.If? && Sound(st, reserved, false) && WellFormed(s, cleanup, inLoop, scope) && FallOut(s)
    requires st.labels.Keys !! LabelsOf(s) && CgIf(s, st, lvl).Ok?
    ensures Sound(CgIf(s, st, lvl).value.st, reserved, CgIf(s, st, lvl).value.term)
    decreases lvl, 8, s, 1
  {
    hide Sound, CgArms, CgWhole, CgPre, Ext, LabelsKept, SameTargets, Within, Tame;
    SoundWithin(st, reserved, false);
    FramePre(s.pre, |s.pre|, st, lvl);
    ShapePre(s.pre, |s.pre|, st, lvl, reserved);
    var p := CgPre(s.pre, |s.pre|, st, lvl).value;
    FrameWhole(s.cond, p, lvl);
    ShapeWhole(s.cond, p, lvl, reserved);
    var st1 := CgWhole(s.cond, p, lvl).value;
    SameLabels(st, p);
    SameLabels(p, st1);
    ShapeArms(s, st1, lvl, cleanup, inLoop, scope, reserved);
    var d := CgArms(s, st1, lvl).value;
    ShapeEndScope(|st.stack|, d.term, d.st, lvl, reserved);
  }

  lemma ShapeArms(s: Stmt, st: Ctx, lvl: nat, cleanup: bool, inLoop: bool, scope: set<string>, reserved: set<nat>)
    requires s.If? && Sound(st, reserved, false) && WellFormed(s, cleanup, inLoop, scope) && FallOut(s)
    requires st.labels.Keys !! LabelsOf(s) && CgArms(s, st, lvl).Ok?
    ensures Sound(CgArms(s, st, lvl).value.st, reserved, CgArms(s, st, lvl).value.term)
    decreases lvl, 8, s, 0
  {
    hide Sound, CgArms, CgStmt, Ext, LabelsKept, SameTargets, Within, Tame, NewBlocks, Fork, Merge, BranchToEnd;
    if s.kind.Dynamic? {
      var yes, no := st.next, st.next + 1;
      var br := ICondBr(Home(s.cond), yes, no);
      TwoArms(s, st, lvl);
      NewIsFree(st, reserved, false);
      SoundFork(st, reserved, 2, br);
      SpanIs(no);
      var st2 := Fork(st, 2, br);
      ForkLabels(st, 2, br);
      ShapeTwo(s, st2, no, lvl, cleanup, inLoop, scope, reserved);
    } else {
      var b := if s.kind.StaticTrue? then s.thn else s.els;
      OneArm(s, st, lvl);
      SoundFork(st, reserved, 1, IBr(st.next));
      SpanIs(st.next + 1);
      assert reserved + {} == reserved;
      var st2 := Fork(st, 1, IBr(st.next));
      ForkLabels(st, 1, IBr(st.next));
      ShapeStmt(b, st2, lvl, cleanup, inLoop, scope, reserved);
      var d := CgStmt(b, st2, lvl).value;
      ShapeBranch(d, reserved);
      if !d.term {
        SoundMove(BranchToEnd(d, None), reserved + {d.st.next}, d.st.next);
        assert reserved + {d.st.next} - {d.st.next} == reserved;
      }
    }
  }

  lemma ForkLabels(x: Ctx, n: nat, br: Instr)
    requires 1 <= n <= 4
    ensures Fork(x, n, br).labels == x.labels
  {
    ForkIs(x, n, br);
  }

  // Both branches, the second starting in the block set apart for it.
  lemma ShapeTwo(s: Stmt, st: Ctx, no: nat, lvl: nat, cleanup: bool, inLoop: bool, scope: set<string>, reserved: set<nat>)
    requires s.If? && Sound(st, reserved + {no}, false) && no !in reserved && WellFormed(s, cleanup, inLoop, scope) && FallOut(s)
    requires st.labels.Keys !! LabelsOf(s)
    requires CgStmt(s.thn, st, lvl).Ok?
    requires CgStmt(s.els, BranchToEnd(CgStmt(s.thn, st, lvl).value, None).(cur := no), lvl).Ok?
    ensures var d1 := CgStmt(s.thn, st, lvl).value;
            var d := Merge(d1, CgStmt(s.els, BranchToEnd(d1, None).(cur := no), lvl).value);
            Sound(d.st, reserved, d.term)
    decreases lvl, 8, s, 0, 0
  {
    hide Sound, CgStmt, Ext, LabelsKept, SameTargets, Within, Tame;
    ShapeFirst(s.thn, st, lvl, cleanup, inLoop, scope, reserved + {no});
    var d1 := CgStmt(s.thn, st, lvl).value;
    var x := BranchToEnd(d1, None);
    var m := if d1.term then {} else {d1.st.next};
    SoundMove(x, reserved + {no} + m, no);
    assert reserved + {no} + m - {no} == reserved + m;
    ShapeStmt(s.els, x.(cur := no), lvl, cleanup, inLoop, scope, reserved + m);
    ShapeMerge(d1, CgStmt(s.els, x.(cur := no), lvl).value, reserved);
  }

  // The first of two parts, up to its branch to the merge block.
  lemma ShapeFirst(s: Stmt, st: Ctx, lvl: nat, cleanup: bool, inLoop: bool, scope: set<string>, reserved: set<nat>)
    requires Sound(st, reserved, false) && WellFormed(s, cleanup, inLoop, scope) && FallOut(s)
    requires st.labels.Keys !! LabelsOf(s) && CgStmt(s, st, lvl).Ok?
    ensures var d := CgStmt(s, st, lvl).value;
            && Sound(BranchToEnd(d, None), reserved + (if d.term then {} else {d.st.next}), true)
            && d.st.next !in reserved && BranchToEnd(d, None).labels.Keys <= st.labels.Keys + LabelsOf(s)
    decreases lvl, 8, s, 3
  {
    hide Sound, CgStmt, Ext, LabelsKept, SameTargets, Within, Tame;
    ShapeStmt(s, st, lvl, cleanup, inLoop, scope, reserved);
    var d := CgStmt(s, st, lvl).value;
    ShapeBranch(d, reserved);
    SoundWithin(st, reserved, false);
    FrameStmt(s, st, lvl, cleanup, inLoop, scope);
    FewLabels(st, d.st, LabelsOf(s));
  }

  lemma ShapeTry(s: Stmt, st: Ctx, lvl: nat, cleanup: bool, inLoop: bool, scope: set<string>, reserved: set<nat>)
    requires s.Try? && Sound(st, reserved, false) && WellFormed(s, cleanup, inLoop, scope) && FallOut(s)
    requires st.labels.Keys !! LabelsOf(s) && CgStmt(s, st, lvl).Ok?
    ensures Sound(CgStmt(s, st, lvl).value.st, reserved, CgStmt(s, st, lvl).value.term)
    decreases lvl, 8, s, 1
  {
    hide Sound, Ext, LabelsKept, SameTargets, Within, Tame, Targeted;
    var begin := st.next;
    SoundNew(st, reserved, false);
    NewIsFree(st, reserved, false);
    var st0 := NewBlock(st).(excs := st.excs + [Target(begin, |st.stack|, 0)]);
    Guarded(NewBlock(st), reserved + {begin}, begin, |st.stack|);
    ShapeFirst(s.tried, st0, lvl, cleanup, inLoop, scope, reserved + {begin});
    var d1 := CgStmt(s.tried, st0, lvl).value;
    var x := BranchToEnd(d1, None);
    var m := if d1.term then {} else {d1.st.next};
    SoundMove(x, reserved + {begin} + m, begin);
    assert reserved + {begin} + m - {begin} == reserved + m;
    Unguarded(x.(cur := begin), reserved + m);
    var y := x.(excs := Pop(x.excs), cur := begin);
    ShapeStmt(s.handler, y, lvl, cleanup, inLoop, scope, reserved + m);
    ShapeMerge(d1, CgStmt(s.handler, y, lvl).value, reserved);
  }

  lemma Guarded(st: Ctx, reserved: set<nat>, begin: nat, marker: nat)
    requires Sound(st, reserved, false) && begin < st.next
    ensures Sound(st.(excs := st.excs + [Target(begin, marker, 0)]), reserved, false)
  {
    hide Shaped, SoundStack;
    SoundTargets(st, reserved, false, st.(excs := st.excs + [Target(begin, marker, 0)]));
  }

  lemma Unguarded(st: Ctx, reserved: set<nat>)
    requires Sound(st, reserved, false)
    ensures Sound(st.(excs := Pop(st.excs)), reserved, false)
  {
    hide Shaped, SoundStack;
    SoundTargets(st, reserved, false, st.(excs := Pop(st.excs)));
  }

  lemma ShapeWhile(s: Stmt, st: Ctx, lvl: nat, cleanup: bool, inLoop: bool, scope: set<string>, reserved: set<nat>)
    requires s.While? && Sound(st, reserved, false) && WellFormed(s, cleanup, inLoop, scope) && FallOut(s)
    requires st.labels.Keys !! LabelsOf(s) && CgWhile(s, st, lvl).Ok?
    ensures Sound(CgWhile(s, st, lvl).value.st, reserved, CgWhile(s, st, lvl).value.term)
    decreases lvl, 8, s, 1
  {
    hide Sound, CgTest, LoopBody, LoopEnd, Ext, LabelsKept, SameTargets, Within, Tame;
    var begin, body, cont, end := st.next, st.next + 1, st.next + 2, st.next + 3;
    ForkIs(st, 4, IBr(begin));
    SoundFork(st, reserved, 4, IBr(begin));
    ForkLabels(st, 4, IBr(begin));
    SpanIs(body);
    NewIsFree(st, reserved, false);
    var st0 := Fork(st, 4, IBr(begin));
    assert reserved + {body, cont, end} == reserved + {cont, end} + {body};
    ShapeTest(s, body, end, st0, lvl, reserved + {cont, end} + {body});
    var st1 := CgTest(s, body, end, st0, lvl).value;
    SoundMove(st1, reserved + {cont, end} + {body}, body);
    assert reserved + {cont, end} + {body} - {body} == reserved + {cont, end};
    ShapeEnter(body, cont, end, st1, reserved + {cont, end});
    var st2 := Enter(body, cont, end, st1);
    assert reserved + {cont, end} == reserved + {end} + {cont};
    ShapeLoop(s, |st.stack|, cont, st2, lvl, cleanup, scope, reserved + {end});
    var st3 := LoopBody(s, |st.stack|, cont, st2, lvl).value;
    ShapeClose(s, |st.stack|, begin, end, st3, lvl, reserved);
  }

  lemma ShapeTest(s: Stmt, body: nat, end: nat, st: Ctx, lvl: nat, reserved: set<nat>)
    requires s.While? && Sound(st, reserved, false) && body in reserved && end in reserved && CgTest(s, body, end, st, lvl).Ok?
    ensures Sound(CgTest(s, body, end, st, lvl).value, reserved, true)
    ensures CgTest(s, body, end, st, lvl).value.labels.Keys == st.labels.Keys
    decreases lvl, 8, s, 0
  {
    hide Sound, Ext, LabelsKept, SameTargets, Within, Tame;
    SoundWithin(st, reserved, false);
    FramePre(s.pre, |s.pre|, st, lvl);
    ShapePre(s.pre, |s.pre|, st, lvl, reserved);
    var p := CgPre(s.pre, |s.pre|, st, lvl).value;
    FrameWhole(s.cond, p, lvl);
    ShapeWhole(s.cond, p, lvl, reserved);
    var st1 := CgWhole(s.cond, p, lvl).value;
    SameLabels(st, p);
    SameLabels(p, st1);
    NewIsFree(st1, reserved, false);
    SoundEmit(st1, reserved, ICondBr(Home(s.cond), body, end));
  }

  lemma ShapeEnter(body: nat, cont: nat, end: nat, st: Ctx, reserved: set<nat>)
    requires Sound(st.(cur := body), reserved, false) && cont in reserved && end in reserved
    ensures Sound(Enter(body, cont, end, st), reserved, false)
  {
    hide Shaped, SoundStack;
    NewIsFree(st.(cur := body), reserved, false);
    SoundTargets(st.(cur := body), reserved, false, Enter(body, cont, end, st));
  }

  lemma ShapeLoop(s: Stmt, marker: nat, cont: nat, st: Ctx, lvl: nat, cleanup: bool, scope: set<string>, reserved: set<nat>)
    requires s.While? && Sound(st, reserved + {cont}, false) && cont !in reserved && marker <= |st.stack|
    requires WellFormed(s.loop, cleanup, true, scope) && FallOut(s.loop) && st.labels.Keys !! LabelsOf(s.loop)
    requires LoopBody(s, marker, cont, st, lvl).Ok?
    ensures Sound(LoopBody(s, marker, cont, st, lvl).value, reserved, false)
    decreases lvl, 8, s, 0
  {
    hide Shaped, Targeted, SoundEntry;
    ShapeStmt(s.loop, st, lvl, cleanup, true, scope, reserved + {cont});
    var d := CgStmt(s.loop, st, lvl).value;
    NewIsFree(d.st, reserved + {cont}, d.term);
    if !d.term { SoundEmit(d.st, reserved + {cont}, IBr(cont)); }
    var x := if d.term then d.st else Emit(d.st, IBr(cont));
    SoundMove(x, reserved + {cont}, cont);
    assert reserved + {cont} - {cont} == reserved;
    ShapeDestroy(x.stack[marker..], false, x.(cur := cont), lvl, reserved);
  }

  lemma ShapeClose(s: Stmt, marker: nat, begin: nat, end: nat, st: Ctx, lvl: nat, reserved: set<nat>)
    requires s.While? && Sound(st, reserved + {end}, false) && end !in reserved && begin < end && marker <= |st.stack|
    requires LoopEnd(s, marker, begin, end, st, lvl).Ok?
    ensures Sound(LoopEnd(s, marker, begin, end, st, lvl).value.st, reserved, LoopEnd(s, marker, begin, end, st, lvl).value.term)
    decreases lvl, 3
  {
    hide Shaped, SoundStack;
    NewIsFree(st, reserved + {end}, false);
    SoundEmit(st, reserved + {end}, IBr(begin));
    var st1 := Emit(st, IBr(begin));
    SoundMove(st1, reserved + {end}, end);
    assert reserved + {end} - {end} == reserved;
    var st2 := st1.(breaks := Pop(st1.breaks), continues := Pop(st1.continues), cur := end);
    SoundTargets(st1.(cur := end), reserved, false, st2);
    var used := st1.breaks != [] && st1.breaks[|st1.breaks| - 1].uses > 0;
    if !used && s.cond == Lit(true, s.cond.id) {
      SoundEmit(st2, reserved, IUnreachable);
      ShapeEndScope(marker, true, Emit(st2, IUnreachable), lvl, reserved);
    } else {
      ShapeEndScope(marker, false, st2, lvl, reserved);
    }
  }

  // ----- blocks -------------------------------------------------------------

  // The blocks of the labels collected that stand at n or behind.
  function Pending(ss: seq<Stmt>, n: nat, st: Ctx): set<nat> {
    set q: nat | n <= q < |ss| && ss[q].Label? && ss[q].l in st.labels :: st.labels[ss[q].l].block
  }

  lemma ShapeCollect(ss: seq<Stmt>, n: nat, i: nat, st: Ctx, reserved: set<nat>)
    requires n <= i <= |ss| && Distinct(ss) && CollectLabels(ss, i, st).Ok?
    requires Sound(st, reserved + Pending(ss, n, st), false)
    ensures var st' := CollectLabels(ss, i, st).value; Sound(st', reserved + Pending(ss, n, st'), false)
    decreases |ss| - i
  {
    hide Sound, Pending;
    if i < |ss| && !ss[i].Var? {
      if ss[i].Label? { ShapeLabel(ss, n, i, st, reserved); }
      ShapeCollect(ss, n, i + 1, CollectOne(ss, i, st), reserved);
    }
  }

  lemma ShapeLabel(ss: seq<Stmt>, n: nat, i: nat, st: Ctx, reserved: set<nat>)
    requires n <= i < |ss| && Distinct(ss) && ss[i].Label? && ss[i].l !in st.labels
    requires Sound(st, reserved + Pending(ss, n, st), false)
    ensures var x := CollectOne(ss, i, st); Sound(x, reserved + Pending(ss, n, x), false)
  {
    var x, b := CollectOne(ss, i, st), st.next;
    SoundNew(st, reserved + Pending(ss, n, st), false);
    LabelAdded(NewBlock(st), reserved + Pending(ss, n, st) + {b}, ss[i].l, Target(b, |st.stack|, 0));
    OwnNames(ss, i);
    PendingMore(ss, n, i, st);
    assert reserved + Pending(ss, n, st) + {b} == reserved + Pending(ss, n, x);
  }

  lemma OwnNames(ss: seq<Stmt>, i: nat)
    requires i < |ss| && Distinct(ss) && ss[i].Label?
    ensures forall q :: 0 <= q < |ss| && q != i && ss[q].Label? ==> ss[q].l != ss[i].l
  {
    forall q | 0 <= q < |ss| && q != i && ss[q].Label? ensures ss[q].l != ss[i].l {
      assert LabelsOf(ss[q]) !! LabelsOf(ss[i]);
    }
  }

  lemma PendingMore(ss: seq<Stmt>, n: nat, i: nat, st: Ctx)
    requires n <= i < |ss| && ss[i].Label? && ss[i].l !in st.labels
    requires forall q :: 0 <= q < |ss| && q != i && ss[q].Label? ==> ss[q].l != ss[i].l
    ensures Pending(ss, n, CollectOne(ss, i, st)) == Pending(ss, n, st) + {st.next}
  {
    var x := CollectOne(ss, i, st);
    assert x.labels[ss[i].l].block == st.next;
    forall b | b in Pending(ss, n, st) ensures b in Pending(ss, n, x) {
      var q: nat :| n <= q < |ss| && ss[q].Label? && ss[q].l in st.labels && b == st.labels[ss[q].l].block;
      assert x.labels[ss[q].l].block == b;
    }
    forall b | b in Pending(ss, n, x) ensures b in Pending(ss, n, st) + {st.next} {
      var q: nat :| n <= q < |ss| && ss[q].Label? && ss[q].l in x.labels && b == x.labels[ss[q].l].block;
      if q != i { assert st.labels[ss[q].l].block == b; }
    }
  }

  lemma LabelAdded(st: Ctx, reserved: set<nat>, l: string, jt: Target)
    requires Sound(st, reserved, false) && jt.block < st.next
    ensures Sound(st.(labels := st.labels[l := jt]), reserved, false)
  {
  }

  lemma ShapeBlock(ss: seq<Stmt>, st: Ctx, lvl: nat, cleanup: bool, inLoop: bool, scope: set<string>, reserved: set<nat>)
    requires Sound(st, reserved, false) && WellFormedAll(ss, |ss|, cleanup, inLoop, scope) && FallOutAll(ss)
    requires st.labels.Keys !! LabelsOfAll(ss) && CgStmt(Block(ss), st, lvl).Ok?
    ensures Sound(CgStmt(Block(ss), st, lvl).value.st, reserved, CgStmt(Block(ss), st, lvl).value.term)
    decreases lvl, 8, ss, |ss| + 1
  {
    hide Sound;
    var d0 := Done(CollectLabels(ss, 0, st).value, false);
    ShapeItems(ss, |ss|, st, lvl, cleanup, inLoop, scope, reserved);
    var d := CgItems(ss, |ss|, d0, lvl).value;
    assert reserved + Pending(ss, |ss|, d.st) == reserved;
    ShapeEndScope(|st.stack|, d.term, d.st, lvl, reserved);
  }

  lemma ShapeItems(ss: seq<Stmt>, n: nat, a: Ctx, lvl: nat, cleanup: bool, inLoop: bool, scope: set<string>, reserved: set<nat>)
    requires n <= |ss| && Sound(a, reserved, false) && WellFormedAll(ss, |ss|, cleanup, inLoop, scope) && FallOutAll(ss)
    requires a.labels.Keys !! LabelsOfAll(ss) && CollectLabels(ss, 0, a).Ok?
    requires CgItems(ss, n, Done(CollectLabels(ss, 0, a).value, false), lvl).Ok?
    ensures var d := CgItems(ss, n, Done(CollectLabels(ss, 0, a).value, false), lvl).value;
            Sound(d.st, reserved + Pending(ss, n, d.st), d.term)
    decreases lvl, 8, ss, n, 1
  {
    hide Sound, Pending, ItemsInv, CgItem, Within, Tame, LabelsOfAll;
    var d0 := Done(CollectLabels(ss, 0, a).value, false);
    if n == 0 {
      WellFormedDistinct(ss, cleanup, inLoop, scope);
      NoneSeen(ss, a, cleanup, inLoop, scope);
      NonePending(ss, 0, a);
      assert reserved + {} == reserved;
      ShapeCollect(ss, 0, 0, a, reserved);
    } else {
      SoundWithin(a, reserved, false);
      FrameItems(ss, n - 1, a, lvl, cleanup, inLoop, scope);
      ShapeItems(ss, n - 1, a, lvl, cleanup, inLoop, scope, reserved);
      NewIsFree(a, reserved, false);
      ShapeItem(ss, n - 1, a, CgItems(ss, n - 1, d0, lvl).value, lvl, cleanup, inLoop, scope, reserved);
    }
  }

  lemma NonePending(ss: seq<Stmt>, n: nat, st: Ctx)
    requires forall q :: n <= q < |ss| && ss[q].Label? ==> ss[q].l !in st.labels
    ensures Pending(ss, n, st) == {}
  {
  }

  lemma ShapeItem(ss: seq<Stmt>, i: nat, a: Ctx, d: Done, lvl: nat, cleanup: bool, inLoop: bool, scope: set<string>, reserved: set<nat>)
    requires i < |ss| && WellFormedAll(ss, |ss|, cleanup, inLoop, scope) && FallOutAll(ss)
    requires a.labels.Keys !! LabelsOfAll(ss) && (forall b :: b in reserved ==> b < a.next)
    requires ItemsInv(ss, i, a, d) && Sound(d.st, reserved + Pending(ss, i, d.st), d.term) && CgItem(ss, i, d, lvl).Ok?
    ensures var e := CgItem(ss, i, d, lvl).value; Sound(e.st, reserved + Pending(ss, i + 1, e.st), e.term)
    decreases lvl, 8, ss, i, 2
  {
    hide Sound, Pending, Frame, Tame, Within, Unplaced, Unseen, Reachable, Dead, LabelsOfAll;
    WellFormedItem(ss, |ss|, i, cleanup, inLoop, scope);
    var before := reserved + Pending(ss, i, d.st);
    if ss[i].Label? {
      PlaceShape(ss, i, a, d, reserved);
    } else {
      PendingNext(ss, i, d.st);
      if !d.term {
        SoundWithin(d.st, before, false);
        WellFormedDistinct(ss, cleanup, inLoop, scope);
        if ss[i].Var? {
          FrameVar(ss[i].inits, d.st, lvl);
          var st1 := CgVar(ss[i].inits, d.st, lvl).value;
          ShapeVar(ss[i].inits, d.st, lvl, before);
          PendingKept(ss, i + 1, d.st, st1, {});
          ShapeCollect(ss, i + 1, i + 1, st1, reserved);
        } else {
          UnseenItem(ss, i, d.st);
          FrameStmt(ss[i], d.st, lvl, cleanup, inLoop, scope + Visible(ss, i));
          ShapeStmt(ss[i], d.st, lvl, cleanup, inLoop, scope + Visible(ss, i), before);
          DistinctFrom(ss, i);
          PendingKept(ss, i + 1, d.st, CgStmt(ss[i], d.st, lvl).value.st, LabelsOf(ss[i]));
        }
      }
    }
  }

  lemma PendingNext(ss: seq<Stmt>, i: nat, st: Ctx)
    requires i < |ss| && !ss[i].Label?
    ensures Pending(ss, i + 1, st) == Pending(ss, i, st)
  {
  }

  lemma PendingKept(ss: seq<Stmt>, n: nat, x: Ctx, y: Ctx, ls: set<string>)
    requires Frame(x, y, ls) && forall q :: 0 <= q < |ss| && ss[q].Label? ==> ss[q].l !in ls
    ensures Pending(ss, n, y) == Pending(ss, n, x)
  {
    hide Ext, SameTargets, Within;
    assert forall q :: 0 <= q < |ss| && ss[q].Label? ==> (ss[q].l in y.labels <==> ss[q].l in x.labels);
  }

  // A label's block takes over.
  lemma PlaceShape(ss: seq<Stmt>, i: nat, a: Ctx, d: Done, reserved: set<nat>)
    requires i < |ss| && ss[i].Label? && ss[i].l in d.st.labels && LabelsOf(ss[i]) <= LabelsOfAll(ss)
    requires a.labels.Keys !! LabelsOfAll(ss) && (forall b :: b in reserved ==> b < a.next)
    requires ItemsInv(ss, i, a, d) && Sound(d.st, reserved + Pending(ss, i, d.st), d.term)
    ensures var b := d.st.labels[ss[i].l].block;
            var e := (if d.term then d.st else Emit(d.st, IBr(b))).(cur := b);
            Sound(e, reserved + Pending(ss, i + 1, e), false)
  {
    var b := d.st.labels[ss[i].l].block;
    NewLabel(ss, i, a, d);
    PendingFirst(ss, i, d.st);
    hide Sound, Pending, Frame, Unplaced, Unseen, Reachable, Dead, LabelsOfAll;
    var before := reserved + Pending(ss, i, d.st);
    if !d.term { SoundEmit(d.st, before, IBr(b)); }
    var x := if d.term then d.st else Emit(d.st, IBr(b));
    SoundMove(x, before, b);
    PendingSame(ss, i + 1, d.st, x.(cur := b));
    assert before - {b} == reserved + Pending(ss, i + 1, d.st);
  }

  lemma PendingSame(ss: seq<Stmt>, n: nat, x: Ctx, y: Ctx)
    requires y.labels == x.labels
    ensures Pending(ss, n, y) == Pending(ss, n, x)
  {
  }

  lemma PendingFirst(ss: seq<Stmt>, i: nat, st: Ctx)
    requires i < |ss| && ss[i].Label? && ss[i].l in st.labels && Unplaced(ss, i, st)
    ensures Pending(ss, i, st) == Pending(ss, i + 1, st) + {st.labels[ss[i].l].block}
    ensures st.labels[ss[i].l].block !in Pending(ss, i + 1, st)
  {
    var b := st.labels[ss[i].l].block;
    forall c | c in Pending(ss, i, st) ensures c in Pending(ss, i + 1, st) + {b} {
      var q: nat :| i <= q < |ss| && ss[q].Label? && ss[q].l in st.labels && c == st.labels[ss[q].l].block;
    }
  }

  // ----- the theorems -------------------------------------------------------

  // A function whose cleanup bodies let control out at their end compiles to a
  // graph in which every block ends in exactly one terminator and every branch
  // leads to a block.
  lemma GraphShape(body: Stmt, needsReturn: bool, lvl: nat, g: Code) returns (n: nat)
    requires Proper(body) && FallOut(body) && CgFunction(body, needsReturn, lvl) == Ok(g)
    ensures n > 0 && WellShaped(g, n)
  {
    hide Sound;
    var reserved := {RETURN, EXCEPTION};
    StartSound();
    ShapeStmt(body, Start(), lvl, false, false, {}, reserved);
    var d := CgStmt(body, Start(), lvl).value;
    NewIsFree(d.st, reserved, d.term);
    var out := Target(RETURN, 0, 0);
    if !d.term { ShapeJump(out, false, d.st, lvl, reserved); }
    n := Landed(if d.term then d.st else Jump(out, false, d.st, lvl).value);
  }

  lemma StartSound()
    ensures Sound(Start(), {RETURN, EXCEPTION}, false)
  {
    assert At(Start().code, CODE) == [];
  }

  lemma Landed(st: Ctx) returns (n: nat)
    requires Sound(st, {RETURN, EXCEPTION}, true)
    ensures n > 0 && WellShaped(Emit(Emit(st.(cur := RETURN), IRet(false)).(cur := EXCEPTION), IRet(true)).code, n)
  {
    hide Shaped, Targeted, SoundStack;
    SoundMove(st, {RETURN, EXCEPTION}, RETURN);
    assert {RETURN, EXCEPTION} - {RETURN} == {EXCEPTION};
    var x := Emit(st.(cur := RETURN), IRet(false));
    SoundEmit(st.(cur := RETURN), {EXCEPTION}, IRet(false));
    SoundMove(x, {EXCEPTION}, EXCEPTION);
    assert {EXCEPTION} - {EXCEPTION} == {};
    SoundEmit(x.(cur := EXCEPTION), {}, IRet(true));
    n := x.next;
    AllEnded(Emit(x.(cur := EXCEPTION), IRet(true)));
  }

  lemma AllEnded(st: Ctx)
    requires Sound(st, {}, true)
    ensures st.next > 0 && WellShaped(st.code, st.next)
  {
  }

  // No run of such a graph leaves a block by its end or reaches a block that
  // is not there: it gets stuck at an unreachable instruction only.
  lemma {:induction false} NeverStrays(g: Code, n: nat, w: World, k: nat)
    requires n > 0 && WellShaped(g, n)
    ensures var c := Steps(g, w, Entered(), k);
            && (c.Running? ==> c.b < n && c.pc < |At(g, c.b)|)
            && (c.Wedged? ==> exists j: nat :: j < k && StuckAt(g, Steps(g, w, Entered(), j)))
  {
    if k > 0 {
      NeverStrays(g, n, w, k - 1);
      var c := Steps(g, w, Entered(), k - 1);
      StepsAdd(g, w, Entered(), k - 1, 1);
      assert Steps(g, w, c, 1) == Steps(g, w, Step(g, w, c), 0) == Step(g, w, c);
      if c.Running? {
        OneStepOn(g, n, w, c);
      }
    } else {
      assert Ended(At(g, CODE));
    }
  }

  predicate StuckAt(g: Code, c: Config) {
    c.Running? && c.pc < |At(g, c.b)| && At(g, c.b)[c.pc] == IUnreachable
  }

  lemma OneStepOn(g: Code, n: nat, w: World, c: Config)
    requires WellShaped(g, n) && c.Running? && c.b < n && c.pc < |At(g, c.b)|
    ensures var d := Step(g, w, c);
            (d.Running? ==> d.b < n && d.pc < |At(g, d.b)|) && (d.Wedged? ==> StuckAt(g, c))
  {
    var code := At(g, c.b);
    assert Ended(code) && Aims(code[c.pc], n);
    if !Terminator(code[c.pc]) {
      assert c.pc < |code| - 1;
    } else {
      assert forall b: nat :: b < n ==> Ended(At(g, b));
    }
  }

  // ----- when a cleanup body does not let control out -----------------------

  predicate Closed(st: Ctx) {
    var code := At(st.code, st.cur);
    code != [] && Terminator(code[|code| - 1])
  }

  // A statement flagged as terminated leaves its block ended.
  lemma TermCloses(s: Stmt, st: Ctx, lvl: nat)
    requires CgStmt(s, st, lvl).Ok? && CgStmt(s, st, lvl).value.term
    ensures Closed(CgStmt(s, st, lvl).value.st)
    decreases s, 2
  {
    hide CgItems, CgWhole, Jump, CgMultiInto, CgArgs, CgCall, DestroyPop, Destroy, CgPre, CgTest, LoopBody;
    match s
    case Block(body) =>
      ItemsClose(body, |body|, Done(CollectLabels(body, 0, st).value, false), lvl);
    case Goto(l) => JumpCloses(st.labels[l], false, st, lvl);
    case Return(inits) =>
      var st1 := CgMultiInto(inits, st, lvl).value;
      JumpCloses(st1.rets[|st1.rets| - 1], false, st1, lvl);
    case If(_, _, _, _, _) => IfCloses(s, st, lvl);
    case While(_, _, _) => LoopCloses(s, st, lvl);
    case Break => JumpCloses(st.breaks[|st.breaks| - 1], false, st, lvl);
    case Continue => JumpCloses(st.continues[|st.continues| - 1], false, st, lvl);
    case Try(tried, handler) =>
      var st0 := NewBlock(st).(excs := st.excs + [Target(st.next, |st.stack|, 0)]);
      var x := BranchToEnd(CgStmt(tried, st0, lvl).value, None);
      TermCloses(handler, x.(excs := Pop(x.excs), cur := st.next), lvl);
    case _ =>
  }

  lemma JumpCloses(jt: Target, exn: bool, st: Ctx, lvl: nat)
    requires Jump(jt, exn, st, lvl).Ok?
    ensures Closed(Jump(jt, exn, st, lvl).value)
  {
    hide Destroy;
  }

  lemma IfCloses(s: Stmt, st: Ctx, lvl: nat)
    requires s.If? && CgIf(s, st, lvl).Ok? && CgIf(s, st, lvl).value.term
    ensures Closed(CgIf(s, st, lvl).value.st)
    decreases s, 1
  {
    hide CgWhole, CgPre, CgArms, Destroy;
    ArmsClose(s, CgWhole(s.cond, CgPre(s.pre, |s.pre|, st, lvl).value, lvl).value, lvl);
  }

  lemma LoopCloses(s: Stmt, st: Ctx, lvl: nat)
    requires s.While? && CgWhile(s, st, lvl).Ok? && CgWhile(s, st, lvl).value.term
    ensures Closed(CgWhile(s, st, lvl).value.st)
  {
    hide CgTest, LoopBody, LoopEnd, Closed;
    var begin, body, cont, end := st.next, st.next + 1, st.next + 2, st.next + 3;
    var st0 := Emit(NewBlock(NewBlock(NewBlock(NewBlock(st)))), IBr(begin)).(cur := begin);
    var st2 := Enter(body, cont, end, CgTest(s, body, end, st0, lvl).value);
    var st3 := LoopBody(s, |st.stack|, cont, st2, lvl).value;
    assert CgWhile(s, st, lvl) == LoopEnd(s, |st.stack|, begin, end, st3, lvl);
    LoopEndCloses(s, |st.stack|, begin, end, st3, lvl);
  }

  lemma LoopEndCloses(s: Stmt, marker: nat, begin: nat, end: nat, st: Ctx, lvl: nat)
    requires s.While? && marker <= |st.stack| && LoopEnd(s, marker, begin, end, st, lvl).Ok?
    requires LoopEnd(s, marker, begin, end, st, lvl).value.term
    ensures Closed(LoopEnd(s, marker, begin, end, st, lvl).value.st)
  {
    hide Destroy;
    var st1 := Emit(st, IBr(begin));
    var st2 := st1.(breaks := Pop(st1.breaks), continues := Pop(st1.continues), cur := end);
    var x := Emit(st2, IUnreachable);
    assert LoopEnd(s, marker, begin, end, st, lvl) == Ok(Done(PopTo(x, marker), true));
    assert Closed(x);
  }

  lemma ArmsClose(s: Stmt, st: Ctx, lvl: nat)
    requires s.If? && CgArms(s, st, lvl).Ok? && CgArms(s, st, lvl).value.term
    ensures Closed(CgArms(s, st, lvl).value.st)
    decreases s, 0
  {
    hide CgStmt;
    if s.kind.Dynamic? {
      var st2 := Emit(NewBlock(NewBlock(st)), ICondBr(Home(s.cond), st.next, st.next + 1));
      var d1 := CgStmt(s.thn, st2.(cur := st.next), lvl).value;
      TermCloses(s.els, BranchToEnd(d1, None).(cur := st.next + 1), lvl);
    } else {
      TermCloses(if s.kind.StaticTrue? then s.thn else s.els, Emit(NewBlock(st), IBr(st.next)).(cur := st.next), lvl);
    }
  }

  lemma ItemsClose(ss: seq<Stmt>, n: nat, d0: Done, lvl: nat)
    requires n <= |ss| && !d0.term && CgItems(ss, n, d0, lvl).Ok? && CgItems(ss, n, d0, lvl).value.term
    ensures Closed(CgItems(ss, n, d0, lvl).value.st)
    decreases ss, n
  {
    hide CgStmt, CgVar, CollectLabels, Closed;
    if n > 0 {
      var d := CgItems(ss, n - 1, d0, lvl).value;
      if d.term { ItemsClose(ss, n - 1, d0, lvl); } else { TermCloses(ss[n - 1], d.st, lvl); }
    }
  }

  // For a finally body the condition is exact: alone in a function, it leaves
  // the graph well shaped if and only if it lets control out at its end.
  lemma CleanupShape(b: seq<Stmt>, lvl: nat, g: Code)
    requires Proper(Block([Finally(b)])) && FallOutAll(b)
    requires CgFunction(Block([Finally(b)]), false, lvl) == Ok(g)
    ensures (exists n :: WellShaped(g, n)) <==> !Ends(Block(b))
  {
    if Ends(Block(b)) {
      var st1 := FinallyAlone(b, lvl, g);
      TwoTerminators(st1, g);
    } else {
      assert FallOut([Finally(b)][0]);
      var n := GraphShape(Block([Finally(b)]), false, lvl, g);
    }
  }

  lemma FinallyAlone(b: seq<Stmt>, lvl: nat, g: Code) returns (st1: Ctx)
    requires Proper(Block([Finally(b)])) && Ends(Block(b))
    requires CgFunction(Block([Finally(b)]), false, lvl) == Ok(g)
    ensures Closed(st1) && st1.cur != RETURN && st1.cur != EXCEPTION
    ensures g == Emit(Emit(Emit(st1, IBr(RETURN)).(cur := RETURN), IRet(false)).(cur := EXCEPTION), IRet(true)).code
  {
    assert WellFormedAll(b, |b|, true, false, {}) by { WellFormedItem([Finally(b)], 1, 0, false, false, {}); }
    LoneCleanup(b, lvl);
    hide RunCleanup, Ends, CgStmt, Ext, LabelsKept, SameTargets, WellFormed, WellFormedAll;
    var x := Push(Start(), Final(b));
    var r := RunCleanup(b, x, lvl);
    st1 := PopTo(r.value, 0);
    assert st1.stack == [] && st1.stack[0..] == [];
    assert Destroy([], false, st1, lvl) == Ok(st1);
    assert Jump(Target(RETURN, 0, 0), false, st1, lvl) == Ok(Emit(st1, IBr(RETURN)));
    EndingCleanup(b, x, lvl);
  }

  lemma EndingCleanup(b: seq<Stmt>, x: Ctx, lvl: nat)
    requires WellFormedAll(b, |b|, true, false, {}) && Ends(Block(b)) && Within(x) && Tame(x.stack)
    requires RunCleanup(b, x, lvl).Ok?
    ensures Closed(RunCleanup(b, x, lvl).value)
    ensures RunCleanup(b, x, lvl).value.cur == x.cur || RunCleanup(b, x, lvl).value.cur >= x.next
  {
    hide Ends, Ext, LabelsKept, SameTargets, CgStmt, WellFormedAll;
    CountCleanup(b, x, lvl);
    TermCloses(Block(b), x.(check := false), lvl - 1);
    FrameCleanup(b, x, lvl);
    CursorMoves(x, RunCleanup(b, x, lvl).value);
  }

  lemma CursorMoves(x: Ctx, y: Ctx)
    requires Frame(x, y, {})
    ensures y.cur == x.cur || y.cur >= x.next
  {
  }

  lemma LoneCleanup(b: seq<Stmt>, lvl: nat)
    requires CgStmt(Block([Finally(b)]), Start(), lvl).Ok?
    ensures var r := RunCleanup(b, Push(Start(), Final(b)), lvl);
            r.Ok? && CgStmt(Block([Finally(b)]), Start(), lvl) == Ok(Done(PopTo(r.value, 0), false))
  {
    LonePushed(b, lvl);
    LoneClosed(b, Push(Start(), Final(b)), lvl);
    hide RunCleanup, CgItems, CollectLabels, Destroy;
  }

  lemma LonePushed(b: seq<Stmt>, lvl: nat)
    ensures CollectLabels([Finally(b)], 0, Start()) == Ok(Start())
    ensures CgItems([Finally(b)], 1, Done(Start(), false), lvl) == Ok(Done(Push(Start(), Final(b)), false))
  {
    hide RunCleanup, Destroy, Jump;
    var ss, a := [Finally(b)], Start();
    assert CollectLabels(ss, 1, a) == Ok(a);
    assert CgItems(ss, 0, Done(a, false), lvl) == Ok(Done(a, false));
    assert CgItem(ss, 0, Done(a, false), lvl) == Ok(Done(Push(a, Final(b)), false));
  }

  lemma LoneClosed(b: seq<Stmt>, x: Ctx, lvl: nat)
    requires x.stack == [Final(b)]
    ensures var r := RunCleanup(b, x, lvl);
            EndScope(0, false, x, lvl) == if r.Ok? then Ok(Done(PopTo(r.value, 0), false)) else Fail(r.error)
  {
    hide RunCleanup, CgStmt;
    var r := RunCleanup(b, x, lvl);
    assert x.stack[0..] == [Final(b)] && [Final(b)][..0] == [];
    assert DestroyEntry(Final(b), false, x, lvl) == r;
    if r.Ok? { assert Destroy([], false, r.value, lvl) == r; }
    assert Destroy([Final(b)], false, x, lvl) == r;
  }

  lemma TwoTerminators(st: Ctx, g: Code)
    requires Closed(st) && st.cur != RETURN && st.cur != EXCEPTION
    requires g == Emit(Emit(Emit(st, IBr(RETURN)).(cur := RETURN), IRet(false)).(cur := EXCEPTION), IRet(true)).code
    ensures !exists n :: WellShaped(g, n)
  {
    var code := At(st.code, st.cur);
    assert At(g, st.cur) == code + [IBr(RETURN)];
    assert (code + [IBr(RETURN)])[..|code|][|code| - 1] == code[|code| - 1];
    assert !Ended(At(g, st.cur));
  }
}
