// The emitted graph does what the reference semantics says: one lemma for each
// function of the code generator, by induction over both.
module Simulation {
  import opened Wrappers
  import opened Syntax
  import opened Semantics
  import opened Cfg
  import opened CodegenSpec
  import opened Framing
  import opened Unwinding

  // g contains the code emitted so far.
  ghost predicate Sub(code: Code, g: Code) {
    forall b: nat :: At(code, b) <= At(g, b)
  }

  // Control is at the insertion point of st.
  predicate Here(c: Config, st: Ctx) {
    c.Running? && c.b == st.cur && c.pc == |At(st.code, st.cur)|
  }

  predicate AtBlock(c: Config, b: nat) {
    c.Running? && c.b == b && c.pc == 0
  }

  // The code emitted after a state contains the code of that state.
  lemma SubBack(a: Ctx, b: Ctx, ls: set<string>, g: Code)
    requires Within(a) && CodeFrame(a, b, ls) && Sub(b.code, g)
    ensures Sub(a.code, g)
  {
    forall i: nat ensures At(a.code, i) <= At(g, i) {
      if i < a.next && i != a.cur {
        assert At(b.code, i) == At(a.code, i);
      } else if i == a.cur {
        assert At(a.code, i) <= At(b.code, i) <= At(g, i);
      } else {
        assert At(a.code, i) == [];
      }
    }
  }

  lemma SubEmit(st: Ctx, i: Instr, g: Code)
    requires Sub(Emit(st, i).code, g)
    ensures Sub(st.code, g)
    ensures |At(st.code, st.cur)| < |At(g, st.cur)| && At(g, st.cur)[|At(st.code, st.cur)|] == i
  {
    var e := Emit(st, i);
    assert At(e.code, st.cur) == At(st.code, st.cur) + [i];
    assert At(e.code, st.cur) <= At(g, st.cur);
    forall b: nat ensures At(st.code, b) <= At(g, b) {
      if b != st.cur {
        assert At(e.code, b) == At(st.code, b);
      }
    }
  }

  lemma SubNew(st: Ctx, n: nat, g: Code)
    requires Within(st) && Sub(NewBlocks(st, n).code, g)
    ensures Sub(st.code, g)
    ensures At(NewBlocks(st, n).code, st.cur) == At(st.code, st.cur)
  {
    Self(st, {});
    NewBlocksFrame(st, st, n, {});
    SubBack(st, NewBlocks(st, n), {}, g);
  }

  // Executing the instruction just emitted.
  lemma Execute(g: Code, w: World, st: Ctx, i: Instr, c: Config)
    requires Here(c, st) && Sub(Emit(st, i).code, g)
    ensures Reaches(g, w, c, Do(w, c, i), 1)
    ensures Sub(st.code, g)
    ensures Do(w, c, i).Running? && Do(w, c, i).b == c.b && Do(w, c, i).pc == c.pc + 1 ==> Here(Do(w, c, i), Emit(st, i))
  {
    SubEmit(st, i, g);
    OneStep(g, w, c);
    assert At(Emit(st, i).code, st.cur) == At(st.code, st.cur) + [i];
  }

  // ----- what can be said of a jump target ----------------------------------

  predicate Marked(ts: seq<Target>, st: Ctx) {
    ts != [] ==> ts[|ts| - 1].marker <= |st.stack|
  }

  // The state of a compilation that is under way in a well-formed program.
  ghost predicate Ready(st: Ctx, scope: set<string>) {
    && Within(st) && Tame(st.stack)
    && Marked(st.breaks, st) && Marked(st.continues, st) && Marked(st.rets, st) && Marked(st.excs, st)
    && forall l :: l in scope ==> l in st.labels && st.labels[l].marker <= |st.stack|
  }

  // Control has left for jt, unless cleaning up did not end.
  predicate Landed(f: Run, jt: Target, c': Config) {
    && c'.t == f.t
    && match f.out
       case Normal => false
       case OutOfFuel => c'.Running?
       case Stuck => c'.Wedged?
       case _ => AtBlock(c', jt.block)
  }

  // Control leaves st for jt as r says: everything down to the target's marker
  // is cleaned up on the way.
  ghost predicate Leaves(g: Code, w: World, c: Config, c': Config, r: Run, es: seq<Entry>, jt: Target, fuel: nat) {
    && jt.marker <= |es|
    && var f := Finish(w, r, es[jt.marker..]);
    && Reaches(g, w, c, c', fuel - f.fuel + if Halting(f.out) then 0 else 1)
    && Landed(f, jt, c')
  }

  // An exception thrown after t, with the temporaries vs alive.
  ghost predicate Thrown(g: Code, w: World, c: Config, c': Config, t: Trace, vs: seq<Slot>, st: Ctx, fuel: nat) {
    && st.excs != [] && st.excs[|st.excs| - 1].marker <= |st.stack|
    && Leaves(g, w, c, c', Run(Threw, t, fuel), st.stack + Values(vs), st.excs[|st.excs| - 1], fuel)
  }

  function TargetOf(o: Outcome, st: Ctx): Option<Target> {
    match o
    case Broke => if st.breaks == [] then None else Some(st.breaks[|st.breaks| - 1])
    case Continued => if st.continues == [] then None else Some(st.continues[|st.continues| - 1])
    case Returned(_) => if st.rets == [] then None else Some(st.rets[|st.rets| - 1])
    case Threw => if st.excs == [] then None else Some(st.excs[|st.excs| - 1])
    case Went(l) => if l in st.labels then Some(st.labels[l]) else None
    case _ => None
  }

  // How running compiled code from c, in c', agrees with the result r.
  ghost predicate Match(g: Code, w: World, c: Config, c': Config, r: Run, st: Ctx, d: Done, scope: set<string>, fuel: nat) {
    if r.out == Normal then !d.term && Here(c', d.st) && c'.t == r.t && Reaches(g, w, c, c', fuel - r.fuel)
    else if r.out == OutOfFuel then c'.Running? && c'.t == r.t && Reaches(g, w, c, c', fuel - r.fuel)
    else if r.out == Stuck then c'.Wedged? && c'.t == r.t && Reaches(g, w, c, c', fuel - r.fuel)
    else
      && TargetOf(r.out, st).Some? && TargetOf(r.out, st).value.marker <= |st.stack|
      && (r.out.Went? ==> r.out.l in scope)
      && (r.out == Broke ==> d.st.breaks != [] && d.st.breaks[|d.st.breaks| - 1].uses > 0)
      && Leaves(g, w, c, c', r, st.stack, TargetOf(r.out, st).value, fuel)
  }

  // ----- cleanup ------------------------------------------------------------

  predicate AllValues(es: seq<Entry>) {
    forall i :: 0 <= i < |es| ==> es[i].Value?
  }

  // The cleanup of es from c ended in c', where the emitted code is st's.
  ghost predicate Cleaned(g: Code, w: World, c: Config, c': Config, u: Run, st: Ctx, fuel: nat) {
    && Reaches(g, w, c, c', fuel - u.fuel) && c'.t == u.t
    && match u.out
       case Normal => Here(c', st)
       case OutOfFuel => c'.Running?
       case Stuck => c'.Wedged?
       case _ => false
  }

  lemma {:induction false} SimDestroy(g: Code, w: World, es: seq<Entry>, exn: bool, st: Ctx, lvl: nat, c: Config, fuel: nat) returns (c': Config)
    requires Ready(st, {}) && Tame(es) && Destroy(es, exn, st, lvl).Ok?
    requires Here(c, st) && Sub(Destroy(es, exn, st, lvl).value.code, g)
    ensures Cleaned(g, w, c, c', Unwind(w, es, exn, c.t, fuel), Destroy(es, exn, st, lvl).value, fuel)
    ensures AllValues(es) ==> c'.Running? && c'.mem == c.mem
    decreases fuel, lvl, 1, |es|
  {
    hide Ext, LabelsKept, SameTargets, Within, Sub, Reaches, At, WellFormedAll, Exec, DestroyEntry, Values;
    if es == [] {
      NoStep(g, w, c);
      return c;
    }
    var n := |es| - 1;
    var st1 := DestroyEntry(es[n], exn, st, lvl).value;
    var end := Destroy(es[..n], exn, st1, lvl).value;
    FrameEntry(es[n], exn, st, lvl);
    FrameDestroy(es[..n], exn, st1, lvl);
    SubBack(st1, end, {}, g);
    var c1 := SimEntry(g, w, es[n], exn, st, lvl, c, fuel);
    ReadySame(st, st1);
    UnwindLast(w, es, exn, c.t, fuel);
    var r := Unwind(w, [es[n]], exn, c.t, fuel);
    if r.out != Normal { return c1; }
    c' := SimDestroy(g, w, es[..n], exn, st1, lvl, c1, r.fuel);
    Chain(g, w, c, c1, c', fuel - r.fuel, r.fuel - Unwind(w, es[..n], exn, c1.t, r.fuel).fuel);
  }

  lemma {:induction false} SimEntry(g: Code, w: World, e: Entry, exn: bool, st: Ctx, lvl: nat, c: Config, fuel: nat) returns (c': Config)
    requires Ready(st, {}) && TameEntry(e) && DestroyEntry(e, exn, st, lvl).Ok?
    requires Here(c, st) && Sub(DestroyEntry(e, exn, st, lvl).value.code, g)
    ensures Cleaned(g, w, c, c', Unwind(w, [e], exn, c.t, fuel), DestroyEntry(e, exn, st, lvl).value, fuel)
    ensures e.Value? ==> c'.Running? && c'.mem == c.mem
    decreases fuel, lvl, 0, 1
  {
    assert [e][..0] == [];
    NoStep(g, w, c);
    match e
    case Value(v) => c' := SimValue(g, w, v, st, lvl, c);
    case Final(b) => c' := SimCleanup(g, w, b, st, lvl, c, fuel);
    case Error(b) => if exn { c' := SimCleanup(g, w, b, st, lvl, c, fuel); } else { return c; }
  }

  lemma SimValue(g: Code, w: World, v: Slot, st: Ctx, lvl: nat, c: Config) returns (c': Config)
    requires Here(c, st) && Sub(DestroyEntry(Value(v), false, st, lvl).value.code, g)
    ensures Here(c', DestroyEntry(Value(v), false, st, lvl).value) && c'.mem == c.mem
    ensures c'.t == Drop(v, c.t) && Reaches(g, w, c, c', 0)
  {
    NoStep(g, w, c);
    if v.prim { return c; }
    Execute(g, w, st, IDestroy(v), c);
    Enough(g, w, c, Do(w, c, IDestroy(v)), 1, 0);
    return Do(w, c, IDestroy(v));
  }

  lemma ReadySame(st: Ctx, st1: Ctx)
    requires Ready(st, {}) && Frame(st, st1, {}) && st1.stack == st.stack
    ensures Ready(st1, {})
  {
    assert st.stack == st.stack + Values([]);
    ReadyMore(st, st1, []);
  }

  lemma {:induction false} SimCleanup(g: Code, w: World, b: seq<Stmt>, st: Ctx, lvl: nat, c: Config, fuel: nat) returns (c': Config)
    requires Ready(st, {}) && WellFormedAll(b, |b|, true, false, {}) && RunCleanup(b, st, lvl).Ok?
    requires Here(c, st) && Sub(RunCleanup(b, st, lvl).value.code, g)
    ensures Cleaned(g, w, c, c', Exec(w, Block(b), c.t, false, fuel), RunCleanup(b, st, lvl).value, fuel)
    decreases fuel, lvl, 0, 0
  {
    hide Ext, LabelsKept, Within, Sub, Reaches, Here, Marked, Tame;
    CleanupHasNoLabels(b, |b|, false, {});
    assert b[..|b|] == b;
    OutcomeStmt(w, Block(b), c.t, fuel, false);
    CleanupReady(g, st, c);
    var st0 := st.(check := false);
    var d := CgStmt(Block(b), st0, lvl - 1).value;
    CheckCode(g, d.st, st.check);
    c' := SimStmt(g, w, Block(b), st0, lvl - 1, c, fuel, true, false, {});
    CheckHere(c', d.st, st.check);
  }

  lemma CleanupReady(g: Code, st: Ctx, c: Config)
    requires Ready(st, {}) && Here(c, st)
    ensures Ready(st.(check := false), {}) && Here(c, st.(check := false))
  {
  }

  lemma CheckCode(g: Code, x: Ctx, check: bool)
    ensures Sub(x.(check := check).code, g) == Sub(x.code, g)
  {
  }

  lemma CheckHere(c: Config, x: Ctx, check: bool)
    ensures Here(c, x.(check := check)) == Here(c, x)
  {
  }

  lemma {:induction false} SimJump(g: Code, w: World, r: Run, jt: Target, st: Ctx, lvl: nat, c: Config) returns (c': Config)
    requires Ready(st, {}) && Jump(jt, r.out == Threw, st, lvl).Ok?
    requires Here(c, st) && c.t == r.t && !Halting(r.out) && Sub(Jump(jt, r.out == Threw, st, lvl).value.code, g)
    ensures Leaves(g, w, c, c', r, st.stack, jt, r.fuel)
    decreases r.fuel, lvl, 2, 0
  {
    hide Ext, LabelsKept, SameTargets, Within, Sub, Tame, Destroy, Unwind;
    var es, exn := st.stack[jt.marker..], r.out == Threw;
    var st1 := Destroy(es, exn, st, lvl).value;
    assert Tame(es) by { TameSuffix(st.stack, jt.marker); }
    SubEmit(st1, IBr(jt.block), g);
    c' := SimDestroy(g, w, es, exn, st, lvl, c, r.fuel);
    UnwindOutcome(w, es, exn, c.t, r.fuel);
    var u := Unwind(w, es, exn, c.t, r.fuel);
    if u.out == Normal {
      Execute(g, w, st1, IBr(jt.block), c');
      var c1 := Do(w, c', IBr(jt.block));
      Chain(g, w, c, c', c1, r.fuel - u.fuel, 1);
      return c1;
    }
  }

  // Popping temporaries destroys them.
  lemma {:induction false} SimDrop(g: Code, w: World, vs: seq<Slot>, marker: nat, st: Ctx, lvl: nat, c: Config) returns (c': Config)
    requires Within(st) && Tame(st.stack) && marker <= |st.stack| && st.stack[marker..] == Values(vs)
    requires DestroyPop(marker, false, st, lvl).Ok?
    requires Here(c, st) && Sub(DestroyPop(marker, false, st, lvl).value.code, g)
    ensures Here(c', DestroyPop(marker, false, st, lvl).value) && c'.mem == c.mem
    ensures c'.t == DropAll(vs, c.t) && Reaches(g, w, c, c', 0)
    decreases |vs|
  {
    hide Ext, LabelsKept, SameTargets, Within, Sub, Reaches, At, WellFormedAll;
    if vs == [] {
      NoStep(g, w, c);
      return c;
    }
    var n := |st.stack| - 1;
    LastTemp(vs, marker, st.stack);
    var v := vs[|vs| - 1];
    var x := PopTo(st, n);
    StackWithin(st, x.stack);
    var st1 := DestroyEntry(Value(v), false, x, lvl).value;
    FrameEntry(Value(v), false, x, lvl);
    FrameDestroyPop(marker, false, st1, lvl);
    SubBack(st1, DestroyPop(marker, false, st1, lvl).value, {}, g);
    var c1 := SimValue(g, w, v, x, lvl, c);
    assert DestroyPop(marker, false, st, lvl) == DestroyPop(marker, false, st1, lvl);
    assert Here(c1, st1);
    c' := SimDrop(g, w, vs[..|vs| - 1], marker, st1, lvl, c1);
    Chain(g, w, c, c1, c', 0, 0);
  }

  lemma LastTemp(vs: seq<Slot>, marker: nat, es: seq<Entry>)
    requires marker <= |es| && es[marker..] == Values(vs) && vs != [] && Tame(es)
    ensures |es| > marker && es[|es| - 1] == Value(vs[|vs| - 1])
    ensures es[..|es| - 1][marker..] == Values(vs[..|vs| - 1]) && Tame(es[..|es| - 1])
  {
    assert es[marker..][|vs| - 1] == Values(vs)[|vs| - 1];
    assert es[..|es| - 1][marker..] == es[marker..][..|vs| - 1];
  }

  lemma StackWithin(st: Ctx, es: seq<Entry>)
    requires Within(st)
    ensures Within(st.(stack := es))
  {
  }

  // ----- expressions --------------------------------------------------------

  lemma {:induction false} SimCall(g: Code, w: World, f: Fn, args: seq<Slot>, out: Slot, a: Evaled, st: Ctx, lvl: nat, c: Config, fuel: nat) returns (c': Config)
    requires Ready(st, {}) && CgCall(f, args, out, st, lvl).Ok?
    requires Here(c, st) && c.t == a.t && Sub(CgCall(f, args, out, st, lvl).value.code, g)
    ensures var r := CallNow(w, f, args, out, a, st.check);
            if r.threw then Thrown(g, w, c, c', r.t, [], st, fuel)
            else Here(c', CgCall(f, args, out, st, lvl).value) && c'.t == r.t && Load(c'.mem, out) == r.flag && Reaches(g, w, c, c', 0)
    decreases fuel, lvl, 3
  {
    if !st.check {
      Execute(g, w, st, ICallUnchecked(f, args, out), c);
      Enough(g, w, c, Do(w, c, ICallUnchecked(f, args, out)), 1, 0);
      return Do(w, c, ICallUnchecked(f, args, out));
    }
    c' := SimChecked(g, w, f, args, out, a, st, lvl, c, fuel);
  }

  lemma {:induction false} SimChecked(g: Code, w: World, f: Fn, args: seq<Slot>, out: Slot, a: Evaled, st: Ctx, lvl: nat, c: Config, fuel: nat) returns (c': Config)
    requires st.check && Ready(st, {}) && CgCall(f, args, out, st, lvl).Ok?
    requires Here(c, st) && c.t == a.t && Sub(CgCall(f, args, out, st, lvl).value.code, g)
    ensures var r := CallNow(w, f, args, out, a, true);
            if r.threw then Thrown(g, w, c, c', r.t, [], st, fuel)
            else Here(c', CgCall(f, args, out, st, lvl).value) && c'.t == r.t && Load(c'.mem, out) == r.flag && Reaches(g, w, c, c', 0)
    decreases fuel, lvl, 2, 1
  {
    hide Ext, LabelsKept, SameTargets, Sub, Within, Reaches, NewBlocks, Tame, At, Jump, CgCall, Leaves, Fork, Ready, Marked;
    CallCode(g, f, args, out, st, lvl);
    var y := Fork(Emit(st, ICall(f, args, out)), 2, IExcBr(st.next + 1, st.next));
    var c2 := CallSteps(g, w, f, args, out, st, c);
    var r := Run(Threw, c2.t, fuel);
    if Answer(w, c.t, f, args).threw {
      c' := SimJump(g, w, r, y.excs[|y.excs| - 1], y, lvl, c2);
      LeavesBack(g, w, c, c2, c', r, y.stack, y.excs[|y.excs| - 1], fuel, fuel);
      CallThrew(g, w, c, c', c2.t, st, fuel);
    } else {
      c' := c2;
    }
  }

  lemma CallThrew(g: Code, w: World, c: Config, c': Config, t: Trace, st: Ctx, fuel: nat)
    requires Ready(st, {}) && st.excs != [] && Leaves(g, w, c, c', Run(Threw, t, fuel), st.stack, st.excs[|st.excs| - 1], fuel)
    ensures Thrown(g, w, c, c', t, [], st, fuel)
  {
    assert st.stack + Values([]) == st.stack;
  }

  // The call itself and the test of its result.
  lemma CallSteps(g: Code, w: World, f: Fn, args: seq<Slot>, out: Slot, st: Ctx, c: Config) returns (c': Config)
    requires Here(c, st)
    requires Sub(Emit(NewBlocks(Emit(st, ICall(f, args, out)), 2), IExcBr(st.next + 1, st.next)).code, g)
    requires Sub(Emit(st, ICall(f, args, out)).code, g)
    requires At(NewBlocks(Emit(st, ICall(f, args, out)), 2).code, st.cur) == At(Emit(st, ICall(f, args, out)).code, st.cur)
    requires NewBlocks(Emit(st, ICall(f, args, out)), 2).cur == st.cur
    ensures var reply := Answer(w, c.t, f, args);
            && AtBlock(c', if reply.threw then st.next else st.next + 1)
            && c'.t == c.t + [Called(f, args, out, reply.flag, reply.threw, true)] && Load(c'.mem, out) == reply.flag
    ensures Reaches(g, w, c, c', 0)
  {
    hide Sub, Within, Reaches, NewBlocks;
    var x := Emit(st, ICall(f, args, out));
    var br := IExcBr(st.next + 1, st.next);
    Execute(g, w, st, ICall(f, args, out), c);
    var c1 := Do(w, c, ICall(f, args, out));
    Execute(g, w, NewBlocks(x, 2), br, c1);
    c' := Do(w, c1, br);
    Chain(g, w, c, c1, c', 1, 1);
    Enough(g, w, c, c', 2, 0);
  }

  lemma Tail(a: seq<Entry>, b: seq<Entry>)
    ensures (a + b)[|a|..] == b
  {
  }

  lemma Enough(g: Code, w: World, c: Config, c': Config, m: int, n: int)
    requires Reaches(g, w, c, c', m) && n <= m
    ensures Reaches(g, w, c, c', n)
  {
    var k: nat :| k >= m && Steps(g, w, c, k) == c';
  }

  // The shape of the code of a checked call.
  lemma CallCode(g: Code, f: Fn, args: seq<Slot>, out: Slot, st: Ctx, lvl: nat)
    requires Ready(st, {}) && st.check && CgCall(f, args, out, st, lvl).Ok?
    requires Sub(CgCall(f, args, out, st, lvl).value.code, g)
    ensures st.excs != []
    ensures var x := Emit(st, ICall(f, args, out));
            var br := IExcBr(st.next + 1, st.next);
            var y := Fork(x, 2, br);
            && Ready(y, {}) && y.cur == st.next && y.stack == st.stack && y.excs == st.excs
            && Sub(x.code, g) && Sub(Emit(NewBlocks(x, 2), br).code, g) && Within(x)
            && At(NewBlocks(x, 2).code, st.cur) == At(x.code, st.cur)
            && Jump(y.excs[|y.excs| - 1], true, y, lvl).Ok?
            && var z := Jump(y.excs[|y.excs| - 1], true, y, lvl).value;
            && Sub(z.code, g) && CgCall(f, args, out, st, lvl).value == z.(cur := st.next + 1)
            && At(y.code, st.next) == [] && At(z.code, st.next + 1) == []
            && NewBlocks(x, 2).cur == st.cur
  {
    hide Ext, LabelsKept, Sub, Within, At, Marked, Tame;
    var x := Emit(st, ICall(f, args, out));
    var br := IExcBr(st.next + 1, st.next);
    var y := Fork(x, 2, br);
    Self(st, {});
    EmitFrame(st, st, ICall(f, args, out), {});
    ForkFrame(st, x, 2, br, {});
    ForkIs(x, 2, br);
    ReadySame(st, y);
    var jt := y.excs[|y.excs| - 1];
    FrameJump(jt, true, y, lvl);
    var z := Jump(jt, true, y, lvl).value;
    assert Sub(z.code, g) by { SubCur(z, st.next + 1, g); }
    SubBack(y, z, {}, g);
    SubCur(Emit(NewBlocks(x, 2), br), st.next, g);
    SubEmit(NewBlocks(x, 2), br, g);
    SubNew(x, 2, g);
    FreshBlocks(x, 2, br);
    Untouched(y, z, st.next + 1);
  }

  lemma SubCur(x: Ctx, b: nat, g: Code)
    ensures Sub(x.(cur := b).code, g) == Sub(x.code, g)
  {
  }

  lemma FreshBlocks(x: Ctx, n: nat, br: Instr)
    requires Within(x)
    ensures forall b: nat :: x.next <= b ==> At(Fork(x, n, br).code, b) == []
    ensures forall b: nat :: b < x.next && b != x.cur ==> At(Fork(x, n, br).code, b) == At(x.code, b)
    ensures NewBlocks(x, n).cur == x.cur
  {
    Self(x, {});
    NewBlocksFrame(x, x, n, {});
    assert forall b: nat :: b != x.cur ==> At(Emit(NewBlocks(x, n), br).code, b) == At(NewBlocks(x, n).code, b);
  }

  lemma Untouched(a: Ctx, b: Ctx, i: nat)
    requires Ext(a, b) && i < a.next && i != a.cur
    ensures At(b.code, i) == At(a.code, i)
  {
  }

  // The operand of an earlier evaluation is still on the stack.
  lemma ThrownBack(g: Code, w: World, c: Config, c1: Config, c': Config, t: Trace, us: seq<Slot>, vs: seq<Slot>, st: Ctx, st1: Ctx, fuel: nat)
    requires Reaches(g, w, c, c1, 0) && Thrown(g, w, c1, c', t, vs, st1, fuel)
    requires st1.stack == st.stack + Values(us) && st1.excs == st.excs && Marked(st.excs, st)
    ensures Thrown(g, w, c, c', t, us + vs, st, fuel)
  {
    var jt := st.excs[|st.excs| - 1];
    assert st1.stack + Values(vs) == st.stack + Values(us + vs);
    LeavesBack(g, w, c, c1, c', Run(Threw, t, fuel), st.stack + Values(us + vs), jt, fuel, fuel);
  }

  // More steps before leaving.
  lemma LeavesBack(g: Code, w: World, c: Config, c1: Config, c': Config, r: Run, es: seq<Entry>, jt: Target, fuel: nat, fuel1: nat)
    requires Reaches(g, w, c, c1, fuel - fuel1) && Leaves(g, w, c1, c', r, es, jt, fuel1)
    ensures Leaves(g, w, c, c', r, es, jt, fuel)
  {
    var f := Finish(w, r, es[jt.marker..]);
    Chain(g, w, c, c1, c', fuel - fuel1, fuel1 - f.fuel + if Halting(f.out) then 0 else 1);
  }

  // Leaving in two stages, of which the first may not end.
  lemma LeavesSplit(g: Code, w: World, c: Config, c': Config, r: Run, a: seq<Entry>, b: seq<Entry>, jt: Target, fuel: nat)
    requires Leaves(g, w, c, c', r, a + b, jt, fuel) && jt.marker <= |a| && Tame(b) && !Halting(r.out)
    ensures var r1 := Finish(w, r, b);
            if r1.out == r.out then Leaves(g, w, c, c', r1, a, jt, fuel)
            else && Reaches(g, w, c, c', fuel - r1.fuel) && c'.t == r1.t
                 && ((r1.out == OutOfFuel && c'.Running?) || (r1.out == Stuck && c'.Wedged?))
  {
    hide Finish, Reaches, Tame, Leaves;
    From(a, b, jt.marker);
    FinishSplit(w, r, a[jt.marker..], b);
    FinishKind(w, r, b, a[jt.marker..]);
    var r1 := Finish(w, r, b);
    if r1.out == r.out {
      LeavesSame(g, w, c, c', r, a + b, r1, a, jt, fuel);
    } else {
      LeavesHalted(g, w, c, c', r, a + b, jt, fuel);
    }
  }

  lemma LeavesSame(g: Code, w: World, c: Config, c': Config, r: Run, es: seq<Entry>, r1: Run, es1: seq<Entry>, jt: Target, fuel: nat)
    requires Leaves(g, w, c, c', r, es, jt, fuel) && jt.marker <= |es1|
    requires Finish(w, r1, es1[jt.marker..]) == Finish(w, r, es[jt.marker..])
    ensures Leaves(g, w, c, c', r1, es1, jt, fuel)
  {
    hide Finish, Reaches;
  }

  lemma LeavesHalted(g: Code, w: World, c: Config, c': Config, r: Run, es: seq<Entry>, jt: Target, fuel: nat)
    requires Leaves(g, w, c, c', r, es, jt, fuel) && Halting(Finish(w, r, es[jt.marker..]).out)
    ensures var f := Finish(w, r, es[jt.marker..]);
            && Reaches(g, w, c, c', fuel - f.fuel) && c'.t == f.t
            && ((f.out == OutOfFuel && c'.Running?) || (f.out == Stuck && c'.Wedged?))
  {
    hide Finish, Reaches;
  }

  lemma From(a: seq<Entry>, b: seq<Entry>, n: nat)
    requires n <= |a|
    ensures (a + b)[n..] == a[n..] + b
  {
  }

  // A scope is left with the outcome it was left with, or not at all.
  lemma FinishKind(w: World, r: Run, b: seq<Entry>, a: seq<Entry>)
    requires !Halting(r.out) && Tame(b)
    ensures var r1 := Finish(w, r, b);
            r1.out == r.out || ((r1.out == Stuck || r1.out == OutOfFuel) && Finish(w, r1, a) == r1)
  {
    hide Tame;
    UnwindOutcome(w, b, r.out == Threw, r.t, r.fuel);
    hide Unwind;
  }

  lemma ThrownDrop(g: Code, w: World, c: Config, c': Config, t: Trace, vs: seq<Slot>, st: Ctx, fuel: nat)
    requires Thrown(g, w, c, c', t, vs, st, fuel)
    ensures Thrown(g, w, c, c', DropAll(vs, t), [], st, fuel)
  {
    var r := Run(Threw, t, fuel);
    LeavesSplit(g, w, c, c', r, st.stack, Values(vs), st.excs[|st.excs| - 1], fuel);
    FinishValues(w, r, vs);
    assert st.stack + Values([]) == st.stack;
  }

  lemma {:induction false} SimInto(g: Code, w: World, e: Expr, out: Slot, st: Ctx, lvl: nat, c: Config, fuel: nat) returns (c': Config)
    requires Ready(st, {}) && CgInto(e, out, st, lvl).Ok?
    requires Here(c, st) && Sub(CgInto(e, out, st, lvl).value.code, g)
    ensures var r := EvalInto(w, e, out, c.t, st.check);
            if r.threw then Thrown(g, w, c, c', r.t, r.temps, st, fuel)
            else Evaluated(g, w, c, c', r, out, TempsInto(e), CgInto(e, out, st, lvl).value)
    decreases fuel, lvl, 4, e, 1
  {
    hide Ext, LabelsKept, SameTargets, Within, Sub, Reaches, Thrown;
    match e
    case Lit(b, _) =>
      Execute(g, w, st, IStore(out, b), c);
      Enough(g, w, c, Do(w, c, IStore(out, b)), 1, 0);
      return Do(w, c, IStore(out, b));
    case Call(f, args, _, _) => c' := SimCallExpr(g, w, e, out, st, lvl, c, fuel);
    case And(_, _, _) => c' := SimAndOr(g, w, e, out, st, lvl, c, fuel);
    case Or(_, _, _) => c' := SimAndOr(g, w, e, out, st, lvl, c, fuel);
  }

  lemma {:induction false} SimCallExpr(g: Code, w: World, e: Expr, out: Slot, st: Ctx, lvl: nat, c: Config, fuel: nat) returns (c': Config)
    requires e.Call? && Ready(st, {}) && CgInto(e, out, st, lvl).Ok?
    requires Here(c, st) && Sub(CgInto(e, out, st, lvl).value.code, g)
    ensures var r := EvalInto(w, e, out, c.t, st.check);
            if r.threw then Thrown(g, w, c, c', r.t, r.temps, st, fuel)
            else Evaluated(g, w, c, c', r, out, TempsInto(e), CgInto(e, out, st, lvl).value)
    decreases fuel, lvl, 4, e, 0
  {
    hide Ext, LabelsKept, Within, Sub, Reaches, Thrown, At;
    var n := |e.args|;
    var st1 := CgArgs(e.args, n, st, lvl).value;
    var a := EvalArgs(w, e.args, n, c.t, st.check);
    FrameArgs(e.args, n, st, lvl);
    FrameCall(e.f, Homes(e.args), out, st1, lvl);
    SubBack(st1, CgInto(e, out, st, lvl).value, {}, g);
    var c1 := SimArgs(g, w, e.args, n, st, lvl, c, fuel);
    if a.threw { return c1; }
    ReadyMore(st, st1, TempsArgs(e.args, n));
    c' := SimCall(g, w, e.f, Homes(e.args), out, a, st1, lvl, c1, fuel);
    var r := CallNow(w, e.f, Homes(e.args), out, a, st.check);
    if r.threw {
      ThrownBack(g, w, c, c1, c', r.t, TempsArgs(e.args, n), [], st, st1, fuel);
      assert TempsArgs(e.args, n) + [] == r.temps;
    } else {
      Chain(g, w, c, c1, c', 0, 0);
    }
  }

  lemma {:induction false} SimAndOr(g: Code, w: World, e: Expr, out: Slot, st: Ctx, lvl: nat, c: Config, fuel: nat) returns (c': Config)
    requires (e.And? || e.Or?) && Ready(st, {}) && CgAndOr(e, out, st, lvl).Ok?
    requires Here(c, st) && Sub(CgAndOr(e, out, st, lvl).value.code, g)
    ensures var r := EvalInto(w, e, out, c.t, st.check);
            if r.threw then Thrown(g, w, c, c', r.t, r.temps, st, fuel)
            else Evaluated(g, w, c, c', r, out, TempsRef(e.l), CgAndOr(e, out, st, lvl).value)
    decreases fuel, lvl, 4, e, 0
  {
    hide Ext, LabelsKept, SameTargets, Within, Sub, Reaches, Thrown, Tame, Marked, At, NewBlocks, CgRef, CgArm, EvalRef, Values, TempsRef, Home, NewBlock, Emit;
    var st1 := CgRef(e.l, st, lvl).value;
    var arm, skip, merge := st1.next, st1.next + 1, st1.next + 2;
    var br := if e.Or? then ICondBr(Home(e.l), skip, arm) else ICondBr(Home(e.l), arm, skip);
    var st2 := Fork(st1, 3, br);
    ForkIs(st1, 3, br);
    var st3 := CgArm(e.r, out, merge, st2, lvl).value;
    AndOrCode(g, e, out, st, lvl, st1, br, st2, st3);
    var c1 := SimRef(g, w, e.l, st, lvl, c, fuel);
    var a := EvalRef(w, e.l, c.t, st.check);
    if a.threw { return c1; }
    var c2 := SimBranch(g, w, st1, 3, br, c1);
    Chain(g, w, c, c1, c2, 0, 0);
    hide Fork, Evaluated;
    if a.flag == e.Or? {
      c' := SimSkip(g, w, st3.(cur := skip), IStore(out, e.Or?), merge, c2);
      Chain(g, w, c, c2, c', 0, 0);
      AndOrDone(g, w, c, c', e, out, a.(t := a.t + [Stored(out, e.Or?)]), st3, skip, merge);
      return;
    }
    c' := SimArm(g, w, e.r, out, merge, a, st2, lvl, c2, fuel);
    var b := EvalRef(w, e.r, c2.t, st.check);
    if b.threw {
      ThrownBack(g, w, c, c2, c', b.t, TempsRef(e.l), b.temps, st, st2, fuel);
    } else {
      Chain(g, w, c, c2, c', 0, 0);
      AndOrDone(g, w, c, c', e, out, Evaled(false, DropAll(b.temps, b.t + [Stored(out, b.flag)]), b.flag, a.temps), st3, skip, merge);
    }
  }

  lemma AndOrDone(g: Code, w: World, c: Config, c': Config, e: Expr, out: Slot, r: Evaled, st3: Ctx, skip: nat, merge: nat)
    requires (e.And? || e.Or?) && AtBlock(c', merge) && c'.t == r.t && Load(c'.mem, out) == r.flag && Reaches(g, w, c, c', 0)
    requires r.temps == TempsRef(e.l)
    requires At(Fill(st3, skip, IStore(out, e.Or?), IBr(merge), merge).code, merge) == []
    ensures Evaluated(g, w, c, c', r, out, TempsRef(e.l), Fill(st3, skip, IStore(out, e.Or?), IBr(merge), merge))
  {
  }

  // Ending a block with a branch to freshly created ones.
  lemma SimBranch(g: Code, w: World, st: Ctx, n: nat, br: Instr, c: Config) returns (c': Config)
    requires Here(c, st) && Sub(Emit(NewBlocks(st, n), br).code, g) && At(NewBlocks(st, n).code, st.cur) == At(st.code, st.cur)
    requires NewBlocks(st, n).cur == st.cur && (br.IBr? || br.ICondBr?)
    ensures c' == Do(w, c, br) && Reaches(g, w, c, c', 0)
  {
    Execute(g, w, NewBlocks(st, n), br, c);
    c' := Do(w, c, br);
    Enough(g, w, c, c', 1, 0);
  }

  // A store and a branch.
  lemma SimSkip(g: Code, w: World, st: Ctx, i: Instr, b: nat, c: Config) returns (c': Config)
    requires Here(c, st) && i.IStore? && Sub(Emit(Emit(st, i), IBr(b)).code, g)
    ensures AtBlock(c', b) && c'.t == c.t + [Stored(i.out, i.b)] && c'.mem == c.mem[i.out := i.b] && Reaches(g, w, c, c', 0)
  {
    SubEmit(Emit(st, i), IBr(b), g);
    Execute(g, w, st, i, c);
    var c1 := Do(w, c, i);
    Execute(g, w, Emit(st, i), IBr(b), c1);
    c' := Do(w, c1, IBr(b));
    Chain(g, w, c, c1, c', 1, 1);
    Enough(g, w, c, c', 2, 0);
  }

  // The code around a fork.
  lemma ForkCode(g: Code, st: Ctx, n: nat, br: Instr)
    requires Within(st) && Sub(Fork(st, n, br).code, g)
    ensures Sub(st.code, g) && Sub(Emit(NewBlocks(st, n), br).code, g)
    ensures NewBlocks(st, n).cur == st.cur && At(NewBlocks(st, n).code, st.cur) == At(st.code, st.cur)
    ensures forall b: nat :: st.next <= b ==> At(Fork(st, n, br).code, b) == []
    ensures forall b: nat :: b < st.next && b != st.cur ==> At(Fork(st, n, br).code, b) == At(st.code, b)
  {
    SubCur(Emit(NewBlocks(st, n), br), st.next, g);
    SubEmit(NewBlocks(st, n), br, g);
    SubNew(st, n, g);
    FreshBlocks(st, n, br);
  }

  // The code around a filled block.
  lemma FillCode(g: Code, st: Ctx, b: nat, i: Instr, j: Instr, b': nat)
    requires Sub(Fill(st, b, i, j, b').code, g)
    ensures Sub(st.code, g) && Sub(Emit(Emit(st.(cur := b), i), j).code, g)
    ensures forall m: nat :: m != b ==> At(Fill(st, b, i, j, b').code, m) == At(st.code, m)
  {
    var x := Emit(st.(cur := b), i);
    SubCur(Emit(x, j), b', g);
    SubEmit(x, j, g);
    SubEmit(st.(cur := b), i, g);
    SubCur(st, b, g);
    assert forall m: nat :: m != b ==> At(x.code, m) == At(st.code, m);
  }

  // The shape of the code of and/or.
  lemma AndOrCode(g: Code, e: Expr, out: Slot, st: Ctx, lvl: nat, st1: Ctx, br: Instr, st2: Ctx, st3: Ctx)
    requires (e.And? || e.Or?) && Ready(st, {}) && CgRef(e.l, st, lvl) == Ok(st1)
    requires st2 == Fork(st1, 3, br) && CgArm(e.r, out, st1.next + 2, st2, lvl) == Ok(st3)
    requires Sub(Fill(st3, st1.next + 1, IStore(out, e.Or?), IBr(st1.next + 2), st1.next + 2).code, g)
    ensures Sub(st1.code, g) && Sub(Emit(NewBlocks(st1, 3), br).code, g) && NewBlocks(st1, 3).cur == st1.cur
    ensures At(NewBlocks(st1, 3).code, st1.cur) == At(st1.code, st1.cur)
    ensures Sub(st3.code, g) && Ready(st2, {}) && st2.stack == st.stack + Values(TempsRef(e.l)) && st2.excs == st.excs
    ensures st2.check == st.check && At(st2.code, st1.next) == [] && At(st3.code, st1.next + 1) == []
    ensures Sub(Emit(Emit(st3.(cur := st1.next + 1), IStore(out, e.Or?)), IBr(st1.next + 2)).code, g)
    ensures At(Fill(st3, st1.next + 1, IStore(out, e.Or?), IBr(st1.next + 2), st1.next + 2).code, st1.next + 2) == []
  {
    hide Ext, LabelsKept, Within, Sub, Tame, Marked, At, CgRef, CgArm;
    FrameRef(e.l, st, lvl);
    ForkFrame(st, st1, 3, br, {});
    ReadyMore(st, st2, TempsRef(e.l));
    FrameArm(e.r, out, st1.next + 2, st2, lvl);
    FillCode(g, st3, st1.next + 1, IStore(out, e.Or?), IBr(st1.next + 2), st1.next + 2);
    SubBack(st2, st3, {}, g);
    ForkCode(g, st1, 3, br);
    Untouched(st2, st3, st1.next + 1);
    Untouched(st2, st3, st1.next + 2);
  }

  lemma {:induction false} SimArm(g: Code, w: World, e: Expr, out: Slot, merge: nat, a: Evaled, st: Ctx, lvl: nat, c: Config, fuel: nat) returns (c': Config)
    requires Ready(st, {}) && CgArm(e, out, merge, st, lvl).Ok?
    requires Here(c, st) && c.t == a.t && Sub(CgArm(e, out, merge, st, lvl).value.code, g)
    ensures var b := EvalRef(w, e, c.t, st.check);
            if b.threw then Thrown(g, w, c, c', b.t, b.temps, st, fuel)
            else AtBlock(c', merge) && c'.t == DropAll(b.temps, b.t + [Stored(out, b.flag)]) && Load(c'.mem, out) == b.flag && Reaches(g, w, c, c', 0)
    decreases fuel, lvl, 4, e, 3
  {
    hide Ext, LabelsKept, Within, Sub, Reaches, Thrown, At, SameTargets, Tame, Marked, CgRef, DestroyPop, EvalRef, TempsRef, Values, Home;
    var st1 := CgRef(e, st, lvl).value;
    var i := ICopy(out, Home(e));
    var st2 := Emit(st1, i);
    var st3 := DestroyPop(|st.stack|, false, st2, lvl).value;
    FrameRef(e, st, lvl);
    EmitFrame(st, st1, i, {});
    FrameDestroyPop(|st.stack|, false, st2, lvl);
    SubEmit(st3, IBr(merge), g);
    SubBack(st2, st3, {}, g);
    SubEmit(st1, i, g);
    var c1 := SimRef(g, w, e, st, lvl, c, fuel);
    var b := EvalRef(w, e, c.t, st.check);
    if b.threw { return c1; }
    Execute(g, w, st1, i, c1);
    var c2 := Do(w, c1, i);
    Tail(st.stack, Values(TempsRef(e)));
    var c3 := SimDrop(g, w, TempsRef(e), |st.stack|, st2, lvl, c2);
    Execute(g, w, st3, IBr(merge), c3);
    c' := Do(w, c3, IBr(merge));
    Chain(g, w, c, c1, c2, 0, 1);
    Chain(g, w, c, c2, c3, 1, 0);
    Chain(g, w, c, c3, c', 1, 1);
    Enough(g, w, c, c', 2, 0);
  }

  ghost predicate Evaluated(g: Code, w: World, c: Config, c': Config, r: Evaled, out: Slot, vs: seq<Slot>, st: Ctx) {
    Here(c', st) && c'.t == r.t && Load(c'.mem, out) == r.flag && r.temps == vs && Reaches(g, w, c, c', 0)
  }

  lemma {:induction false} SimRef(g: Code, w: World, e: Expr, st: Ctx, lvl: nat, c: Config, fuel: nat) returns (c': Config)
    requires Ready(st, {}) && CgRef(e, st, lvl).Ok?
    requires Here(c, st) && Sub(CgRef(e, st, lvl).value.code, g)
    ensures var r := EvalRef(w, e, c.t, st.check);
            if r.threw then Thrown(g, w, c, c', r.t, r.temps, st, fuel)
            else Evaluated(g, w, c, c', r, Home(e), TempsRef(e), CgRef(e, st, lvl).value)
    decreases fuel, lvl, 4, e, 2
  {
    c' := SimInto(g, w, e, Home(e), st, lvl, c, fuel);
  }

  lemma {:induction false} SimArgs(g: Code, w: World, args: seq<Expr>, n: nat, st: Ctx, lvl: nat, c: Config, fuel: nat) returns (c': Config)
    requires n <= |args| && Ready(st, {}) && CgArgs(args, n, st, lvl).Ok?
    requires Here(c, st) && Sub(CgArgs(args, n, st, lvl).value.code, g)
    ensures var r := EvalArgs(w, args, n, c.t, st.check);
            if r.threw then Thrown(g, w, c, c', r.t, r.temps, st, fuel)
            else Here(c', CgArgs(args, n, st, lvl).value) && c'.t == r.t && r.temps == TempsArgs(args, n) && Reaches(g, w, c, c', 0)
    decreases fuel, lvl, 4, args, n
  {
    hide Ext, LabelsKept, Within, Sub, Reaches, At, Thrown, EvalRef, Values, TempsRef, CgRef;
    NoStep(g, w, c);
    if n == 0 { return c; }
    var st1 := CgArgs(args, n - 1, st, lvl).value;
    var a := EvalArgs(w, args, n - 1, c.t, st.check);
    FrameArgs(args, n - 1, st, lvl);
    FrameRef(args[n - 1], st1, lvl);
    SubBack(st1, CgArgs(args, n, st, lvl).value, {}, g);
    var c1 := SimArgs(g, w, args, n - 1, st, lvl, c, fuel);
    if a.threw { return c1; }
    ReadyMore(st, st1, TempsArgs(args, n - 1));
    c' := SimRef(g, w, args[n - 1], st1, lvl, c1, fuel);
    var b := EvalRef(w, args[n - 1], c1.t, st.check);
    if b.threw {
      ThrownBack(g, w, c, c1, c', b.t, TempsArgs(args, n - 1), b.temps, st, st1, fuel);
    } else {
      Chain(g, w, c, c1, c', 0, 0);
    }
  }

  // Temporaries do not disturb what the state is ready for.
  lemma ReadyMore(st: Ctx, st1: Ctx, vs: seq<Slot>)
    requires Ready(st, {}) && Frame(st, st1, {}) && st1.stack == st.stack + Values(vs)
    ensures Ready(st1, {})
  {
  }

  lemma {:induction false} SimWhole(g: Code, w: World, e: Expr, st: Ctx, lvl: nat, c: Config, fuel: nat) returns (c': Config)
    requires Ready(st, {}) && CgWhole(e, st, lvl).Ok?
    requires Here(c, st) && Sub(CgWhole(e, st, lvl).value.code, g)
    ensures var r := EvalWhole(w, e, c.t, st.check);
            if r.threw then Thrown(g, w, c, c', r.t, [], st, fuel)
            else Evaluated(g, w, c, c', r, Home(e), [], CgWhole(e, st, lvl).value)
    decreases fuel, lvl, 5
  {
    c' := SimRefDrop(g, w, e, Home(e), st, CgRef(e, st, lvl).value, lvl, c, fuel, TempsRef(e), true);
  }

  // Evaluating an expression, into its own slot or a given one, and destroying
  // its temporaries.
  lemma {:induction false} SimRefDrop(g: Code, w: World, e: Expr, out: Slot, st: Ctx, st1: Ctx, lvl: nat, c: Config, fuel: nat, vs: seq<Slot>, asRef: bool) returns (c': Config)
    requires Ready(st, {}) && st1.stack == st.stack + Values(vs) && DestroyPop(|st.stack|, false, st1, lvl).Ok?
    requires if asRef then CgRef(e, st, lvl) == Ok(st1) && out == Home(e) && vs == TempsRef(e)
             else CgInto(e, out, st, lvl) == Ok(st1) && vs == TempsInto(e)
    requires Here(c, st) && Sub(DestroyPop(|st.stack|, false, st1, lvl).value.code, g)
    ensures var r := if asRef then EvalRef(w, e, c.t, st.check) else EvalInto(w, e, out, c.t, st.check);
            if r.threw then Thrown(g, w, c, c', DropAll(r.temps, r.t), [], st, fuel)
            else Evaluated(g, w, c, c', Evaled(false, DropAll(r.temps, r.t), r.flag, []), out, [], DestroyPop(|st.stack|, false, st1, lvl).value)
    decreases fuel, lvl, 4, e, 5
  {
    hide Ext, LabelsKept, SameTargets, Within, Sub, Reaches, Thrown, At, Marked, Tame, CgInto, CgRef, DestroyPop;
    var st2 := DestroyPop(|st.stack|, false, st1, lvl).value;
    var r := if asRef then EvalRef(w, e, c.t, st.check) else EvalInto(w, e, out, c.t, st.check);
    if asRef { FrameRef(e, st, lvl); } else { FrameInto(e, out, st, lvl); }
    ReadyMore(st, st1, vs);
    FrameDestroyPop(|st.stack|, false, st1, lvl);
    SubBack(st1, st2, {}, g);
    var c1;
    if asRef { c1 := SimRef(g, w, e, st, lvl, c, fuel); } else { c1 := SimInto(g, w, e, out, st, lvl, c, fuel); }
    if r.threw {
      ThrownDrop(g, w, c, c1, r.t, r.temps, st, fuel);
      return c1;
    }
    Tail(st.stack, Values(vs));
    c' := SimDrop(g, w, vs, |st.stack|, st1, lvl, c1);
    Chain(g, w, c, c1, c', 0, 0);
  }

  lemma {:induction false} SimInits(g: Code, w: World, inits: seq<Init>, n: nat, st: Ctx, lvl: nat, c: Config, fuel: nat) returns (c': Config)
    requires n <= |inits| && Ready(st, {}) && CgInits(inits, n, st, lvl).Ok?
    requires Here(c, st) && Sub(CgInits(inits, n, st, lvl).value.code, g)
    ensures var r := EvalInits(w, inits, n, c.t, st.check);
            if r.out == Normal then Here(c', CgInits(inits, n, st, lvl).value) && c'.t == r.t && Reaches(g, w, c, c', 0)
            else r.out == Threw && Thrown(g, w, c, c', r.t, [], st, fuel)
    decreases fuel, lvl, 6, n
  {
    hide Ext, LabelsKept, Within, Sub, Reaches, Thrown, At, Marked, Tame, CgOneInto, Slots, Values, EvalInto, Home, TempsInto, DropAll, CgInto;
    NoStep(g, w, c);
    if n == 0 { return c; }
    var e, out := inits[n - 1].e, inits[n - 1].out;
    var st1 := CgInits(inits, n - 1, st, lvl).value;
    var st2 := CgOneInto(e, out, st1, lvl).value;
    FrameInits(inits, n - 1, st, lvl);
    ReadyMore(st, st1, Slots(inits[..n - 1]));
    FrameOneInto(e, out, st1, lvl);
    SubBack(st1, st2, {}, g);
    var c1 := SimInits(g, w, inits, n - 1, st, lvl, c, fuel);
    if EvalInits(w, inits, n - 1, c.t, st.check).out != Normal { return c1; }
    c' := SimOneInto(g, w, e, out, st1, lvl, c1, fuel);
    var b := EvalInto(w, e, out, c1.t, st.check);
    if b.threw {
      InitThrew(g, w, c, c1, c', DropAll(b.temps, b.t), Slots(inits[..n - 1]), st, st1, fuel);
    } else {
      Chain(g, w, c, c1, c', 0, 0);
    }
  }

  lemma InitThrew(g: Code, w: World, c: Config, c1: Config, c': Config, t: Trace, us: seq<Slot>, st: Ctx, st1: Ctx, fuel: nat)
    requires Ready(st, {}) && Frame(st, st1, {}) && st1.stack == st.stack + Values(us)
    requires Reaches(g, w, c, c1, 0) && Thrown(g, w, c1, c', t, [], st1, fuel)
    ensures Thrown(g, w, c, c', DropAll(us, t), [], st, fuel)
  {
    hide Thrown, Reaches, Ext, LabelsKept;
    ThrownBack(g, w, c, c1, c', t, us, [], st, st1, fuel);
    assert us + [] == us;
    ThrownDrop(g, w, c, c', t, us, st, fuel);
  }

  lemma FrameOneInto(e: Expr, out: Slot, st: Ctx, lvl: nat)
    requires Within(st) && Tame(st.stack) && CgOneInto(e, out, st, lvl).Ok?
    ensures Frame(st, CgOneInto(e, out, st, lvl).value, {})
  {
    FrameInto(e, out, st, lvl);
    var st1 := CgInto(e, out, st, lvl).value;
    FrameDestroyPop(|st.stack|, false, st1, lvl);
    Then(st, st1, CgOneInto(e, out, st, lvl).value, {}, {});
  }

  lemma {:induction false} SimOneInto(g: Code, w: World, e: Expr, out: Slot, st: Ctx, lvl: nat, c: Config, fuel: nat) returns (c': Config)
    requires Ready(st, {}) && CgOneInto(e, out, st, lvl).Ok?
    requires Here(c, st) && Sub(CgOneInto(e, out, st, lvl).value.code, g)
    ensures var r := EvalInto(w, e, out, c.t, st.check);
            if r.threw then Thrown(g, w, c, c', DropAll(r.temps, r.t), [], st, fuel)
            else Here(c', CgOneInto(e, out, st, lvl).value) && c'.t == DropAll(r.temps, r.t) && Reaches(g, w, c, c', 0)
    decreases fuel, lvl, 5
  {
    c' := SimRefDrop(g, w, e, out, st, CgInto(e, out, st, lvl).value, lvl, c, fuel, TempsInto(e), false);
  }

  // ----- statements ---------------------------------------------------------

  // Threw, with nothing of the statement's own left to destroy.
  lemma ThrownMatches(g: Code, w: World, c: Config, c': Config, t: Trace, st: Ctx, d: Done, scope: set<string>, fuel: nat)
    requires Thrown(g, w, c, c', t, [], st, fuel)
    ensures Match(g, w, c, c', Run(Threw, t, fuel), st, d, scope, fuel)
  {
    assert st.stack + Values([]) == st.stack;
  }

  // A statement inside a scope that owns own has ended abruptly; the scope ends.
  lemma MatchLeave(g: Code, w: World, c: Config, c': Config, r: Run, st1: Ctx, d1: Done, scope1: set<string>,
                   own: seq<Entry>, st: Ctx, d: Done, scope: set<string>, fuel: nat)
    requires Match(g, w, c, c', r, st1, d1, scope1, fuel) && r.out != Normal
    requires st1.stack == st.stack + own && Tame(own)
    requires !Halting(r.out) ==> SameTarget(r.out, st1, st, scope)
    requires r.out == Broke ==> d.st.breaks != [] && d.st.breaks[|d.st.breaks| - 1].uses > 0
    ensures Match(g, w, c, c', Finish(w, r, own), st, d, scope, fuel)
  {
    if !Halting(r.out) {
      var jt1, jt := TargetOf(r.out, st1).value, TargetOf(r.out, st).value;
      assert Leaves(g, w, c, c', r, st1.stack, jt, fuel);
      LeavesSplit(g, w, c, c', r, st.stack, own, jt, fuel);
    }
  }

  // The outcome leaves for the same place from st1 as from st, outside.
  ghost predicate SameTarget(o: Outcome, st1: Ctx, st: Ctx, scope: set<string>) {
    && TargetOf(o, st1).Some? && TargetOf(o, st).Some?
    && TargetOf(o, st1).value.block == TargetOf(o, st).value.block
    && TargetOf(o, st1).value.marker == TargetOf(o, st).value.marker <= |st.stack|
    && (o.Went? ==> o.l in scope)
  }

  // More steps in front.
  lemma MatchBack(g: Code, w: World, c: Config, c1: Config, c': Config, r: Run, st: Ctx, d: Done, scope: set<string>, fuel: nat, fuel1: nat)
    requires Reaches(g, w, c, c1, fuel - fuel1) && Match(g, w, c1, c', r, st, d, scope, fuel1)
    ensures Match(g, w, c, c', r, st, d, scope, fuel)
  {
    if Halting(r.out) {
      Chain(g, w, c, c1, c', fuel - fuel1, fuel1 - r.fuel);
    } else {
      LeavesBack(g, w, c, c1, c', r, st.stack, TargetOf(r.out, st).value, fuel, fuel1);
    }
  }

  lemma {:induction false} SimStmt(g: Code, w: World, s: Stmt, st: Ctx, lvl: nat, c: Config, fuel: nat, cleanup: bool, inLoop: bool, scope: set<string>) returns (c': Config)
    requires Ready(st, scope) && WellFormed(s, cleanup, inLoop, scope) && st.labels.Keys !! LabelsOf(s)
    requires CgStmt(s, st, lvl).Ok?
    requires Here(c, st) && Sub(CgStmt(s, st, lvl).value.st.code, g)
    ensures Match(g, w, c, c', Exec(w, s, c.t, st.check, fuel), st, CgStmt(s, st, lvl).value, scope, fuel)
    decreases fuel, lvl, 8, s, 4
  {
    hide Ext, LabelsKept, SameTargets, Sub, Reaches, Thrown, At, Leaves, Tame, Within, WellFormedAll, EvalWhole, CgWhole, Jump;
    var d := CgStmt(s, st, lvl).value;
    match s
    case Block(body) => c' := SimBlockStmt(g, w, body, st, lvl, c, fuel, cleanup, inLoop, scope);
    case Label(_) => assert false; c' := c;
    case Var(_) => assert false; c' := c;
    case Goto(l) => c' := SimAway(g, w, Went(l), st.labels[l], st, d, lvl, c, scope, fuel);
    case Eval(e) =>
      c' := SimWhole(g, w, e, st, lvl, c, fuel);
      var r := EvalWhole(w, e, c.t, st.check);
      if r.threw { ThrownMatches(g, w, c, c', r.t, st, d, scope, fuel); }
    case Return(inits) => c' := SimReturn(g, w, inits, st, lvl, c, fuel, scope);
    case Throw(args) => c' := SimThrow(g, w, args, st, lvl, c, fuel, scope);
    case If(_, _, _, _, _) => c' := SimIf(g, w, s, st, lvl, c, fuel, cleanup, inLoop, scope);
    case While(_, _, _) => c' := SimWhile(g, w, s, st, lvl, c, fuel, cleanup, inLoop, scope);
    case Break => c' := SimBreak(g, w, st, lvl, c, scope, fuel);
    case Continue => c' := SimAway(g, w, Continued, st.continues[|st.continues| - 1], st, d, lvl, c, scope, fuel);
    case Try(_, _) => c' := SimTry(g, w, s, st, lvl, c, fuel, cleanup, inLoop, scope);
    case Finally(b) => NoStep(g, w, c); c' := c;
    case OnError(b) => NoStep(g, w, c); c' := c;
    case Unreachable =>
      Execute(g, w, st, IUnreachable, c);
      c' := Do(w, c, IUnreachable);
      Enough(g, w, c, c', 1, 0);
  }

  // Jumping straight to the target of an outcome.
  lemma {:induction false} SimAway(g: Code, w: World, o: Outcome, jt: Target, st: Ctx, d: Done, lvl: nat, c: Config, scope: set<string>, fuel: nat) returns (c': Config)
    requires Ready(st, scope) && !Halting(o) && o != Threw && o != Broke && TargetOf(o, st) == Some(jt) && (o.Went? ==> o.l in scope)
    requires Jump(jt, false, st, lvl).Ok? && Here(c, st) && Sub(Jump(jt, false, st, lvl).value.code, g)
    ensures Match(g, w, c, c', Run(o, c.t, fuel), st, d, scope, fuel)
    decreases fuel, lvl, 3
  {
    ReadyLess(st, scope);
    c' := SimJump(g, w, Run(o, c.t, fuel), jt, st, lvl, c);
  }

  lemma ReadyLess(st: Ctx, scope: set<string>)
    requires Ready(st, scope)
    ensures Ready(st, {})
  {
  }

  lemma {:induction false} SimBreak(g: Code, w: World, st: Ctx, lvl: nat, c: Config, scope: set<string>, fuel: nat) returns (c': Config)
    requires Ready(st, scope) && CgStmt(Break, st, lvl).Ok?
    requires Here(c, st) && Sub(CgStmt(Break, st, lvl).value.st.code, g)
    ensures Match(g, w, c, c', Run(Broke, c.t, fuel), st, CgStmt(Break, st, lvl).value, scope, fuel)
    decreases fuel, lvl, 8, Break, 1
  {
    ReadyLess(st, scope);
    FrameBreak(st, lvl);
    var jt := st.breaks[|st.breaks| - 1];
    var st1 := Jump(jt, false, st, lvl).value;
    assert Sub(st1.code, g);
    c' := SimJump(g, w, Run(Broke, c.t, fuel), jt, st, lvl, c);
  }

  lemma {:induction false} SimReturn(g: Code, w: World, inits: seq<Init>, st: Ctx, lvl: nat, c: Config, fuel: nat, scope: set<string>) returns (c': Config)
    requires Ready(st, scope) && CgStmt(Return(inits), st, lvl).Ok?
    requires Here(c, st) && Sub(CgStmt(Return(inits), st, lvl).value.st.code, g)
    ensures Match(g, w, c, c', Exec(w, Return(inits), c.t, st.check, fuel), st, CgStmt(Return(inits), st, lvl).value, scope, fuel)
    decreases fuel, lvl, 8, Return(inits), 1
  {
    hide Ext, LabelsKept, SameTargets, Sub, Reaches, Thrown, At, Leaves, Tame, Within, Values, EvalInits, Slots, CgInits, Jump, Marked, Ready;
    ReadyLess(st, scope);
    var st0 := CgInits(inits, |inits|, st, lvl).value;
    var st1 := CgMultiInto(inits, st, lvl).value;
    var d := CgStmt(Return(inits), st, lvl).value;
    var jt := st1.rets[|st1.rets| - 1];
    FrameInits(inits, |inits|, st, lvl);
    PoppedFrame(st, st0);
    FrameJump(jt, false, st1, lvl);
    SubBack(st1, d.st, {}, g);
    var c1 := SimInits(g, w, inits, |inits|, st, lvl, c, fuel);
    var a := EvalInits(w, inits, |inits|, c.t, st.check);
    if a.out != Normal {
      ThrownMatches(g, w, c, c1, a.t, st, d, scope, fuel);
      return c1;
    }
    ReadySame(st, st1);
    assert Here(c1, st1);
    var r := Run(Returned(Flags(w, inits, |inits|, c.t, st.check)), a.t, fuel);
    c' := SimJump(g, w, r, jt, st1, lvl, c1);
    LeavesBack(g, w, c, c1, c', r, st.stack, jt, fuel, fuel);
    ReturnTarget(st, st1);
  }

  lemma PoppedFrame(st: Ctx, st0: Ctx)
    requires Frame(st, st0, {}) && st.stack <= st0.stack
    ensures Frame(st, PopTo(st0, |st.stack|), {}) && PopTo(st0, |st.stack|).stack == st.stack
  {
    hide Ext, LabelsKept;
    assert st0.stack[..|st.stack|] == st.stack;
    assert st.(stack := st.stack) == st;
    StackFrame(st, st0, {}, st.stack, st.stack);
  }

  lemma ReturnTarget(st: Ctx, st1: Ctx)
    requires Frame(st, st1, {}) && Ready(st, {})
    ensures st1.rets == st.rets && (st.rets != [] ==> st.rets[|st.rets| - 1].marker <= |st.stack|)
  {
  }

  lemma {:induction false} SimThrow(g: Code, w: World, args: seq<Expr>, st: Ctx, lvl: nat, c: Config, fuel: nat, scope: set<string>) returns (c': Config)
    requires Ready(st, scope) && CgStmt(Throw(args), st, lvl).Ok?
    requires Here(c, st) && Sub(CgStmt(Throw(args), st, lvl).value.st.code, g)
    ensures Match(g, w, c, c', Exec(w, Throw(args), c.t, st.check, fuel), st, CgStmt(Throw(args), st, lvl).value, scope, fuel)
    decreases fuel, lvl, 8, Throw(args), 1
  {
    hide Ext, LabelsKept, Sub, Reaches, Thrown, At, Leaves, Tame, Within, Marked, DestroyPop, CgCall, CgArgs, EvalArgs, Values, TempsArgs, DropAll;
    ReadyLess(st, scope);
    var out := Slot(Temp, 0, true);
    var vs := TempsArgs(args, |args|);
    var st1 := CgArgs(args, |args|, st, lvl).value;
    var st2 := CgCall(ThrowValue, Homes(args), out, st1, lvl).value;
    var st3 := DestroyPop(|st.stack|, false, st2, lvl).value;
    var d := CgStmt(Throw(args), st, lvl).value;
    FrameArgs(args, |args|, st, lvl);
    ReadyMore(st, st1, vs);
    FrameCall(ThrowValue, Homes(args), out, st1, lvl);
    FrameDestroyPop(|st.stack|, false, st2, lvl);
    SubEmit(st3, IUnreachable, g);
    SubBack(st2, st3, {}, g);
    SubBack(st1, st2, {}, g);
    var c1 := SimArgs(g, w, args, |args|, st, lvl, c, fuel);
    var a := EvalArgs(w, args, |args|, c.t, st.check);
    if a.threw {
      ThrownDrop(g, w, c, c1, a.t, a.temps, st, fuel);
      ThrownMatches(g, w, c, c1, DropAll(a.temps, a.t), st, d, scope, fuel);
      return c1;
    }
    var c2 := SimCall(g, w, ThrowValue, Homes(args), out, a, st1, lvl, c1, fuel);
    var b := CallNow(w, ThrowValue, Homes(args), out, a, st.check);
    if b.threw {
      InitThrew(g, w, c, c1, c2, b.t, vs, st, st1, fuel);
      ThrownMatches(g, w, c, c2, DropAll(vs, b.t), st, d, scope, fuel);
      return c2;
    }
    Tail(st.stack, Values(vs));
    var c3 := SimDrop(g, w, vs, |st.stack|, st2, lvl, c2);
    Execute(g, w, st3, IUnreachable, c3);
    c' := Do(w, c3, IUnreachable);
    Chain(g, w, c, c1, c2, 0, 0);
    Chain(g, w, c, c2, c3, 0, 0);
    Chain(g, w, c, c3, c', 0, 1);
    Enough(g, w, c, c', 1, 0);
  }

  lemma {:induction false} SimIf(g: Code, w: World, s: Stmt, st: Ctx, lvl: nat, c: Config, fuel: nat, cleanup: bool, inLoop: bool, scope: set<string>) returns (c': Config)
    requires s.If? && Ready(st, scope) && WellFormed(s, cleanup, inLoop, scope) && st.labels.Keys !! LabelsOf(s)
    requires CgIf(s, st, lvl).Ok?
    requires Here(c, st) && Sub(CgIf(s, st, lvl).value.st.code, g)
    ensures Match(g, w, c, c', Exec(w, s, c.t, st.check, fuel), st, CgIf(s, st, lvl).value, scope, fuel)
    decreases fuel, lvl, 8, s, 3
  {
    hide Ext, LabelsKept, Sub, Reaches, Thrown, At, Leaves, Tame, Within, Marked, CgPre, CgWhole, CgArms, EndScope, Match, Here;
    ReadyLess(st, scope);
    var p := CgPre(s.pre, |s.pre|, st, lvl).value;
    var st1 := CgWhole(s.cond, p, lvl).value;
    var da := CgArms(s, st1, lvl).value;
    var d := CgIf(s, st, lvl).value;
    IfFrame(s, st, lvl, cleanup, inLoop, scope, st1, da);
    SubBack(da.st, d.st, {}, g);
    SubBack(st1, da.st, LabelsOf(s), g);
    var c1 := SimCond(g, w, s.pre, s.cond, st, lvl, c, fuel);
    PreFuel(w, s.pre, |s.pre|, c.t, st.check, fuel);
    var pr := ExecPre(w, s.pre, |s.pre|, c.t, st.check, fuel);
    if pr.out != Normal {
      ThrownMatches(g, w, c, c1, pr.t, st, d, scope, fuel);
      return c1;
    }
    var cnd := EvalWhole(w, s.cond, pr.t, st.check);
    if cnd.threw {
      LeaveSimple(w, Run(Threw, cnd.t, fuel), s.pre, |s.pre|);
      ThrownMatches(g, w, c, c1, DropAll(PreSlots(s.pre, |s.pre|), cnd.t), st, d, scope, fuel);
      return c1;
    }
    var b := if s.kind.StaticTrue? || (s.kind.Dynamic? && cnd.flag) then s.thn else s.els;
    var r := Exec(w, b, cnd.t, st.check, fuel);
    var c2 := SimArms(g, w, s, st1, lvl, c1, fuel, cleanup, inLoop, scope);
    MatchBack(g, w, c, c1, c2, r, st1, da, scope, fuel, fuel);
    c' := SimClose(g, w, Own(s.pre, |s.pre|), st, st1, da, lvl, c, c2, r, scope, fuel, {});
  }

  // What is known of the states an if statement goes through.
  lemma IfFrame(s: Stmt, st: Ctx, lvl: nat, cleanup: bool, inLoop: bool, scope: set<string>, st1: Ctx, da: Done)
    requires s.If? && Ready(st, scope) && WellFormed(s, cleanup, inLoop, scope) && st.labels.Keys !! LabelsOf(s)
    requires CgIf(s, st, lvl).Ok? && st1 == CgWhole(s.cond, CgPre(s.pre, |s.pre|, st, lvl).value, lvl).value
    requires da == CgArms(s, st1, lvl).value
    ensures Frame(st, st1, {}) && st1.stack == st.stack + Own(s.pre, |s.pre|) && Tame(Own(s.pre, |s.pre|))
    ensures Ready(st1, scope) && Frame(st1, da.st, LabelsOf(s)) && da.st.stack == st1.stack && st1.labels.Keys !! LabelsOf(s)
    ensures Frame(da.st, CgIf(s, st, lvl).value.st, {}) && Tame(st1.stack)
  {
    hide Ext, LabelsKept, Within, CgWhole, CgPre, CgArms, EndScope;
    FramePre(s.pre, |s.pre|, st, lvl);
    var p := CgPre(s.pre, |s.pre|, st, lvl).value;
    FrameWhole(s.cond, p, lvl);
    Then(st, p, st1, {}, {});
    OwnSimple(s.pre, |s.pre|);
    ReadyInside(st, st1, Own(s.pre, |s.pre|), scope);
    FewLabels(st, st1, {});
    FrameArms(s, st1, lvl, cleanup, inLoop, scope);
    FrameEndScope(|st.stack|, da.term, da.st, lvl);
  }

  // A scope opened inside st.
  lemma ReadyInside(st: Ctx, st1: Ctx, own: seq<Entry>, scope: set<string>)
    requires Ready(st, scope) && Frame(st, st1, {}) && st1.stack == st.stack + own && Tame(own)
    ensures Ready(st1, scope)
  {
    hide Ext, Within;
    TameConcat(st.stack, own);
  }

  // A scope with entries own was entered in state st1, inside st; its contents
  // took control from c to c2. Now it ends, whichever way.
  lemma {:induction false} SimClose(g: Code, w: World, own: seq<Entry>, st: Ctx, st1: Ctx, d1: Done, lvl: nat,
                                    c: Config, c2: Config, r: Run, scope: set<string>, fuel: nat, ls: set<string>) returns (c': Config)
    requires Ready(st, scope) && st1.stack == st.stack + own && Tame(own) && d1.st.stack == st1.stack && Tame(st1.stack)
    requires SameTargets(st, st1) && LabelsKept(st, st1, ls) && SameTargets(st1, d1.st) && Within(d1.st)
    requires EndScope(|st.stack|, d1.term, d1.st, lvl).Ok? && Sub(EndScope(|st.stack|, d1.term, d1.st, lvl).value.st.code, g)
    requires Match(g, w, c, c2, r, st1, d1, scope, fuel) && r.fuel <= fuel
    ensures Match(g, w, c, c', Finish(w, r, own), st, EndScope(|st.stack|, d1.term, d1.st, lvl).value, scope, fuel)
    decreases fuel, lvl, 2, 1
  {
    hide Ext, LabelsKept, Sub, Reaches, At, Leaves, Tame, Within, Unwind;
    var d := EndScope(|st.stack|, d1.term, d1.st, lvl).value;
    if r.out != Normal {
      FrameEndScope(|st.stack|, d1.term, d1.st, lvl);
      if !Halting(r.out) { TargetInside(st, st1, r.out, scope, ls); }
      MatchLeave(g, w, c, c2, r, st1, d1, scope, own, st, d, scope, fuel);
      return c2;
    }
    Tail(st.stack, own);
    ReadyClose(st, st1, d1.st, scope);
    c' := SimDestroy(g, w, own, false, d1.st, lvl, c2, r.fuel);
    var u := Unwind(w, own, false, c2.t, r.fuel);
    UnwindOutcome(w, own, false, c2.t, r.fuel);
    Chain(g, w, c, c2, c', fuel - r.fuel, r.fuel - u.fuel);
  }

  lemma ReadyClose(st: Ctx, st1: Ctx, x: Ctx, scope: set<string>)
    requires Ready(st, scope) && st.stack <= st1.stack && Tame(st1.stack) && x.stack == st1.stack
    requires SameTargets(st, st1) && SameTargets(st1, x) && Within(x)
    ensures Ready(x, {})
  {
    hide Tame;
  }

  // The targets seen from inside a scope are those outside.
  lemma TargetInside(st: Ctx, st1: Ctx, o: Outcome, scope: set<string>, ls: set<string>)
    requires Ready(st, scope) && SameTargets(st, st1) && LabelsKept(st, st1, ls) && !Halting(o)
    requires TargetOf(o, st1).Some? && (o.Went? ==> o.l in scope)
    ensures SameTarget(o, st1, st, scope)
  {
    hide Tame, Within;
  }

  lemma {:induction false} SimArms(g: Code, w: World, s: Stmt, st: Ctx, lvl: nat, c: Config, fuel: nat, cleanup: bool, inLoop: bool, scope: set<string>) returns (c': Config)
    requires s.If? && Ready(st, scope) && WellFormed(s, cleanup, inLoop, scope) && st.labels.Keys !! LabelsOf(s)
    requires CgArms(s, st, lvl).Ok?
    requires Here(c, st) && Sub(CgArms(s, st, lvl).value.st.code, g)
    ensures var b := if s.kind.StaticTrue? || (s.kind.Dynamic? && Load(c.mem, Home(s.cond))) then s.thn else s.els;
            Match(g, w, c, c', Exec(w, b, c.t, st.check, fuel), st, CgArms(s, st, lvl).value, scope, fuel)
    decreases fuel, lvl, 8, s, 2
  {
    hide Ext, LabelsKept, SameTargets, Sub, Reaches, At, Leaves, Tame, Within, Marked, Match, CgStmt, Fork;
    var br := ICondBr(Home(s.cond), st.next, st.next + 1);
    if s.kind.Dynamic? {
      c' := SimTwo(g, w, s, st, lvl, c, fuel, cleanup, inLoop, scope);
    } else {
      c' := SimOne(g, w, s, st, lvl, c, fuel, cleanup, inLoop, scope);
    }
  }

  lemma {:induction false} SimOne(g: Code, w: World, s: Stmt, st: Ctx, lvl: nat, c: Config, fuel: nat, cleanup: bool, inLoop: bool, scope: set<string>) returns (c': Config)
    requires s.If? && !s.kind.Dynamic? && Ready(st, scope) && WellFormed(s, cleanup, inLoop, scope) && st.labels.Keys !! LabelsOf(s)
    requires CgArms(s, st, lvl).Ok?
    requires Here(c, st) && Sub(CgArms(s, st, lvl).value.st.code, g)
    ensures Match(g, w, c, c', Exec(w, if s.kind.StaticTrue? then s.thn else s.els, c.t, st.check, fuel), st, CgArms(s, st, lvl).value, scope, fuel)
    decreases fuel, lvl, 8, s, 1
  {
    hide Ext, Sub, Reaches, At, Leaves, Tame, Within, Marked, Match, CgStmt, Fork, WellFormed;
    var b := if s.kind.StaticTrue? then s.thn else s.els;
    var br := IBr(st.next);
    var x := Fork(st, 1, br);
    var d := CgArms(s, st, lvl).value;
    OneFrame(g, s, b, st, x, lvl, cleanup, inLoop, scope);
    var dx := CgStmt(b, x, lvl).value;
    var c1 := SimBranch(g, w, st, 1, br, c);
    var c2 := SimStmt(g, w, b, x, lvl, c1, fuel, cleanup, inLoop, scope);
    var r := Exec(w, b, c1.t, st.check, fuel);
    MatchBack(g, w, c, c1, c2, r, x, dx, scope, fuel, fuel);
    c' := PartDone(g, w, c, c2, r, x, dx, st, d, None, scope, fuel, {});
  }

  // What is known of the states of an if whose condition is static.
  lemma OneFrame(g: Code, s: Stmt, b: Stmt, st: Ctx, x: Ctx, lvl: nat, cleanup: bool, inLoop: bool, scope: set<string>)
    requires s.If? && !s.kind.Dynamic? && Ready(st, scope) && WellFormed(s, cleanup, inLoop, scope) && st.labels.Keys !! LabelsOf(s)
    requires b == (if s.kind.StaticTrue? then s.thn else s.els) && x == Fork(st, 1, IBr(st.next))
    requires CgArms(s, st, lvl).Ok? && Sub(CgArms(s, st, lvl).value.st.code, g)
    ensures CgStmt(b, x, lvl).Ok? && WellFormed(b, cleanup, inLoop, scope) && x.labels.Keys !! LabelsOf(b)
    ensures Ready(x, scope) && x.stack == st.stack && SameTargets(st, x) && LabelsKept(st, x, {}) && x.cur == st.next && x.check == st.check
    ensures Sub(Emit(NewBlocks(st, 1), IBr(st.next)).code, g) && NewBlocks(st, 1).cur == st.cur
    ensures At(NewBlocks(st, 1).code, st.cur) == At(st.code, st.cur) && At(x.code, st.next) == []
    ensures var dx := CgStmt(b, x, lvl).value;
            && Sub(dx.st.code, g) && Within(dx.st) && SameTargets(dx.st, CgArms(s, st, lvl).value.st)
            && (!dx.term ==> Arrives(g, dx, None, CgArms(s, st, lvl).value))
  {
    hide Ext, Sub, Tame, Within, Marked, CgStmt;
    ForkIs(st, 1, IBr(st.next));
    Self(st, {});
    ForkFrame(st, st, 1, IBr(st.next), {});
    ReadyWithin(st, x, scope, {});
    hide Ready;
    FrameStmtIn(b, x, lvl, cleanup, inLoop, scope) by { assert Ready(x, scope); }
    var dx := CgStmt(b, x, lvl).value;
    assert Sub(BranchToEnd(dx, None).code, g);
    EndCode(g, dx, None);
    SubBack(x, dx.st, LabelsOf(b), g) by { assert Within(x); }
    ForkCode(g, st, 1, IBr(st.next)) by { assert Ready(st, scope); }
  }

  lemma FrameStmtIn(s: Stmt, st: Ctx, lvl: nat, cleanup: bool, inLoop: bool, scope: set<string>)
    requires Ready(st, scope) && WellFormed(s, cleanup, inLoop, scope) && st.labels.Keys !! LabelsOf(s)
    requires CgStmt(s, st, lvl).Ok?
    ensures Frame(st, CgStmt(s, st, lvl).value.st, LabelsOf(s)) && Within(st)
    ensures !Bare(s) ==> CgStmt(s, st, lvl).value.st.stack == st.stack
  {
    FrameStmt(s, st, lvl, cleanup, inLoop, scope);
  }

  // A statement compiled where the stack stands as in st.
  lemma ReadyWithin(st: Ctx, x: Ctx, scope: set<string>, ls: set<string>)
    requires Ready(st, scope) && Within(x) && x.stack == st.stack && SameTargets(st, x) && LabelsKept(st, x, ls)
    ensures Ready(x, scope)
  {
    hide Within, Tame;
  }

  // Falling off the end of a part leads to where compilation of d goes on.
  ghost predicate Arrives(g: Code, dx: Done, end: Option<nat>, d: Done) {
    && !d.term && Sub(BranchToEnd(dx, end).code, g)
    && d.st.cur == (if end.Some? then end.value else dx.st.next)
    && At(d.st.code, d.st.cur) == []
    && (end == None ==> At(NewBlock(dx.st).code, dx.st.cur) == At(dx.st.code, dx.st.cur))
  }

  lemma EndCode(g: Code, d: Done, end: Option<nat>)
    requires Within(d.st) && Sub(BranchToEnd(d, end).code, g)
    ensures Sub(d.st.code, g)
    ensures !d.term && end == None ==> At(BranchToEnd(d, end).code, d.st.next) == []
    ensures !d.term && end == None ==> At(NewBlock(d.st).code, d.st.cur) == At(d.st.code, d.st.cur)
    ensures forall b: nat :: b != d.st.cur && b != d.st.next ==> At(BranchToEnd(d, end).code, b) == At(d.st.code, b)
    ensures end.Some? ==> At(BranchToEnd(d, end).code, d.st.next) == At(d.st.code, d.st.next)
  {
    if !d.term {
      match end
      case Some(b) => SubEmit(d.st, IBr(b), g);
      case None =>
        assert NewBlocks(d.st, 1) == NewBlock(NewBlocks(d.st, 0));
        SubEmit(NewBlock(d.st), IBr(d.st.next), g);
        SubNew(d.st, 1, g);
    }
  }

  // Falling off the end of a part.
  lemma Arrive(g: Code, w: World, c: Config, c2: Config, r: Run, dx: Done, end: Option<nat>, st: Ctx, d: Done, scope: set<string>, fuel: nat) returns (c': Config)
    requires Reaches(g, w, c, c2, fuel - r.fuel) && Here(c2, dx.st) && c2.t == r.t && r.out == Normal && !dx.term
    requires Arrives(g, dx, end, d)
    ensures Match(g, w, c, c', r, st, d, scope, fuel)
  {
    var b := if end.Some? then end.value else dx.st.next;
    var y := if end.Some? then dx.st else NewBlock(dx.st);
    assert BranchToEnd(dx, end) == Emit(y, IBr(b));
    Execute(g, w, y, IBr(b), c2);
    c' := Do(w, c2, IBr(b));
    Chain(g, w, c, c2, c', fuel - r.fuel, 1);
    Enough(g, w, c, c', fuel - r.fuel + 1, fuel - r.fuel);
  }

  // A part of st's statement, compiled from x to dx, ended with r.
  lemma PartDone(g: Code, w: World, c: Config, c2: Config, r: Run, x: Ctx, dx: Done, st: Ctx, d: Done, end: Option<nat>,
                 scope: set<string>, fuel: nat, ls: set<string>) returns (c': Config)
    requires Match(g, w, c, c2, r, x, dx, scope, fuel)
    requires Ready(st, scope) && x.stack == st.stack && SameTargets(st, x) && LabelsKept(st, x, ls)
    requires SameTargets(dx.st, d.st) && (!dx.term ==> Arrives(g, dx, end, d))
    ensures Match(g, w, c, c', r, st, d, scope, fuel)
  {
    hide Leaves, Reaches, Tame, Within, LabelsKept;
    if r.out == Normal {
      c' := Arrive(g, w, c, c2, r, dx, end, st, d, scope, fuel);
    } else {
      c' := c2;
      if !Halting(r.out) { TargetInside(st, x, r.out, scope, ls); }
      assert st.stack + [] == st.stack;
      MatchLeave(g, w, c, c2, r, x, dx, scope, [], st, d, scope, fuel);
      assert Finish(w, r, []) == r;
    }
  }

  lemma {:induction false} SimTwo(g: Code, w: World, s: Stmt, st: Ctx, lvl: nat, c: Config, fuel: nat, cleanup: bool, inLoop: bool, scope: set<string>) returns (c': Config)
    requires s.If? && s.kind.Dynamic? && Ready(st, scope) && WellFormed(s, cleanup, inLoop, scope) && st.labels.Keys !! LabelsOf(s)
    requires CgArms(s, st, lvl).Ok?
    requires Here(c, st) && Sub(CgArms(s, st, lvl).value.st.code, g)
    ensures var b := if Load(c.mem, Home(s.cond)) then s.thn else s.els;
            Match(g, w, c, c', Exec(w, b, c.t, st.check, fuel), st, CgArms(s, st, lvl).value, scope, fuel)
    decreases fuel, lvl, 8, s, 1
  {
    hide Ext, Sub, Reaches, At, Leaves, Tame, Within, Marked, Match, CgStmt, Fork, Merge, WellFormed;
    var br := ICondBr(Home(s.cond), st.next, st.next + 1);
    var x1 := Fork(st, 2, br);
    var d1, x2, d2 := TwoFrame(g, s, st, x1, lvl, cleanup, inLoop, scope);
    var d := CgArms(s, st, lvl).value;
    var c1 := SimBranch(g, w, st, 2, br, c);
    if Load(c.mem, Home(s.cond)) {
      c' := SimPart(g, w, s, s.thn, x1, d1, None, st, d, lvl, c, c1, fuel, cleanup, inLoop, scope, {});
    } else {
      c' := SimPart(g, w, s, s.els, x2, d2, if d1.term then None else Some(d1.st.next), st, d, lvl, c, c1, fuel, cleanup, inLoop, scope, LabelsOf(s.thn));
    }
  }

  // One of two parts of st's statement, compiled from x to dx.
  ghost predicate Part(g: Code, b: Stmt, x: Ctx, dx: Done, end: Option<nat>, st: Ctx, d: Done, ls: set<string>, cleanup: bool, inLoop: bool, scope: set<string>) {
    && Ready(x, scope) && WellFormed(b, cleanup, inLoop, scope) && x.labels.Keys !! LabelsOf(b)
    && x.stack == st.stack && SameTargets(st, x) && LabelsKept(st, x, ls)
    && At(x.code, x.cur) == []
    && Sub(dx.st.code, g) && SameTargets(dx.st, d.st) && (!dx.term ==> Arrives(g, dx, end, d))
  }

  // Running one of two parts.
  lemma {:induction false} SimPart(g: Code, w: World, s: Stmt, b: Stmt, x: Ctx, dx: Done, end: Option<nat>, st: Ctx, d: Done, lvl: nat,
                                   c: Config, c1: Config, fuel: nat, cleanup: bool, inLoop: bool, scope: set<string>, ls: set<string>) returns (c': Config)
    requires (s.If? && (b == s.thn || b == s.els)) || (s.Try? && b == s.handler)
    requires Part(g, b, x, dx, end, st, d, ls, cleanup, inLoop, scope) && Ready(st, scope)
    requires CgStmt(b, x, lvl) == Ok(dx) && Here(c1, x) && Reaches(g, w, c, c1, 0)
    ensures Match(g, w, c, c', Exec(w, b, c1.t, st.check, fuel), st, d, scope, fuel)
    decreases fuel, lvl, 8, s, 0
  {
    hide Ext, Sub, Reaches, At, Leaves, Tame, Within, Marked, Match, CgStmt, WellFormed, Arrives, LabelsKept;
    var c2 := SimStmt(g, w, b, x, lvl, c1, fuel, cleanup, inLoop, scope);
    var r := Exec(w, b, c1.t, st.check, fuel);
    MatchBack(g, w, c, c1, c2, r, x, dx, scope, fuel, fuel);
    c' := PartDone(g, w, c, c2, r, x, dx, st, d, end, scope, fuel, ls);
  }

  // What is known of the states of an if with two branches.
  lemma TwoFrame(g: Code, s: Stmt, st: Ctx, x1: Ctx, lvl: nat, cleanup: bool, inLoop: bool, scope: set<string>) returns (d1: Done, x2: Ctx, d2: Done)
    requires s.If? && s.kind.Dynamic? && Ready(st, scope) && WellFormed(s, cleanup, inLoop, scope) && st.labels.Keys !! LabelsOf(s)
    requires x1 == Fork(st, 2, ICondBr(Home(s.cond), st.next, st.next + 1))
    requires CgArms(s, st, lvl).Ok? && Sub(CgArms(s, st, lvl).value.st.code, g)
    ensures Sub(Emit(NewBlocks(st, 2), ICondBr(Home(s.cond), st.next, st.next + 1)).code, g) && NewBlocks(st, 2).cur == st.cur
    ensures At(NewBlocks(st, 2).code, st.cur) == At(st.code, st.cur)
    ensures CgStmt(s.thn, x1, lvl) == Ok(d1) && CgStmt(s.els, x2, lvl) == Ok(d2) && CgArms(s, st, lvl).value == Merge(d1, d2)
    ensures Part(g, s.thn, x1, d1, None, st, Merge(d1, d2), {}, cleanup, inLoop, scope) && x1.cur == st.next
    ensures Part(g, s.els, x2, d2, if d1.term then None else Some(d1.st.next), st, Merge(d1, d2), LabelsOf(s.thn), cleanup, inLoop, scope)
    ensures x2.cur == st.next + 1
  {
    hide Ext, Sub, Tame, Within, Marked, CgStmt, CgArms, Arrives, Merge, BranchToEnd, NewBlocks;
    var br := ICondBr(Home(s.cond), st.next, st.next + 1);
    TwoArms(s, st, lvl);
    Self(st, {});
    ForkFrame(st, st, 2, br, {});
    ReadyWithin(st, x1, scope, {});
    FrameStmtIn(s.thn, x1, lvl, cleanup, inLoop, scope);
    d1 := CgStmt(s.thn, x1, lvl).value;
    EndTargets(x1, d1, None, LabelsOf(s.thn));
    x2 := BranchToEnd(d1, None).(cur := st.next + 1);
    PartTwo(st, x1, d1, x2, LabelsOf(s.thn), scope);
    hide Ready;
    FrameStmtIn(s.els, x2, lvl, cleanup, inLoop, scope) by { assert Ready(x2, scope); }
    d2 := CgStmt(s.els, x2, lvl).value;
    var d := Merge(d1, d2);
    ReadyWithinIs(x1, scope);
    ReadyWithinIs(x2, scope);
    ReadyWithinIs(st, scope);
    assert At(x1.code, st.next + 1) == [] && At(x1.code, st.next) == [] by { FreshBlocks(st, 2, br); }
    TwoCode(g, x1, d1, x2, d2, LabelsOf(s.thn), LabelsOf(s.els));
    ForkCode(g, st, 2, br);
    MergeTargets(d1, x2, d2);
    assert SameTargets(d1.st, d.st) by { assert SameTargets(d1.st, x2); }
  }

  lemma ReadyWithinIs(st: Ctx, scope: set<string>)
    requires Ready(st, scope)
    ensures Within(st)
  {
  }

  lemma EndTargets(x: Ctx, d: Done, end: Option<nat>, ls: set<string>)
    requires Frame(x, d.st, ls)
    ensures SameTargets(d.st, BranchToEnd(d, end)) && BranchToEnd(d, end).stack == d.st.stack
    ensures Frame(x, BranchToEnd(d, end), ls)
  {
    hide Ext, LabelsKept;
    BranchFrame(x, d, end, ls);
    if !d.term && end == None { assert SameTargets(d.st, NewBlock(d.st)); }
  }

  lemma MergeTargets(d1: Done, x2: Ctx, d2: Done)
    requires SameTargets(x2, d2.st)
    ensures SameTargets(d2.st, Merge(d1, d2).st) && SameTargets(x2, Merge(d1, d2).st)
  {
  }

  // The state the second part is compiled in.
  lemma PartTwo(st: Ctx, x1: Ctx, d1: Done, x2: Ctx, ls: set<string>, scope: set<string>)
    requires Ready(st, scope) && SameTargets(st, x1) && LabelsKept(st, x1, {}) && x1.stack == st.stack && st.next <= x1.next
    requires Frame(x1, d1.st, ls) && d1.st.stack == x1.stack && Frame(x1, BranchToEnd(d1, None), ls)
    requires SameTargets(d1.st, BranchToEnd(d1, None)) && BranchToEnd(d1, None).stack == d1.st.stack
    requires x2 == BranchToEnd(d1, None).(cur := x2.cur) && x2.cur < x1.next
    ensures Ready(x2, scope) && x2.stack == st.stack && SameTargets(st, x2) && LabelsKept(st, x2, ls)
  {
    hide Ext, Tame;
    assert Within(x2);
    assert LabelsKept(st, x2, ls);
    ReadyWithin(st, x2, scope, ls);
  }

  // The code of two parts that meet.
  lemma TwoCode(g: Code, x1: Ctx, d1: Done, x2: Ctx, d2: Done, ls1: set<string>, ls2: set<string>)
    requires Within(x1) && CodeFrame(x1, d1.st, ls1) && Within(x2) && CodeFrame(x2, d2.st, ls2)
    requires x2.code == BranchToEnd(d1, None).code && x2.next == BranchToEnd(d1, None).next
    requires x2.cur < x1.next && x2.cur != x1.cur && At(x1.code, x2.cur) == []
    requires Sub(Merge(d1, d2).st.code, g)
    ensures Sub(d1.st.code, g) && Sub(d2.st.code, g) && Sub(x1.code, g) && At(x2.code, x2.cur) == []
    ensures !d1.term ==> Arrives(g, d1, None, Merge(d1, d2))
    ensures !d2.term ==> Arrives(g, d2, if d1.term then None else Some(d1.st.next), Merge(d1, d2))
  {
    hide Sub, LabelsKept, At;
    var end := if d1.term then None else Some(d1.st.next);
    var y1, y2 := BranchToEnd(d1, None), BranchToEnd(d2, end);
    assert Sub(y2.code, g);
    EndCode(g, d2, end);
    SubBack(x2, d2.st, ls2, g);
    assert Sub(y1.code, g);
    EndCode(g, d1, None);
    SubBack(x1, d1.st, ls1, g);
    Untouched(x1, d1.st, x2.cur);
    if !d1.term {
      Untouched(x2, d2.st, d1.st.next);
      assert At(y2.code, d1.st.next) == [];
    }
  }

  // The variables bound in front of a condition.
  function PreSlots(pre: seq<Stmt>, n: nat): seq<Slot>
    requires n <= |pre|
  {
    if n == 0 then [] else PreSlots(pre, n - 1) + if pre[n - 1].Var? then Slots(pre[n - 1].inits) else []
  }

  lemma OwnPre(pre: seq<Stmt>, n: nat)
    requires n <= |pre| && Simple(pre)
    ensures Own(pre, n) == Values(PreSlots(pre, n))
  {
    if n > 0 {
      OwnPre(pre, n - 1);
      var a, b := PreSlots(pre, n - 1), if pre[n - 1].Var? then Slots(pre[n - 1].inits) else [];
      assert Values(a + b) == Values(a) + Values(b);
    }
  }

  lemma LeaveSimple(w: World, r: Run, pre: seq<Stmt>, n: nat)
    requires n <= |pre| && Simple(pre) && !Halting(r.out)
    ensures Leave(w, r, pre, n) == r.(t := DropAll(PreSlots(pre, n), r.t))
  {
    OwnPre(pre, n);
    FinishValues(w, r, PreSlots(pre, n));
  }

  lemma {:induction false} PreFuel(w: World, pre: seq<Stmt>, n: nat, t: Trace, check: bool, fuel: nat)
    requires n <= |pre| && Simple(pre)
    ensures ExecPre(w, pre, n, t, check, fuel).fuel == fuel
    ensures ExecPre(w, pre, n, t, check, fuel).out in {Normal, Threw}
  {
    hide Exec, Leave, Own, PreSlots;
    if n > 0 {
      PreFuel(w, pre, n - 1, t, check, fuel);
      var a := ExecPre(w, pre, n - 1, t, check, fuel);
      if a.out == Normal {
        ItemOutcome(w, pre[n - 1], a.t, check, fuel);
        var r := Exec(w, pre[n - 1], a.t, check, fuel);
        if r.out != Normal { LeaveSimple(w, r, pre, n - 1); }
      }
    }
  }

  lemma ItemOutcome(w: World, s: Stmt, t: Trace, check: bool, fuel: nat)
    requires s.Var? || s.Eval?
    ensures Exec(w, s, t, check, fuel).out in {Normal, Threw} && Exec(w, s, t, check, fuel).fuel == fuel
  {
    if s.Var? { InitsOutcome(w, s.inits, |s.inits|, t, check); }
  }

  lemma {:induction false} InitsOutcome(w: World, inits: seq<Init>, n: nat, t: Trace, check: bool)
    requires n <= |inits|
    ensures EvalInits(w, inits, n, t, check).out in {Normal, Threw}
  {
    if n > 0 { InitsOutcome(w, inits, n - 1, t, check); }
  }

  lemma {:induction false} SimPreItem(g: Code, w: World, s: Stmt, st: Ctx, lvl: nat, c: Config, fuel: nat) returns (c': Config)
    requires (s.Var? || s.Eval?) && Ready(st, {}) && CgPreItem(s, st, lvl).Ok?
    requires Here(c, st) && Sub(CgPreItem(s, st, lvl).value.code, g)
    ensures var r := Exec(w, s, c.t, st.check, fuel);
            if r.out == Normal then Here(c', CgPreItem(s, st, lvl).value) && c'.t == r.t && Reaches(g, w, c, c', 0)
            else Thrown(g, w, c, c', r.t, [], st, fuel)
    decreases fuel, lvl, 7, 1
  {
    hide Ext, LabelsKept, SameTargets, Sub, Reaches, Thrown, At, Tame, Within;
    match s
    case Var(inits) =>
      VarCode(g, inits, st, lvl);
      c' := SimInits(g, w, inits, |inits|, st, lvl, c, fuel);
      VarHere(inits, st, lvl, c');
    case Eval(e) => c' := SimWhole(g, w, e, st, lvl, c, fuel);
  }

  lemma VarCode(g: Code, inits: seq<Init>, st: Ctx, lvl: nat)
    requires CgVar(inits, st, lvl).Ok?
    ensures CgInits(inits, |inits|, st, lvl).Ok?
    ensures CgVar(inits, st, lvl).value.code == CgInits(inits, |inits|, st, lvl).value.code
    ensures Sub(CgVar(inits, st, lvl).value.code, g) == Sub(CgInits(inits, |inits|, st, lvl).value.code, g)
  {
  }

  lemma VarHere(inits: seq<Init>, st: Ctx, lvl: nat, c: Config)
    requires CgVar(inits, st, lvl).Ok? && CgInits(inits, |inits|, st, lvl).Ok?
    ensures Here(c, CgInits(inits, |inits|, st, lvl).value) == Here(c, CgVar(inits, st, lvl).value)
  {
  }

  lemma {:induction false} SimPre(g: Code, w: World, pre: seq<Stmt>, n: nat, st: Ctx, lvl: nat, c: Config, fuel: nat) returns (c': Config)
    requires n <= |pre| && Simple(pre) && Ready(st, {}) && CgPre(pre, n, st, lvl).Ok?
    requires Here(c, st) && Sub(CgPre(pre, n, st, lvl).value.code, g)
    ensures var r := ExecPre(w, pre, n, c.t, st.check, fuel);
            if r.out == Normal then Here(c', CgPre(pre, n, st, lvl).value) && c'.t == r.t && Reaches(g, w, c, c', 0)
            else Thrown(g, w, c, c', r.t, [], st, fuel)
    decreases fuel, lvl, 7, 2, n
  {
    hide Ext, LabelsKept, Sub, Reaches, Thrown, At, Tame, Within, CgPreItem, Own, Values, Exec, Leave, PreSlots, Marked;
    NoStep(g, w, c);
    if n == 0 { return c; }
    var st1 := CgPre(pre, n - 1, st, lvl).value;
    var s := pre[n - 1];
    FramePre(pre, n - 1, st, lvl);
    OwnPre(pre, n - 1);
    ReadyMore(st, st1, PreSlots(pre, n - 1));
    FramePreItem(s, st1, lvl);
    SubBack(st1, CgPreItem(s, st1, lvl).value, {}, g);
    var c1 := SimPre(g, w, pre, n - 1, st, lvl, c, fuel);
    PreFuel(w, pre, n - 1, c.t, st.check, fuel);
    if ExecPre(w, pre, n - 1, c.t, st.check, fuel).out != Normal { return c1; }
    c' := SimPreItem(g, w, s, st1, lvl, c1, fuel);
    ItemOutcome(w, s, c1.t, st.check, fuel);
    var r := Exec(w, s, c1.t, st.check, fuel);
    if r.out == Normal {
      Chain(g, w, c, c1, c', 0, 0);
    } else {
      LeaveSimple(w, r, pre, n - 1);
      InitThrew(g, w, c, c1, c', r.t, PreSlots(pre, n - 1), st, st1, fuel);
    }
  }

  // The bindings of a condition and the condition itself.
  lemma {:induction false} SimCond(g: Code, w: World, pre: seq<Stmt>, cond: Expr, st: Ctx, lvl: nat, c: Config, fuel: nat) returns (c': Config)
    requires Simple(pre) && Ready(st, {}) && CgPre(pre, |pre|, st, lvl).Ok?
    requires CgWhole(cond, CgPre(pre, |pre|, st, lvl).value, lvl).Ok?
    requires Here(c, st) && Sub(CgWhole(cond, CgPre(pre, |pre|, st, lvl).value, lvl).value.code, g)
    ensures var p := ExecPre(w, pre, |pre|, c.t, st.check, fuel);
            var r := EvalWhole(w, cond, p.t, st.check);
            if p.out != Normal then Thrown(g, w, c, c', p.t, [], st, fuel)
            else if r.threw then Thrown(g, w, c, c', DropAll(PreSlots(pre, |pre|), r.t), [], st, fuel)
            else && Here(c', CgWhole(cond, CgPre(pre, |pre|, st, lvl).value, lvl).value)
                 && c'.t == r.t && Load(c'.mem, Home(cond)) == r.flag && Reaches(g, w, c, c', 0)
    decreases fuel, lvl, 7, 3
  {
    hide Ext, LabelsKept, Sub, Reaches, Thrown, At, Tame, Within, Own, Values, CgPre, CgWhole;
    var n := |pre|;
    var st1 := CgPre(pre, n, st, lvl).value;
    FramePre(pre, n, st, lvl);
    OwnPre(pre, n);
    ReadyMore(st, st1, PreSlots(pre, n));
    FrameWhole(cond, st1, lvl);
    SubBack(st1, CgWhole(cond, st1, lvl).value, {}, g);
    var c1 := SimPre(g, w, pre, n, st, lvl, c, fuel);
    var p := ExecPre(w, pre, n, c.t, st.check, fuel);
    if p.out != Normal { return c1; }
    c' := SimWhole(g, w, cond, st1, lvl, c1, fuel);
    var r := EvalWhole(w, cond, p.t, st.check);
    if r.threw {
      InitThrew(g, w, c, c1, c', r.t, PreSlots(pre, n), st, st1, fuel);
    } else {
      Chain(g, w, c, c1, c', 0, 0);
    }
  }

  lemma {:induction false} SimWhile(g: Code, w: World, s: Stmt, st: Ctx, lvl: nat, c: Config, fuel: nat, cleanup: bool, inLoop: bool, scope: set<string>) returns (c': Config)
    requires s.While? && Ready(st, scope) && WellFormed(s, cleanup, inLoop, scope) && st.labels.Keys !! LabelsOf(s)
    requires CgWhile(s, st, lvl).Ok?
    requires Here(c, st) && Sub(CgWhile(s, st, lvl).value.st.code, g)
    ensures Match(g, w, c, c', Exec(w, s, c.t, st.check, fuel), st, CgWhile(s, st, lvl).value, scope, fuel)
    decreases fuel, lvl, 8, s, 3
  {
    hide Ext, Sub, Reaches, At, Leaves, Tame, Within, Marked, Match, CgStmt, Fork, Ready, CgWhile;
    LoopEntry(g, s, st, lvl, cleanup, inLoop, scope);
    Execute(g, w, NewBlocks(st, 4), IBr(st.next), c);
    var c1 := Do(w, c, IBr(st.next));
    c' := SimLoop(g, w, s, st, lvl, c, c1, fuel, cleanup, inLoop, scope);
  }

  // The states a loop goes through in compilation.
  ghost predicate LoopShape(s: Stmt, st: Ctx, lvl: nat, st0: Ctx, test: Ctx, st2: Ctx, d1: Done, st4: Ctx, st3: Ctx, st7: Ctx)
    requires s.While?
  {
    var begin, body, cont, end := st.next, st.next + 1, st.next + 2, st.next + 3;
    && st0 == Fork(st, 4, IBr(begin))
    && CgPre(s.pre, |s.pre|, st0, lvl).Ok? && CgWhole(s.cond, CgPre(s.pre, |s.pre|, st0, lvl).value, lvl) == Ok(test)
    && st2 == Enter(body, cont, end, Emit(test, ICondBr(Home(s.cond), body, end)))
    && CgStmt(s.loop, st2, lvl) == Ok(d1)
    && st4 == (if d1.term then d1.st else Emit(d1.st, IBr(cont))).(cur := cont)
    && |st.stack| <= |st4.stack| && Destroy(st4.stack[|st.stack|..], false, st4, lvl) == Ok(st3)
    && st7 == Emit(st3, IBr(begin)).(breaks := Pop(st3.breaks), continues := Pop(st3.continues), cur := end)
    && |st.stack| <= |st7.stack|
    && CgWhile(s, st, lvl) == (if (st3.breaks == [] || st3.breaks[|st3.breaks| - 1].uses == 0) && s.cond == Lit(true, s.cond.id)
                               then EndScope(|st.stack|, true, Emit(st7, IUnreachable), lvl)
                               else EndScope(|st.stack|, false, st7, lvl))
  }

  lemma LoopStates(s: Stmt, st: Ctx, lvl: nat) returns (st0: Ctx, test: Ctx, st2: Ctx, d1: Done, st4: Ctx, st3: Ctx, st7: Ctx)
    requires s.While? && CgWhile(s, st, lvl).Ok?
    ensures LoopShape(s, st, lvl, st0, test, st2, d1, st4, st3, st7) && LoopDone(s, st, lvl) == Ok(d1)
  {
    hide CgTest, LoopBody, LoopEnd, CgPre, CgWhole, CgStmt, Destroy, EndScope, Emit, NewBlocks;
    var begin, body, cont, end := st.next, st.next + 1, st.next + 2, st.next + 3;
    ForkIs(st, 4, IBr(begin));
    st0 := Fork(st, 4, IBr(begin));
    ForkStack(st, 4, IBr(begin));
    hide Fork, NewBlock;
    TestIs(s, body, end, st0, lvl);
    test := CgWhole(s.cond, CgPre(s.pre, |s.pre|, st0, lvl).value, lvl).value;
    st2 := Enter(body, cont, end, CgTest(s, body, end, st0, lvl).value);
    BodyIs(s, |st.stack|, cont, st2, lvl);
    d1 := CgStmt(s.loop, st2, lvl).value;
    st4 := (if d1.term then d1.st else Emit(d1.st, IBr(cont))).(cur := cont);
    st3 := LoopBody(s, |st.stack|, cont, st2, lvl).value;
    st7 := LoopEndIs(s, |st.stack|, begin, end, st3, lvl);
  }

  lemma ForkStack(st: Ctx, n: nat, br: Instr)
    requires 1 <= n <= 4
    ensures Fork(st, n, br).stack == st.stack
  {
    ForkIs(st, n, br);
  }

  lemma TestIs(s: Stmt, body: nat, end: nat, st: Ctx, lvl: nat)
    requires s.While? && CgTest(s, body, end, st, lvl).Ok?
    ensures CgPre(s.pre, |s.pre|, st, lvl).Ok? && CgWhole(s.cond, CgPre(s.pre, |s.pre|, st, lvl).value, lvl).Ok?
    ensures CgTest(s, body, end, st, lvl).value ==
              Emit(CgWhole(s.cond, CgPre(s.pre, |s.pre|, st, lvl).value, lvl).value, ICondBr(Home(s.cond), body, end))
  {
    hide CgPre, CgWhole;
  }

  lemma BodyIs(s: Stmt, marker: nat, cont: nat, st: Ctx, lvl: nat)
    requires s.While? && marker <= |st.stack| && LoopBody(s, marker, cont, st, lvl).Ok?
    ensures CgStmt(s.loop, st, lvl).Ok?
    ensures var d := CgStmt(s.loop, st, lvl).value;
            var st1 := (if d.term then d.st else Emit(d.st, IBr(cont))).(cur := cont);
            && marker <= |st1.stack| && Destroy(st1.stack[marker..], false, st1, lvl) == LoopBody(s, marker, cont, st, lvl)
            && st1.stack == d.st.stack
  {
    hide CgStmt, Destroy;
  }

  lemma LoopEndIs(s: Stmt, marker: nat, begin: nat, end: nat, st: Ctx, lvl: nat) returns (x: Ctx)
    requires s.While? && marker <= |st.stack|
    ensures x == Emit(st, IBr(begin)).(breaks := Pop(st.breaks), continues := Pop(st.continues), cur := end)
    ensures |x.stack| == |st.stack|
    ensures LoopEnd(s, marker, begin, end, st, lvl) ==
              if (st.breaks == [] || st.breaks[|st.breaks| - 1].uses == 0) && s.cond == Lit(true, s.cond.id)
              then EndScope(marker, true, Emit(x, IUnreachable), lvl) else EndScope(marker, false, x, lvl)
  {
    hide EndScope;
    x := Emit(st, IBr(begin)).(breaks := Pop(st.breaks), continues := Pop(st.continues), cur := end);
  }

  lemma LoopEntry(g: Code, s: Stmt, st: Ctx, lvl: nat, cleanup: bool, inLoop: bool, scope: set<string>)
    requires s.While? && Ready(st, scope) && WellFormed(s, cleanup, inLoop, scope) && st.labels.Keys !! LabelsOf(s)
    requires CgWhile(s, st, lvl).Ok? && Sub(CgWhile(s, st, lvl).value.st.code, g)
    ensures Sub(Emit(NewBlocks(st, 4), IBr(st.next)).code, g) && NewBlocks(st, 4).cur == st.cur
    ensures At(NewBlocks(st, 4).code, st.cur) == At(st.code, st.cur)
  {
    hide Ext, Sub, At, Tame, Within, CgStmt, CgWhile, WellFormed;
    var st0, test, st2, d1, st4, st3, st7 := LoopStates(s, st, lvl);
    LoopFrames(s, st, lvl, cleanup, inLoop, scope, st0, test, st2, d1, st4, st3, st7);
    LoopCode(g, s, st, lvl, st0, test, st2, d1, st4, st3, st7);
    ForkCode(g, st, 4, IBr(st.next)) by { assert Within(st); }
  }

  // What each state of the loop leaves alone.
  ghost predicate LoopFramed(s: Stmt, st: Ctx, st0: Ctx, test: Ctx, st2: Ctx, d1: Done, st4: Ctx, st3: Ctx, st7: Ctx)
    requires s.While?
  {
    && Within(st) && Within(st0) && Frame(st, st0, {}) && Frame(st0, test, {}) && Within(st2)
    && Frame(st2, d1.st, LabelsOf(s)) && Within(st4) && Frame(st4, st3, {}) && Within(st7)
    && st0.cur == st.next && st0.next == st.next + 4
  }

  lemma LoopFrames(s: Stmt, st: Ctx, lvl: nat, cleanup: bool, inLoop: bool, scope: set<string>, st0: Ctx, test: Ctx, st2: Ctx, d1: Done, st4: Ctx, st3: Ctx, st7: Ctx)
    requires s.While? && Ready(st, scope) && WellFormed(s, cleanup, inLoop, scope) && st.labels.Keys !! LabelsOf(s)
    requires LoopShape(s, st, lvl, st0, test, st2, d1, st4, st3, st7) && CgWhile(s, st, lvl).Ok?
    ensures LoopFramed(s, st, st0, test, st2, d1, st4, st3, st7)
    ensures Ready(st0, scope) && st0.stack == st.stack && st0.excs == st.excs && st0.check == st.check
    ensures Tame(Own(s.pre, |s.pre|)) && st2.stack == st.stack + Own(s.pre, |s.pre|)
    ensures Ready(st2, scope) && st2.labels.Keys !! LabelsOf(s.loop) && st2.check == st.check
    ensures d1.st.stack == st2.stack && Ready(st4, {}) && st4.stack == st2.stack && st3.stack == st2.stack && Tame(st2.stack)
    ensures st7.stack == st2.stack && SameTargets(st, st7) && LabelsKept(st, st7, LabelsOf(s))
    ensures LabelsKept(st, st2, {})
    ensures d1.st.breaks != [] && st3.breaks != [] && st3.breaks[|st3.breaks| - 1].uses >= d1.st.breaks[|d1.st.breaks| - 1].uses
  {
    hide Ext, Within, Tame, Marked, CgStmt, CgPre, CgWhole, Destroy, NewBlocks, EndScope, LabelsKept, CgWhile, Own, Fork, Values, WellFormedAll, Simple;
    var begin, body, cont, end := st.next, st.next + 1, st.next + 2, st.next + 3;
    LoopStart(st, st0, scope);
    HeadFrame(s, st0, test, lvl, scope);
    var t := Emit(test, ICondBr(Home(s.cond), body, end));
    EnterState(s, st, st0, test, t, st2, body, cont, end, scope);
    FrameStmtIn(s.loop, st2, lvl, cleanup, true, scope);
    LoopTail(s, st, st2, d1, st4, st3, st7, lvl, body, cont, end);
    assert LoopFramed(s, st, st0, test, st2, d1, st4, st3, st7);
  }

  lemma LoopStart(st: Ctx, st0: Ctx, scope: set<string>)
    requires Ready(st, scope) && st0 == Fork(st, 4, IBr(st.next))
    ensures Frame(st, st0, {}) && Ready(st0, scope) && st0.stack == st.stack && st0.cur == st.next && st0.next == st.next + 4
    ensures st0.labels == st.labels && Within(st)
  {
    Self(st, {});
    ForkFrame(st, st, 4, IBr(st.next), {});
    ReadyWithin(st, st0, scope, {});
  }

  lemma HeadFrame(s: Stmt, st0: Ctx, test: Ctx, lvl: nat, scope: set<string>)
    requires s.While? && Ready(st0, scope) && Simple(s.pre) && CgPre(s.pre, |s.pre|, st0, lvl).Ok?
    requires CgWhole(s.cond, CgPre(s.pre, |s.pre|, st0, lvl).value, lvl) == Ok(test)
    ensures Frame(st0, test, {}) && test.stack == st0.stack + Own(s.pre, |s.pre|) && Tame(Own(s.pre, |s.pre|)) && Ready(test, scope)
  {
    hide Ext, LabelsKept, Within, CgWhole, CgPre;
    FramePre(s.pre, |s.pre|, st0, lvl);
    var p := CgPre(s.pre, |s.pre|, st0, lvl).value;
    FrameWhole(s.cond, p, lvl);
    Then(st0, p, test, {}, {});
    OwnSimple(s.pre, |s.pre|);
    ReadyInside(st0, test, Own(s.pre, |s.pre|), scope);
  }

  lemma EnterState(s: Stmt, st: Ctx, st0: Ctx, test: Ctx, t: Ctx, st2: Ctx, body: nat, cont: nat, end: nat, scope: set<string>)
    requires s.While? && Ready(test, scope) && Frame(st, st0, {}) && Frame(st0, test, {}) && st0.labels == st.labels
    requires st.labels.Keys !! LabelsOf(s) && body < test.next
    requires t == Emit(test, ICondBr(Home(s.cond), body, end)) && st2 == Enter(body, cont, end, t)
    ensures Ready(st2, scope) && st2.labels.Keys !! LabelsOf(s.loop) && LabelsKept(st, st2, {})
    ensures Within(st2) && Tame(st2.stack)
  {
    hide Ext, Tame;
    assert forall b: nat :: b in t.code ==> b < t.next;
    FewLabels(st0, test, {});
  }

  lemma LoopTail(s: Stmt, st: Ctx, st2: Ctx, d1: Done, st4: Ctx, st3: Ctx, st7: Ctx, lvl: nat, body: nat, cont: nat, end: nat)
    requires s.While? && Within(st) && Ready(st2, {}) && Frame(st2, d1.st, LabelsOf(s)) && d1.st.stack == st2.stack
    requires SameTargets(st, st2.(breaks := Pop(st2.breaks), continues := Pop(st2.continues))) && st2.breaks != [] && st2.continues != []
    requires LabelsKept(st, st2, {}) && st.next <= st2.next && cont < st2.next && end < st2.next && |st.stack| <= |st2.stack|
    requires st4 == (if d1.term then d1.st else Emit(d1.st, IBr(cont))).(cur := cont)
    requires Destroy(st4.stack[|st.stack|..], false, st4, lvl) == Ok(st3)
    requires st7 == Emit(st3, IBr(st.next)).(breaks := Pop(st3.breaks), continues := Pop(st3.continues), cur := end)
    ensures Ready(st4, {}) && st4.stack == st2.stack && Frame(st4, st3, {}) && st3.stack == st2.stack && Within(st4)
    ensures st7.stack == st2.stack && SameTargets(st, st7) && LabelsKept(st, st7, LabelsOf(s)) && Within(st7)
    ensures d1.st.breaks != [] && st3.breaks != [] && st3.breaks[|st3.breaks| - 1].uses >= d1.st.breaks[|d1.st.breaks| - 1].uses
  {
    hide Ext, Tame, LabelsKept, Within;
    var e := if d1.term then d1.st else Emit(d1.st, IBr(cont));
    var own := st4.stack[|st.stack|..];
    EmitFrame(st2, d1.st, IBr(cont), LabelsOf(s));
    LoopContinue(st2, e, st4, cont, LabelsOf(s));
    TameSuffix(st4.stack, |st.stack|);
    FrameDestroy(own, false, st4, lvl);
    LoopLabels(st, st2, st4, st3, st7, LabelsOf(s), end);
    assert SameTargets(st2, st3);
  }

  lemma TameSuffix(es: seq<Entry>, n: nat)
    requires Tame(es) && n <= |es|
    ensures Tame(es[n..])
  {
  }

  lemma LoopContinue(st2: Ctx, e: Ctx, st4: Ctx, cont: nat, ls: set<string>)
    requires Ready(st2, {}) && Frame(st2, e, ls) && e.stack == st2.stack && st4 == e.(cur := cont) && cont < st2.next
    ensures Ready(st4, {}) && SameTargets(st2, st4) && LabelsKept(st2, st4, ls) && Within(st4) && st2.next <= st4.next
  {
    hide Tame;
    assert Within(st4);
    ReadyWithin(st2, st4, {}, ls);
  }

  lemma LoopLabels(st: Ctx, st2: Ctx, st4: Ctx, st3: Ctx, st7: Ctx, ls: set<string>, end: nat)
    requires LabelsKept(st, st2, {}) && LabelsKept(st2, st4, ls) && LabelsKept(st4, st3, {}) && Within(st3)
    requires st.next <= st2.next <= st4.next <= st3.next && end < st3.next
    requires st7 == Emit(st3, IBr(st.next)).(breaks := st7.breaks, continues := st7.continues, cur := end)
    ensures LabelsKept(st, st7, ls) && Within(st7)
  {
    assert forall b: nat :: b in Emit(st3, IBr(st.next)).code ==> b < st3.next;
  }

  // Where the code of the loop is, and that its blocks are empty when reached.
  lemma LoopCode(g: Code, s: Stmt, st: Ctx, lvl: nat, st0: Ctx, test: Ctx, st2: Ctx, d1: Done, st4: Ctx, st3: Ctx, st7: Ctx)
    requires s.While? && LoopShape(s, st, lvl, st0, test, st2, d1, st4, st3, st7) && CgWhile(s, st, lvl).Ok?
    requires LoopFramed(s, st, st0, test, st2, d1, st4, st3, st7) && Tame(st7.stack)
    requires Sub(CgWhile(s, st, lvl).value.st.code, g)
    ensures var begin, body, cont, end := st.next, st.next + 1, st.next + 2, st.next + 3;
            && Sub(st0.code, g) && At(st0.code, begin) == []
            && Sub(test.code, g) && Sub(Emit(test, ICondBr(Home(s.cond), body, end)).code, g)
            && At(st2.code, body) == [] && Sub(d1.st.code, g)
            && (!d1.term ==> Sub(Emit(d1.st, IBr(cont)).code, g))
            && At(st4.code, cont) == [] && Sub(st3.code, g) && Sub(Emit(st3, IBr(begin)).code, g)
            && At(st7.code, end) == []
  {
    hide Ext, Sub, At, Tame, Within, CgStmt, LabelsKept, SameTargets, CgPre, CgWhole, Destroy, NewBlocks, EndScope, CgWhile, Frame;
    var body, cont, end := st.next + 1, st.next + 2, st.next + 3;
    var t := Emit(test, ICondBr(Home(s.cond), body, end));
    LoopClosed(g, |st.stack|, st7, CgWhile(s, st, lvl).value, lvl);
    LoopSub(g, s, st.next, st0, test, t, st2, d1, st4, st3);
    LoopEmpty(s, st, st0, test, t, st2, d1, st4, st3);
    assert st7.code == Emit(st3, IBr(st.next)).code;
  }

  lemma LoopSub(g: Code, s: Stmt, begin: nat, st0: Ctx, test: Ctx, t: Ctx, st2: Ctx, d1: Done, st4: Ctx, st3: Ctx)
    requires s.While? && Within(st0) && Frame(st0, test, {})
    requires t == Emit(test, ICondBr(Home(s.cond), begin + 1, begin + 3)) && st2.code == t.code
    requires Within(st2) && Frame(st2, d1.st, LabelsOf(s)) && Within(st4) && Frame(st4, st3, {})
    requires st4 == (if d1.term then d1.st else Emit(d1.st, IBr(begin + 2))).(cur := begin + 2)
    requires Sub(Emit(st3, IBr(begin)).code, g)
    ensures Sub(st0.code, g) && Sub(test.code, g) && Sub(t.code, g) && Sub(d1.st.code, g) && Sub(st3.code, g)
    ensures !d1.term ==> Sub(Emit(d1.st, IBr(begin + 2)).code, g)
  {
    hide Ext, Sub, At, Within, LabelsKept, SameTargets;
    SubEmit(st3, IBr(begin), g);
    SubBack(st4, st3, {}, g);
    if !d1.term { SubEmit(d1.st, IBr(begin + 2), g); }
    SubBack(st2, d1.st, LabelsOf(s), g);
    SubEmit(test, ICondBr(Home(s.cond), begin + 1, begin + 3), g);
    SubBack(st0, test, {}, g);
  }

  lemma LoopClosed(g: Code, marker: nat, st7: Ctx, d: Done, lvl: nat)
    requires Within(st7) && Tame(st7.stack) && marker <= |st7.stack| && Sub(d.st.code, g)
    requires EndScope(marker, true, Emit(st7, IUnreachable), lvl) == Ok(d) || EndScope(marker, false, st7, lvl) == Ok(d)
    ensures Sub(st7.code, g)
  {
    if EndScope(marker, false, st7, lvl) == Ok(d) {
      FrameEndScope(marker, false, st7, lvl);
      SubBack(st7, d.st, {}, g);
    } else {
      SubEmit(st7, IUnreachable, g);
    }
  }

  lemma KeepEmpty(a: Ctx, b: Ctx, ls: set<string>, i: nat)
    requires CodeFrame(a, b, ls) && i < a.next && i != a.cur && At(a.code, i) == []
    ensures At(b.code, i) == [] && i < b.next && i != b.cur
  {
  }

  lemma EmitKeep(x: Ctx, i: Instr, b: nat)
    requires b != x.cur
    ensures At(Emit(x, i).code, b) == At(x.code, b)
  {
  }

  lemma LoopEmpty(s: Stmt, st: Ctx, st0: Ctx, test: Ctx, t: Ctx, st2: Ctx, d1: Done, st4: Ctx, st3: Ctx)
    requires s.While? && Within(st) && st0 == Fork(st, 4, IBr(st.next)) && Frame(st0, test, {})
    requires t == Emit(test, ICondBr(Home(s.cond), st.next + 1, st.next + 3)) && st2 == Enter(st.next + 1, st.next + 2, st.next + 3, t)
    requires Frame(st2, d1.st, LabelsOf(s)) && st4 == (if d1.term then d1.st else Emit(d1.st, IBr(st.next + 2))).(cur := st.next + 2)
    requires Frame(st4, st3, {}) && st0.next == st.next + 4
    ensures At(st0.code, st.next) == [] && At(st2.code, st.next + 1) == [] && At(st4.code, st.next + 2) == []
    ensures At(Emit(st3, IBr(st.next)).code, st.next + 3) == []
  {
    hide Ext, At, Within, LabelsKept, SameTargets, NewBlocks, Sub;
    FreshBlocks(st, 4, IBr(st.next));
    KeepEmpty(st0, test, {}, st.next + 1);
    KeepEmpty(st0, test, {}, st.next + 2);
    KeepEmpty(st0, test, {}, st.next + 3);
    var i := ICondBr(Home(s.cond), st.next + 1, st.next + 3);
    EmitKeep(test, i, st.next + 1);
    EmitKeep(test, i, st.next + 2);
    EmitKeep(test, i, st.next + 3);
    KeepEmpty(st2, d1.st, LabelsOf(s), st.next + 2);
    KeepEmpty(st2, d1.st, LabelsOf(s), st.next + 3);
    EmitKeep(d1.st, IBr(st.next + 2), st.next + 2);
    EmitKeep(d1.st, IBr(st.next + 2), st.next + 3);
    KeepEmpty(st4, st3, {}, st.next + 3);
    EmitKeep(st3, IBr(st.next), st.next + 3);
  }

  // The loop from its first block on, one step after c0.
  lemma {:induction false} SimLoop(g: Code, w: World, s: Stmt, st: Ctx, lvl: nat, c0: Config, c: Config, fuel: nat, cleanup: bool, inLoop: bool, scope: set<string>) returns (c': Config)
    requires s.While? && Ready(st, scope) && WellFormed(s, cleanup, inLoop, scope) && st.labels.Keys !! LabelsOf(s)
    requires CgWhile(s, st, lvl).Ok? && Sub(CgWhile(s, st, lvl).value.st.code, g)
    requires AtBlock(c, st.next) && Reaches(g, w, c0, c, 1)
    ensures Match(g, w, c0, c', Exec(w, s, c.t, st.check, fuel), st, CgWhile(s, st, lvl).value, scope, fuel)
    decreases fuel, lvl, 8, s, 2
  {
    hide Ext, Sub, Reaches, At, Leaves, Tame, Within, Marked, Match, CgStmt, Fork, Ready, CgWhile, Thrown, WellFormed, LoopShape, LoopFramed, Here, Exec, Leave, PreSlots, Own, DropAll, LabelsOf;
    if fuel == 0 {
      NoPass(w, s, c.t, st.check);
      Timeout(g, w, c0, c, st, CgWhile(s, st, lvl).value, scope);
      return c;
    }
    var p := ExecPre(w, s.pre, |s.pre|, c.t, st.check, fuel - 1);
    var cnd := EvalWhole(w, s.cond, p.t, st.check);
    PassIs(w, s, c.t, st.check, fuel);
    var c2 := SimTest(g, w, s, st, lvl, c, fuel - 1, cleanup, inLoop, scope);
    PreFuel(w, s.pre, |s.pre|, c.t, st.check, fuel - 1) by { SimpleLoop(s, cleanup, inLoop, scope); }
    if p.out != Normal {
      c' := c2;
    } else if cnd.threw {
      c' := c2;
      LeaveSimple(w, Run(Threw, cnd.t, fuel - 1), s.pre, |s.pre|) by { SimpleLoop(s, cleanup, inLoop, scope); }
    } else if cnd.flag {
      c' := SimPass(g, w, s, st, lvl, c, c2, cnd.t, fuel - 1, cleanup, inLoop, scope);
    } else {
      LiteralTrue(w, s.cond, p.t, st.check);
      c' := SimExit(g, w, s, st, lvl, c, c2, Run(Normal, cnd.t, fuel - 1), fuel - 1, cleanup, inLoop, scope);
    }
    MatchBack(g, w, c0, c, c', Exec(w, s, c.t, st.check, fuel), st, CgWhile(s, st, lvl).value, scope, fuel, fuel - 1);
  }

  lemma NoPass(w: World, s: Stmt, t: Trace, check: bool)
    requires s.While?
    ensures Exec(w, s, t, check, 0) == Run(OutOfFuel, t, 0)
  {
  }

  // One pass of a loop.
  lemma PassIs(w: World, s: Stmt, t: Trace, check: bool, fuel: nat)
    requires s.While? && fuel > 0
    ensures var p := ExecPre(w, s.pre, |s.pre|, t, check, fuel - 1);
            var c := EvalWhole(w, s.cond, p.t, check);
            var r := if c.threw then Run(Threw, c.t, p.fuel)
                     else if c.flag then Exec(w, s.loop, c.t, check, p.fuel)
                     else Run(Broke, c.t, p.fuel);
            var r' := Leave(w, LoopExit(r), s.pre, |s.pre|);
            Exec(w, s, t, check, fuel) ==
              if p.out != Normal then p
              else if r'.out == Normal && r.out != Broke then Exec(w, s, r'.t, check, r'.fuel) else r'
  {
    hide Leave, ExecPre, EvalWhole;
  }

  lemma LiteralTrue(w: World, e: Expr, t: Trace, check: bool)
    ensures e == Lit(true, e.id) ==> EvalWhole(w, e, t, check).flag
  {
    if e == Lit(true, e.id) {
      assert EvalRef(w, e, t, check).flag;
    }
  }

  // The body of a loop, compiled.
  function LoopDone(s: Stmt, st: Ctx, lvl: nat): Compiled<Done>
    requires s.While?
  {
    var st1 :- CgTest(s, st.next + 1, st.next + 3, Fork(st, 4, IBr(st.next)), lvl);
    CgStmt(s.loop, Enter(st.next + 1, st.next + 2, st.next + 3, st1), lvl)
  }

  // A break has been compiled in the body, or the condition is not true.
  ghost predicate Leavable(s: Stmt, st: Ctx, lvl: nat)
    requires s.While?
  {
    s.cond == Lit(true, s.cond.id) ==>
      LoopDone(s, st, lvl).Ok? && var bs := LoopDone(s, st, lvl).value.st.breaks; bs != [] && bs[|bs| - 1].uses > 0
  }

  lemma Timeout(g: Code, w: World, c0: Config, c: Config, st: Ctx, d: Done, scope: set<string>)
    requires c.Running? && Reaches(g, w, c0, c, 1)
    ensures Match(g, w, c0, c, Run(OutOfFuel, c.t, 0), st, d, scope, 0)
  {
    Enough(g, w, c0, c, 1, 0);
  }

  lemma SimpleLoop(s: Stmt, cleanup: bool, inLoop: bool, scope: set<string>)
    requires s.While? && WellFormed(s, cleanup, inLoop, scope)
    ensures Simple(s.pre) && WellFormed(s.loop, cleanup, true, scope) && !Bare(s.loop)
  {
  }

  // The condition, up to the branch on it.
  lemma {:induction false} SimTest(g: Code, w: World, s: Stmt, st: Ctx, lvl: nat, c: Config, fuel: nat, cleanup: bool, inLoop: bool, scope: set<string>) returns (c': Config)
    requires s.While? && Ready(st, scope) && WellFormed(s, cleanup, inLoop, scope) && st.labels.Keys !! LabelsOf(s)
    requires CgWhile(s, st, lvl).Ok? && Sub(CgWhile(s, st, lvl).value.st.code, g) && AtBlock(c, st.next)
    ensures var p := ExecPre(w, s.pre, |s.pre|, c.t, st.check, fuel);
            var r := EvalWhole(w, s.cond, p.t, st.check);
            var d := CgWhile(s, st, lvl).value;
            if p.out != Normal then Match(g, w, c, c', Run(Threw, p.t, fuel), st, d, scope, fuel)
            else if r.threw then Match(g, w, c, c', Run(Threw, DropAll(PreSlots(s.pre, |s.pre|), r.t), fuel), st, d, scope, fuel)
            else && AtBlock(c', if r.flag then st.next + 1 else st.next + 3) && c'.t == r.t && Reaches(g, w, c, c', 0)
    decreases fuel, lvl, 8, s, 1
  {
    hide Ext, Sub, Reaches, At, Leaves, Tame, Within, Marked, CgStmt, Fork, CgWhile, WellFormed, CgPre, CgWhole, Destroy, EndScope, Frame, LabelsKept, Match;
    var st0, test, st2, d1, st4, st3, st7 := LoopStates(s, st, lvl);
    LoopFrames(s, st, lvl, cleanup, inLoop, scope, st0, test, st2, d1, st4, st3, st7);
    LoopCode(g, s, st, lvl, st0, test, st2, d1, st4, st3, st7);
    SimpleLoop(s, cleanup, inLoop, scope);
    ReadyLess(st0, scope);
    var d := CgWhile(s, st, lvl).value;
    var p := ExecPre(w, s.pre, |s.pre|, c.t, st.check, fuel);
    var r := EvalWhole(w, s.cond, p.t, st.check);
    var c1 := SimCond(g, w, s.pre, s.cond, st0, lvl, c, fuel);
    if p.out != Normal {
      ThrownElsewhere(g, w, c, c1, p.t, st0, st, fuel);
      ThrownMatches(g, w, c, c1, p.t, st, d, scope, fuel);
      return c1;
    }
    if r.threw {
      ThrownElsewhere(g, w, c, c1, DropAll(PreSlots(s.pre, |s.pre|), r.t), st0, st, fuel);
      ThrownMatches(g, w, c, c1, DropAll(PreSlots(s.pre, |s.pre|), r.t), st, d, scope, fuel);
      return c1;
    }
    var br := ICondBr(Home(s.cond), st.next + 1, st.next + 3);
    Execute(g, w, test, br, c1);
    c' := Do(w, c1, br);
    Chain(g, w, c, c1, c', 0, 1);
    Enough(g, w, c, c', 1, 0);
  }

  lemma ThrownElsewhere(g: Code, w: World, c: Config, c': Config, t: Trace, x: Ctx, st: Ctx, fuel: nat)
    requires Thrown(g, w, c, c', t, [], x, fuel) && x.stack == st.stack && x.excs == st.excs
    ensures Thrown(g, w, c, c', t, [], st, fuel)
  {
  }

  // One run of the body, and the rest of the loop.
  lemma {:induction false} SimPass(g: Code, w: World, s: Stmt, st: Ctx, lvl: nat, c: Config, c2: Config, t: Trace, fuel: nat, cleanup: bool, inLoop: bool, scope: set<string>) returns (c': Config)
    requires s.While? && Ready(st, scope) && WellFormed(s, cleanup, inLoop, scope) && st.labels.Keys !! LabelsOf(s)
    requires CgWhile(s, st, lvl).Ok? && Sub(CgWhile(s, st, lvl).value.st.code, g)
    requires AtBlock(c2, st.next + 1) && c2.t == t && Reaches(g, w, c, c2, 0)
    ensures var r := Exec(w, s.loop, t, st.check, fuel);
            var r' := Leave(w, LoopExit(r), s.pre, |s.pre|);
            Match(g, w, c, c', if r'.out == Normal && r.out != Broke then Exec(w, s, r'.t, st.check, r'.fuel) else r',
                  st, CgWhile(s, st, lvl).value, scope, fuel)
    decreases fuel, lvl, 8, s, 6
  {
    hide Ext, Sub, Reaches, At, Leaves, Tame, Within, Marked, CgStmt, Fork, CgWhile, WellFormed, CgPre, CgWhole, Destroy, EndScope, LabelsKept, SameTargets, LoopDone, LoopFramed, Ready, LoopShape, Exec, Unwind, Own, PreSlots, Values, Emit, DropAll;
    var st0, test, st2, d1, st4, st3, st7 := LoopStates(s, st, lvl);
    LoopFrames(s, st, lvl, cleanup, inLoop, scope, st0, test, st2, d1, st4, st3, st7);
    LoopCode(g, s, st, lvl, st0, test, st2, d1, st4, st3, st7);
    SimpleLoop(s, cleanup, inLoop, scope);
    PassPoint(s, st, lvl, st0, test, st2, d1, st4, st3, st7, c2);
    var c3 := SimStmt(g, w, s.loop, st2, lvl, c2, fuel, cleanup, true, scope);
    var r := Exec(w, s.loop, t, st.check, fuel);
    MatchBack(g, w, c, c2, c3, r, st2, d1, scope, fuel, fuel);
    if r.out == Normal {
      var c4 := ToContinue(g, w, c, c3, r, d1, st.next + 2, fuel);
      c' := SimAgain(g, w, s, st, lvl, c, c4, r, fuel, cleanup, inLoop, scope);
    } else if r.out == Continued {
      OwnTarget(g, w, c, c3, r, st2, d1, scope, fuel, Target(st.next + 2, |st2.stack|, 0));
      c' := SimAgain(g, w, s, st, lvl, c, c3, r, fuel, cleanup, inLoop, scope);
    } else if r.out == Broke {
      OwnTarget(g, w, c, c3, r, st2, d1, scope, fuel, Target(st.next + 3, |st2.stack|, 0));
      BreakUsed(g, w, c, c3, r, s, st, lvl, st2, d1, scope, fuel);
      c' := SimExit(g, w, s, st, lvl, c, c3, LoopExit(r), fuel, cleanup, inLoop, scope);
    } else {
      c' := c3;
      if !Halting(r.out) {
        OuterTarget(g, w, c, c3, r, s, st, st2, d1, scope, fuel);
        FinishKind(w, r, Own(s.pre, |s.pre|), []);
      }
      MatchLeave(g, w, c, c3, r, st2, d1, scope, Own(s.pre, |s.pre|), st, CgWhile(s, st, lvl).value, scope, fuel);
    }
  }

  lemma PassPoint(s: Stmt, st: Ctx, lvl: nat, st0: Ctx, test: Ctx, st2: Ctx, d1: Done, st4: Ctx, st3: Ctx, st7: Ctx, c2: Config)
    requires s.While? && LoopShape(s, st, lvl, st0, test, st2, d1, st4, st3, st7)
    requires AtBlock(c2, st.next + 1) && At(st2.code, st.next + 1) == []
    requires LoopFramed(s, st, st0, test, st2, d1, st4, st3, st7)
    ensures Here(c2, st2) && CgStmt(s.loop, st2, lvl) == Ok(d1)
    ensures TargetOf(Broke, st2) == Some(Target(st.next + 3, |st2.stack|, 0))
    ensures TargetOf(Continued, st2) == Some(Target(st.next + 2, |st2.stack|, 0))
    ensures st2.rets == st.rets && st2.excs == st.excs
  {
    hide Ext, LabelsKept, Within, CgStmt, CgWhole, CgPre, Destroy, EndScope, CgWhile;
  }

  // Falling off the end of the body.
  lemma ToContinue(g: Code, w: World, c: Config, c3: Config, r: Run, d1: Done, cont: nat, fuel: nat) returns (c': Config)
    requires Here(c3, d1.st) && c3.t == r.t && Reaches(g, w, c, c3, fuel - r.fuel) && Sub(Emit(d1.st, IBr(cont)).code, g)
    ensures AtBlock(c', cont) && c'.t == r.t && Reaches(g, w, c, c', fuel - r.fuel)
  {
    Execute(g, w, d1.st, IBr(cont), c3);
    c' := Do(w, c3, IBr(cont));
    Chain(g, w, c, c3, c', fuel - r.fuel, 1);
    Enough(g, w, c, c', fuel - r.fuel + 1, fuel - r.fuel);
  }

  // A break or continue of this very loop has nothing left to clean up.
  lemma OwnTarget(g: Code, w: World, c: Config, c3: Config, r: Run, st2: Ctx, d1: Done, scope: set<string>, fuel: nat, jt: Target)
    requires Match(g, w, c, c3, r, st2, d1, scope, fuel) && (r.out == Broke || r.out == Continued)
    requires TargetOf(r.out, st2) == Some(jt) && jt.marker == |st2.stack|
    ensures AtBlock(c3, jt.block) && c3.t == r.t && Reaches(g, w, c, c3, fuel - r.fuel)
  {
    assert st2.stack[|st2.stack|..] == [];
    assert Finish(w, r, []) == r;
    Enough(g, w, c, c3, fuel - r.fuel + 1, fuel - r.fuel);
  }

  lemma BreakUsed(g: Code, w: World, c: Config, c3: Config, r: Run, s: Stmt, st: Ctx, lvl: nat, st2: Ctx, d1: Done, scope: set<string>, fuel: nat)
    requires s.While? && Match(g, w, c, c3, r, st2, d1, scope, fuel) && r.out == Broke && LoopDone(s, st, lvl) == Ok(d1)
    ensures Leavable(s, st, lvl)
  {
  }

  lemma OuterTarget(g: Code, w: World, c: Config, c3: Config, r: Run, s: Stmt, st: Ctx, st2: Ctx, d1: Done, scope: set<string>, fuel: nat)
    requires Match(g, w, c, c3, r, st2, d1, scope, fuel) && !Halting(r.out) && r.out != Broke && r.out != Continued
    requires Ready(st, scope) && st2.rets == st.rets && st2.excs == st.excs && LabelsKept(st, st2, {})
    ensures SameTarget(r.out, st2, st, scope)
  {
  }

  // Back to the condition, after the cleanup of one pass.
  lemma {:induction false} SimAgain(g: Code, w: World, s: Stmt, st: Ctx, lvl: nat, c: Config, c4: Config, r: Run, fuel: nat, cleanup: bool, inLoop: bool, scope: set<string>) returns (c': Config)
    requires s.While? && Ready(st, scope) && WellFormed(s, cleanup, inLoop, scope) && st.labels.Keys !! LabelsOf(s)
    requires CgWhile(s, st, lvl).Ok? && Sub(CgWhile(s, st, lvl).value.st.code, g)
    requires AtBlock(c4, st.next + 2) && (r.out == Normal || r.out == Continued) && c4.t == r.t && r.fuel <= fuel
    requires Reaches(g, w, c, c4, fuel - r.fuel)
    ensures var r' := Leave(w, LoopExit(r), s.pre, |s.pre|);
            && r'.out == Normal
            && Match(g, w, c, c', Exec(w, s, r'.t, st.check, r'.fuel), st, CgWhile(s, st, lvl).value, scope, fuel)
    decreases fuel, lvl, 8, s, 5
  {
    hide Ext, Sub, Reaches, At, Leaves, Tame, Within, Marked, CgStmt, Fork, CgWhile, WellFormed, CgPre, CgWhole, Destroy, EndScope, LabelsKept, SameTargets, LoopDone, LoopFramed, Ready, LoopShape, Match, Exec, Leave, Unwind, Finish, Own, PreSlots, Values, Emit, DropAll;
    var st0, test, st2, d1, st4, st3, st7 := LoopStates(s, st, lvl);
    LoopFrames(s, st, lvl, cleanup, inLoop, scope, st0, test, st2, d1, st4, st3, st7);
    LoopCode(g, s, st, lvl, st0, test, st2, d1, st4, st3, st7);
    SimpleLoop(s, cleanup, inLoop, scope);
    var vs := PreSlots(s.pre, |s.pre|);
    OwnPre(s.pre, |s.pre|);
    LeaveLoop(w, r, s.pre);
    AgainPoint(s, st, lvl, st0, test, st2, d1, st4, st3, st7, c4, vs);
    var c5 := SimDestroy(g, w, Values(vs), false, st4, lvl, c4, r.fuel);
    UnwindValues(w, vs, false, c4.t, r.fuel);
    Chain(g, w, c, c4, c5, fuel - r.fuel, 0);
    Execute(g, w, st3, IBr(st.next), c5);
    var c6 := Do(w, c5, IBr(st.next));
    c' := SimLoop(g, w, s, st, lvl, c5, c6, r.fuel, cleanup, inLoop, scope);
    MatchBack(g, w, c, c5, c', Exec(w, s, c6.t, st.check, r.fuel), st, CgWhile(s, st, lvl).value, scope, fuel, r.fuel);
  }

  lemma LeaveLoop(w: World, r: Run, pre: seq<Stmt>)
    requires Simple(pre) && (r.out == Normal || r.out == Continued)
    ensures Leave(w, LoopExit(r), pre, |pre|) == Run(Normal, DropAll(PreSlots(pre, |pre|), r.t), r.fuel)
  {
    OwnPre(pre, |pre|);
    FinishValues(w, LoopExit(r), PreSlots(pre, |pre|));
  }

  lemma AgainPoint(s: Stmt, st: Ctx, lvl: nat, st0: Ctx, test: Ctx, st2: Ctx, d1: Done, st4: Ctx, st3: Ctx, st7: Ctx, c4: Config, vs: seq<Slot>)
    requires s.While? && LoopShape(s, st, lvl, st0, test, st2, d1, st4, st3, st7)
    requires AtBlock(c4, st.next + 2) && At(st4.code, st.next + 2) == []
    requires st4.stack == st.stack + Values(vs)
    ensures Here(c4, st4) && Destroy(Values(vs), false, st4, lvl) == Ok(st3)
  {
    hide CgStmt, CgWhole, CgPre, Destroy, EndScope, CgWhile;
    Tail(st.stack, Values(vs));
  }

  // Leaving the loop normally.
  lemma {:induction false} SimExit(g: Code, w: World, s: Stmt, st: Ctx, lvl: nat, c: Config, c2: Config, r: Run, fuel: nat, cleanup: bool, inLoop: bool, scope: set<string>) returns (c': Config)
    requires s.While? && Ready(st, scope) && WellFormed(s, cleanup, inLoop, scope) && st.labels.Keys !! LabelsOf(s)
    requires CgWhile(s, st, lvl).Ok? && Sub(CgWhile(s, st, lvl).value.st.code, g)
    requires Leavable(s, st, lvl) && AtBlock(c2, st.next + 3) && r.out == Normal && c2.t == r.t && r.fuel <= fuel && Reaches(g, w, c, c2, fuel - r.fuel)
    ensures Match(g, w, c, c', Leave(w, r, s.pre, |s.pre|), st, CgWhile(s, st, lvl).value, scope, fuel)
    decreases fuel, lvl, 8, s, 1
  {
    hide Ext, Sub, Reaches, At, Leaves, Tame, Within, Marked, CgStmt, Fork, CgWhile, WellFormed, CgPre, CgWhole, Destroy, EndScope, LabelsKept, SameTargets, LoopDone, LoopFramed, Ready, Match;
    var st0, test, st2, d1, st4, st3, st7 := LoopStates(s, st, lvl);
    LoopFrames(s, st, lvl, cleanup, inLoop, scope, st0, test, st2, d1, st4, st3, st7);
    LoopCode(g, s, st, lvl, st0, test, st2, d1, st4, st3, st7);
    NormalMatch(g, w, c, c2, r, st7, scope, fuel);
    SelfTargets(st7);
    Framed7(s, st, st0, test, st2, d1, st4, st3, st7);
    c' := SimClose(g, w, Own(s.pre, |s.pre|), st, st7, Done(st7, false), lvl, c, c2, r, scope, fuel, LabelsOf(s));
  }

  lemma NormalMatch(g: Code, w: World, c: Config, c': Config, r: Run, st: Ctx, scope: set<string>, fuel: nat)
    requires AtBlock(c', st.cur) && At(st.code, st.cur) == [] && r.out == Normal && c'.t == r.t && Reaches(g, w, c, c', fuel - r.fuel)
    ensures Match(g, w, c, c', r, st, Done(st, false), scope, fuel)
  {
  }

  lemma SelfTargets(st: Ctx)
    ensures SameTargets(st, st)
  {
  }

  lemma Framed7(s: Stmt, st: Ctx, st0: Ctx, test: Ctx, st2: Ctx, d1: Done, st4: Ctx, st3: Ctx, st7: Ctx)
    requires s.While? && LoopFramed(s, st, st0, test, st2, d1, st4, st3, st7)
    ensures Within(st7)
  {
  }

  lemma {:induction false} SimTry(g: Code, w: World, s: Stmt, st: Ctx, lvl: nat, c: Config, fuel: nat, cleanup: bool, inLoop: bool, scope: set<string>) returns (c': Config)
    requires s.Try? && Ready(st, scope) && WellFormed(s, cleanup, inLoop, scope) && st.labels.Keys !! LabelsOf(s)
    requires CgStmt(s, st, lvl).Ok?
    requires Here(c, st) && Sub(CgStmt(s, st, lvl).value.st.code, g)
    ensures Match(g, w, c, c', Exec(w, s, c.t, st.check, fuel), st, CgStmt(s, st, lvl).value, scope, fuel)
    decreases fuel, lvl, 8, s, 3
  {
    hide Ext, Sub, Reaches, At, Leaves, Tame, Within, Marked, Match, CgStmt, Merge, WellFormed, BranchToEnd;
    var x1, d1, x2, d2 := TryFrame(g, s, st, lvl, cleanup, inLoop, scope, c);
    var d := Merge(d1, d2);
    var c1 := SimStmt(g, w, s.tried, x1, lvl, c, fuel, cleanup, inLoop, scope);
    var r := Exec(w, s.tried, c.t, st.check, fuel);
    if r.out == Threw {
      Caught(g, w, c, c1, r, st, x1, d1, scope, fuel);
      c' := SimPart(g, w, s, s.handler, x2, d2, if d1.term then None else Some(d1.st.next), st, d, lvl, c1, c1, r.fuel, cleanup, inLoop, scope, LabelsOf(s.tried)) by {
        NoStep(g, w, c1);
        assert Here(c1, x2) by { assert Part(g, s.handler, x2, d2, if d1.term then None else Some(d1.st.next), st, d, LabelsOf(s.tried), cleanup, inLoop, scope); }
      }
      MatchBack(g, w, c, c1, c', Exec(w, s.handler, r.t, st.check, r.fuel), st, d, scope, fuel, r.fuel);
    } else {
      c' := TriedDone(g, w, c, c1, r, x1, d1, st, d, scope, fuel);
    }
  }

  // An exception leaves the tried part for the handler's block, everything
  // inside having been cleaned up.
  lemma Caught(g: Code, w: World, c: Config, c1: Config, r: Run, st: Ctx, x1: Ctx, d1: Done, scope: set<string>, fuel: nat)
    requires Match(g, w, c, c1, r, x1, d1, scope, fuel) && r.out == Threw
    requires x1.stack == st.stack && x1.excs == st.excs + [Target(st.next, |st.stack|, 0)]
    ensures AtBlock(c1, st.next) && c1.t == r.t && Reaches(g, w, c, c1, fuel - r.fuel)
  {
    assert st.stack[|st.stack|..] == [];
    assert Finish(w, r, []) == r;
    Enough(g, w, c, c1, fuel - r.fuel + 1, fuel - r.fuel);
  }

  // The tried part ended without an exception.
  lemma TriedDone(g: Code, w: World, c: Config, c1: Config, r: Run, x1: Ctx, d1: Done, st: Ctx, d: Done, scope: set<string>, fuel: nat) returns (c': Config)
    requires Match(g, w, c, c1, r, x1, d1, scope, fuel) && r.out != Threw
    requires Ready(st, scope) && x1 == NewBlock(st).(excs := x1.excs)
    requires SameBreaks(d1.st, d.st) && (!d1.term ==> Arrives(g, d1, None, d))
    ensures Match(g, w, c, c', r, st, d, scope, fuel)
  {
    hide Leaves, Reaches, Tame, Within, Arrives;
    if r.out == Normal {
      c' := Arrive(g, w, c, c1, r, d1, None, st, d, scope, fuel);
    } else {
      c' := c1;
      assert st.stack + [] == st.stack;
      assert !Halting(r.out) ==> SameTarget(r.out, x1, st, scope);
      MatchLeave(g, w, c, c1, r, x1, d1, scope, [], st, d, scope, fuel);
      assert Finish(w, r, []) == r;
    }
  }

  predicate SameBreaks(a: Ctx, b: Ctx) {
    |b.breaks| == |a.breaks| && forall i :: 0 <= i < |a.breaks| ==> b.breaks[i].uses >= a.breaks[i].uses
  }

  // What is known of the states of a try.
  lemma TryFrame(g: Code, s: Stmt, st: Ctx, lvl: nat, cleanup: bool, inLoop: bool, scope: set<string>, c: Config)
    returns (x1: Ctx, d1: Done, x2: Ctx, d2: Done)
    requires s.Try? && Ready(st, scope) && WellFormed(s, cleanup, inLoop, scope) && st.labels.Keys !! LabelsOf(s)
    requires CgStmt(s, st, lvl).Ok? && Sub(CgStmt(s, st, lvl).value.st.code, g) && Here(c, st)
    ensures x1 == NewBlock(st).(excs := st.excs + [Target(st.next, |st.stack|, 0)]) && Here(c, x1)
    ensures Ready(x1, scope) && WellFormed(s.tried, cleanup, inLoop, scope) && x1.labels.Keys !! LabelsOf(s.tried)
    ensures CgStmt(s.tried, x1, lvl) == Ok(d1) && Sub(d1.st.code, g)
    ensures CgStmt(s.handler, x2, lvl) == Ok(d2) && CgStmt(s, st, lvl).value == Merge(d1, d2) && x2.cur == st.next && x2.check == st.check
    ensures Part(g, s.handler, x2, d2, if d1.term then None else Some(d1.st.next), st, Merge(d1, d2), LabelsOf(s.tried), cleanup, inLoop, scope)
    ensures SameBreaks(d1.st, Merge(d1, d2).st) && (!d1.term ==> Arrives(g, d1, None, Merge(d1, d2)))
  {
    hide Ext, Sub, Tame, Within, Marked, Arrives, Merge, BranchToEnd, At;
    var jt := Target(st.next, |st.stack|, 0);
    x1 := TryEnter(st, jt, scope, c);
    FrameStmtIn(s.tried, x1, lvl, cleanup, inLoop, scope);
    d1 := CgStmt(s.tried, x1, lvl).value;
    EndTargets(x1, d1, None, LabelsOf(s.tried));
    var e := BranchToEnd(d1, None);
    x2 := e.(excs := Pop(e.excs), cur := st.next);
    HandlerState(st, x1, e, x2, LabelsOf(s.tried), scope);
    assert x2.labels.Keys !! LabelsOf(s.handler);
    FrameStmtIn(s.handler, x2, lvl, cleanup, inLoop, scope);
    d2 := CgStmt(s.handler, x2, lvl).value;
    hide CgStmt, Ready, LabelsKept;
    TwoCode(g, x1, d1, x2, d2, LabelsOf(s.tried), LabelsOf(s.handler));
    MergeTargets(d1, x2, d2);
    assert SameBreaks(d1.st, Merge(d1, d2).st);
  }

  lemma TryEnter(st: Ctx, jt: Target, scope: set<string>, c: Config) returns (x1: Ctx)
    requires Ready(st, scope) && jt.marker == |st.stack| && Here(c, st)
    ensures x1 == NewBlock(st).(excs := st.excs + [jt]) && Here(c, x1) && Ready(x1, scope)
    ensures At(x1.code, st.next) == [] && x1.cur != st.next
  {
    hide Tame;
    x1 := NewBlock(st).(excs := st.excs + [jt]);
    assert Within(x1);
  }

  lemma HandlerState(st: Ctx, x1: Ctx, e: Ctx, x2: Ctx, ls: set<string>, scope: set<string>)
    requires Ready(st, scope) && x1 == NewBlock(st).(excs := x1.excs) && |x1.excs| == |st.excs| + 1 && Pop(x1.excs) == st.excs
    requires Frame(x1, e, ls) && e.stack == x1.stack
    requires x2 == e.(excs := Pop(e.excs), cur := st.next)
    ensures Ready(x2, scope) && x2.stack == st.stack && SameTargets(st, x2) && LabelsKept(st, x2, ls)
    ensures x2.labels.Keys <= st.labels.Keys + ls
  {
    hide Ext, Tame;
    assert Within(x2);
    ReadyWithin(st, x2, scope, ls);
  }

  lemma {:induction false} SimBlockStmt(g: Code, w: World, ss: seq<Stmt>, st: Ctx, lvl: nat, c: Config, fuel: nat, cleanup: bool, inLoop: bool, scope: set<string>) returns (c': Config)
    requires Ready(st, scope) && WellFormedAll(ss, |ss|, cleanup, inLoop, scope) && st.labels.Keys !! LabelsOfAll(ss)
    requires CgStmt(Block(ss), st, lvl).Ok?
    requires Here(c, st) && Sub(CgStmt(Block(ss), st, lvl).value.st.code, g)
    ensures Match(g, w, c, c', ExecBlock(w, ss, 0, c.t, st.check, fuel), st, CgStmt(Block(ss), st, lvl).value, scope, fuel)
    decreases fuel, lvl, 8, ss, |ss| + 2
  {
    hide Ext, Sub, Reaches, At, Tame, Within, Marked, CgStmt, Ready, WellFormedAll, CgItems, EndScope, LabelsKept, SameTargets, Match;
    BlockBegins(g, ss, st, lvl, cleanup, inLoop, scope, c);
    c' := SimBlock(g, w, ss, 0, st, lvl, c, fuel, cleanup, inLoop, scope);
  }

  // The compilation of a block entered in state a, before item n.
  function Before(ss: seq<Stmt>, n: nat, a: Ctx, lvl: nat): Compiled<Done>
    requires n <= |ss|
  {
    var st0 :- CollectLabels(ss, 0, a);
    CgItems(ss, n, Done(st0, false), lvl)
  }

  lemma BlockBegins(g: Code, ss: seq<Stmt>, a: Ctx, lvl: nat, cleanup: bool, inLoop: bool, scope: set<string>, c: Config)
    requires InBlock(g, ss, a, lvl, cleanup, inLoop, scope) && Here(c, a)
    ensures Before(ss, 0, a, lvl).Ok? && !Before(ss, 0, a, lvl).value.term && Here(c, Before(ss, 0, a, lvl).value.st)
  {
    CollectHere(g, ss, 0, a);
    SameHere(c, a, CollectLabels(ss, 0, a).value);
  }

  // Going from one state of a compilation to a later one.
  ghost predicate Onward(g: Code, x: Ctx, y: Ctx) {
    && (Sub(y.code, g) ==> Sub(x.code, g)) && SameTargets(x, y)
    && forall l :: l in x.labels ==> l in y.labels && y.labels[l] == x.labels[l]
  }

  lemma OnwardThen(g: Code, x: Ctx, y: Ctx, z: Ctx)
    requires Onward(g, x, y) && Onward(g, y, z)
    ensures Onward(g, x, z)
  {
    hide Sub;
  }

  lemma FrameOnward(g: Code, x: Ctx, y: Ctx, ls: set<string>)
    requires Within(x) && Frame(x, y, ls)
    ensures Onward(g, x, y)
  {
    hide Ext, Sub;
    if Sub(y.code, g) { SubBack(x, y, ls, g); }
  }

  lemma CollectHere(g: Code, ss: seq<Stmt>, i: nat, st: Ctx)
    requires i <= |ss| && Within(st) && CollectLabels(ss, i, st).Ok?
    ensures var x := CollectLabels(ss, i, st).value;
            Onward(g, st, x) && x.cur == st.cur && At(x.code, st.cur) == At(st.code, st.cur)
    decreases |ss| - i
  {
    if i < |ss| && !ss[i].Var? {
      var y := CollectOne(ss, i, st);
      var x := CollectLabels(ss, i, st).value;
      CollectStep(g, ss, i, st);
      CollectHere(g, ss, i + 1, y);
      OnwardThen(g, st, y, x);
    }
  }

  lemma CollectStep(g: Code, ss: seq<Stmt>, i: nat, st: Ctx)
    requires i < |ss| && Within(st) && (ss[i].Label? ==> ss[i].l !in st.labels)
    ensures var y := CollectOne(ss, i, st);
            Onward(g, st, y) && Within(y) && y.cur == st.cur && At(y.code, st.cur) == At(st.code, st.cur)
  {
    if ss[i].Label? {
      Self(st, {});
      NewFrame(st, st, {});
      var y := CollectOne(ss, i, st);
      assert y.code == NewBlock(st).code;
      if Sub(y.code, g) { SubBack(st, NewBlock(st), {}, g); }
    }
  }

  // Items never take back what is compiled.
  lemma BeforeOk(ss: seq<Stmt>, m: nat, n: nat, a: Ctx, lvl: nat)
    requires m <= n <= |ss| && Before(ss, n, a, lvl).Ok?
    ensures Before(ss, m, a, lvl).Ok?
    ensures m < n ==> CgItem(ss, m, Before(ss, m, a, lvl).value, lvl) == Before(ss, m + 1, a, lvl)
    decreases n
  {
    if m < n { BeforeOk(ss, m, n - 1, a, lvl); }
  }

  // A block under compilation, whose code is in g.
  ghost predicate InBlock(g: Code, ss: seq<Stmt>, a: Ctx, lvl: nat, cleanup: bool, inLoop: bool, scope: set<string>) {
    && Ready(a, scope) && WellFormedAll(ss, |ss|, cleanup, inLoop, scope) && a.labels.Keys !! LabelsOfAll(ss)
    && CgStmt(Block(ss), a, lvl).Ok? && Sub(CgStmt(Block(ss), a, lvl).value.st.code, g)
  }

  // What is known of the state before item i.
  ghost predicate ItemState(g: Code, ss: seq<Stmt>, i: nat, a: Ctx, lvl: nat, scope: set<string>, d: Done)
    requires i <= |ss|
  {
    && Before(ss, i, a, lvl) == Ok(d) && ItemsInv(ss, i, a, d)
    && CgStmt(Block(ss), a, lvl).Ok? && Onward(g, d.st, CgStmt(Block(ss), a, lvl).value.st) && Sub(d.st.code, g)
    && Within(d.st)
    && (!d.term ==> Reachable(ss, i, a, d) && d.st.stack == a.stack + Own(ss, i) && Ready(d.st, scope + Visible(ss, i)))
  }

  lemma BlockState(g: Code, ss: seq<Stmt>, i: nat, a: Ctx, lvl: nat, cleanup: bool, inLoop: bool, scope: set<string>) returns (d: Done)
    requires i <= |ss| && InBlock(g, ss, a, lvl, cleanup, inLoop, scope)
    ensures ItemState(g, ss, i, a, lvl, scope, d) && Tame(Own(ss, i)) && Before(ss, i, a, lvl) == Ok(d)
    ensures CgStmt(Block(ss), a, lvl).Ok?
  {
    hide Ext, LabelsKept, SameTargets, Within, Tame, Sub, Marked, Unplaced, Unseen, Reachable, Dead, CgItems, CgStmt, EndScope, WellFormedAll, CollectLabels, Onward, ItemsInv;
    var n := |ss|;
    BlockOk(ss, a, lvl);
    BeforeOk(ss, i, n, a, lvl);
    d := Before(ss, i, a, lvl).value;
    BlockTame(ss, i, cleanup, inLoop, scope);
    BlockItems(g, ss, i, n, a, lvl, cleanup, inLoop, scope);
    BlockItems(g, ss, n, n, a, lvl, cleanup, inLoop, scope);
    BlockOnward(g, ss, i, n, a, lvl, cleanup, inLoop, scope);
    ClosingOnward(g, ss, a, lvl, cleanup, inLoop, scope);
    OnwardThen(g, d.st, Before(ss, n, a, lvl).value.st, CgStmt(Block(ss), a, lvl).value.st);
    OnwardSub(g, d.st, CgStmt(Block(ss), a, lvl).value.st);
    if !d.term { ItemReady(ss, i, a, d, scope); }
  }

  lemma OnwardSub(g: Code, x: Ctx, y: Ctx)
    requires Onward(g, x, y) && Sub(y.code, g)
    ensures Sub(x.code, g)
  {
  }

  lemma BlockOk(ss: seq<Stmt>, a: Ctx, lvl: nat)
    requires CgStmt(Block(ss), a, lvl).Ok?
    ensures Before(ss, |ss|, a, lvl).Ok?
    ensures var d := Before(ss, |ss|, a, lvl).value;
            |a.stack| <= |d.st.stack| && CgStmt(Block(ss), a, lvl) == EndScope(|a.stack|, d.term, d.st, lvl)
  {
  }

  lemma BlockTame(ss: seq<Stmt>, i: nat, cleanup: bool, inLoop: bool, scope: set<string>)
    requires i <= |ss| && WellFormedAll(ss, |ss|, cleanup, inLoop, scope)
    ensures Tame(Own(ss, i))
  {
    if i < |ss| { WellFormedItem(ss, |ss|, i, cleanup, inLoop, scope); }
    OwnTame(ss, i, cleanup, inLoop, scope);
  }

  // The block's invariant at item i, if n items have been compiled.
  lemma BlockItems(g: Code, ss: seq<Stmt>, i: nat, n: nat, a: Ctx, lvl: nat, cleanup: bool, inLoop: bool, scope: set<string>)
    requires i <= n <= |ss| && Ready(a, scope) && WellFormedAll(ss, |ss|, cleanup, inLoop, scope) && a.labels.Keys !! LabelsOfAll(ss)
    requires Before(ss, n, a, lvl).Ok?
    ensures Before(ss, i, a, lvl).Ok? && ItemsInv(ss, i, a, Before(ss, i, a, lvl).value)
    ensures var d := Before(ss, i, a, lvl).value; Within(d.st) && (!d.term ==> Reachable(ss, i, a, d) && d.st.stack == a.stack + Own(ss, i))
  {
    BeforeOk(ss, i, n, a, lvl);
    FrameItems(ss, i, a, lvl, cleanup, inLoop, scope);
  }

  lemma {:induction false} BlockOnward(g: Code, ss: seq<Stmt>, m: nat, n: nat, a: Ctx, lvl: nat, cleanup: bool, inLoop: bool, scope: set<string>)
    requires m <= n <= |ss| && Ready(a, scope) && WellFormedAll(ss, |ss|, cleanup, inLoop, scope) && a.labels.Keys !! LabelsOfAll(ss)
    requires Before(ss, m, a, lvl).Ok? && Before(ss, n, a, lvl).Ok?
    ensures Onward(g, Before(ss, m, a, lvl).value.st, Before(ss, n, a, lvl).value.st)
    decreases n
  {
    hide Ext, LabelsKept, SameTargets, Within, Tame, Sub, Marked, Unplaced, Unseen, Reachable, Dead, CgItem, ItemsInv, Onward, Ready, WellFormedAll, Before;
    var x, y := Before(ss, m, a, lvl).value, Before(ss, n, a, lvl).value;
    if m == n {
      OnwardSelf(g, x.st);
    } else {
      BeforeOk(ss, n - 1, n, a, lvl);
      var z := Before(ss, n - 1, a, lvl).value;
      BlockOnward(g, ss, m, n - 1, a, lvl, cleanup, inLoop, scope);
      BlockItems(g, ss, n - 1, n, a, lvl, cleanup, inLoop, scope);
      ItemOnward(g, ss, n - 1, a, z, y, lvl, cleanup, inLoop, scope);
      OnwardThen(g, x.st, z.st, y.st);
    }
  }

  lemma OnwardSelf(g: Code, x: Ctx)
    ensures Onward(g, x, x)
  {
  }

  lemma ItemOnward(g: Code, ss: seq<Stmt>, i: nat, a: Ctx, d: Done, e: Done, lvl: nat, cleanup: bool, inLoop: bool, scope: set<string>)
    requires i < |ss| && Ready(a, scope) && WellFormedAll(ss, |ss|, cleanup, inLoop, scope)
    requires ItemsInv(ss, i, a, d) && Within(d.st) && CgItem(ss, i, d, lvl) == Ok(e)
    requires !d.term ==> d.st.stack == a.stack + Own(ss, i)
    ensures Onward(g, d.st, e.st)
  {
    hide Ext, LabelsKept, SameTargets, Within, Tame, Sub, Marked, Unplaced, Reachable, Dead, Onward, WellFormedAll, CgStmt;
    WellFormedItem(ss, |ss|, i, cleanup, inLoop, scope);
    if ss[i].Label? {
      LabelOnward(g, d, d.st.labels[ss[i].l].block);
    } else if d.term {
      OnwardSelf(g, d.st);
    } else {
      BlockTame(ss, i, cleanup, inLoop, scope);
      TameConcat(a.stack, Own(ss, i));
      if ss[i].Var? {
        var st1 := CgVar(ss[i].inits, d.st, lvl).value;
        FrameVar(ss[i].inits, d.st, lvl);
        FrameOnward(g, d.st, st1, {});
        CollectHere(g, ss, i + 1, st1);
        OnwardThen(g, d.st, st1, e.st);
      } else {
        UnseenItem(ss, i, d.st);
        FrameStmt(ss[i], d.st, lvl, cleanup, inLoop, scope + Visible(ss, i));
        FrameOnward(g, d.st, e.st, LabelsOf(ss[i]));
      }
    }
  }

  lemma LabelOnward(g: Code, d: Done, b: nat)
    ensures Onward(g, d.st, (if d.term then d.st else Emit(d.st, IBr(b))).(cur := b))
  {
    var e := (if d.term then d.st else Emit(d.st, IBr(b))).(cur := b);
    if Sub(e.code, g) && !d.term { SubEmit(d.st, IBr(b), g); }
  }

  lemma ClosingOnward(g: Code, ss: seq<Stmt>, a: Ctx, lvl: nat, cleanup: bool, inLoop: bool, scope: set<string>)
    requires InBlock(g, ss, a, lvl, cleanup, inLoop, scope) && Before(ss, |ss|, a, lvl).Ok?
    requires var d := Before(ss, |ss|, a, lvl).value; Within(d.st) && (!d.term ==> d.st.stack == a.stack + Own(ss, |ss|))
    ensures Onward(g, Before(ss, |ss|, a, lvl).value.st, CgStmt(Block(ss), a, lvl).value.st)
  {
    hide Ext, LabelsKept, SameTargets, Within, Tame, Sub, Marked, CgItems, CgStmt, WellFormedAll, CollectLabels, Onward;
    BlockOk(ss, a, lvl);
    var d := Before(ss, |ss|, a, lvl).value;
    if d.term {
      PopOnward(g, d.st, |a.stack|);
    } else {
      BlockTame(ss, |ss|, cleanup, inLoop, scope);
      TameConcat(a.stack, Own(ss, |ss|));
      FrameEndScope(|a.stack|, d.term, d.st, lvl);
      FrameOnward(g, d.st, CgStmt(Block(ss), a, lvl).value.st, {});
    }
  }

  lemma PopOnward(g: Code, x: Ctx, n: nat)
    ensures Onward(g, x, PopTo(x, n))
  {
  }

  lemma ItemReady(ss: seq<Stmt>, i: nat, a: Ctx, d: Done, scope: set<string>)
    requires i <= |ss| && Ready(a, scope) && Frame(a, d.st, LabelsOfAll(ss)) && Reachable(ss, i, a, d)
    requires d.st.stack == a.stack + Own(ss, i) && Tame(Own(ss, i))
    ensures Ready(d.st, scope + Visible(ss, i))
  {
    hide Ext, Own;
    TameConcat(a.stack, Own(ss, i));
    hide Tame;
    forall q | 0 <= q < |ss| && ss[q].Label? && SegmentStart(ss, q) <= i
      ensures ss[q].l in d.st.labels && d.st.labels[ss[q].l].marker <= |d.st.stack|
    {
      if q <= i { SegmentsInOrder(ss, q, i); } else { SegmentsInOrder(ss, i, q); }
      OwnGrows(ss, SegmentStart(ss, q), i);
    }
  }

  lemma {:induction false} SimItem(g: Code, w: World, ss: seq<Stmt>, i: nat, a: Ctx, d: Done, e: Done, lvl: nat, c: Config, fuel: nat, cleanup: bool, inLoop: bool, scope: set<string>) returns (c': Config)
    requires i < |ss| && InBlock(g, ss, a, lvl, cleanup, inLoop, scope)
    requires ItemState(g, ss, i, a, lvl, scope, d) && ItemState(g, ss, i + 1, a, lvl, scope, e) && !d.term && Here(c, d.st)
    ensures Match(g, w, c, c', Exec(w, ss[i], c.t, a.check, fuel), d.st, e, scope + Visible(ss, i), fuel)
    decreases fuel, lvl, 8, ss, 0
  {
    hide Ext, LabelsKept, SameTargets, Within, Tame, Sub, Marked, Unplaced, Onward, WellFormedAll, CgStmt, Reaches, Here, Leaves, Before, Own, Visible, ItemState, InBlock, Ready, Match;
    ItemFacts(g, ss, i, a, d, e, lvl, cleanup, inLoop, scope);
    match ss[i]
    case Label(_) => c' := SimLabel(g, w, ss, i, d, e, c, scope + Visible(ss, i), fuel);
    case Var(_) => c' := SimVar(g, w, ss, i, d, e, lvl, c, scope + Visible(ss, i), fuel);
    case _ => c' := SimStmt(g, w, ss[i], d.st, lvl, c, fuel, cleanup, inLoop, scope + Visible(ss, i));
  }

  lemma ItemFacts(g: Code, ss: seq<Stmt>, i: nat, a: Ctx, d: Done, e: Done, lvl: nat, cleanup: bool, inLoop: bool, scope: set<string>)
    requires i < |ss| && InBlock(g, ss, a, lvl, cleanup, inLoop, scope)
    requires ItemState(g, ss, i, a, lvl, scope, d) && ItemState(g, ss, i + 1, a, lvl, scope, e) && !d.term
    ensures CgItem(ss, i, d, lvl) == Ok(e) && Unplaced(ss, i, d.st) && d.st.check == a.check && Sub(e.st.code, g)
    ensures Ready(d.st, scope + Visible(ss, i)) && WellFormed(ss[i], cleanup, inLoop, scope + Visible(ss, i))
    ensures !ss[i].Label? ==> d.st.labels.Keys !! LabelsOf(ss[i])
  {
    hide Ext, LabelsKept, Within, Tame, Sub, Marked, Unplaced, Reachable, Dead, Onward, WellFormedAll, CgStmt, Before, Own, Visible;
    BeforeStep(ss, i, a, lvl, d, e);
    WellFormedItem(ss, |ss|, i, cleanup, inLoop, scope);
    if !ss[i].Label? { UnseenItem(ss, i, d.st); }
  }

  lemma {:induction false} SimVar(g: Code, w: World, ss: seq<Stmt>, i: nat, d: Done, e: Done, lvl: nat, c: Config, scope: set<string>, fuel: nat) returns (c': Config)
    requires i < |ss| && ss[i].Var? && CgItem(ss, i, d, lvl) == Ok(e) && !d.term && Here(c, d.st) && Ready(d.st, scope) && Sub(e.st.code, g)
    ensures Match(g, w, c, c', Exec(w, ss[i], c.t, d.st.check, fuel), d.st, e, scope, fuel)
    decreases fuel, lvl, 7, 4
  {
    hide Ext, LabelsKept, SameTargets, Within, Tame, Sub, Marked, Onward, Reaches, Thrown, Here, Leaves, CgVar, CollectLabels;
    ReadyLess(d.st, scope);
    var st1 := CgVar(ss[i].inits, d.st, lvl).value;
    VarWithin(ss[i].inits, d.st, lvl, scope);
    CollectHere(g, ss, i + 1, st1);
    OnwardSub(g, st1, e.st);
    c' := SimPreItem(g, w, ss[i], d.st, lvl, c, fuel);
    ItemOutcome(w, ss[i], c.t, d.st.check, fuel);
    var r := Exec(w, ss[i], c.t, d.st.check, fuel);
    if r.out == Normal {
      SameHere(c', st1, e.st);
    } else {
      ThrownMatches(g, w, c, c', r.t, d.st, e, scope, fuel);
    }
  }

  lemma BeforeStep(ss: seq<Stmt>, i: nat, a: Ctx, lvl: nat, d: Done, e: Done)
    requires i < |ss| && Before(ss, i, a, lvl) == Ok(d) && Before(ss, i + 1, a, lvl) == Ok(e)
    ensures CgItem(ss, i, d, lvl) == Ok(e)
  {
  }

  lemma VarWithin(inits: seq<Init>, st: Ctx, lvl: nat, scope: set<string>)
    requires Ready(st, scope) && CgVar(inits, st, lvl).Ok?
    ensures Within(CgVar(inits, st, lvl).value)
  {
    FrameVar(inits, st, lvl);
  }

  lemma SameHere(c: Config, x: Ctx, y: Ctx)
    requires Here(c, x) && y.cur == x.cur && At(y.code, x.cur) == At(x.code, x.cur)
    ensures Here(c, y)
  {
  }

  // Reaching a label from above.
  lemma SimLabel(g: Code, w: World, ss: seq<Stmt>, i: nat, d: Done, e: Done, c: Config, scope: set<string>, fuel: nat) returns (c': Config)
    requires i < |ss| && ss[i].Label? && Unplaced(ss, i, d.st) && !d.term && Here(c, d.st) && Sub(e.st.code, g)
    requires ss[i].l in d.st.labels && e == Done(Emit(d.st, IBr(d.st.labels[ss[i].l].block)).(cur := d.st.labels[ss[i].l].block), false)
    ensures Match(g, w, c, c', Run(Normal, c.t, fuel), d.st, e, scope, fuel)
  {
    var b := d.st.labels[ss[i].l].block;
    Execute(g, w, d.st, IBr(b), c);
    c' := Do(w, c, IBr(b));
    Enough(g, w, c, c', 1, 0);
    EmitKeep(d.st, IBr(b), b);
  }

  lemma {:induction false} SimBlock(g: Code, w: World, ss: seq<Stmt>, i: nat, a: Ctx, lvl: nat, c: Config, fuel: nat, cleanup: bool, inLoop: bool, scope: set<string>) returns (c': Config)
    requires i <= |ss| && InBlock(g, ss, a, lvl, cleanup, inLoop, scope) && CgStmt(Block(ss), a, lvl).Ok?
    requires Before(ss, i, a, lvl).Ok? && !Before(ss, i, a, lvl).value.term && Here(c, Before(ss, i, a, lvl).value.st)
    ensures Match(g, w, c, c', ExecBlock(w, ss, i, c.t, a.check, fuel), a, CgStmt(Block(ss), a, lvl).value, scope, fuel)
    decreases fuel, lvl, 8, ss, |ss| - i + 1
  {
    hide Ext, Sub, Reaches, At, Tame, Within, Marked, CgStmt, Ready, WellFormedAll, CgItems, EndScope, LabelsKept, SameTargets, Match, InBlock, ItemState, Before, Leaves, Here, Exec, Own, Visible, FindLabel, LabelsOfAll, Unwind, Leave, Height;
    var d := BlockState(g, ss, i, a, lvl, cleanup, inLoop, scope);
    var fin := CgStmt(Block(ss), a, lvl).value;
    if i == |ss| {
      c' := SimBlockEnd(g, w, ss, a, d, lvl, c, fuel, cleanup, inLoop, scope);
      return;
    }
    var e := BlockState(g, ss, i + 1, a, lvl, cleanup, inLoop, scope);
    SizeOfItem(ss, i);
    var r := Exec(w, ss[i], c.t, a.check, fuel);
    var c1 := SimItem(g, w, ss, i, a, d, e, lvl, c, fuel, cleanup, inLoop, scope);
    if r.out == Normal {
      NormalNext(g, w, c, c1, r, d.st, e, scope + Visible(ss, i), fuel);
      c' := SimBlock(g, w, ss, i + 1, a, lvl, c1, r.fuel, cleanup, inLoop, scope);
      MatchBack(g, w, c, c1, c', ExecBlock(w, ss, i + 1, c1.t, a.check, r.fuel), a, fin, scope, fuel, r.fuel);
    } else if r.out.Went? && FindLabel(ss, r.out.l, i) >= 0 {
      c' := SimGoto(g, w, ss, i, a, d, e, lvl, c, c1, r, fuel, cleanup, inLoop, scope);
    } else {
      c' := c1;
      BlockLeft(g, w, ss, i, a, d, e, lvl, c, c1, r, fuel, cleanup, inLoop, scope);
    }
  }

  lemma NormalNext(g: Code, w: World, c: Config, c1: Config, r: Run, st: Ctx, e: Done, scope: set<string>, fuel: nat)
    requires Match(g, w, c, c1, r, st, e, scope, fuel) && r.out == Normal
    ensures !e.term && Here(c1, e.st) && c1.t == r.t && Reaches(g, w, c, c1, fuel - r.fuel)
  {
  }

  // The end of the block.
  lemma {:induction false} SimBlockEnd(g: Code, w: World, ss: seq<Stmt>, a: Ctx, d: Done, lvl: nat, c: Config, fuel: nat, cleanup: bool, inLoop: bool, scope: set<string>) returns (c': Config)
    requires InBlock(g, ss, a, lvl, cleanup, inLoop, scope) && ItemState(g, ss, |ss|, a, lvl, scope, d) && !d.term && Here(c, d.st)
    requires Tame(Own(ss, |ss|))
    ensures Match(g, w, c, c', Leave(w, Run(Normal, c.t, fuel), ss, |ss|), a, CgStmt(Block(ss), a, lvl).value, scope, fuel)
    decreases fuel, lvl, 8, ss, 0
  {
    hide Ext, LabelsKept, SameTargets, Within, Tame, Sub, Marked, Unplaced, Unseen, Reachable, Dead, Onward, WellFormedAll, CgStmt, Leaves, Own, Visible;
    BlockOk(ss, a, lvl);
    NoStep(g, w, c);
    SelfTargets(d.st);
    TameConcat(a.stack, Own(ss, |ss|));
    c' := SimClose(g, w, Own(ss, |ss|), a, d.st, d, lvl, c, c, Run(Normal, c.t, fuel), scope, fuel, LabelsOfAll(ss));
  }

  // An item was left for somewhere outside the block.
  lemma BlockLeft(g: Code, w: World, ss: seq<Stmt>, i: nat, a: Ctx, d: Done, e: Done, lvl: nat, c: Config, c1: Config, r: Run, fuel: nat, cleanup: bool, inLoop: bool, scope: set<string>)
    requires i < |ss| && InBlock(g, ss, a, lvl, cleanup, inLoop, scope)
    requires ItemState(g, ss, i, a, lvl, scope, d) && ItemState(g, ss, i + 1, a, lvl, scope, e) && !d.term && Tame(Own(ss, i))
    requires Match(g, w, c, c1, r, d.st, e, scope + Visible(ss, i), fuel) && r.out != Normal
    requires r.out.Went? ==> FindLabel(ss, r.out.l, i) < 0
    ensures Match(g, w, c, c1, Leave(w, r, ss, i), a, CgStmt(Block(ss), a, lvl).value, scope, fuel)
  {
    hide Ext, LabelsKept, Within, Tame, Sub, Marked, Unplaced, Unseen, Reachable, Dead, WellFormedAll, CgStmt, Leaves, Own, Reaches, Here, Before, Ready, Visible;
    if !Halting(r.out) {
      if r.out.Went? && r.out.l in Visible(ss, i) { VisibleFound(ss, r.out.l, i); }
      TargetInside(a, d.st, r.out, scope, LabelsOfAll(ss));
    }
    MatchLeave(g, w, c, c1, r, d.st, e, scope + Visible(ss, i), Own(ss, i), a, CgStmt(Block(ss), a, lvl).value, scope, fuel);
  }

  lemma VisibleFound(ss: seq<Stmt>, l: string, i: nat)
    requires l in Visible(ss, i)
    ensures FindLabel(ss, l, i) >= 0
  {
    FindComplete(ss, l, i, 0);
  }

  lemma {:induction false} FindComplete(ss: seq<Stmt>, l: string, i: nat, from: nat)
    requires from <= |ss| && exists q :: from <= q < |ss| && ss[q] == Label(l) && SegmentStart(ss, q) <= i
    ensures FindLabel(ss, l, i, from) >= 0
    decreases |ss| - from
  {
    if !(ss[from] == Label(l) && SegmentStart(ss, from) <= i) { FindComplete(ss, l, i, from + 1); }
  }

  // A goto to a label of the block.
  lemma {:induction false} SimGoto(g: Code, w: World, ss: seq<Stmt>, i: nat, a: Ctx, d: Done, e: Done, lvl: nat, c: Config, c1: Config, r: Run, fuel: nat, cleanup: bool, inLoop: bool, scope: set<string>) returns (c': Config)
    requires i < |ss| && InBlock(g, ss, a, lvl, cleanup, inLoop, scope) && CgStmt(Block(ss), a, lvl).Ok?
    requires ItemState(g, ss, i, a, lvl, scope, d) && !d.term && Tame(Own(ss, i))
    requires Match(g, w, c, c1, r, d.st, e, scope + Visible(ss, i), fuel) && r.out.Went? && FindLabel(ss, r.out.l, i) >= 0 && r.fuel <= fuel
    ensures var q := FindLabel(ss, r.out.l, i);
            var u := Unwind(w, Own(ss, i)[Height(ss, q, i)..], false, r.t, r.fuel);
            Match(g, w, c, c', if u.out != Normal then u else if u.fuel == 0 then Run(OutOfFuel, u.t, 0)
                               else ExecBlock(w, ss, q + 1, u.t, a.check, u.fuel - 1),
                  a, CgStmt(Block(ss), a, lvl).value, scope, fuel)
    decreases fuel, lvl, 8, ss, 0
  {
    hide Ext, LabelsKept, SameTargets, Within, Tame, Sub, Marked, WellFormedAll, CgStmt, Own, Reaches, Here, Before, Ready, InBlock, ItemState, Match;
    var q := FindLabel(ss, r.out.l, i);
    var es := Own(ss, i)[Height(ss, q, i)..];
    var u := Unwind(w, es, false, r.t, r.fuel);
    var fin := CgStmt(Block(ss), a, lvl).value;
    UnwindOutcome(w, es, false, r.t, r.fuel) by { TameSuffix(Own(ss, i), Height(ss, q, i)); }
    var d1 := BlockState(g, ss, q, a, lvl, cleanup, inLoop, scope);
    var e1 := BlockState(g, ss, q + 1, a, lvl, cleanup, inLoop, scope);
    LabelPoint(g, ss, i, q, a, lvl, scope, d, d1, e1, cleanup, inLoop);
    GotoLanded(g, w, ss, i, q, a, lvl, scope, d, e, c, c1, r, fuel);
    if u.out != Normal || u.fuel == 0 {
      c' := c1;
      HaltedMatch(g, w, c, c1, if u.out != Normal then u else Run(OutOfFuel, u.t, 0), a, fin, scope, fuel);
    } else {
      AtLabel(c1, e1.st);
      c' := SimBlock(g, w, ss, q + 1, a, lvl, c1, u.fuel - 1, cleanup, inLoop, scope);
      MatchBack(g, w, c, c1, c', ExecBlock(w, ss, q + 1, u.t, a.check, u.fuel - 1), a, fin, scope, fuel, u.fuel - 1);
    }
  }

  lemma AtLabel(c: Config, st: Ctx)
    requires AtBlock(c, st.cur) && At(st.code, st.cur) == []
    ensures Here(c, st)
  {
  }

  lemma HaltedMatch(g: Code, w: World, c: Config, c1: Config, r: Run, a: Ctx, d: Done, scope: set<string>, fuel: nat)
    requires Reaches(g, w, c, c1, fuel - r.fuel) && c1.t == r.t
    requires (r.out == OutOfFuel && c1.Running?) || (r.out == Stuck && c1.Wedged?)
    ensures Match(g, w, c, c1, r, a, d, scope, fuel)
  {
  }

  // Where the label of item q is, as item i knows it.
  lemma LabelPoint(g: Code, ss: seq<Stmt>, i: nat, q: nat, a: Ctx, lvl: nat, scope: set<string>, d: Done, d1: Done, e1: Done, cleanup: bool, inLoop: bool)
    requires i < |ss| && q < |ss| && ss[q].Label? && InBlock(g, ss, a, lvl, cleanup, inLoop, scope) && !d.term && SegmentStart(ss, q) <= i
    requires ItemState(g, ss, i, a, lvl, scope, d) && ItemState(g, ss, q, a, lvl, scope, d1) && ItemState(g, ss, q + 1, a, lvl, scope, e1)
    ensures !e1.term && ss[q].l in d.st.labels && e1.st.cur == d.st.labels[ss[q].l].block && At(e1.st.code, e1.st.cur) == []
    ensures d.st.labels[ss[q].l].marker == |a.stack| + |Own(ss, SegmentStart(ss, q))|
  {
    hide Ext, LabelsKept, SameTargets, Within, Tame, Sub, Marked, Unseen, Dead, WellFormedAll, CgStmt, Own, Before, Visible;
    BeforeStep(ss, q, a, lvl, d1, e1);
    if q <= i {
      SegmentsInOrder(ss, q, i);
      BlockOnward(g, ss, q, i, a, lvl, cleanup, inLoop, scope);
    } else {
      SegmentsInOrder(ss, i, q);
      BlockOnward(g, ss, i, q, a, lvl, cleanup, inLoop, scope);
    }
    var b := d1.st.labels[ss[q].l].block;
    if !d1.term { EmitKeep(d1.st, IBr(b), b); }
  }

  // The goto's own cleanup brings control to the label.
  lemma GotoLanded(g: Code, w: World, ss: seq<Stmt>, i: nat, q: nat, a: Ctx, lvl: nat, scope: set<string>, d: Done, e: Done, c: Config, c1: Config, r: Run, fuel: nat)
    requires i < |ss| && q < |ss| && ss[q].Label? && SegmentStart(ss, q) <= i && r.out == Went(ss[q].l)
    requires ItemState(g, ss, i, a, lvl, scope, d) && !d.term && ss[q].l in d.st.labels
    requires d.st.labels[ss[q].l].marker == |a.stack| + |Own(ss, SegmentStart(ss, q))|
    requires Match(g, w, c, c1, r, d.st, e, scope + Visible(ss, i), fuel)
    requires Halting(Unwind(w, Own(ss, i)[Height(ss, q, i)..], false, r.t, r.fuel).out)
    ensures var u := Unwind(w, Own(ss, i)[Height(ss, q, i)..], false, r.t, r.fuel);
            && c1.t == u.t
            && (if u.out == Normal then AtBlock(c1, d.st.labels[ss[q].l].block) && Reaches(g, w, c, c1, fuel - u.fuel + 1)
                else Reaches(g, w, c, c1, fuel - u.fuel) && if u.out == Stuck then c1.Wedged? else c1.Running?)
            && (u.out == Normal && u.fuel == 0 ==> Reaches(g, w, c, c1, fuel))
  {
    hide Ext, LabelsKept, SameTargets, Within, Tame, Sub, Marked, Unplaced, Unseen, Reachable, Dead, WellFormedAll, CgStmt, Own, Before, Ready, Reaches, Visible;
    TailFrom(a.stack, Own(ss, i), Height(ss, q, i));
    var u := Unwind(w, Own(ss, i)[Height(ss, q, i)..], false, r.t, r.fuel);
    if u.out == Normal { Enough(g, w, c, c1, fuel - u.fuel + 1, fuel - u.fuel); }
  }

  lemma TailFrom(a: seq<Entry>, b: seq<Entry>, h: nat)
    requires h <= |b|
    ensures (a + b)[|a| + h..] == b[h..]
  {
  }
}
