// How often the evaluator destroys what it builds. It destroys everything once,
// but for loops: a pass that comes back to the condition destroys what stands
// above the loop's marker and leaves it on the stack.
module EvaluatorLifetimes {
  import opened Syntax
  import opened Semantics
  import opened Evaluator
  import opened Lifetimes

  // How often v has been built, less how often it has been destroyed.
  function Surplus(t: Trace, v: Slot): int {
    if t == [] then 0
    else
      var e := t[|t| - 1];
      Surplus(t[..|t| - 1], v) + if e.Destroyed? then (if e.v == v then -1 else 0) else if e.out == v then 1 else 0
  }

  function Count(vs: seq<Slot>, v: Slot): nat {
    if vs == [] then 0 else Count(vs[..|vs| - 1], v) + if vs[|vs| - 1] == v then 1 else 0
  }

  // What has been built and is not on the stack.
  function Balance(st: State, v: Slot): int {
    Surplus(st.t, v) - Count(st.stack, v)
  }

  lemma SurplusNext(t: Trace, e: Event, v: Slot)
    ensures Surplus(t + [e], v) == Surplus(t, v) + if e.Destroyed? then (if e.v == v then -1 else 0) else if e.out == v then 1 else 0
  {
    assert (t + [e])[..|t + [e]| - 1] == t;
  }

  lemma {:induction false} CountConcat(a: seq<Slot>, b: seq<Slot>, v: Slot)
    ensures Count(a + b, v) == Count(a, v) + Count(b, v)
  {
    if b == [] {
      assert a + b == a;
    } else {
      assert (a + b)[..|a + b| - 1] == a + b[..|b| - 1];
      CountConcat(a, b[..|b| - 1], v);
    }
  }

  lemma {:induction false} CountAny(vs: seq<Slot>, v: Slot)
    ensures Count(vs, v) > 0 <==> v in vs
  {
    if vs != [] {
      CountAny(vs[..|vs| - 1], v);
      assert vs == vs[..|vs| - 1] + [vs[|vs| - 1]];
    }
  }

  lemma CountOne(v: Slot, x: Slot)
    ensures Count([x], v) == if x == v then 1 else 0
  {
    assert [x][..0] == [];
  }

  lemma {:induction false} DropSurplus(vs: seq<Slot>, t: Trace, v: Slot)
    requires !v.prim
    ensures Surplus(DropAll(vs, t), v) == Surplus(t, v) - Count(vs, v)
  {
    if vs != [] {
      var x := vs[|vs| - 1];
      if !x.prim { SurplusNext(t, Destroyed(x), v); }
      DropSurplus(vs[..|vs| - 1], Drop(x, t), v);
    }
  }

  // Popping destroys once what it takes off the stack.
  lemma PopBalance(st: State, marker: nat, v: Slot)
    requires !v.prim && marker <= |st.stack|
    ensures Balance(PopStack(st, marker), v) == Balance(st, v)
  {
    DropSurplus(st.stack[marker..], st.t, v);
    CountConcat(st.stack[..marker], st.stack[marker..], v);
    assert st.stack[..marker] + st.stack[marker..] == st.stack;
  }

  lemma PushBalance(st: State, vs: seq<Slot>, v: Slot)
    ensures Balance(st.(stack := st.stack + vs), v) == Balance(st, v) - Count(vs, v)
  {
    CountConcat(st.stack, vs, v);
  }

  // ----- expressions --------------------------------------------------------

  function One(out: Slot, v: Slot): int { if out == v then 1 else 0 }

  lemma {:induction false} IntoBalance(w: World, e: Expr, out: Slot, st: State, v: Slot)
    requires !v.prim
    ensures Balance(EvInto(w, e, out, st).st, v) == Balance(st, v) + One(out, v)
    decreases e, 0
  {
    hide Surplus, Count;
    match e
    case Lit(b, _) => SurplusNext(st.t, Stored(out, b), v);
    case Call(f, args, _, _) =>
      ArgsBalance(w, args, |args|, st, v);
      var st1 := EvArgs(w, args, |args|, st);
      var reply := Answer(w, st1.t, f, Homes(args));
      SurplusNext(st1.t, Called(f, Homes(args), out, reply.flag, reply.threw, true), v);
    case And(l, r, _) =>
      RefBalance(w, l, st, v);
      var a := EvRef(w, l, st);
      if a.flag { RefBalance(w, r, a.st, v); }
      var b := if a.flag then EvRef(w, r, a.st) else a;
      SurplusNext(b.st.t, Stored(out, b.flag), v);
    case Or(l, r, _) =>
      RefBalance(w, l, st, v);
      var a := EvRef(w, l, st);
      if !a.flag { RefBalance(w, r, a.st, v); }
      var b := if a.flag then a else EvRef(w, r, a.st);
      SurplusNext(b.st.t, Stored(out, b.flag), v);
  }

  lemma {:induction false} RefBalance(w: World, e: Expr, st: State, v: Slot)
    requires !v.prim
    ensures Balance(EvRef(w, e, st).st, v) == Balance(st, v)
    decreases e, 1
  {
    hide Surplus, Count, EvInto;
    IntoBalance(w, e, Home(e), PushValue(st, Home(e)), v);
    PushBalance(st, [Home(e)], v);
    CountOne(v, Home(e));
  }

  lemma {:induction false} ArgsBalance(w: World, args: seq<Expr>, n: nat, st: State, v: Slot)
    requires !v.prim && n <= |args|
    ensures Balance(EvArgs(w, args, n, st), v) == Balance(st, v)
    decreases args, n
  {
    if n > 0 {
      ArgsBalance(w, args, n - 1, st, v);
      RefBalance(w, args[n - 1], EvArgs(w, args, n - 1, st), v);
    }
  }

  lemma WholeBalance(w: World, e: Expr, st: State, v: Slot)
    requires !v.prim
    ensures Balance(EvWhole(w, e, st).st, v) == Balance(st, v)
  {
    RefBalance(w, e, st, v);
    PopBalance(EvRef(w, e, st).st, |st.stack|, v);
  }

  lemma {:induction false} InitsBalance(w: World, inits: seq<Init>, n: nat, st: State, v: Slot)
    requires !v.prim && n <= |inits|
    ensures Balance(EvInits(w, inits, n, st), v) == Balance(st, v) + Count(Slots(inits[..n]), v)
  {
    hide Surplus, EvInto;
    if n > 0 {
      InitsBalance(w, inits, n - 1, st, v);
      assert inits[..n][..n - 1] == inits[..n - 1];
      CountConcat(Slots(inits[..n - 1]), [inits[n - 1].out], v);
      CountOne(v, inits[n - 1].out);
      IntoBalance(w, inits[n - 1].e, inits[n - 1].out, EvInits(w, inits, n - 1, st), v);
    }
  }

  lemma MultiBalance(w: World, inits: seq<Init>, st: State, v: Slot)
    requires !v.prim
    ensures Balance(EvMulti(w, inits, st), v) == Balance(st, v) + Count(Slots(inits), v)
  {
    InitsBalance(w, inits, |inits|, st, v);
    assert inits[..|inits|] == inits;
    PopBalance(EvInits(w, inits, |inits|, st), |st.stack|, v);
  }

  lemma BindingBalance(w: World, inits: seq<Init>, st: State, v: Slot)
    requires !v.prim
    ensures Balance(EvBinding(w, inits, st), v) == Balance(st, v)
  {
    hide Balance;
    MultiBalance(w, inits, st.(stack := st.stack + Slots(inits)), v);
    PushBalance(st, Slots(inits), v);
  }

  lemma {:induction false} PreBalance(w: World, pre: seq<Stmt>, n: nat, st: State, v: Slot)
    requires !v.prim && n <= |pre|
    ensures Balance(EvPre(w, pre, n, st), v) == Balance(st, v)
  {
    hide Balance;
    if n > 0 {
      PreBalance(w, pre, n - 1, st, v);
      var a := EvPre(w, pre, n - 1, st);
      match pre[n - 1]
      case Var(inits) => BindingBalance(w, inits, a, v);
      case Eval(e) => WholeBalance(w, e, a, v);
      case _ =>
    }
  }

  lemma HeadBalance(w: World, pre: seq<Stmt>, cond: Expr, st: State, v: Slot)
    requires !v.prim
    ensures Balance(EvWhole(w, cond, EvPre(w, pre, |pre|, st)).st, v) == Balance(st, v)
  {
    PreBalance(w, pre, |pre|, st, v);
    WholeBalance(w, cond, EvPre(w, pre, |pre|, st), v);
  }

  // ----- what statements leave on the stack ---------------------------------

  // The variables bound in front of a condition.
  function BoundBy(pre: seq<Stmt>, n: nat): seq<Slot>
    requires n <= |pre|
  {
    if n == 0 then [] else BoundBy(pre, n - 1) + if pre[n - 1].Var? then Slots(pre[n - 1].inits) else []
  }

  lemma {:induction false} PreStack(w: World, pre: seq<Stmt>, n: nat, st: State)
    requires n <= |pre|
    ensures EvPre(w, pre, n, st).stack == st.stack + BoundBy(pre, n)
  {
    hide EvWhole, EvMulti;
    if n > 0 { PreStack(w, pre, n - 1, st); }
  }

  // What s leaves on the stack when it falls through, breaks or continues: what
  // is bound in front of the conditions of the ifs it comes out of. Blocks and
  // loops leave nothing, nor does an if without the part to be run.
  function Leaves(w: World, s: Stmt, st: State): seq<Slot>
    decreases s
  {
    match s
    case If(pre, kind, cond, thn, els) =>
      var c := EvWhole(w, cond, EvPre(w, pre, |pre|, st));
      if kind.StaticTrue? || (kind.Dynamic? && c.flag) then BoundBy(pre, |pre|) + Leaves(w, thn, c.st)
      else if els != Block([]) then BoundBy(pre, |pre|) + Leaves(w, els, c.st)
      else []
    case Try(tried, _) => Leaves(w, tried, st)
    case _ => []
  }

  predicate Passable(end: End) { end == Fell || end == Broken || end == Continuing }

  lemma {:induction false} LeavesIs(w: World, s: Stmt, st: State, fuel: nat)
    requires Passable(EvStmt(w, s, st, fuel).end)
    ensures EvStmt(w, s, st, fuel).st.stack == st.stack + Leaves(w, s, st)
    decreases s
  {
    hide EvWhole, EvPre, EvLoop, EvBlock, EvMulti, EvFlags;
    match s
    case If(pre, kind, cond, thn, els) =>
      PreStack(w, pre, |pre|, st);
      var c := EvWhole(w, cond, EvPre(w, pre, |pre|, st));
      if kind.StaticTrue? || (kind.Dynamic? && c.flag) {
        LeavesIs(w, thn, c.st, fuel);
      } else if els != Block([]) {
        LeavesIs(w, els, c.st, fuel);
      }
    case Try(tried, _) => LeavesIs(w, tried, st, fuel);
    case While(_, _, _) => LoopEnds(w, s, |st.stack|, st, fuel);
    case _ =>
  }

  lemma {:induction false} LoopEnds(w: World, s: Stmt, marker: nat, st: State, fuel: nat)
    requires s.While? && marker <= |st.stack|
    ensures var end := EvLoop(w, s, marker, st, fuel).end; end != Broken && end != Continuing
    decreases fuel
  {
    hide EvWhole, EvPre, EvStmt;
    if fuel > 0 {
      var c := EvWhole(w, s.cond, EvPre(w, s.pre, |s.pre|, st));
      if c.flag {
        var r := EvStmt(w, s.loop, c.st, fuel - 1);
        if r.end == Fell || r.end == Continuing {
          LoopEnds(w, s, marker, r.st.(t := DropAll(r.st.stack[marker..], r.st.t)), r.fuel);
        }
      }
    }
  }

  // What s may leave, judged by its text.
  function MayLeave(s: Stmt): seq<Slot> {
    match s
    case If(pre, _, _, thn, els) => BoundBy(pre, |pre|) + MayLeave(thn) + MayLeave(els)
    case Try(tried, _) => MayLeave(tried)
    case _ => []
  }

  lemma {:induction false} LeavesSome(w: World, s: Stmt, st: State, v: Slot)
    requires v in Leaves(w, s, st)
    ensures v in MayLeave(s)
    decreases s
  {
    hide EvWhole, EvPre, BoundBy;
    match s
    case If(pre, kind, cond, thn, els) =>
      var c := EvWhole(w, cond, EvPre(w, pre, |pre|, st));
      var part := if kind.StaticTrue? || (kind.Dynamic? && c.flag) then thn else els;
      if v !in BoundBy(pre, |pre|) { LeavesSome(w, part, c.st, v); }
    case Try(tried, _) => LeavesSome(w, tried, st, v);
  }

  // ----- passes that come back ----------------------------------------------

  // A pass of a loop that has come back to the condition: what this pass has
  // left on the stack, and all that stands above the loop's marker, which is
  // destroyed now and not popped.
  datatype Pass = Pass(loop: Stmt, left: seq<Slot>, above: seq<Slot>)

  // The passes that come back in a run of s, of all its loops.
  function Passes(w: World, s: Stmt, st: State, fuel: nat): seq<Pass>
    decreases fuel, s, 2
  {
    match s
    case Block(body) => BlockPasses(w, body, 0, st, fuel)
    case If(pre, kind, cond, thn, els) =>
      var c := EvWhole(w, cond, EvPre(w, pre, |pre|, st));
      Passes(w, if kind.StaticTrue? || (kind.Dynamic? && c.flag) then thn else els, c.st, fuel)
    case While(_, _, _) => LoopPasses(w, s, |st.stack|, st, fuel)
    case Try(tried, _) => Passes(w, tried, st, fuel)
    case _ => []
  }

  function LoopPasses(w: World, s: Stmt, marker: nat, st: State, fuel: nat): seq<Pass>
    requires s.While? && marker <= |st.stack|
    decreases fuel, s, 1
  {
    if fuel == 0 then []
    else
      var c := EvWhole(w, s.cond, EvPre(w, s.pre, |s.pre|, st));
      if !c.flag then []
      else
        var r := EvStmt(w, s.loop, c.st, fuel - 1);
        var above := r.st.stack[marker..];
        Passes(w, s.loop, c.st, fuel - 1) +
        if r.end == Fell || r.end == Continuing then
          [Pass(s, BoundBy(s.pre, |s.pre|) + Leaves(w, s.loop, c.st), above)]
            + LoopPasses(w, s, marker, r.st.(t := DropAll(above, r.st.t)), r.fuel)
        else []
  }

  function BlockPasses(w: World, ss: seq<Stmt>, i: nat, st: State, fuel: nat): seq<Pass>
    requires i <= |ss|
    decreases fuel, ss, |ss| - i
  {
    if i == |ss| then []
    else if ss[i].Var? then BlockPasses(w, ss, i + 1, EvBinding(w, ss[i].inits, st), fuel)
    else
      var r := EvStmt(w, ss[i], st, fuel);
      Passes(w, ss[i], st, fuel) + if r.end != Fell then [] else BlockPasses(w, ss, i + 1, r.st, r.fuel)
  }

  // How often v is destroyed at the end of a pass and stays on the stack.
  function Excess(ps: seq<Pass>, v: Slot): nat {
    if ps == [] then 0 else Count(ps[0].above, v) + Excess(ps[1..], v)
  }

  lemma {:induction false} ExcessConcat(a: seq<Pass>, b: seq<Pass>, v: Slot)
    ensures Excess(a + b, v) == Excess(a, v) + Excess(b, v)
  {
    if a == [] {
      assert a + b == b;
    } else {
      assert (a + b)[1..] == a[1..] + b;
      ExcessConcat(a[1..], b, v);
    }
  }

  lemma ExcessPass(a: seq<Pass>, p: Pass, b: seq<Pass>, v: Slot)
    ensures Excess(a + ([p] + b), v) == Excess(a, v) + Count(p.above, v) + Excess(b, v)
  {
    ExcessConcat(a, [p] + b, v);
    assert ([p] + b)[1..] == b;
  }

  // ----- the balance --------------------------------------------------------

  // A statement destroys what it builds and takes off the stack once, and
  // otherwise only what its loops destroy without popping.
  lemma {:induction false} StmtBalance(w: World, s: Stmt, st: State, fuel: nat, outs: seq<Slot>, v: Slot)
    requires !v.prim && v.kind != Result && Typed(s, outs)
    ensures Balance(EvStmt(w, s, st, fuel).st, v) == Balance(st, v) - Excess(Passes(w, s, st, fuel), v)
    decreases fuel, s, 2
  {
    hide Balance, EvWhole, EvPre, EvMulti, EvFlags, PopStack;
    match s
    case Block(body) =>
      BlockBalance(w, body, 0, st, fuel, outs, v);
      PopBalance(EvBlock(w, body, 0, st, fuel).st, |st.stack|, v);
    case Eval(e) => WholeBalance(w, e, st, v);
    case Return(inits) =>
      MultiBalance(w, inits, st, v);
      SlotsKind(inits, Result);
      CountAny(Slots(inits), v);
    case If(_, _, _, _, _) => IfBalance(w, s, st, fuel, outs, v);
    case While(_, _, _) =>
      LoopBalance(w, s, |st.stack|, st, fuel, outs, v);
      PopBalance(EvLoop(w, s, |st.stack|, st, fuel).st, |st.stack|, v);
    case Try(tried, _) => StmtBalance(w, tried, st, fuel, outs, v);
    case _ =>
  }

  lemma {:induction false} IfBalance(w: World, s: Stmt, st: State, fuel: nat, outs: seq<Slot>, v: Slot)
    requires s.If? && !v.prim && v.kind != Result && Typed(s, outs)
    ensures Balance(EvStmt(w, s, st, fuel).st, v) == Balance(st, v) - Excess(Passes(w, s, st, fuel), v)
    decreases fuel, s, 1
  {
    hide Balance, EvWhole, EvPre, PopStack;
    HeadBalance(w, s.pre, s.cond, st, v);
    var c := EvWhole(w, s.cond, EvPre(w, s.pre, |s.pre|, st));
    var taken := s.kind.StaticTrue? || (s.kind.Dynamic? && c.flag);
    if taken {
      StmtBalance(w, s.thn, c.st, fuel, outs, v);
    } else if s.els != Block([]) {
      StmtBalance(w, s.els, c.st, fuel, outs, v);
    } else {
      PopBalance(c.st, |st.stack|, v);
      assert BlockPasses(w, [], 0, c.st, fuel) == [];
    }
  }

  lemma {:induction false} LoopBalance(w: World, s: Stmt, marker: nat, st: State, fuel: nat, outs: seq<Slot>, v: Slot)
    requires s.While? && marker <= |st.stack| && !v.prim && v.kind != Result && Typed(s, outs)
    ensures Balance(EvLoop(w, s, marker, st, fuel).st, v) == Balance(st, v) - Excess(LoopPasses(w, s, marker, st, fuel), v)
    decreases fuel, s, 1
  {
    hide EvWhole, EvPre, EvStmt, Passes, Leaves, BoundBy, Surplus, Count;
    if fuel > 0 {
      HeadBalance(w, s.pre, s.cond, st, v);
      var c := EvWhole(w, s.cond, EvPre(w, s.pre, |s.pre|, st));
      if c.flag {
        StmtBalance(w, s.loop, c.st, fuel - 1, outs, v);
        var r := EvStmt(w, s.loop, c.st, fuel - 1);
        var inner := Passes(w, s.loop, c.st, fuel - 1);
        if r.end == Fell || r.end == Continuing {
          var above := r.st.stack[marker..];
          var st1 := r.st.(t := DropAll(above, r.st.t));
          DropSurplus(above, r.st.t, v);
          LoopBalance(w, s, marker, st1, r.fuel, outs, v);
          var p := Pass(s, BoundBy(s.pre, |s.pre|) + Leaves(w, s.loop, c.st), above);
          ExcessPass(inner, p, LoopPasses(w, s, marker, st1, r.fuel), v);
        } else {
          assert inner + [] == inner;
        }
      }
    }
  }

  lemma {:induction false} BlockBalance(w: World, ss: seq<Stmt>, i: nat, st: State, fuel: nat, outs: seq<Slot>, v: Slot)
    requires i <= |ss| && !v.prim && v.kind != Result && TypedAll(ss, outs)
    ensures Balance(EvBlock(w, ss, i, st, fuel).st, v) == Balance(st, v) - Excess(BlockPasses(w, ss, i, st, fuel), v)
    decreases fuel, ss, |ss| - i
  {
    hide Balance, EvBinding, EvStmt, Passes, Typed;
    if i < |ss| {
      if ss[i].Var? {
        BindingBalance(w, ss[i].inits, st, v);
        BlockBalance(w, ss, i + 1, EvBinding(w, ss[i].inits, st), fuel, outs, v);
      } else {
        StmtBalance(w, ss[i], st, fuel, outs, v);
        var r := EvStmt(w, ss[i], st, fuel);
        if r.end == Fell {
          BlockBalance(w, ss, i + 1, r.st, r.fuel, outs, v);
          ExcessConcat(Passes(w, ss[i], st, fuel), BlockPasses(w, ss, i + 1, r.st, r.fuel), v);
        } else {
          assert Passes(w, ss[i], st, fuel) + [] == Passes(w, ss[i], st, fuel);
        }
      }
    }
  }

  // ----- when there is an excess --------------------------------------------

  // Some pass has left v.
  predicate LeftBy(ps: seq<Pass>, v: Slot) {
    exists i :: 0 <= i < |ps| && v in ps[i].left
  }

  lemma LeftConcat(a: seq<Pass>, b: seq<Pass>, v: Slot)
    ensures LeftBy(a + b, v) <==> LeftBy(a, v) || LeftBy(b, v)
  {
    if LeftBy(a, v) {
      var i :| 0 <= i < |a| && v in a[i].left;
      assert (a + b)[i] == a[i];
    }
    if LeftBy(b, v) {
      var i :| 0 <= i < |b| && v in b[i].left;
      assert (a + b)[|a| + i] == b[i];
    }
  }

  lemma LeftPass(a: seq<Pass>, p: Pass, b: seq<Pass>, v: Slot)
    ensures LeftBy(a + ([p] + b), v) <==> LeftBy(a, v) || v in p.left || LeftBy(b, v)
  {
    LeftConcat(a, [p] + b, v);
    LeftConcat([p], b, v);
    assert LeftBy([p], v) <==> v in [p][0].left;
  }

  // The first pass from st comes back to the condition.
  predicate ComesBack(w: World, s: Stmt, st: State, fuel: nat)
    requires s.While?
  {
    fuel > 0 &&
    var c := EvWhole(w, s.cond, EvPre(w, s.pre, |s.pre|, st));
    c.flag && var end := EvStmt(w, s.loop, c.st, fuel - 1).end; end == Fell || end == Continuing
  }

  lemma {:induction false} StmtExcess(w: World, s: Stmt, st: State, fuel: nat, v: Slot)
    ensures Excess(Passes(w, s, st, fuel), v) > 0 <==> LeftBy(Passes(w, s, st, fuel), v)
    decreases fuel, s, 2
  {
    hide EvWhole, EvPre, Excess, LeftBy, LoopPasses, BlockPasses;
    match s
    case Block(body) => BlockExcess(w, body, 0, st, fuel, v);
    case If(pre, kind, cond, thn, els) =>
      var c := EvWhole(w, cond, EvPre(w, pre, |pre|, st));
      StmtExcess(w, if kind.StaticTrue? || (kind.Dynamic? && c.flag) then thn else els, c.st, fuel, v);
    case While(_, _, _) =>
      assert st.stack[|st.stack|..] == [];
      LoopExcess(w, s, |st.stack|, st, fuel, v);
    case Try(tried, _) => StmtExcess(w, tried, st, fuel, v);
    case _ => NoPasses(v);
  }

  lemma NoPasses(v: Slot)
    ensures Excess([], v) == 0 && !LeftBy([], v)
  {
  }

  // From within a loop, what its passes have left before is destroyed again,
  // too, by the next pass that comes back.
  lemma {:induction false} LoopExcess(w: World, s: Stmt, marker: nat, st: State, fuel: nat, v: Slot)
    requires s.While? && marker <= |st.stack|
    ensures var ps := LoopPasses(w, s, marker, st, fuel);
            Excess(ps, v) > 0 <==> LeftBy(ps, v) || (v in st.stack[marker..] && ComesBack(w, s, st, fuel))
    decreases fuel, s, 1
  {
    hide EvWhole, EvPre, EvStmt, Passes, Leaves, BoundBy, Excess, LeftBy, Count;
    NoPasses(v);
    if fuel > 0 {
      var c := EvWhole(w, s.cond, EvPre(w, s.pre, |s.pre|, st));
      if c.flag {
        StmtExcess(w, s.loop, c.st, fuel - 1, v);
        var r := EvStmt(w, s.loop, c.st, fuel - 1);
        var inner := Passes(w, s.loop, c.st, fuel - 1);
        if r.end == Fell || r.end == Continuing {
          var above := r.st.stack[marker..];
          var st1 := r.st.(t := DropAll(above, r.st.t));
          var left := BoundBy(s.pre, |s.pre|) + Leaves(w, s.loop, c.st);
          AboveIs(w, s, marker, st, fuel);
          LoopExcess(w, s, marker, st1, r.fuel, v);
          var p, rest := Pass(s, left, above), LoopPasses(w, s, marker, st1, r.fuel);
          CountAny(above, v);
          ExcessPass(inner, p, rest, v);
          LeftPass(inner, p, rest, v);
        } else {
          assert inner + [] == inner;
        }
      }
    }
  }

  // Above the marker there is what was there before the pass, and what it left.
  lemma AboveIs(w: World, s: Stmt, marker: nat, st: State, fuel: nat)
    requires s.While? && marker <= |st.stack| && ComesBack(w, s, st, fuel)
    ensures var c := EvWhole(w, s.cond, EvPre(w, s.pre, |s.pre|, st));
            EvStmt(w, s.loop, c.st, fuel - 1).st.stack[marker..] ==
              st.stack[marker..] + (BoundBy(s.pre, |s.pre|) + Leaves(w, s.loop, c.st))
  {
    hide EvStmt, EvPre, Leaves, BoundBy;
    var c := EvWhole(w, s.cond, EvPre(w, s.pre, |s.pre|, st));
    PreStack(w, s.pre, |s.pre|, st);
    LeavesIs(w, s.loop, c.st, fuel - 1);
  }

  lemma {:induction false} BlockExcess(w: World, ss: seq<Stmt>, i: nat, st: State, fuel: nat, v: Slot)
    requires i <= |ss|
    ensures Excess(BlockPasses(w, ss, i, st, fuel), v) > 0 <==> LeftBy(BlockPasses(w, ss, i, st, fuel), v)
    decreases fuel, ss, |ss| - i
  {
    hide EvBinding, EvStmt, Passes, Excess, LeftBy;
    NoPasses(v);
    if i < |ss| {
      if ss[i].Var? {
        BlockExcess(w, ss, i + 1, EvBinding(w, ss[i].inits, st), fuel, v);
      } else {
        StmtExcess(w, ss[i], st, fuel, v);
        var r := EvStmt(w, ss[i], st, fuel);
        var inner := Passes(w, ss[i], st, fuel);
        if r.end == Fell {
          BlockExcess(w, ss, i + 1, r.st, r.fuel, v);
          ExcessConcat(inner, BlockPasses(w, ss, i + 1, r.st, r.fuel), v);
          LeftConcat(inner, BlockPasses(w, ss, i + 1, r.st, r.fuel), v);
        } else {
          assert inner + [] == inner;
        }
      }
    }
  }

  // When what a statement has put on the stack is gone, v has been destroyed more
  // often than it was built if and only if a pass of a loop has left v above the
  // loop's marker and come back to the condition.
  lemma OverDestroyed(w: World, s: Stmt, st: State, fuel: nat, outs: seq<Slot>, v: Slot)
    requires Typed(s, outs) && !v.prim && v.kind != Result
    ensures var r := EvStmt(w, s, st, fuel);
            Surplus(PopStack(r.st, |st.stack|).t, v) < Surplus(st.t, v) <==> LeftBy(Passes(w, s, st, fuel), v)
  {
    hide EvStmt, Passes, LeftBy, Surplus, Excess;
    var r := EvStmt(w, s, st, fuel);
    StmtBalance(w, s, st, fuel, outs, v);
    StmtExcess(w, s, st, fuel, v);
    PopBalance(r.st, |st.stack|, v);
    assert PopStack(r.st, |st.stack|).stack == st.stack;
  }

  // ----- judged by the text -------------------------------------------------

  // A loop in s binds v in front of its condition, or in front of that of an if
  // that its body comes out of.
  predicate MayExceed(s: Stmt, v: Slot)
    decreases s, 0
  {
    match s
    case Block(body) => MayExceedAny(body, v)
    case If(_, _, _, thn, els) => MayExceed(thn, v) || MayExceed(els, v)
    case While(pre, _, loop) => v in BoundBy(pre, |pre|) || v in MayLeave(loop) || MayExceed(loop, v)
    case Try(tried, _) => MayExceed(tried, v)
    case _ => false
  }

  predicate MayExceedAny(ss: seq<Stmt>, v: Slot)
    decreases ss, 0
  {
    exists i :: 0 <= i < |ss| && MayExceed(ss[i], v)
  }

  lemma {:induction false} LeftInText(w: World, s: Stmt, st: State, fuel: nat, v: Slot)
    requires LeftBy(Passes(w, s, st, fuel), v)
    ensures MayExceed(s, v)
    decreases fuel, s, 2
  {
    hide EvWhole, EvPre, LeftBy, LoopPasses, BlockPasses;
    NoPasses(v);
    match s
    case Block(body) => BlockInText(w, body, 0, st, fuel, v);
    case If(pre, kind, cond, thn, els) =>
      var c := EvWhole(w, cond, EvPre(w, pre, |pre|, st));
      LeftInText(w, if kind.StaticTrue? || (kind.Dynamic? && c.flag) then thn else els, c.st, fuel, v);
    case While(_, _, _) => LoopInText(w, s, |st.stack|, st, fuel, v);
    case Try(tried, _) => LeftInText(w, tried, st, fuel, v);
    case _ =>
  }

  lemma {:induction false} LoopInText(w: World, s: Stmt, marker: nat, st: State, fuel: nat, v: Slot)
    requires s.While? && marker <= |st.stack| && LeftBy(LoopPasses(w, s, marker, st, fuel), v)
    ensures MayExceed(s, v)
    decreases fuel, s, 1
  {
    hide EvWhole, EvPre, EvStmt, Passes, Leaves, BoundBy, LeftBy, MayLeave;
    NoPasses(v);
    var c := EvWhole(w, s.cond, EvPre(w, s.pre, |s.pre|, st));
    var r := EvStmt(w, s.loop, c.st, fuel - 1);
    var inner := Passes(w, s.loop, c.st, fuel - 1);
    assert inner + [] == inner;
    if LeftBy(inner, v) {
      LeftInText(w, s.loop, c.st, fuel - 1, v);
    } else if r.end == Fell || r.end == Continuing {
      var above := r.st.stack[marker..];
      var st1 := r.st.(t := DropAll(above, r.st.t));
      var left, rest := BoundBy(s.pre, |s.pre|) + Leaves(w, s.loop, c.st), LoopPasses(w, s, marker, st1, r.fuel);
      LeftPass(inner, Pass(s, left, above), rest, v);
      if LeftBy(rest, v) {
        LoopInText(w, s, marker, st1, r.fuel, v);
      } else if v in Leaves(w, s.loop, c.st) {
        LeavesSome(w, s.loop, c.st, v);
      }
    }
  }

  lemma {:induction false} BlockInText(w: World, ss: seq<Stmt>, i: nat, st: State, fuel: nat, v: Slot)
    requires i <= |ss| && LeftBy(BlockPasses(w, ss, i, st, fuel), v)
    ensures MayExceedAny(ss, v)
    decreases fuel, ss, |ss| - i
  {
    hide EvBinding, EvStmt, Passes, LeftBy, MayExceed;
    NoPasses(v);
    if ss[i].Var? {
      BlockInText(w, ss, i + 1, EvBinding(w, ss[i].inits, st), fuel, v);
    } else {
      var r := EvStmt(w, ss[i], st, fuel);
      var inner := Passes(w, ss[i], st, fuel);
      assert inner + [] == inner;
      if LeftBy(inner, v) {
        LeftInText(w, ss[i], st, fuel, v);
      } else if r.end == Fell {
        LeftConcat(inner, BlockPasses(w, ss, i + 1, r.st, r.fuel), v);
        BlockInText(w, ss, i + 1, r.st, r.fuel, v);
      }
    }
  }

  // What no loop can leave is destroyed as often as it is built.
  lemma DestroyedOnce(w: World, s: Stmt, fuel: nat, outs: seq<Slot>, v: Slot)
    requires Typed(s, outs) && !v.prim && v.kind != Result && !MayExceed(s, v)
    ensures Surplus(PopStack(EvStmt(w, s, State([], []), fuel).st, 0).t, v) == 0
  {
    hide EvStmt, Passes, LeftBy, Excess;
    var r := EvStmt(w, s, State([], []), fuel);
    StmtBalance(w, s, State([], []), fuel, outs, v);
    StmtExcess(w, s, State([], []), fuel, v);
    if LeftBy(Passes(w, s, State([], []), fuel), v) { LeftInText(w, s, State([], []), fuel, v); }
    PopBalance(r.st, 0, v);
  }

  // Where the body leaves nothing of v, a loop destroys v in excess if and only if
  // v is bound in front of its condition and a pass comes back.
  lemma {:induction false} LoopLeaves(w: World, s: Stmt, st: State, fuel: nat, v: Slot)
    requires s.While? && v !in MayLeave(s.loop) && !MayExceed(s.loop, v)
    ensures LeftBy(Passes(w, s, st, fuel), v) <==> v in BoundBy(s.pre, |s.pre|) && ComesBack(w, s, st, fuel)
  {
    hide EvWhole, EvPre, EvStmt, Leaves, BoundBy, LeftBy, MayLeave;
    NoPasses(v);
    if fuel > 0 {
      var c := EvWhole(w, s.cond, EvPre(w, s.pre, |s.pre|, st));
      if c.flag {
        var r := EvStmt(w, s.loop, c.st, fuel - 1);
        var inner := Passes(w, s.loop, c.st, fuel - 1);
        if LeftBy(inner, v) { LeftInText(w, s.loop, c.st, fuel - 1, v); }
        if v in Leaves(w, s.loop, c.st) { LeavesSome(w, s.loop, c.st, v); }
        if r.end == Fell || r.end == Continuing {
          var above := r.st.stack[|st.stack|..];
          var st1 := r.st.(t := DropAll(above, r.st.t));
          var rest := LoopPasses(w, s, |st.stack|, st1, r.fuel);
          LeftPass(inner, Pass(s, BoundBy(s.pre, |s.pre|) + Leaves(w, s.loop, c.st), above), rest, v);
          if LeftBy(rest, v) { LoopInText(w, s, |st.stack|, st1, r.fuel, v); }
        } else {
          assert inner + [] == inner;
        }
      }
    }
  }

  // ----- where values are destroyed twice -----------------------------------

  // A loop that binds a value in front of its condition, in a world in which it
  // passes once.
  function BindingLoop(): Stmt {
    While([Var([Init(X, Call(User(0), [], 0, false))])], Call(User(1), [], 1, true), Block([]))
  }

  const X: Slot := Slot(Local, 0, false)

  function OnePass(): World { (t, f, args) => Reply(false, |t| == 1) }

  lemma DestroyedTwice()
    ensures Surplus(PopStack(EvStmt(OnePass(), BindingLoop(), State([], []), 2).st, 0).t, X) < 0
  {
    ComesBackOnce();
    hide ComesBack, EvStmt, EvLoop, Surplus, PopStack, Passes;
    var s := BindingLoop();
    BindsX();
    NothingBuilt(X);
    LoopLeaves(OnePass(), s, State([], []), 2, X);
    OverDestroyed(OnePass(), s, State([], []), 2, [], X);
  }

  lemma NothingBuilt(v: Slot)
    ensures Surplus([], v) == 0
  {
  }

  lemma BindsX()
    ensures var s := BindingLoop();
            Typed(s, []) && X in BoundBy(s.pre, |s.pre|) && X !in MayLeave(s.loop) && !MayExceed(s.loop, X)
  {
    var s := BindingLoop();
    assert s.pre[0].inits[..0] == [];
    BoundX(s.pre, Call(User(0), [], 0, false));
  }

  lemma ComesBackOnce()
    ensures ComesBack(OnePass(), BindingLoop(), State([], []), 2)
  {
    var w, s, st := OnePass(), BindingLoop(), State([], []);
    BindX(w, s.pre, st, Call(User(0), [], 0, false));
    var st2 := State([Called(User(0), [], X, false, false, true)], [X]);
    var c := Asked(w, User(1), 1, st2);
    assert EvBlock(w, [], 0, c.st, 1) == Ended(Fell, c.st, 1);
    assert EvStmt(w, s.loop, c.st, 1).end == Fell;
  }

  // x is bound to the result of a call.
  lemma BindX(w: World, pre: seq<Stmt>, st: State, e: Expr)
    requires e == Call(User(0), [], 0, false) && pre == [Var([Init(X, e)])]
    ensures var reply := w(st.t, User(0), []);
            EvPre(w, pre, |pre|, st) == State(st.t + [Called(User(0), [], X, reply.flag, reply.threw, true)], st.stack + [X])
  {
    var inits := [Init(X, e)];
    assert inits[..0] == [] && Slots(inits) == [X] && Homes([]) == [];
    var st1 := State(st.t, st.stack + [X]);
    var reply := w(st.t, User(0), []);
    var st2 := State(st.t + [Called(User(0), [], X, reply.flag, reply.threw, true)], st1.stack);
    assert EvInits(w, inits, 0, st1) == st1 && EvArgs(w, [], 0, st1) == st1;
    assert EvInits(w, inits, 1, st1) == st2;
    assert st2.stack[|st1.stack|..] == [] && st2.stack[..|st1.stack|] == st2.stack;
    hide EvInits;
    assert EvMulti(w, inits, st1) == st2;
    assert EvPre(w, pre, 0, st) == st;
  }

  // A condition that is a call without operands.
  lemma Asked(w: World, f: Fn, id: nat, st: State) returns (c: Flagged)
    requires f.User?
    ensures c == EvWhole(w, Call(f, [], id, true), st)
    ensures var reply := w(st.t, f, []);
            c == Flagged(State(st.t + [Called(f, [], Slot(Temp, id, true), reply.flag, reply.threw, true)], st.stack), reply.flag)
  {
    var e := Call(f, [], id, true);
    var st1 := PushValue(st, Home(e));
    assert Homes([]) == [] && EvArgs(w, [], 0, st1) == st1;
    var r := EvRef(w, e, st);
    var reply := w(st.t, f, []);
    assert EvInto(w, e, Home(e), st1) == Flagged(Happens(st1, Called(f, Homes([]), Home(e), reply.flag, reply.threw, true)), reply.flag);
    assert r.st.stack[|st.stack|..] == [Home(e)] && r.st.stack[..|st.stack|] == st.stack;
    assert [Home(e)][..0] == [] && DropAll([Home(e)], r.st.t) == r.st.t;
    c := EvWhole(w, e, st);
  }

  // A loop that binds nothing itself, whose body is an if that does.
  function IfLoop(): Stmt {
    While([], Call(User(1), [], 2, true),
      If([Var([Init(X, Call(User(0), [], 0, false))])], Dynamic, Call(User(2), [], 1, true), Block([]), Block([])))
  }

  function OnceThrough(): World { (t, f, args) => Reply(false, |t| == 0 || |t| == 2) }

  lemma IfBodyTwice()
    ensures X !in BoundBy(IfLoop().pre, |IfLoop().pre|)
    ensures Surplus(PopStack(EvStmt(OnceThrough(), IfLoop(), State([], []), 2).st, 0).t, X) < 0
  {
    IfLeavesX();
    IfTyped();
    NothingBuilt(X);
    hide EvStmt, Passes, LeftBy, Surplus, PopStack;
    OverDestroyed(OnceThrough(), IfLoop(), State([], []), 2, [], X);
  }

  lemma IfTyped()
    ensures Typed(IfLoop(), [])
  {
    var s := IfLoop();
    assert s.loop.pre[0].inits[..0] == [];
  }

  lemma IfLeavesX()
    ensures LeftBy(Passes(OnceThrough(), IfLoop(), State([], []), 2), X)
  {
    hide EvStmt, EvWhole, EvMulti, EvRef, Passes, LeftBy, Leaves, BoundBy;
    var w, s, st := OnceThrough(), IfLoop(), State([], []);
    var body := s.loop;
    var c := Asked(w, User(1), 2, st);
    BindX(w, body.pre, c.st, Call(User(0), [], 0, false));
    var d := Asked(w, User(2), 1, EvPre(w, body.pre, 1, c.st));
    IfFalls(w, body, c.st, 1);
    BoundX(body.pre, Call(User(0), [], 0, false));
    LeftByPass(w, s, st, 2, X);
  }

  // An if whose part to be run does nothing.
  lemma IfFalls(w: World, s: Stmt, st: State, fuel: nat)
    requires s.If? && s.kind.Dynamic? && s.thn == Block([]) && EvWhole(w, s.cond, EvPre(w, s.pre, |s.pre|, st)).flag
    ensures EvStmt(w, s, st, fuel).end == Fell && Leaves(w, s, st) == BoundBy(s.pre, |s.pre|)
  {
    hide EvWhole, EvPre, BoundBy;
    var c := EvWhole(w, s.cond, EvPre(w, s.pre, |s.pre|, st));
    assert EvBlock(w, [], 0, c.st, fuel).end == Fell;
    assert EvStmt(w, Block([]), c.st, fuel).end == Fell;
  }

  lemma BoundX(pre: seq<Stmt>, e: Expr)
    requires pre == [Var([Init(X, e)])]
    ensures BoundBy(pre, |pre|) == [X]
  {
    var inits := [Init(X, e)];
    assert inits[..0] == [] && Slots(inits) == [X];
    assert BoundBy(pre, 0) == [];
  }

  lemma LeftByPass(w: World, s: Stmt, st: State, fuel: nat, v: Slot)
    requires s.While? && ComesBack(w, s, st, fuel)
    requires v in Leaves(w, s.loop, EvWhole(w, s.cond, EvPre(w, s.pre, |s.pre|, st)).st)
    ensures LeftBy(Passes(w, s, st, fuel), v)
  {
    hide EvStmt, EvWhole, EvPre, Leaves, BoundBy, LeftBy;
    var c := EvWhole(w, s.cond, EvPre(w, s.pre, |s.pre|, st));
    var r := EvStmt(w, s.loop, c.st, fuel - 1);
    var above := r.st.stack[|st.stack|..];
    var p := Pass(s, BoundBy(s.pre, |s.pre|) + Leaves(w, s.loop, c.st), above);
    LeftPass(Passes(w, s.loop, c.st, fuel - 1), p, LoopPasses(w, s, |st.stack|, r.st.(t := DropAll(above, r.st.t)), r.fuel), v);
  }
}
