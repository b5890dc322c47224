// The evaluator, the reference semantics and the compiled graph do the same
// work: the same calls and stores in the same order, with the same results.
module Agreement {
  import opened Wrappers
  import opened Syntax
  import opened Semantics
  import opened CodegenSpec
  import opened Evaluator
  import Correctness
  import Lifetimes
  import Traces
  import Cfg

  // Calls and stores, without destructions.
  function Work(t: Trace): Trace {
    if t == [] then []
    else Work(t[..|t| - 1]) + if t[|t| - 1].Destroyed? then [] else [t[|t| - 1]]
  }

  lemma WorkNext(t: Trace, e: Event)
    ensures Work(t + [e]) == Work(t) + if e.Destroyed? then [] else [e]
  {
    assert (t + [e])[..|t + [e]| - 1] == t;
  }

  lemma {:induction false} WorkDrop(vs: seq<Slot>, t: Trace)
    ensures Work(DropAll(vs, t)) == Work(t)
  {
    if vs != [] {
      WorkNext(t, Destroyed(vs[|vs| - 1]));
      WorkDrop(vs[..|vs| - 1], Drop(vs[|vs| - 1], t));
    }
  }

  // What the slots hold is a matter of the work done.
  lemma {:induction false} WorkHolds(t: Trace)
    ensures Replay(Work(t)) == Replay(t)
  {
    if t != [] {
      var n := |t| - 1;
      WorkHolds(t[..n]);
      if t[n].Destroyed? {
        assert Work(t) == Work(t[..n]) + [] == Work(t[..n]);
      } else {
        assert Work(t) == Work(t[..n]) + [t[n]];
        assert Work(t)[..|Work(t)| - 1] == Work(t[..n]);
      }
    }
  }

  // No call throws.
  ghost predicate Quiet(w: World) {
    forall t, f, args :: !w(t, f, args).threw
  }

  // Destructors do not change what calls answer.
  ghost predicate Blind(w: World) {
    forall t, t', f, args :: Work(t) == Work(t') ==> w(t, f, args) == w(t', f, args)
  }

  lemma SameAnswer(w: World, t: Trace, t': Trace, f: Fn, args: seq<Slot>)
    requires Quiet(w) && Blind(w) && Work(t) == Work(t') && f.User?
    ensures Answer(w, t, f, args) == Answer(w, t', f, args) && !Answer(w, t, f, args).threw
  {
  }

  // ----- programs both can run ----------------------------------------------

  predicate PlainExpr(e: Expr) {
    match e
    case Lit(_, _) => true
    case Call(f, args, _, _) => f.User? && forall i :: 0 <= i < |args| ==> PlainExpr(args[i])
    case And(l, r, _) => PlainExpr(l) && PlainExpr(r)
    case Or(l, r, _) => PlainExpr(l) && PlainExpr(r)
  }

  predicate PlainInits(inits: seq<Init>) {
    forall i :: 0 <= i < |inits| ==> PlainExpr(inits[i].e)
  }

  predicate PlainPre(pre: seq<Stmt>) {
    forall i :: 0 <= i < |pre| ==> (pre[i].Var? && PlainInits(pre[i].inits)) || (pre[i].Eval? && PlainExpr(pre[i].e))
  }

  // Neither labels nor throw, finally or unreachable statements.
  predicate Plain(s: Stmt) {
    match s
    case Block(body) => PlainAll(body)
    case Eval(e) => PlainExpr(e)
    case Return(inits) => PlainInits(inits)
    case If(pre, _, cond, thn, els) => PlainPre(pre) && PlainExpr(cond) && Plain(thn) && Plain(els)
    case While(pre, cond, loop) => PlainPre(pre) && PlainExpr(cond) && Plain(loop)
    case Break => true
    case Continue => true
    case Try(tried, _) => Plain(tried)
    case OnError(_) => true
    case _ => false
  }

  predicate PlainAll(ss: seq<Stmt>) {
    forall i :: 0 <= i < |ss| ==> if ss[i].Var? then PlainInits(ss[i].inits) else Plain(ss[i])
  }

  // ----- expressions --------------------------------------------------------

  predicate SameValue(v: Flagged, a: Evaled) {
    !a.threw && Work(v.st.t) == Work(a.t) && v.flag == a.flag
  }

  lemma {:induction false} IntoAgrees(w: World, e: Expr, out: Slot, st: State, t: Trace)
    requires Quiet(w) && Blind(w) && PlainExpr(e) && Work(st.t) == Work(t)
    ensures SameValue(EvInto(w, e, out, st), EvalInto(w, e, out, t, true))
    decreases e, 1
  {
    hide Quiet, Blind, Work;
    match e
    case Lit(b, _) =>
      WorkNext(st.t, Stored(out, b));
      WorkNext(t, Stored(out, b));
    case Call(f, args, _, _) =>
      ArgsAgree(w, args, |args|, st, t);
      var v, a := EvArgs(w, args, |args|, st), EvalArgs(w, args, |args|, t, true);
      SameAnswer(w, v.t, a.t, f, Homes(args));
      var reply := Answer(w, v.t, f, Homes(args));
      var call := Called(f, Homes(args), out, reply.flag, reply.threw, true);
      WorkNext(v.t, call);
      WorkNext(a.t, call);
    case And(_, _, _) => BothAgree(w, e, out, st, t);
    case Or(_, _, _) => BothAgree(w, e, out, st, t);
  }

  lemma {:induction false} BothAgree(w: World, e: Expr, out: Slot, st: State, t: Trace)
    requires Quiet(w) && Blind(w) && (e.And? || e.Or?) && PlainExpr(e) && Work(st.t) == Work(t)
    ensures SameValue(EvInto(w, e, out, st), EvalInto(w, e, out, t, true))
    decreases e, 0
  {
    hide Quiet, Blind, Work, EvRef, EvalRef;
    RefAgrees(w, e.l, st, t);
    var v, a := EvRef(w, e.l, st), EvalRef(w, e.l, t, true);
    if a.flag == e.Or? {
      WorkNext(v.st.t, Stored(out, v.flag));
      WorkNext(a.t, Stored(out, a.flag));
    } else {
      RefAgrees(w, e.r, v.st, a.t);
      var v2, a2 := EvRef(w, e.r, v.st), EvalRef(w, e.r, a.t, true);
      WorkNext(v2.st.t, Stored(out, v2.flag));
      WorkNext(a2.t, Stored(out, a2.flag));
      WorkDrop(a2.temps, a2.t + [Stored(out, a2.flag)]);
    }
  }

  lemma {:induction false} RefAgrees(w: World, e: Expr, st: State, t: Trace)
    requires Quiet(w) && Blind(w) && PlainExpr(e) && Work(st.t) == Work(t)
    ensures SameValue(EvRef(w, e, st), EvalRef(w, e, t, true))
    decreases e, 2
  {
    hide EvInto, EvalInto;
    IntoAgrees(w, e, Home(e), PushValue(st, Home(e)), t);
  }

  lemma {:induction false} ArgsAgree(w: World, args: seq<Expr>, n: nat, st: State, t: Trace)
    requires Quiet(w) && Blind(w) && n <= |args| && (forall i :: 0 <= i < |args| ==> PlainExpr(args[i])) && Work(st.t) == Work(t)
    ensures var a := EvalArgs(w, args, n, t, true); !a.threw && Work(EvArgs(w, args, n, st).t) == Work(a.t)
    decreases args, n
  {
    hide EvRef, EvalRef, Quiet, Blind, Work;
    if n > 0 {
      ArgsAgree(w, args, n - 1, st, t);
      RefAgrees(w, args[n - 1], EvArgs(w, args, n - 1, st), EvalArgs(w, args, n - 1, t, true).t);
    }
  }

  lemma WholeAgrees(w: World, e: Expr, st: State, t: Trace)
    requires Quiet(w) && Blind(w) && PlainExpr(e) && Work(st.t) == Work(t)
    ensures SameValue(EvWhole(w, e, st), EvalWhole(w, e, t, true))
  {
    hide Quiet, Blind, Work;
    RefAgrees(w, e, st, t);
    var v, a := EvRef(w, e, st), EvalRef(w, e, t, true);
    WorkDrop(a.temps, a.t);
    WorkDrop(v.st.stack[|st.stack|..], v.st.t);
  }

  lemma {:induction false} InitsAgree(w: World, inits: seq<Init>, n: nat, st: State, t: Trace)
    requires Quiet(w) && Blind(w) && n <= |inits| && PlainInits(inits) && Work(st.t) == Work(t)
    ensures var a := EvalInits(w, inits, n, t, true);
            && a.out == Normal && Work(EvInits(w, inits, n, st).t) == Work(a.t)
            && EvFlags(w, inits, n, st) == Flags(w, inits, n, t, true)
  {
    hide EvInto, EvalInto, Quiet, Blind, Work;
    if n > 0 {
      InitsAgree(w, inits, n - 1, st, t);
      var e, out := inits[n - 1].e, inits[n - 1].out;
      var v, a := EvInits(w, inits, n - 1, st), EvalInits(w, inits, n - 1, t, true);
      IntoAgrees(w, e, out, v, a.t);
      var b := EvalInto(w, e, out, a.t, true);
      WorkDrop(b.temps, b.t);
    }
  }

  lemma MultiAgrees(w: World, inits: seq<Init>, st: State, t: Trace)
    requires Quiet(w) && Blind(w) && PlainInits(inits) && Work(st.t) == Work(t)
    ensures var a := EvalInits(w, inits, |inits|, t, true);
            && a.out == Normal && Work(EvMulti(w, inits, st).t) == Work(a.t)
            && EvFlags(w, inits, |inits|, st) == Flags(w, inits, |inits|, t, true)
  {
    hide Quiet, Blind, Work;
    InitsAgree(w, inits, |inits|, st, t);
    var v := EvInits(w, inits, |inits|, st);
    WorkDrop(v.stack[|st.stack|..], v.t);
  }

  // ----- statements ---------------------------------------------------------

  // Entries whose cleanup makes no call unless an exception passes.
  predicate Passive(es: seq<Entry>) {
    forall i :: 0 <= i < |es| ==> !es[i].Final?
  }

  lemma {:induction false} UnwindWork(w: World, es: seq<Entry>, t: Trace, fuel: nat)
    requires Passive(es)
    ensures var u := Unwind(w, es, false, t, fuel); u.out == Normal && u.fuel == fuel && Work(u.t) == Work(t)
  {
    if es != [] {
      var n := |es| - 1;
      if es[n].Value? {
        WorkNext(t, Destroyed(es[n].v));
        UnwindWork(w, es[..n], Drop(es[n].v, t), fuel);
      } else {
        UnwindWork(w, es[..n], t, fuel);
      }
    }
  }

  lemma FinishWork(w: World, r: Run, es: seq<Entry>)
    requires Passive(es) && r.out != Threw
    ensures var r' := Finish(w, r, es); r' == r.(t := r'.t) && Work(r'.t) == Work(r.t)
  {
    UnwindWork(w, es, r.t, r.fuel);
  }

  lemma {:induction false} OwnPassive(ss: seq<Stmt>, i: nat)
    requires i <= |ss| && (PlainAll(ss) || PlainPre(ss))
    ensures Passive(Own(ss, i))
  {
    hide PlainAll, PlainPre, Passive, Pushes;
    if i == 0 {
      NonePassive();
    } else {
      OwnPassive(ss, i - 1);
      NoFinally(ss, i - 1);
      PassiveMore(Own(ss, i - 1), ss[i - 1]);
    }
  }

  lemma NoFinally(ss: seq<Stmt>, i: nat)
    requires i < |ss| && (PlainAll(ss) || PlainPre(ss))
    ensures !ss[i].Finally?
  {
    if PlainAll(ss) { assert Plain(ss[i]) || ss[i].Var?; }
  }

  lemma NonePassive()
    ensures Passive([])
  {
  }

  lemma PassiveMore(es: seq<Entry>, s: Stmt)
    requires Passive(es) && !s.Finally?
    ensures Passive(es + Pushes(s))
  {
  }

  predicate Same(v: Ended, r: Run) {
    && Work(v.st.t) == Work(r.t) && v.fuel == r.fuel
    && match v.end
       case Fell => r.out == Normal
       case Broken => r.out == Broke
       case Continuing => r.out == Continued
       case Returning(values) => r.out == Returned(values)
       case Unfinished => r.out == OutOfFuel
       case Unsupported => false
  }

  // The evaluator and the reference semantics make the same calls and stores in
  // the same order, end in the same way with the same values returned, and run
  // out of fuel together, whatever the types of the values.
  lemma {:induction false} StmtAgrees(w: World, s: Stmt, st: State, t: Trace, fuel: nat)
    requires Quiet(w) && Blind(w) && Plain(s) && Work(st.t) == Work(t)
    ensures Same(EvStmt(w, s, st, fuel), Exec(w, s, t, true, fuel))
    decreases fuel, s, 2
  {
    hide Quiet, Blind, Work, PlainExpr, PlainInits, PlainPre, EvWhole, EvMulti, EvPre, EvFlags, Flags, PlainAll, EvalWhole, EvalInits;
    match s
    case Block(body) =>
      BlockAgrees(w, body, 0, st, t, fuel);
      var v := EvBlock(w, body, 0, st, fuel);
      WorkDrop(v.st.stack[|st.stack|..], v.st.t);
    case Eval(e) => WholeAgrees(w, e, st, t);
    case Return(inits) => MultiAgrees(w, inits, st, t);
    case If(_, _, _, _, _) => IfAgrees(w, s, st, t, fuel);
    case While(_, _, _) =>
      LoopAgrees(w, s, |st.stack|, st, t, fuel);
      var v := EvLoop(w, s, |st.stack|, st, fuel);
      WorkDrop(v.st.stack[|st.stack|..], v.st.t);
    case Try(tried, _) => StmtAgrees(w, tried, st, t, fuel);
    case _ =>
  }

  lemma {:induction false} PreAgrees(w: World, pre: seq<Stmt>, n: nat, st: State, t: Trace, fuel: nat)
    requires Quiet(w) && Blind(w) && n <= |pre| && PlainPre(pre) && Work(st.t) == Work(t)
    ensures var p := ExecPre(w, pre, n, t, true, fuel);
            p.out == Normal && p.fuel == fuel && Work(EvPre(w, pre, n, st).t) == Work(p.t)
  {
    hide Quiet, Blind, Work, PlainExpr, PlainInits, EvWhole, EvMulti, EvalWhole, EvalInits, Exec, Leave;
    if n > 0 {
      PreAgrees(w, pre, n - 1, st, t, fuel);
      var v, p := EvPre(w, pre, n - 1, st), ExecPre(w, pre, n - 1, t, true, fuel);
      SimpleIs(w, pre[n - 1], p.t, fuel);
      match pre[n - 1]
      case Var(inits) => MultiAgrees(w, inits, v.(stack := v.stack + Slots(inits)), p.t);
      case Eval(e) => WholeAgrees(w, e, v, p.t);
    }
  }

  lemma SimpleIs(w: World, s: Stmt, t: Trace, fuel: nat)
    requires s.Var? || s.Eval?
    ensures s.Var? ==> Exec(w, s, t, true, fuel) == EvalInits(w, s.inits, |s.inits|, t, true).(fuel := fuel)
    ensures s.Eval? ==>
              var a := EvalWhole(w, s.e, t, true);
              Exec(w, s, t, true, fuel) == Run(if a.threw then Threw else Normal, a.t, fuel)
  {
    hide EvalInits, EvalWhole;
  }

  // The condition of an if or loop, behind its bindings.
  lemma HeadAgrees(w: World, pre: seq<Stmt>, cond: Expr, st: State, t: Trace, fuel: nat)
    requires Quiet(w) && Blind(w) && PlainPre(pre) && PlainExpr(cond) && Work(st.t) == Work(t)
    ensures var p := ExecPre(w, pre, |pre|, t, true, fuel);
            && p.out == Normal && p.fuel == fuel && Passive(Own(pre, |pre|))
            && SameValue(EvWhole(w, cond, EvPre(w, pre, |pre|, st)), EvalWhole(w, cond, p.t, true))
  {
    hide Quiet, Blind, Work, PlainExpr, EvWhole, EvalWhole, EvPre, ExecPre, PlainPre;
    PreAgrees(w, pre, |pre|, st, t, fuel);
    WholeAgrees(w, cond, EvPre(w, pre, |pre|, st), ExecPre(w, pre, |pre|, t, true, fuel).t);
    OwnPassive(pre, |pre|);
  }

  lemma {:induction false} IfAgrees(w: World, s: Stmt, st: State, t: Trace, fuel: nat)
    requires Quiet(w) && Blind(w) && s.If? && Plain(s) && Work(st.t) == Work(t)
    ensures Same(EvStmt(w, s, st, fuel), Exec(w, s, t, true, fuel))
    decreases fuel, s, 1
  {
    hide Quiet, Blind, Work, PlainExpr, PlainPre, EvWhole, EvalWhole, EvPre, ExecPre, Own, Passive;
    HeadAgrees(w, s.pre, s.cond, st, t, fuel);
    var p := ExecPre(w, s.pre, |s.pre|, t, true, fuel);
    var c, v := EvalWhole(w, s.cond, p.t, true), EvWhole(w, s.cond, EvPre(w, s.pre, |s.pre|, st));
    var taken := s.kind.StaticTrue? || (s.kind.Dynamic? && c.flag);
    var part := if taken then s.thn else s.els;
    var r := Exec(w, part, c.t, true, fuel);
    if !taken && s.els == Block([]) {
      EmptyBlock(w, c.t, fuel);
      WorkDrop(v.st.stack[|st.stack|..], v.st.t);
    } else {
      StmtAgrees(w, part, v.st, c.t, fuel);
    }
    FinishWork(w, r, Own(s.pre, |s.pre|));
  }

  lemma EmptyBlock(w: World, t: Trace, fuel: nat)
    ensures Exec(w, Block([]), t, true, fuel) == Run(Normal, t, fuel)
  {
    var none: seq<Stmt> := [];
    assert Own(none, 0) == [];
    assert ExecBlock(w, none, 0, t, true, fuel) == Leave(w, Run(Normal, t, fuel), none, 0);
    assert Unwind(w, [], false, t, fuel) == Run(Normal, t, fuel);
  }

  lemma {:induction false} LoopAgrees(w: World, s: Stmt, marker: nat, st: State, t: Trace, fuel: nat)
    requires Quiet(w) && Blind(w) && s.While? && Plain(s) && marker <= |st.stack| && Work(st.t) == Work(t)
    ensures var v, r := EvLoop(w, s, marker, st, fuel), Exec(w, s, t, true, fuel);
            Same(v, r) && v.end != Broken && v.end != Continuing
    decreases fuel, s, 1
  {
    hide Quiet, Blind, Work, PlainExpr, PlainPre, EvWhole, EvalWhole, EvPre, ExecPre, Own, EvStmt, Passive, Leave;
    if fuel > 0 {
      HeadAgrees(w, s.pre, s.cond, st, t, fuel - 1);
      var p := ExecPre(w, s.pre, |s.pre|, t, true, fuel - 1);
      var c, v := EvalWhole(w, s.cond, p.t, true), EvWhole(w, s.cond, EvPre(w, s.pre, |s.pre|, st));
      WhileUnfolds(w, s, t, fuel, p, c);
      hide Exec;
      if c.flag {
        PassAgrees(w, s, marker, v.st, c.t, fuel - 1);
      } else {
        LeaveWork(w, Run(Normal, c.t, fuel - 1), s.pre);
      }
    }
  }

  lemma LeaveWork(w: World, r: Run, pre: seq<Stmt>)
    requires Passive(Own(pre, |pre|)) && r.out != Threw
    ensures var r' := Leave(w, r, pre, |pre|); r' == r.(t := r'.t) && Work(r'.t) == Work(r.t)
  {
    FinishWork(w, r, Own(pre, |pre|));
  }

  lemma WhileUnfolds(w: World, s: Stmt, t: Trace, fuel: nat, p: Run, c: Evaled)
    requires s.While? && fuel > 0 && p == ExecPre(w, s.pre, |s.pre|, t, true, fuel - 1) && p.out == Normal
    requires c == EvalWhole(w, s.cond, p.t, true) && !c.threw
    ensures var r := if c.flag then Exec(w, s.loop, c.t, true, p.fuel) else Run(Broke, c.t, p.fuel);
            var r' := Leave(w, LoopExit(r), s.pre, |s.pre|);
            Exec(w, s, t, true, fuel) == if r'.out == Normal && r.out != Broke then Exec(w, s, r'.t, true, r'.fuel) else r'
  {
  }

  // One run of the body, and the rest of the loop.
  lemma {:induction false} PassAgrees(w: World, s: Stmt, marker: nat, st: State, t: Trace, fuel: nat)
    requires Quiet(w) && Blind(w) && s.While? && Plain(s) && marker <= |st.stack| && Work(st.t) == Work(t)
    requires Passive(Own(s.pre, |s.pre|))
    ensures var b, r := EvStmt(w, s.loop, st, fuel), Exec(w, s.loop, t, true, fuel);
            var r' := Leave(w, LoopExit(r), s.pre, |s.pre|);
            && Same(b, r) && r' == LoopExit(r).(t := r'.t) && Work(r'.t) == Work(r.t)
            && (b.end == Fell || b.end == Continuing ==>
                  var v2, r2 := EvLoop(w, s, marker, b.st.(t := DropAll(b.st.stack[marker..], b.st.t)), b.fuel), Exec(w, s, r'.t, true, r'.fuel);
                  Same(v2, r2) && v2.end != Broken && v2.end != Continuing)
    decreases fuel, s, 3
  {
    hide Quiet, Blind, Work, PlainExpr, PlainPre, EvWhole, EvalWhole, EvPre, ExecPre, Own, EvStmt, Exec, EvLoop, Passive, Leave;
    StmtAgrees(w, s.loop, st, t, fuel);
    var b, r := EvStmt(w, s.loop, st, fuel), Exec(w, s.loop, t, true, fuel);
    LeaveWork(w, LoopExit(r), s.pre);
    if b.end == Fell || b.end == Continuing {
      var r' := Leave(w, LoopExit(r), s.pre, |s.pre|);
      WorkDrop(b.st.stack[marker..], b.st.t);
      LoopAgrees(w, s, marker, b.st.(t := DropAll(b.st.stack[marker..], b.st.t)), r'.t, b.fuel);
    }
  }

  lemma {:induction false} BlockAgrees(w: World, ss: seq<Stmt>, i: nat, st: State, t: Trace, fuel: nat)
    requires Quiet(w) && Blind(w) && i <= |ss| && PlainAll(ss) && Work(st.t) == Work(t)
    ensures Same(EvBlock(w, ss, i, st, fuel), ExecBlock(w, ss, i, t, true, fuel))
    decreases fuel, ss, |ss| - i
  {
    hide Quiet, Blind, Work, Plain, PlainInits, EvStmt, EvMulti, EvalInits, Own, Passive, Unwind, Exec;
    OwnPassive(ss, i);
    if i == |ss| {
      FinishWork(w, Run(Normal, t, fuel), Own(ss, i));
    } else if ss[i].Var? {
      var st0 := st.(stack := st.stack + Slots(ss[i].inits));
      MultiAgrees(w, ss[i].inits, st0, t);
      var a := EvalInits(w, ss[i].inits, |ss[i].inits|, t, true);
      assert Exec(w, ss[i], t, true, fuel) == a.(fuel := fuel) by { VarIs(w, ss[i].inits, t, fuel); }
      BlockAgrees(w, ss, i + 1, EvBinding(w, ss[i].inits, st), a.t, fuel);
    } else {
      ItemAgrees(w, ss, i, st, t, fuel);
    }
  }

  lemma VarIs(w: World, inits: seq<Init>, t: Trace, fuel: nat)
    ensures Exec(w, Var(inits), t, true, fuel) == EvalInits(w, inits, |inits|, t, true).(fuel := fuel)
  {
  }

  lemma {:induction false} ItemAgrees(w: World, ss: seq<Stmt>, i: nat, st: State, t: Trace, fuel: nat)
    requires Quiet(w) && Blind(w) && i < |ss| && PlainAll(ss) && !ss[i].Var? && Passive(Own(ss, i)) && Work(st.t) == Work(t)
    ensures Same(EvBlock(w, ss, i, st, fuel), ExecBlock(w, ss, i, t, true, fuel))
    decreases fuel, ss, |ss| - i, 0
  {
    hide Quiet, Blind, Work, Plain, EvStmt, Exec, Own, Passive, Unwind;
    SizeOfItem(ss, i);
    StmtAgrees(w, ss[i], st, t, fuel);
    var v, r := EvStmt(w, ss[i], st, fuel), Exec(w, ss[i], t, true, fuel);
    if v.end == Fell {
      BlockAgrees(w, ss, i + 1, v.st, r.t, v.fuel);
    } else {
      FinishWork(w, r, Own(ss, i));
    }
  }

  // ----- the evaluator and the compiled graph -------------------------------

  // The graph has done the evaluator's work and holds its values.
  predicate DoneAs(c: Cfg.Config, v: Ended) {
    && (v.end == Fell || v.end.Returning?) && c.Finished? && !c.exn
    && Work(c.t) == Work(v.st.t) && c.mem == Replay(v.st.t)
  }

  // What the evaluator computes at compile time, the graph computes when run.
  lemma EvaluatedThenRun(g: Cfg.Code, w: World, body: Stmt, needsReturn: bool, lvl: nat, fuel: nat) returns (k: nat)
    requires Quiet(w) && Blind(w) && Plain(body) && Correctness.Proper(body) && CgFunction(body, needsReturn, lvl) == Ok(g)
    requires EvStmt(w, body, State([], []), fuel).end != Unfinished
    ensures DoneAs(Cfg.Steps(g, w, Correctness.Entered(), k), EvStmt(w, body, State([], []), fuel))
  {
    hide EvStmt, Exec, Plain, Quiet, Blind;
    StmtAgrees(w, body, State([], []), [], fuel);
    WorkHolds(EvStmt(w, body, State([], []), fuel).st.t);
    WorkHolds(Exec(w, body, [], true, fuel).t);
    k := Correctness.Preservation(g, w, body, needsReturn, lvl, fuel);
  }

  // And whatever the graph computes, the evaluator does; a graph that runs for
  // ever is one the evaluator never finishes.
  lemma RunThenEvaluated(g: Cfg.Code, w: World, body: Stmt, needsReturn: bool, lvl: nat, k: nat)
    requires Quiet(w) && Blind(w) && Plain(body) && Correctness.Proper(body) && CgFunction(body, needsReturn, lvl) == Ok(g)
    requires !Cfg.Steps(g, w, Correctness.Entered(), k).Running?
    ensures DoneAs(Cfg.Steps(g, w, Correctness.Entered(), k), EvStmt(w, body, State([], []), k + 1))
  {
    hide EvStmt, Exec, Plain, Quiet, Blind;
    Correctness.Reflection(g, w, body, needsReturn, lvl, k);
    StmtAgrees(w, body, State([], []), [], k + 1);
    WorkHolds(EvStmt(w, body, State([], []), k + 1).st.t);
    WorkHolds(Exec(w, body, [], true, k + 1).t);
  }

  // What the evaluator returns is what the graph leaves in the results.
  lemma SameResults(g: Cfg.Code, w: World, body: Stmt, outs: seq<Slot>, needsReturn: bool, lvl: nat, k: nat)
    requires Quiet(w) && Blind(w) && Plain(body) && Lifetimes.Wholesome(body, outs) && Traces.AllDifferent(outs)
    requires CgFunction(body, needsReturn, lvl) == Ok(g) && !Cfg.Steps(g, w, Correctness.Entered(), k).Running?
    ensures var c, v := Cfg.Steps(g, w, Correctness.Entered(), k), EvStmt(w, body, State([], []), k + 1);
            && DoneAs(c, v) && (needsReturn ==> v.end.Returning?)
            && (v.end.Returning? ==> |v.end.values| == |outs| && forall i :: 0 <= i < |outs| ==> Load(c.mem, outs[i]) == v.end.values[i])
  {
    hide EvStmt, Exec, Plain, Quiet, Blind, Cfg.Steps, Replay;
    RunThenEvaluated(g, w, body, needsReturn, lvl, k);
    Traces.ReturnedValues(g, w, body, outs, needsReturn, lvl, k);
    StmtAgrees(w, body, State([], []), [], k + 1);
  }
}
