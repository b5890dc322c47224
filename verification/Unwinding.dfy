// Facts about the reference semantics: cleaning up in pieces, and what cleanup
// bodies can come to.
module Unwinding {
  import opened Syntax
  import opened Semantics
  import opened Framing

  lemma {:induction false} UnwindSplit(w: World, a: seq<Entry>, b: seq<Entry>, exn: bool, t: Trace, fuel: nat)
    ensures var u := Unwind(w, b, exn, t, fuel);
            Unwind(w, a + b, exn, t, fuel) == if u.out == Normal then Unwind(w, a, exn, u.t, u.fuel) else u
    decreases |b|
  {
    if b == [] {
      assert a + b == a;
    } else {
      var n := |b| - 1;
      assert (a + b)[|a + b| - 1] == b[n] && (a + b)[..|a + b| - 1] == a + b[..n];
      var r := Unwind(w, [b[n]], exn, t, fuel);
      UnwindLast(w, b, exn, t, fuel);
      UnwindLast(w, a + b, exn, t, fuel);
      if r.out == Normal {
        UnwindSplit(w, a, b[..n], exn, r.t, r.fuel);
      }
    }
  }

  lemma UnwindLast(w: World, es: seq<Entry>, exn: bool, t: Trace, fuel: nat)
    requires es != []
    ensures var r := Unwind(w, [es[|es| - 1]], exn, t, fuel);
            Unwind(w, es, exn, t, fuel) == if r.out == Normal then Unwind(w, es[..|es| - 1], exn, r.t, r.fuel) else r
  {
    var r := Unwind(w, [es[|es| - 1]], exn, t, fuel);
    assert [es[|es| - 1]][..0] == [];
    if r.out == Normal {
      assert Unwind(w, [], exn, r.t, r.fuel) == Run(Normal, r.t, r.fuel);
    }
  }

  lemma {:induction false} UnwindValues(w: World, vs: seq<Slot>, exn: bool, t: Trace, fuel: nat)
    ensures Unwind(w, Values(vs), exn, t, fuel) == Run(Normal, DropAll(vs, t), fuel)
  {
    if vs != [] {
      var n := |vs| - 1;
      assert Values(vs)[n] == Value(vs[n]) && Values(vs)[..n] == Values(vs[..n]);
      UnwindValues(w, vs[..n], exn, Drop(vs[n], t), fuel);
    }
  }

  predicate Halting(o: Outcome) { o == Normal || o == Stuck || o == OutOfFuel }

  lemma {:induction false} UnwindOutcome(w: World, es: seq<Entry>, exn: bool, t: Trace, fuel: nat)
    requires Tame(es)
    ensures Halting(Unwind(w, es, exn, t, fuel).out)
    decreases fuel, Weight(es), |es|
  {
    if es != [] {
      var n := |es| - 1;
      assert TameEntry(es[n]);
      match es[n] {
        case Value(v) => UnwindOutcome(w, es[..n], exn, Drop(v, t), fuel);
        case Final(b) => UnwindBody(w, es, b, exn, t, fuel);
        case Error(b) =>
          if exn { UnwindBody(w, es, b, exn, t, fuel); } else { UnwindOutcome(w, es[..n], exn, t, fuel); }
      }
    }
  }

  lemma UnwindBody(w: World, es: seq<Entry>, b: seq<Stmt>, exn: bool, t: Trace, fuel: nat)
    requires Tame(es) && es != [] && WellFormedAll(b, |b|, true, false, {})
    requires es[|es| - 1] == Final(b) || (exn && es[|es| - 1] == Error(b))
    ensures Halting(Unwind(w, es, exn, t, fuel).out)
    decreases fuel, Weight(es), |es|, 0
  {
    OutcomeStmt(w, Block(b), t, fuel, false);
    var r := Exec(w, Block(b), t, false, fuel);
    if r.out == Normal { UnwindOutcome(w, es[..|es| - 1], exn, r.t, r.fuel); }
  }

  lemma FinishOutcome(w: World, r: Run, es: seq<Entry>)
    requires Tame(es)
    ensures Finish(w, r, es).out == r.out || Halting(Finish(w, r, es).out)
    decreases r.fuel, Weight(es), |es| + 1
  {
    UnwindOutcome(w, es, r.out == Threw, r.t, r.fuel);
  }

  // Without exception checks no expression throws.
  lemma {:induction false} NoThrowInto(w: World, e: Expr, out: Slot, t: Trace)
    ensures !EvalInto(w, e, out, t, false).threw
    decreases e, 1
  {
    match e
    case Lit(_, _) =>
    case Call(f, args, _, _) => NoThrowArgs(w, args, |args|, t);
    case And(_, _, _) => NoThrowBoth(w, e, out, t);
    case Or(_, _, _) => NoThrowBoth(w, e, out, t);
  }

  lemma {:induction false} NoThrowBoth(w: World, e: Expr, out: Slot, t: Trace)
    requires e.And? || e.Or?
    ensures !EvalRef(w, e.l, t, false).threw
    ensures !EvalArm(w, e.r, out, EvalRef(w, e.l, t, false), false).threw
    decreases e, 0
  {
    NoThrowInto(w, e.l, Home(e.l), t);
    NoThrowInto(w, e.r, Home(e.r), EvalRef(w, e.l, t, false).t);
  }

  lemma {:induction false} NoThrowArgs(w: World, args: seq<Expr>, n: nat, t: Trace)
    requires n <= |args|
    ensures !EvalArgs(w, args, n, t, false).threw
    decreases args, n
  {
    if n > 0 {
      NoThrowArgs(w, args, n - 1, t);
      NoThrowInto(w, args[n - 1], Home(args[n - 1]), EvalArgs(w, args, n - 1, t, false).t);
    }
  }

  lemma {:induction false} NoThrowInits(w: World, inits: seq<Init>, n: nat, t: Trace)
    requires n <= |inits|
    ensures EvalInits(w, inits, n, t, false).out == Normal
  {
    if n > 0 {
      NoThrowInits(w, inits, n - 1, t);
      NoThrowInto(w, inits[n - 1].e, inits[n - 1].out, EvalInits(w, inits, n - 1, t, false).t);
    }
  }

  // What the parts of a cleanup body can come to.
  predicate Contained(o: Outcome, inLoop: bool) {
    Halting(o) || (inLoop && (o == Broke || o == Continued))
  }

  lemma {:induction false} OutcomeStmt(w: World, s: Stmt, t: Trace, fuel: nat, inLoop: bool)
    requires WellFormed(s, true, inLoop, {})
    ensures Contained(Exec(w, s, t, false, fuel).out, inLoop)
    decreases fuel, Size(s), 2
  {
    match s
    case Block(body) => OutcomeBlock(w, body, 0, t, fuel, inLoop);
    case Var(inits) => NoThrowInits(w, inits, |inits|, t);
    case Eval(e) => NoThrowInto(w, e, Home(e), t);
    case Throw(args) => NoThrowArgs(w, args, |args|, t);
    case If(pre, kind, cond, thn, els) =>
      OutcomePre(w, pre, |pre|, t, fuel);
      var p := ExecPre(w, pre, |pre|, t, false, fuel);
      if p.out == Normal {
        NoThrowInto(w, cond, Home(cond), p.t);
        var c := EvalWhole(w, cond, p.t, false);
        OutcomeStmt(w, thn, c.t, p.fuel, inLoop);
        OutcomeStmt(w, els, c.t, p.fuel, inLoop);
        OwnSimple(pre, |pre|);
        OwnLight(pre, |pre|);
        FinishOutcome(w, Exec(w, if kind.StaticTrue? || (kind.Dynamic? && c.flag) then thn else els, c.t, false, p.fuel), Own(pre, |pre|));
      }
    case While(pre, cond, loop) => OutcomeWhile(w, s, t, fuel, inLoop);
    case Try(tried, handler) =>
      OutcomeStmt(w, tried, t, fuel, inLoop);
    case _ =>
  }

  lemma OutcomeWhile(w: World, s: Stmt, t: Trace, fuel: nat, inLoop: bool)
    requires s.While? && WellFormed(s, true, inLoop, {})
    ensures Contained(Exec(w, s, t, false, fuel).out, inLoop)
    decreases fuel, Size(s), 1
  {
    if fuel > 0 {
      OutcomePre(w, s.pre, |s.pre|, t, fuel - 1);
      var p := ExecPre(w, s.pre, |s.pre|, t, false, fuel - 1);
      if p.out == Normal {
        NoThrowInto(w, s.cond, Home(s.cond), p.t);
        var c := EvalWhole(w, s.cond, p.t, false);
        OwnSimple(s.pre, |s.pre|);
        OwnLight(s.pre, |s.pre|);
        var r := if c.flag then Exec(w, s.loop, c.t, false, p.fuel) else Run(Broke, c.t, p.fuel);
        if c.flag { OutcomeStmt(w, s.loop, c.t, p.fuel, true); }
        FinishOutcome(w, LoopExit(r), Own(s.pre, |s.pre|));
        var r' := Leave(w, LoopExit(r), s.pre, |s.pre|);
        if r'.out == Normal && r.out != Broke { OutcomeStmt(w, s, r'.t, r'.fuel, inLoop); }
      }
    }
  }

  lemma OwnSimple(pre: seq<Stmt>, n: nat)
    requires n <= |pre| && Simple(pre)
    ensures Tame(Own(pre, n))
  {
    if n > 0 { OwnSimple(pre, n - 1); }
  }

  lemma {:induction false} OutcomePre(w: World, pre: seq<Stmt>, n: nat, t: Trace, fuel: nat)
    requires n <= |pre| && Simple(pre)
    ensures ExecPre(w, pre, n, t, false, fuel).out == Normal
  {
    if n > 0 {
      OutcomePre(w, pre, n - 1, t, fuel);
      var a := ExecPre(w, pre, n - 1, t, false, fuel);
      match pre[n - 1]
      case Var(inits) => NoThrowInits(w, inits, |inits|, a.t);
      case Eval(e) => NoThrowInto(w, e, Home(e), a.t);
    }
  }

  lemma {:induction false} OutcomeBlock(w: World, ss: seq<Stmt>, i: nat, t: Trace, fuel: nat, inLoop: bool)
    requires i <= |ss| && WellFormedAll(ss, |ss|, true, inLoop, {})
    ensures Contained(ExecBlock(w, ss, i, t, false, fuel).out, inLoop)
    decreases fuel, SizeAll(ss), 1, |ss| - i
  {
    OwnLight(ss, i);
    OwnTame(ss, i, true, inLoop, {}) by {
      if i < |ss| { WellFormedItem(ss, |ss|, i, true, inLoop, {}); }
    }
    if i == |ss| {
      FinishOutcome(w, Run(Normal, t, fuel), Own(ss, i));
    } else {
      WellFormedItem(ss, |ss|, i, true, inLoop, {});
      NothingVisible(ss, i, inLoop);
      assert {} + Visible(ss, i) == {};
      SizeOfItem(ss, i);
      OutcomeStmt(w, ss[i], t, fuel, inLoop);
      var r := Exec(w, ss[i], t, false, fuel);
      if r.out == Normal {
        OutcomeBlock(w, ss, i + 1, r.t, r.fuel, inLoop);
      } else {
        FinishOutcome(w, r, Own(ss, i));
      }
    }
  }

  lemma NothingVisible(ss: seq<Stmt>, i: nat, inLoop: bool)
    requires WellFormedAll(ss, |ss|, true, inLoop, {})
    ensures Visible(ss, i) == {}
  {
    forall q | 0 <= q < |ss| ensures !ss[q].Label? {
      WellFormedItem(ss, |ss|, q, true, inLoop, {});
    }
  }

  // Two scopes left one after the other are left as one.
  lemma FinishSplit(w: World, r: Run, a: seq<Entry>, b: seq<Entry>)
    requires Tame(b)
    ensures Finish(w, r, a + b) == Finish(w, Finish(w, r, b), a)
  {
    UnwindSplit(w, a, b, r.out == Threw, r.t, r.fuel);
    UnwindOutcome(w, b, r.out == Threw, r.t, r.fuel);
  }

  lemma FinishValues(w: World, r: Run, vs: seq<Slot>)
    requires r.out != Stuck && r.out != OutOfFuel
    ensures Finish(w, r, Values(vs)) == r.(t := DropAll(vs, r.t))
  {
    UnwindValues(w, vs, r.out == Threw, r.t, r.fuel);
  }

  // Only spent fuel runs out.
  predicate Spent(r: Run) { r.out == OutOfFuel ==> r.fuel == 0 }

  lemma {:induction false} SpentStmt(w: World, s: Stmt, t: Trace, check: bool, fuel: nat)
    ensures Spent(Exec(w, s, t, check, fuel))
    decreases fuel, Size(s), 2
  {
    match s
    case Block(body) => SpentBlock(w, body, 0, t, check, fuel);
    case If(pre, kind, cond, thn, els) =>
      SpentPre(w, pre, |pre|, t, check, fuel);
      var p := ExecPre(w, pre, |pre|, t, check, fuel);
      if p.out == Normal {
        var c := EvalWhole(w, cond, p.t, check);
        OwnLight(pre, |pre|);
        var r := if c.threw then Run(Threw, c.t, p.fuel)
                 else Exec(w, if kind.StaticTrue? || (kind.Dynamic? && c.flag) then thn else els, c.t, check, p.fuel);
        SpentStmt(w, thn, c.t, check, p.fuel);
        SpentStmt(w, els, c.t, check, p.fuel);
        SpentFinish(w, r, Own(pre, |pre|));
      }
    case While(_, _, _) => SpentWhile(w, s, t, check, fuel);
    case Try(tried, handler) =>
      SpentStmt(w, tried, t, check, fuel);
      var r := Exec(w, tried, t, check, fuel);
      SpentStmt(w, handler, r.t, check, r.fuel);
    case _ =>
  }

  lemma {:induction false} SpentWhile(w: World, s: Stmt, t: Trace, check: bool, fuel: nat)
    requires s.While?
    ensures Spent(Exec(w, s, t, check, fuel))
    decreases fuel, Size(s), 1
  {
    if fuel > 0 {
      SpentPre(w, s.pre, |s.pre|, t, check, fuel - 1);
      var p := ExecPre(w, s.pre, |s.pre|, t, check, fuel - 1);
      if p.out == Normal {
        var c := EvalWhole(w, s.cond, p.t, check);
        OwnLight(s.pre, |s.pre|);
        SpentStmt(w, s.loop, c.t, check, p.fuel);
        var r := if c.threw then Run(Threw, c.t, p.fuel) else if c.flag then Exec(w, s.loop, c.t, check, p.fuel) else Run(Broke, c.t, p.fuel);
        SpentFinish(w, LoopExit(r), Own(s.pre, |s.pre|));
        var r' := Leave(w, LoopExit(r), s.pre, |s.pre|);
        if r'.out == Normal && r.out != Broke { SpentStmt(w, s, r'.t, check, r'.fuel); }
      }
    }
  }

  lemma {:induction false} SpentBlock(w: World, ss: seq<Stmt>, i: nat, t: Trace, check: bool, fuel: nat)
    requires i <= |ss|
    ensures Spent(ExecBlock(w, ss, i, t, check, fuel))
    decreases fuel, SizeAll(ss), 1, |ss| - i
  {
    hide Exec, Unwind, Own, Finish, FindLabel, Height, Leave, Size, SizeAll;
    if i == |ss| {
      SpentLeave(w, Run(Normal, t, fuel), ss, i);
      return;
    }
    SizeOfItem(ss, i);
    SpentStmt(w, ss[i], t, check, fuel);
    var r := Exec(w, ss[i], t, check, fuel);
    if r.out == Normal {
      SpentBlock(w, ss, i + 1, r.t, check, r.fuel);
    } else if r.out.Went? && FindLabel(ss, r.out.l, i) >= 0 {
      SpentGoto(w, ss, i, r, check, fuel);
    } else {
      SpentLeave(w, r, ss, i);
    }
  }

  lemma SpentLeave(w: World, r: Run, ss: seq<Stmt>, i: nat)
    requires i <= |ss| && Spent(r)
    ensures Spent(Leave(w, r, ss, i))
    decreases r.fuel, SizeAll(ss), 0
  {
    OwnLight(ss, i);
    SpentFinish(w, r, Own(ss, i));
  }

  lemma {:induction false} SpentGoto(w: World, ss: seq<Stmt>, i: nat, r: Run, check: bool, fuel: nat)
    requires i < |ss| && r.out.Went? && FindLabel(ss, r.out.l, i) >= 0 && r.fuel <= fuel
    ensures var q := FindLabel(ss, r.out.l, i);
            var u := Unwind(w, Own(ss, i)[Height(ss, q, i)..], false, r.t, r.fuel);
            && Spent(u)
            && (u.out == Normal && u.fuel > 0 ==> Spent(ExecBlock(w, ss, q + 1, u.t, check, u.fuel - 1)))
    decreases fuel, SizeAll(ss), 1, 0
  {
    hide Exec, ExecBlock, Unwind, Own;
    var q := FindLabel(ss, r.out.l, i);
    var es := Own(ss, i)[Height(ss, q, i)..];
    KeptLight(ss, i, Height(ss, q, i));
    SpentUnwind(w, es, false, r.t, r.fuel);
    var u := Unwind(w, es, false, r.t, r.fuel);
    if u.out == Normal && u.fuel > 0 { SpentBlock(w, ss, q + 1, u.t, check, u.fuel - 1); }
  }

  lemma {:induction false} SpentPre(w: World, pre: seq<Stmt>, n: nat, t: Trace, check: bool, fuel: nat)
    requires n <= |pre|
    ensures Spent(ExecPre(w, pre, n, t, check, fuel))
    decreases fuel, SizeAll(pre), 1, n
  {
    if n > 0 {
      SpentPre(w, pre, n - 1, t, check, fuel);
      var a := ExecPre(w, pre, n - 1, t, check, fuel);
      if a.out == Normal {
        SizeOfItem(pre, n - 1);
        SpentStmt(w, pre[n - 1], a.t, check, a.fuel);
        OwnLight(pre, n - 1);
        SpentFinish(w, Exec(w, pre[n - 1], a.t, check, a.fuel), Own(pre, n - 1));
      }
    }
  }

  lemma SpentFinish(w: World, r: Run, es: seq<Entry>)
    requires Spent(r)
    ensures Spent(Finish(w, r, es))
    decreases r.fuel, Weight(es), |es| + 1
  {
    SpentUnwind(w, es, r.out == Threw, r.t, r.fuel);
  }

  lemma {:induction false} SpentUnwind(w: World, es: seq<Entry>, exn: bool, t: Trace, fuel: nat)
    ensures Spent(Unwind(w, es, exn, t, fuel))
    decreases fuel, Weight(es), |es|
  {
    if es != [] {
      var e := es[|es| - 1];
      var r := match e
        case Value(v) => Run(Normal, Drop(v, t), fuel)
        case Final(b) => Exec(w, Block(b), t, false, fuel)
        case Error(b) => if exn then Exec(w, Block(b), t, false, fuel) else Run(Normal, t, fuel);
      if !e.Value? { SpentStmt(w, Block(e.body), t, false, fuel); }
      SpentUnwind(w, es[..|es| - 1], exn, r.t, r.fuel);
    }
  }
}
