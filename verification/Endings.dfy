// Which statements control cannot come out of behind: the flag codegenStatement
// returns, read off the statement, and the analyzer's verdict about it.
module Endings {
  import opened Wrappers
  import opened Syntax
  import opened Cfg
  import opened CodegenSpec
  import opened Framing

  // Control does not come out behind s. Only a while (true) that no break
  // leaves is a loop that does not end.
  function Ends(s: Stmt): bool
    decreases s, 0
  {
    match s
    case Block(body) => EndsItems(body, |body|)
    case If(_, kind, _, thn, els) =>
      (kind.StaticFalse? || Ends(thn)) && (kind.StaticTrue? || Ends(els))
    case While(_, cond, loop) => cond == Lit(true, cond.id) && !Breaks(loop)
    case Try(tried, handler) => Ends(tried) && Ends(handler)
    case Finally(_) => false
    case OnError(_) => false
    case Label(_) => false
    case Var(_) => false
    case Eval(_) => false
    case _ => true
  }

  // The n-th item of a block is dead code: a label makes code alive again.
  function EndsItems(ss: seq<Stmt>, n: nat): bool
    requires n <= |ss|
    decreases ss, n
  {
    n > 0 && !ss[n - 1].Label? && (EndsItems(ss, n - 1) || Ends(ss[n - 1]))
  }

  // A break in code that is not dead leaves the loop whose body s is.
  function Breaks(s: Stmt): bool
    decreases s, 0
  {
    match s
    case Block(body) => BreaksItems(body, |body|)
    case If(_, kind, _, thn, els) =>
      (!kind.StaticFalse? && Breaks(thn)) || (!kind.StaticTrue? && Breaks(els))
    case Break => true
    case Try(tried, handler) => Breaks(tried) || Breaks(handler)
    case _ => false
  }

  function BreaksItems(ss: seq<Stmt>, n: nat): bool
    requires n <= |ss|
    decreases ss, n
  {
    n > 0 && (BreaksItems(ss, n - 1) || (!EndsItems(ss, n - 1) && Breaks(ss[n - 1])))
  }

  // The uses of the innermost break target have grown exactly if `used`; all
  // else is the same.
  ghost predicate Counted(a: seq<Target>, b: seq<Target>, used: bool) {
    if used then
      a != [] && |b| == |a| && b == a[|a| - 1 := a[|a| - 1].(uses := b[|b| - 1].uses)] && b[|b| - 1].uses > a[|a| - 1].uses
    else b == a
  }

  lemma CountedTwice(a: seq<Target>, b: seq<Target>, c: seq<Target>, u: bool, v: bool)
    requires Counted(a, b, u) && Counted(b, c, v)
    ensures Counted(a, c, u || v)
  {
  }

  lemma TameAppend(es: seq<Entry>, vs: seq<Slot>)
    requires Tame(es)
    ensures Tame(es + Values(vs))
  {
  }

  // No break leaves a cleanup body.
  lemma CleanupKeepsBreaks(s: Stmt, scope: set<string>)
    requires WellFormed(s, true, false, scope)
    ensures !Breaks(s)
    decreases s, 0
  {
    match s
    case Block(body) => CleanupItems(body, |body|, scope);
    case If(_, _, _, thn, els) => CleanupKeepsBreaks(thn, scope); CleanupKeepsBreaks(els, scope);
    case Try(tried, handler) => CleanupKeepsBreaks(tried, scope); CleanupKeepsBreaks(handler, scope);
    case _ =>
  }

  lemma CleanupItems(ss: seq<Stmt>, n: nat, scope: set<string>)
    requires n <= |ss| && WellFormedAll(ss, n, true, false, scope)
    ensures !BreaksItems(ss, n)
    decreases ss, n
  {
    if n > 0 {
      CleanupItems(ss, n - 1, scope);
      CleanupKeepsBreaks(ss[n - 1], scope + Visible(ss, n - 1));
    }
  }

  // ----- cleanup and expressions leave the break targets alone --------------

  lemma CountEntry(e: Entry, exn: bool, st: Ctx, lvl: nat)
    requires TameEntry(e) && Tame(st.stack) && DestroyEntry(e, exn, st, lvl).Ok?
    ensures DestroyEntry(e, exn, st, lvl).value.breaks == st.breaks
    decreases lvl, 0, 1
  {
    match e
    case Value(v) =>
    case Final(b) => CountCleanup(b, st, lvl);
    case Error(b) => if exn { CountCleanup(b, st, lvl); }
  }

  lemma CountCleanup(b: seq<Stmt>, st: Ctx, lvl: nat)
    requires WellFormedAll(b, |b|, true, false, {}) && Tame(st.stack) && RunCleanup(b, st, lvl).Ok?
    ensures RunCleanup(b, st, lvl).value.breaks == st.breaks
    ensures lvl > 0 && CgStmt(Block(b), st.(check := false), lvl - 1).Ok?
    ensures CgStmt(Block(b), st.(check := false), lvl - 1).value.term == Ends(Block(b))
    decreases lvl, 0, 0
  {
    EndsStmt(Block(b), st.(check := false), lvl - 1, true, false, {});
    CleanupKeepsBreaks(Block(b), {});
  }

  lemma CountDestroy(es: seq<Entry>, exn: bool, st: Ctx, lvl: nat)
    requires Tame(es) && Tame(st.stack) && Destroy(es, exn, st, lvl).Ok?
    ensures Destroy(es, exn, st, lvl).value.breaks == st.breaks
    decreases lvl, 1, |es|
  {
    if es != [] {
      CountEntry(es[|es| - 1], exn, st, lvl);
      CountDestroy(es[..|es| - 1], exn, DestroyEntry(es[|es| - 1], exn, st, lvl).value, lvl);
    }
  }

  lemma CountDestroyPop(marker: nat, exn: bool, st: Ctx, lvl: nat)
    requires Tame(st.stack) && marker <= |st.stack| && DestroyPop(marker, exn, st, lvl).Ok?
    ensures DestroyPop(marker, exn, st, lvl).value.breaks == st.breaks
    decreases lvl, 1, |st.stack|
  {
    if |st.stack| != marker {
      var n := |st.stack| - 1;
      CountEntry(st.stack[n], exn, PopTo(st, n), lvl);
      CountDestroyPop(marker, exn, DestroyEntry(st.stack[n], exn, PopTo(st, n), lvl).value, lvl);
    }
  }

  lemma CountJump(jt: Target, exn: bool, st: Ctx, lvl: nat)
    requires Tame(st.stack) && Jump(jt, exn, st, lvl).Ok?
    ensures Jump(jt, exn, st, lvl).value.breaks == st.breaks
    decreases lvl, 2
  {
    CountDestroy(st.stack[jt.marker..], exn, st, lvl);
  }

  lemma CountCall(f: Fn, args: seq<Slot>, out: Slot, st: Ctx, lvl: nat)
    requires Tame(st.stack) && CgCall(f, args, out, st, lvl).Ok?
    ensures CgCall(f, args, out, st, lvl).value.breaks == st.breaks
    decreases lvl, 3
  {
    if st.check {
      var st1 := Emit(NewBlock(NewBlock(Emit(st, ICall(f, args, out)))), IExcBr(st.next + 1, st.next));
      CountJump(st1.excs[|st1.excs| - 1], true, st1.(cur := st.next), lvl);
    }
  }

  lemma CountInto(e: Expr, out: Slot, st: Ctx, lvl: nat)
    requires Tame(st.stack) && CgInto(e, out, st, lvl).Ok?
    ensures CgInto(e, out, st, lvl).value.breaks == st.breaks
    ensures Tame(CgInto(e, out, st, lvl).value.stack)
    decreases lvl, 4, e, 1
  {
    TameAppend(st.stack, TempsInto(e));
    match e
    case Lit(b, _) =>
    case Call(f, args, _, _) =>
      CountArgs(args, |args|, st, lvl);
      CountCall(f, Homes(args), out, CgArgs(args, |args|, st, lvl).value, lvl);
    case And(_, _, _) => CountAndOr(e, out, st, lvl);
    case Or(_, _, _) => CountAndOr(e, out, st, lvl);
  }

  lemma CountAndOr(e: Expr, out: Slot, st: Ctx, lvl: nat)
    requires (e.And? || e.Or?) && Tame(st.stack) && CgAndOr(e, out, st, lvl).Ok?
    ensures CgAndOr(e, out, st, lvl).value.breaks == st.breaks
    decreases lvl, 4, e, 0
  {
    hide Tame, CgRef, CgArm;
    CountRef(e.l, st, lvl);
    var st1 := CgRef(e.l, st, lvl).value;
    var arm, skip, merge := st1.next, st1.next + 1, st1.next + 2;
    var st2 := Emit(NewBlock(NewBlock(NewBlock(st1))),
                    if e.Or? then ICondBr(Home(e.l), skip, arm) else ICondBr(Home(e.l), arm, skip));
    CountArm(e.r, out, merge, st2.(cur := arm), lvl);
  }

  lemma CountArm(e: Expr, out: Slot, merge: nat, st: Ctx, lvl: nat)
    requires Tame(st.stack) && CgArm(e, out, merge, st, lvl).Ok?
    ensures CgArm(e, out, merge, st, lvl).value.breaks == st.breaks
    decreases lvl, 4, e, 3
  {
    hide Tame, CgRef;
    CountRef(e, st, lvl);
    CountDestroyPop(|st.stack|, false, Emit(CgRef(e, st, lvl).value, ICopy(out, Home(e))), lvl);
  }

  lemma CountRef(e: Expr, st: Ctx, lvl: nat)
    requires Tame(st.stack) && CgRef(e, st, lvl).Ok?
    ensures CgRef(e, st, lvl).value.breaks == st.breaks
    ensures Tame(CgRef(e, st, lvl).value.stack)
    decreases lvl, 4, e, 2
  {
    CountInto(e, Home(e), st, lvl);
  }

  lemma CountArgs(args: seq<Expr>, n: nat, st: Ctx, lvl: nat)
    requires n <= |args| && Tame(st.stack) && CgArgs(args, n, st, lvl).Ok?
    ensures CgArgs(args, n, st, lvl).value.breaks == st.breaks
    ensures Tame(CgArgs(args, n, st, lvl).value.stack)
    decreases lvl, 4, args, n
  {
    if n > 0 {
      CountArgs(args, n - 1, st, lvl);
      CountRef(args[n - 1], CgArgs(args, n - 1, st, lvl).value, lvl);
    }
  }

  lemma CountWhole(e: Expr, st: Ctx, lvl: nat)
    requires Tame(st.stack) && CgWhole(e, st, lvl).Ok?
    ensures CgWhole(e, st, lvl).value.breaks == st.breaks
    decreases lvl, 5
  {
    CountRef(e, st, lvl);
    CountDestroyPop(|st.stack|, false, CgRef(e, st, lvl).value, lvl);
  }

  lemma CountInits(inits: seq<Init>, n: nat, st: Ctx, lvl: nat)
    requires n <= |inits| && Tame(st.stack) && CgInits(inits, n, st, lvl).Ok?
    ensures CgInits(inits, n, st, lvl).value.breaks == st.breaks
    ensures Tame(CgInits(inits, n, st, lvl).value.stack)
    decreases lvl, 6, n
  {
    if n > 0 {
      CountInits(inits, n - 1, st, lvl);
      var st1 := CgInits(inits, n - 1, st, lvl).value;
      CountInto(inits[n - 1].e, inits[n - 1].out, st1, lvl);
      CountDestroyPop(|st1.stack|, false, CgInto(inits[n - 1].e, inits[n - 1].out, st1, lvl).value, lvl);
    }
  }

  lemma CountVar(inits: seq<Init>, st: Ctx, lvl: nat)
    requires Tame(st.stack) && CgVar(inits, st, lvl).Ok?
    ensures CgVar(inits, st, lvl).value.breaks == st.breaks
    ensures Tame(CgVar(inits, st, lvl).value.stack)
    decreases lvl, 7, 1
  {
    CountInits(inits, |inits|, st, lvl);
    TameAppend(st.stack, Slots(inits));
  }

  lemma CountPre(pre: seq<Stmt>, n: nat, st: Ctx, lvl: nat)
    requires n <= |pre| && Tame(st.stack) && CgPre(pre, n, st, lvl).Ok?
    ensures CgPre(pre, n, st, lvl).value.breaks == st.breaks
    ensures Tame(CgPre(pre, n, st, lvl).value.stack)
    decreases lvl, 8, pre, n
  {
    if n > 0 {
      CountPre(pre, n - 1, st, lvl);
      var st1 := CgPre(pre, n - 1, st, lvl).value;
      if pre[n - 1].Var? {
        CountVar(pre[n - 1].inits, st1, lvl);
      } else {
        CountWhole(pre[n - 1].e, st1, lvl);
      }
    }
  }

  lemma CountEndScope(marker: nat, term: bool, st: Ctx, lvl: nat)
    requires Tame(st.stack) && marker <= |st.stack| && EndScope(marker, term, st, lvl).Ok?
    ensures EndScope(marker, term, st, lvl).value.st.breaks == st.breaks
    ensures Tame(EndScope(marker, term, st, lvl).value.st.stack)
    decreases lvl, 2
  {
    if !term { CountDestroy(st.stack[marker..], false, st, lvl); }
  }

  lemma CollectKeeps(ss: seq<Stmt>, i: nat, st: Ctx)
    requires i <= |ss| && CollectLabels(ss, i, st).Ok?
    ensures CollectLabels(ss, i, st).value.breaks == st.breaks
    decreases |ss| - i
  {
  }

  // ----- statements ---------------------------------------------------------

  // What is known of the state after a statement.
  ghost predicate Flagged(s: Stmt, st: Ctx, d: Done) {
    d.term == Ends(s) && Counted(st.breaks, d.st.breaks, Breaks(s)) && Tame(d.st.stack)
  }

  // The terminated flag depends on the statement alone, and the use count of
  // the innermost break target tells whether a break leaves the statement.
  lemma EndsStmt(s: Stmt, st: Ctx, lvl: nat, cleanup: bool, inLoop: bool, scope: set<string>)
    requires Tame(st.stack) && WellFormed(s, cleanup, inLoop, scope) && CgStmt(s, st, lvl).Ok?
    ensures Flagged(s, st, CgStmt(s, st, lvl).value)
    decreases lvl, 8, s, 2
  {
    match s
    case Block(body) => EndsBlock(body, st, lvl, cleanup, inLoop, scope);
    case Label(_) => assert false;
    case Var(_) => assert false;
    case Goto(l) => CountJump(st.labels[l], false, st, lvl);
    case Eval(e) => CountWhole(e, st, lvl);
    case Return(inits) => EndsReturn(inits, st, lvl);
    case Throw(args) => EndsThrow(args, st, lvl);
    case If(_, _, _, _, _) => EndsIf(s, st, lvl, cleanup, inLoop, scope);
    case While(_, _, _) => EndsWhile(s, st, lvl, cleanup, inLoop, scope);
    case Break => CountJump(st.breaks[|st.breaks| - 1], false, st, lvl);
    case Continue => CountJump(st.continues[|st.continues| - 1], false, st, lvl);
    case Try(_, _) => EndsTry(s, st, lvl, cleanup, inLoop, scope);
    case Finally(b) =>
    case OnError(b) =>
    case Unreachable =>
  }

  lemma EndsReturn(inits: seq<Init>, st: Ctx, lvl: nat)
    requires Tame(st.stack) && CgStmt(Return(inits), st, lvl).Ok?
    ensures Flagged(Return(inits), st, CgStmt(Return(inits), st, lvl).value)
    decreases lvl, 8, Return(inits), 1
  {
    CountInits(inits, |inits|, st, lvl);
    var st1 := CgMultiInto(inits, st, lvl).value;
    CountJump(st1.rets[|st1.rets| - 1], false, st1, lvl);
  }

  lemma EndsThrow(args: seq<Expr>, st: Ctx, lvl: nat)
    requires Tame(st.stack) && CgStmt(Throw(args), st, lvl).Ok?
    ensures Flagged(Throw(args), st, CgStmt(Throw(args), st, lvl).value)
    decreases lvl, 8, Throw(args), 1
  {
    CountArgs(args, |args|, st, lvl);
    var st1 := CgArgs(args, |args|, st, lvl).value;
    CountCall(ThrowValue, Homes(args), Slot(Temp, 0, true), st1, lvl);
    CountDestroyPop(|st.stack|, false, CgCall(ThrowValue, Homes(args), Slot(Temp, 0, true), st1, lvl).value, lvl);
  }

  lemma EndsIf(s: Stmt, st: Ctx, lvl: nat, cleanup: bool, inLoop: bool, scope: set<string>)
    requires s.If? && Tame(st.stack) && WellFormed(s, cleanup, inLoop, scope) && CgIf(s, st, lvl).Ok?
    ensures Flagged(s, st, CgIf(s, st, lvl).value)
    decreases lvl, 8, s, 1
  {
    hide Tame, Ends, Breaks, CgArms, CgWhole, CgPre;
    CountPre(s.pre, |s.pre|, st, lvl);
    var p := CgPre(s.pre, |s.pre|, st, lvl).value;
    CountWhole(s.cond, p, lvl);
    var st1 := CgWhole(s.cond, p, lvl).value;
    EndsArms(s, st1, lvl, cleanup, inLoop, scope);
    var d := CgArms(s, st1, lvl).value;
    CountEndScope(|st.stack|, d.term, d.st, lvl);
  }

  lemma EndsArms(s: Stmt, st: Ctx, lvl: nat, cleanup: bool, inLoop: bool, scope: set<string>)
    requires s.If? && Tame(st.stack) && WellFormed(s, cleanup, inLoop, scope) && CgArms(s, st, lvl).Ok?
    ensures Flagged(s, st, CgArms(s, st, lvl).value)
    decreases lvl, 8, s, 0
  {
    hide Tame, Counted, CgStmt;
    if s.kind.Dynamic? {
      var st2 := Emit(NewBlock(NewBlock(st)), ICondBr(Home(s.cond), st.next, st.next + 1)).(cur := st.next);
      EndsStmt(s.thn, st2, lvl, cleanup, inLoop, scope);
      var d1 := CgStmt(s.thn, st2, lvl).value;
      var st3 := BranchToEnd(d1, None).(cur := st.next + 1);
      EndsStmt(s.els, st3, lvl, cleanup, inLoop, scope);
      CountedTwice(st.breaks, d1.st.breaks, CgStmt(s.els, st3, lvl).value.st.breaks, Breaks(s.thn), Breaks(s.els));
    } else {
      var st2 := Emit(NewBlock(st), IBr(st.next)).(cur := st.next);
      EndsStmt(if s.kind.StaticTrue? then s.thn else s.els, st2, lvl, cleanup, inLoop, scope);
    }
  }

  lemma EndsTry(s: Stmt, st: Ctx, lvl: nat, cleanup: bool, inLoop: bool, scope: set<string>)
    requires s.Try? && Tame(st.stack) && WellFormed(s, cleanup, inLoop, scope) && CgStmt(s, st, lvl).Ok?
    ensures Flagged(s, st, CgStmt(s, st, lvl).value)
    decreases lvl, 8, s, 1
  {
    hide Tame, Counted;
    var st0 := NewBlock(st).(excs := st.excs + [Target(st.next, |st.stack|, 0)]);
    EndsStmt(s.tried, st0, lvl, cleanup, inLoop, scope);
    var d1 := CgStmt(s.tried, st0, lvl).value;
    var st1 := BranchToEnd(d1, None);
    var st2 := st1.(excs := Pop(st1.excs), cur := st.next);
    EndsStmt(s.handler, st2, lvl, cleanup, inLoop, scope);
    CountedTwice(st.breaks, d1.st.breaks, CgStmt(s.handler, st2, lvl).value.st.breaks, Breaks(s.tried), Breaks(s.handler));
  }

  lemma EndsWhile(s: Stmt, st: Ctx, lvl: nat, cleanup: bool, inLoop: bool, scope: set<string>)
    requires s.While? && Tame(st.stack) && WellFormed(s, cleanup, inLoop, scope) && CgWhile(s, st, lvl).Ok?
    ensures Flagged(s, st, CgWhile(s, st, lvl).value)
    decreases lvl, 8, s, 1
  {
    hide Tame, Breaks, Counted, CgTest, LoopBody, LoopEnd;
    var begin, body, cont, end := st.next, st.next + 1, st.next + 2, st.next + 3;
    var st0 := Emit(NewBlock(NewBlock(NewBlock(NewBlock(st)))), IBr(begin)).(cur := begin);
    EndsTest(s, body, end, st0, lvl);
    var st1 := CgTest(s, body, end, st0, lvl).value;
    var st2 := Enter(body, cont, end, st1);
    EndsLoop(s, |st.stack|, cont, st2, lvl, cleanup, scope);
    var st3 := LoopBody(s, |st.stack|, cont, st2, lvl).value;
    EndsClose(s, |st.stack|, begin, end, st1.breaks, st3, lvl);
    CountedSame(st.breaks);
    LoopKeepsBreaks(s);
  }

  lemma LoopKeepsBreaks(s: Stmt)
    requires s.While?
    ensures !Breaks(s)
  {
  }

  lemma CountedSame(a: seq<Target>)
    ensures Counted(a, a, false)
  {
  }

  lemma EndsTest(s: Stmt, body: nat, end: nat, st: Ctx, lvl: nat)
    requires s.While? && Tame(st.stack) && CgTest(s, body, end, st, lvl).Ok?
    ensures CgTest(s, body, end, st, lvl).value.breaks == st.breaks
    ensures Tame(CgTest(s, body, end, st, lvl).value.stack)
    decreases lvl, 8, s, 0
  {
    hide Tame;
    CountPre(s.pre, |s.pre|, st, lvl);
    CountWhole(s.cond, CgPre(s.pre, |s.pre|, st, lvl).value, lvl);
  }

  lemma EndsLoop(s: Stmt, marker: nat, cont: nat, st: Ctx, lvl: nat, cleanup: bool, scope: set<string>)
    requires s.While? && Tame(st.stack) && WellFormed(s.loop, cleanup, true, scope)
    requires marker <= |st.stack| && LoopBody(s, marker, cont, st, lvl).Ok?
    ensures Counted(st.breaks, LoopBody(s, marker, cont, st, lvl).value.breaks, Breaks(s.loop))
    ensures Tame(LoopBody(s, marker, cont, st, lvl).value.stack)
    decreases lvl, 8, s, 0
  {
    hide Counted;
    EndsStmt(s.loop, st, lvl, cleanup, true, scope);
    var d := CgStmt(s.loop, st, lvl).value;
    var st1 := (if d.term then d.st else Emit(d.st, IBr(cont))).(cur := cont);
    CountDestroy(st1.stack[marker..], false, st1, lvl);
  }

  lemma EndsClose(s: Stmt, marker: nat, begin: nat, end: nat, outer: seq<Target>, st: Ctx, lvl: nat)
    requires s.While? && Tame(st.stack) && marker <= |st.stack| && LoopEnd(s, marker, begin, end, st, lvl).Ok?
    requires exists jt: Target :: jt.uses == 0 && Counted(outer + [jt], st.breaks, Breaks(s.loop))
    ensures var d := LoopEnd(s, marker, begin, end, st, lvl).value;
            d.term == Ends(s) && d.st.breaks == outer && Tame(d.st.stack)
    decreases lvl, 3
  {
    var st1 := Emit(st, IBr(begin));
    var st2 := st1.(breaks := Pop(st1.breaks), continues := Pop(st1.continues), cur := end);
    assert Pop(st.breaks) == outer;
    hide Counted, Breaks, Tame;
    if Ends(s) {
      CountEndScope(marker, true, Emit(st2, IUnreachable), lvl);
    } else {
      CountEndScope(marker, false, st2, lvl);
    }
  }

  lemma EndsBlock(ss: seq<Stmt>, st: Ctx, lvl: nat, cleanup: bool, inLoop: bool, scope: set<string>)
    requires Tame(st.stack) && WellFormedAll(ss, |ss|, cleanup, inLoop, scope) && CgStmt(Block(ss), st, lvl).Ok?
    ensures Flagged(Block(ss), st, CgStmt(Block(ss), st, lvl).value)
    decreases lvl, 8, ss, |ss| + 1
  {
    hide Tame, EndsItems, BreaksItems;
    var d0 := Done(CollectLabels(ss, 0, st).value, false);
    CollectKeeps(ss, 0, st);
    EndsAll(ss, |ss|, d0, lvl, cleanup, inLoop, scope);
    var d := CgItems(ss, |ss|, d0, lvl).value;
    CountEndScope(|st.stack|, d.term, d.st, lvl);
  }

  lemma EndsAll(ss: seq<Stmt>, n: nat, d0: Done, lvl: nat, cleanup: bool, inLoop: bool, scope: set<string>)
    requires n <= |ss| && !d0.term && Tame(d0.st.stack) && WellFormedAll(ss, n, cleanup, inLoop, scope)
    requires CgItems(ss, n, d0, lvl).Ok?
    ensures var d := CgItems(ss, n, d0, lvl).value;
            && d.term == EndsItems(ss, n) && Counted(d0.st.breaks, d.st.breaks, BreaksItems(ss, n)) && Tame(d.st.stack)
    decreases lvl, 8, ss, n, 1
  {
    hide Tame, Counted, Ends, Breaks, Visible;
    if n > 0 {
      EndsAll(ss, n - 1, d0, lvl, cleanup, inLoop, scope);
      var d := CgItems(ss, n - 1, d0, lvl).value;
      EndsItem(ss, n - 1, d, lvl, cleanup, inLoop, scope + Visible(ss, n - 1));
      var e := CgItem(ss, n - 1, d, lvl).value;
      CountedTwice(d0.st.breaks, d.st.breaks, e.st.breaks, BreaksItems(ss, n - 1), !d.term && Breaks(ss[n - 1]));
    } else {
      CountedSame(d0.st.breaks);
    }
  }

  lemma EndsItem(ss: seq<Stmt>, i: nat, d: Done, lvl: nat, cleanup: bool, inLoop: bool, scope: set<string>)
    requires i < |ss| && Tame(d.st.stack) && WellFormed(ss[i], cleanup, inLoop, scope) && CgItem(ss, i, d, lvl).Ok?
    ensures var e := CgItem(ss, i, d, lvl).value;
            && e.term == (!ss[i].Label? && (d.term || Ends(ss[i])))
            && Counted(d.st.breaks, e.st.breaks, !d.term && Breaks(ss[i])) && Tame(e.st.stack)
    decreases lvl, 8, ss, 0
  {
    if ss[i].Label? || d.term {
      CountedSame(d.st.breaks);
    } else if ss[i].Var? {
      CountVar(ss[i].inits, d.st, lvl);
      CollectKeeps(ss, i + 1, CgVar(ss[i].inits, d.st, lvl).value);
    } else {
      EndsStmt(ss[i], d.st, lvl, cleanup, inLoop, scope);
    }
  }
}
