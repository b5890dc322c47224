// The nesting bound of the code generator is no restriction: more of it changes
// nothing, and a program's own nesting of cleanup bodies is enough.
module Depth {
  import opened Wrappers
  import opened Syntax
  import opened Cfg
  import opened CodegenSpec
  import opened Framing

  // ----- more depth changes nothing -----------------------------------------

  lemma {:induction false} SameEntry(e: Entry, exn: bool, st: Ctx, l: nat, m: nat)
    requires l <= m && DestroyEntry(e, exn, st, l) != Fail(TooDeep)
    ensures DestroyEntry(e, exn, st, m) == DestroyEntry(e, exn, st, l)
    decreases l, 0, 1
  {
    match e
    case Value(_) =>
    case Final(b) => SameCleanup(b, st, l, m);
    case Error(b) => if exn { SameCleanup(b, st, l, m); }
  }

  lemma {:induction false} SameCleanup(b: seq<Stmt>, st: Ctx, l: nat, m: nat)
    requires l <= m && RunCleanup(b, st, l) != Fail(TooDeep)
    ensures RunCleanup(b, st, m) == RunCleanup(b, st, l)
    decreases l, 0, 0
  {
    SameStmt(Block(b), st.(check := false), l - 1, m - 1);
  }

  lemma {:induction false} SameDestroy(es: seq<Entry>, exn: bool, st: Ctx, l: nat, m: nat)
    requires l <= m && Destroy(es, exn, st, l) != Fail(TooDeep)
    ensures Destroy(es, exn, st, m) == Destroy(es, exn, st, l)
    decreases l, 1, |es|
  {
    if es != [] {
      SameEntry(es[|es| - 1], exn, st, l, m);
      var r := DestroyEntry(es[|es| - 1], exn, st, l);
      if r.Ok? { SameDestroy(es[..|es| - 1], exn, r.value, l, m); }
    }
  }

  lemma {:induction false} SameDestroyPop(marker: nat, exn: bool, st: Ctx, l: nat, m: nat)
    requires l <= m && marker <= |st.stack| && DestroyPop(marker, exn, st, l) != Fail(TooDeep)
    ensures DestroyPop(marker, exn, st, m) == DestroyPop(marker, exn, st, l)
    decreases l, 1, |st.stack|
  {
    if |st.stack| != marker {
      var n := |st.stack| - 1;
      SameEntry(st.stack[n], exn, PopTo(st, n), l, m);
      var r := DestroyEntry(st.stack[n], exn, PopTo(st, n), l);
      if r.Ok? { SameDestroyPop(marker, exn, r.value, l, m); }
    }
  }

  lemma {:induction false} SameJump(jt: Target, exn: bool, st: Ctx, l: nat, m: nat)
    requires l <= m && Jump(jt, exn, st, l) != Fail(TooDeep)
    ensures Jump(jt, exn, st, m) == Jump(jt, exn, st, l)
    decreases l, 2
  {
    if jt.marker <= |st.stack| { SameDestroy(st.stack[jt.marker..], exn, st, l, m); }
  }

  lemma {:induction false} SameCall(f: Fn, args: seq<Slot>, out: Slot, st: Ctx, l: nat, m: nat)
    requires l <= m && CgCall(f, args, out, st, l) != Fail(TooDeep)
    ensures CgCall(f, args, out, st, m) == CgCall(f, args, out, st, l)
    decreases l, 3
  {
    if st.check && st.excs != [] {
      var st1 := Emit(NewBlock(NewBlock(Emit(st, ICall(f, args, out)))), IExcBr(st.next + 1, st.next)).(cur := st.next);
      SameJump(st1.excs[|st1.excs| - 1], true, st1, l, m);
    }
  }

  lemma {:induction false} SameInto(e: Expr, out: Slot, st: Ctx, l: nat, m: nat)
    requires l <= m && CgInto(e, out, st, l) != Fail(TooDeep)
    ensures CgInto(e, out, st, m) == CgInto(e, out, st, l)
    decreases l, 4, e, 1
  {
    match e
    case Lit(_, _) =>
    case Call(f, args, _, _) =>
      SameArgs(args, |args|, st, l, m);
      var r := CgArgs(args, |args|, st, l);
      if r.Ok? { SameCall(f, Homes(args), out, r.value, l, m); }
    case And(_, _, _) => SameAndOr(e, out, st, l, m);
    case Or(_, _, _) => SameAndOr(e, out, st, l, m);
  }

  lemma {:induction false} SameAndOr(e: Expr, out: Slot, st: Ctx, l: nat, m: nat)
    requires (e.And? || e.Or?) && l <= m && CgAndOr(e, out, st, l) != Fail(TooDeep)
    ensures CgAndOr(e, out, st, m) == CgAndOr(e, out, st, l)
    decreases l, 4, e, 0
  {
    hide CgRef, CgArm, Emit, NewBlock;
    SameRef(e.l, st, l, m);
    var r := CgRef(e.l, st, l);
    if r.Ok? {
      var st1 := r.value;
      var arm, skip := st1.next, st1.next + 1;
      var st2 := Emit(NewBlock(NewBlock(NewBlock(st1))),
                      if e.Or? then ICondBr(Home(e.l), skip, arm) else ICondBr(Home(e.l), arm, skip));
      SameArm(e.r, out, st1.next + 2, st2.(cur := arm), l, m);
    }
  }

  lemma {:induction false} SameArm(e: Expr, out: Slot, merge: nat, st: Ctx, l: nat, m: nat)
    requires l <= m && CgArm(e, out, merge, st, l) != Fail(TooDeep)
    ensures CgArm(e, out, merge, st, m) == CgArm(e, out, merge, st, l)
    decreases l, 4, e, 3
  {
    SameRef(e, st, l, m);
    var r := CgRef(e, st, l);
    if r.Ok? { SameDestroyPop(|st.stack|, false, Emit(r.value, ICopy(out, Home(e))), l, m); }
  }

  lemma {:induction false} SameRef(e: Expr, st: Ctx, l: nat, m: nat)
    requires l <= m && CgRef(e, st, l) != Fail(TooDeep)
    ensures CgRef(e, st, m) == CgRef(e, st, l)
    decreases l, 4, e, 2
  {
    SameInto(e, Home(e), st, l, m);
  }

  lemma {:induction false} SameArgs(args: seq<Expr>, n: nat, st: Ctx, l: nat, m: nat)
    requires n <= |args| && l <= m && CgArgs(args, n, st, l) != Fail(TooDeep)
    ensures CgArgs(args, n, st, m) == CgArgs(args, n, st, l)
    decreases l, 4, args, n
  {
    if n > 0 {
      SameArgs(args, n - 1, st, l, m);
      var r := CgArgs(args, n - 1, st, l);
      if r.Ok? { SameRef(args[n - 1], r.value, l, m); }
    }
  }

  lemma {:induction false} SameWhole(e: Expr, st: Ctx, l: nat, m: nat)
    requires l <= m && CgWhole(e, st, l) != Fail(TooDeep)
    ensures CgWhole(e, st, m) == CgWhole(e, st, l)
    decreases l, 5
  {
    SameRef(e, st, l, m);
    var r := CgRef(e, st, l);
    if r.Ok? { SameDestroyPop(|st.stack|, false, r.value, l, m); }
  }

  lemma {:induction false} SameInits(inits: seq<Init>, n: nat, st: Ctx, l: nat, m: nat)
    requires n <= |inits| && l <= m && CgInits(inits, n, st, l) != Fail(TooDeep)
    ensures CgInits(inits, n, st, m) == CgInits(inits, n, st, l)
    decreases l, 6, n
  {
    if n > 0 {
      SameInits(inits, n - 1, st, l, m);
      var r := CgInits(inits, n - 1, st, l);
      if r.Ok? { SameOneInto(inits[n - 1].e, inits[n - 1].out, r.value, l, m); }
    }
  }

  lemma {:induction false} SameOneInto(e: Expr, out: Slot, st: Ctx, l: nat, m: nat)
    requires l <= m && CgOneInto(e, out, st, l) != Fail(TooDeep)
    ensures CgOneInto(e, out, st, m) == CgOneInto(e, out, st, l)
    decreases l, 5
  {
    SameInto(e, out, st, l, m);
    var r := CgInto(e, out, st, l);
    if r.Ok? { SameDestroyPop(|st.stack|, false, r.value, l, m); }
  }

  lemma {:induction false} SameStmt(s: Stmt, st: Ctx, l: nat, m: nat)
    requires l <= m && CgStmt(s, st, l) != Fail(TooDeep)
    ensures CgStmt(s, st, m) == CgStmt(s, st, l)
    decreases l, 8, s, 2
  {
    match s
    case Block(body) =>
      var r := CollectLabels(body, 0, st);
      if r.Ok? {
        SameItems(body, |body|, Done(r.value, false), l, m);
        var d := CgItems(body, |body|, Done(r.value, false), l);
        if d.Ok? { SameEndScope(|st.stack|, d.value.term, d.value.st, l, m); }
      }
    case Goto(t) => if t in st.labels { SameJump(st.labels[t], false, st, l, m); }
    case Eval(e) => SameWhole(e, st, l, m);
    case Return(inits) => SameReturn(inits, st, l, m);
    case Throw(args) => SameThrow(args, st, l, m);
    case If(_, _, _, _, _) => SameIf(s, st, l, m);
    case While(_, _, _) => SameWhile(s, st, l, m);
    case Break => if st.breaks != [] { SameJump(st.breaks[|st.breaks| - 1], false, st, l, m); }
    case Continue => if st.continues != [] { SameJump(st.continues[|st.continues| - 1], false, st, l, m); }
    case Try(tried, handler) =>
      var st0 := NewBlock(st).(excs := st.excs + [Target(st.next, |st.stack|, 0)]);
      SameStmt(tried, st0, l, m);
      var d1 := CgStmt(tried, st0, l);
      if d1.Ok? {
        var st1 := BranchToEnd(d1.value, None);
        SameStmt(handler, st1.(excs := Pop(st1.excs), cur := st.next), l, m);
      }
    case _ =>
  }

  lemma {:induction false} SameReturn(inits: seq<Init>, st: Ctx, l: nat, m: nat)
    requires l <= m && CgStmt(Return(inits), st, l) != Fail(TooDeep)
    ensures CgStmt(Return(inits), st, m) == CgStmt(Return(inits), st, l)
    decreases l, 8, Return(inits), 1
  {
    hide Jump, CgInits;
    SameInits(inits, |inits|, st, l, m);
    var r := CgMultiInto(inits, st, l);
    if r.Ok? && r.value.rets != [] { SameJump(r.value.rets[|r.value.rets| - 1], false, r.value, l, m); }
  }

  lemma {:induction false} SameThrow(args: seq<Expr>, st: Ctx, l: nat, m: nat)
    requires l <= m && CgStmt(Throw(args), st, l) != Fail(TooDeep)
    ensures CgStmt(Throw(args), st, m) == CgStmt(Throw(args), st, l)
    decreases l, 8, Throw(args), 1
  {
    SameArgs(args, |args|, st, l, m);
    var r := CgArgs(args, |args|, st, l);
    if r.Ok? {
      SameCall(ThrowValue, Homes(args), Slot(Temp, 0, true), r.value, l, m);
      var r2 := CgCall(ThrowValue, Homes(args), Slot(Temp, 0, true), r.value, l);
      if r2.Ok? { SameDestroyPop(|st.stack|, false, r2.value, l, m); }
    }
  }

  lemma {:induction false} SameIf(s: Stmt, st: Ctx, l: nat, m: nat)
    requires s.If? && l <= m && CgIf(s, st, l) != Fail(TooDeep)
    ensures CgIf(s, st, m) == CgIf(s, st, l)
    decreases l, 8, s, 1
  {
    hide CgPre, CgWhole, CgArms, EndScope;
    SamePre(s.pre, |s.pre|, st, l, m);
    var p := CgPre(s.pre, |s.pre|, st, l);
    if p.Ok? {
      SameWhole(s.cond, p.value, l, m);
      var st1 := CgWhole(s.cond, p.value, l);
      if st1.Ok? {
        SameArms(s, st1.value, l, m);
        var d := CgArms(s, st1.value, l);
        if d.Ok? { SameEndScope(|st.stack|, d.value.term, d.value.st, l, m); }
      }
    }
  }

  lemma {:induction false} SameArms(s: Stmt, st: Ctx, l: nat, m: nat)
    requires s.If? && l <= m && CgArms(s, st, l) != Fail(TooDeep)
    ensures CgArms(s, st, m) == CgArms(s, st, l)
    decreases l, 8, s, 0
  {
    hide CgStmt, Merge, BranchToEnd;
    if s.kind.Dynamic? {
      var st2 := Emit(NewBlock(NewBlock(st)), ICondBr(Home(s.cond), st.next, st.next + 1));
      SameStmt(s.thn, st2.(cur := st.next), l, m);
      var d1 := CgStmt(s.thn, st2.(cur := st.next), l);
      if d1.Ok? { SameStmt(s.els, BranchToEnd(d1.value, None).(cur := st.next + 1), l, m); }
    } else {
      var st2 := Emit(NewBlock(st), IBr(st.next)).(cur := st.next);
      SameStmt(if s.kind.StaticTrue? then s.thn else s.els, st2, l, m);
    }
  }

  lemma {:induction false} SameWhile(s: Stmt, st: Ctx, l: nat, m: nat)
    requires s.While? && l <= m && CgWhile(s, st, l) != Fail(TooDeep)
    ensures CgWhile(s, st, m) == CgWhile(s, st, l)
    decreases l, 8, s, 1
  {
    hide CgTest, LoopBody, LoopEnd, Enter;
    var begin, body, cont, end := st.next, st.next + 1, st.next + 2, st.next + 3;
    var st0 := Emit(NewBlock(NewBlock(NewBlock(NewBlock(st)))), IBr(begin)).(cur := begin);
    SameTest(s, body, end, st0, l, m);
    var r1 := CgTest(s, body, end, st0, l);
    if r1.Ok? {
      var st2 := Enter(body, cont, end, r1.value);
      EnterStack(body, cont, end, r1.value);
      SameBody(s, |st.stack|, cont, st2, l, m);
      var r3 := LoopBody(s, |st.stack|, cont, st2, l);
      if r3.Ok? { SameLoopEnd(s, |st.stack|, begin, end, r3.value, l, m); }
    }
  }

  lemma EnterStack(body: nat, cont: nat, end: nat, st: Ctx)
    ensures Enter(body, cont, end, st).stack == st.stack
  {
  }

  lemma {:induction false} SameTest(s: Stmt, body: nat, end: nat, st: Ctx, l: nat, m: nat)
    requires s.While? && l <= m && CgTest(s, body, end, st, l) != Fail(TooDeep)
    ensures CgTest(s, body, end, st, m) == CgTest(s, body, end, st, l)
    decreases l, 8, s, 0
  {
    hide CgPre, CgWhole;
    SamePre(s.pre, |s.pre|, st, l, m);
    var p := CgPre(s.pre, |s.pre|, st, l);
    if p.Ok? { SameWhole(s.cond, p.value, l, m); }
  }

  lemma {:induction false} SameBody(s: Stmt, marker: nat, cont: nat, st: Ctx, l: nat, m: nat)
    requires s.While? && marker <= |st.stack| && l <= m && LoopBody(s, marker, cont, st, l) != Fail(TooDeep)
    ensures LoopBody(s, marker, cont, st, m) == LoopBody(s, marker, cont, st, l)
    decreases l, 8, s, 0
  {
    SameStmt(s.loop, st, l, m);
    var r := CgStmt(s.loop, st, l);
    if r.Ok? {
      var d := r.value;
      var st1 := (if d.term then d.st else Emit(d.st, IBr(cont))).(cur := cont);
      SameDestroy(st1.stack[marker..], false, st1, l, m);
    }
  }

  lemma {:induction false} SameLoopEnd(s: Stmt, marker: nat, begin: nat, end: nat, st: Ctx, l: nat, m: nat)
    requires s.While? && marker <= |st.stack| && l <= m && LoopEnd(s, marker, begin, end, st, l) != Fail(TooDeep)
    ensures LoopEnd(s, marker, begin, end, st, m) == LoopEnd(s, marker, begin, end, st, l)
    decreases l, 3
  {
    var st1 := Emit(st, IBr(begin));
    var st2 := st1.(breaks := Pop(st1.breaks), continues := Pop(st1.continues), cur := end);
    if LoopEnd(s, marker, begin, end, st, l) == EndScope(marker, false, st2, l) { SameEndScope(marker, false, st2, l, m); }
  }

  lemma {:induction false} SameEndScope(marker: nat, term: bool, st: Ctx, l: nat, m: nat)
    requires marker <= |st.stack| && l <= m && EndScope(marker, term, st, l) != Fail(TooDeep)
    ensures EndScope(marker, term, st, m) == EndScope(marker, term, st, l)
    decreases l, 2
  {
    if !term { SameDestroy(st.stack[marker..], false, st, l, m); }
  }

  lemma {:induction false} SamePre(pre: seq<Stmt>, n: nat, st: Ctx, l: nat, m: nat)
    requires n <= |pre| && l <= m && CgPre(pre, n, st, l) != Fail(TooDeep)
    ensures CgPre(pre, n, st, m) == CgPre(pre, n, st, l)
    decreases l, 8, pre, n
  {
    if n > 0 {
      SamePre(pre, n - 1, st, l, m);
      var r := CgPre(pre, n - 1, st, l);
      if r.Ok? {
        match pre[n - 1]
        case Var(inits) => SameVar(inits, r.value, l, m);
        case Eval(e) => SameWhole(e, r.value, l, m);
        case _ =>
      }
    }
  }

  lemma SameVar(inits: seq<Init>, st: Ctx, l: nat, m: nat)
    requires l <= m && CgVar(inits, st, l) != Fail(TooDeep)
    ensures CgVar(inits, st, m) == CgVar(inits, st, l)
    decreases l, 7
  {
    SameInits(inits, |inits|, st, l, m);
  }

  lemma {:induction false} SameItems(ss: seq<Stmt>, n: nat, d0: Done, l: nat, m: nat)
    requires n <= |ss| && l <= m && CgItems(ss, n, d0, l) != Fail(TooDeep)
    ensures CgItems(ss, n, d0, m) == CgItems(ss, n, d0, l)
    decreases l, 8, ss, n
  {
    hide CgItem;
    if n > 0 {
      SameItems(ss, n - 1, d0, l, m);
      var d := CgItems(ss, n - 1, d0, l);
      if d.Ok? { SameItem(ss, n - 1, d.value, l, m); }
    }
  }

  lemma {:induction false} SameItem(ss: seq<Stmt>, i: nat, d: Done, l: nat, m: nat)
    requires i < |ss| && l <= m && CgItem(ss, i, d, l) != Fail(TooDeep)
    ensures CgItem(ss, i, d, m) == CgItem(ss, i, d, l)
    decreases l, 8, ss, 0
  {
    hide CgStmt;
    match ss[i]
    case Label(_) =>
    case Var(inits) => if !d.term { SameVar(inits, d.st, l, m); }
    case _ => if !d.term { SameStmt(ss[i], d.st, l, m); }
  }

  // More depth changes nothing.
  lemma DepthIrrelevant(body: Stmt, needsReturn: bool, l: nat, m: nat)
    requires l <= m && CgFunction(body, needsReturn, l) != Fail(TooDeep)
    ensures CgFunction(body, needsReturn, m) == CgFunction(body, needsReturn, l)
  {
    SameStmt(body, Start(), l, m);
    var d := CgStmt(body, Start(), l);
    if d.Ok? && !d.value.term && !needsReturn { SameJump(Target(RETURN, 0, 0), false, d.value.st, l, m); }
  }

  // ----- the nesting of a program is enough ---------------------------------

  function Max(a: nat, b: nat): nat { if a < b then b else a }

  // How deep cleanup bodies are nested in a statement.
  function Nesting(s: Stmt): nat {
    match s
    case Block(body) => NestingAll(body)
    case If(pre, _, _, thn, els) => Max(Nesting(thn), Nesting(els))
    case While(_, _, loop) => Nesting(loop)
    case Try(tried, handler) => Max(Nesting(tried), Nesting(handler))
    case Finally(b) => 1 + NestingAll(b)
    case OnError(b) => 1 + NestingAll(b)
    case _ => 0
  }

  function NestingAll(ss: seq<Stmt>): nat {
    if ss == [] then 0 else Max(NestingAll(ss[..|ss| - 1]), Nesting(ss[|ss| - 1]))
  }

  predicate Fits(e: Entry, lvl: nat) {
    match e
    case Value(_) => true
    case Final(b) => NestingAll(b) < lvl
    case Error(b) => NestingAll(b) < lvl
  }

  predicate FitAll(es: seq<Entry>, lvl: nat) {
    forall i :: 0 <= i < |es| ==> Fits(es[i], lvl)
  }

  // Everything that code emitted from here on can clean up fits: outside
  // cleanup bodies the whole stack, inside them what lies above base.
  ghost predicate Roomy(st: Ctx, lvl: nat, base: nat, cleanup: bool, inLoop: bool) {
    && Within(st) && Tame(st.stack)
    && base <= |st.stack| && FitAll(st.stack[base..], lvl)
    && (if cleanup then !st.check else base == 0)
    && (cleanup && inLoop ==>
          && st.breaks != [] && st.breaks[|st.breaks| - 1].marker >= base
          && st.continues != [] && st.continues[|st.continues| - 1].marker >= base)
  }

  lemma NestingOfItem(ss: seq<Stmt>, i: nat)
    requires i < |ss|
    ensures Nesting(ss[i]) <= NestingAll(ss)
  {
    if i < |ss| - 1 {
      NestingOfItem(ss[..|ss| - 1], i);
    }
  }

  lemma OwnFits(ss: seq<Stmt>, i: nat, lvl: nat)
    requires i <= |ss| && NestingAll(ss) <= lvl
    ensures FitAll(Own(ss, i), lvl)
  {
    if i > 0 {
      OwnFits(ss, i - 1, lvl);
      NestingOfItem(ss, i - 1);
    }
  }

  lemma FitValues(vs: seq<Slot>, lvl: nat)
    ensures FitAll(Values(vs), lvl) && Tame(Values(vs))
  {
  }

  lemma FitSuffix(es: seq<Entry>, base: nat, n: nat, lvl: nat)
    requires base <= n <= |es| && FitAll(es[base..], lvl)
    ensures FitAll(es[n..], lvl)
  {
    forall i | 0 <= i < |es| - n ensures Fits(es[n..][i], lvl) {
      assert es[n..][i] == es[base..][n - base + i];
    }
  }

  // Emitting code keeps the room there is.
  lemma RoomyNext(a: Ctx, b: Ctx, own: seq<Entry>, lvl: nat, base: nat, cleanup: bool, inLoop: bool, ls: set<string>)
    requires Roomy(a, lvl, base, cleanup, inLoop) && Frame(a, b, ls) && b.stack == a.stack + own && FitAll(own, lvl) && Tame(own)
    ensures Roomy(b, lvl, base, cleanup, inLoop)
  {
    hide Ext, LabelsKept, Within;
    TameConcat(a.stack, own);
    assert b.stack[base..] == a.stack[base..] + own;
  }

  lemma RoomySame(a: Ctx, b: Ctx, lvl: nat, base: nat, cleanup: bool, inLoop: bool, ls: set<string>)
    requires Roomy(a, lvl, base, cleanup, inLoop) && Frame(a, b, ls) && b.stack == a.stack
    ensures Roomy(b, lvl, base, cleanup, inLoop)
  {
    assert b.stack == a.stack + [];
    RoomyNext(a, b, [], lvl, base, cleanup, inLoop, ls);
  }

  lemma RoomyValues(a: Ctx, b: Ctx, vs: seq<Slot>, lvl: nat, base: nat, cleanup: bool, inLoop: bool)
    requires Roomy(a, lvl, base, cleanup, inLoop) && Frame(a, b, {}) && b.stack == a.stack + Values(vs)
    ensures Roomy(b, lvl, base, cleanup, inLoop)
  {
    FitValues(vs, lvl);
    RoomyNext(a, b, Values(vs), lvl, base, cleanup, inLoop, {});
  }

  lemma {:induction false} DeepDestroy(es: seq<Entry>, exn: bool, st: Ctx, lvl: nat)
    requires Within(st) && Tame(st.stack) && Tame(es) && FitAll(es, lvl)
    ensures Destroy(es, exn, st, lvl) != Fail(TooDeep)
    decreases lvl, 1, |es|
  {
    hide Within;
    if es != [] {
      var e := es[|es| - 1];
      assert Fits(e, lvl) && TameEntry(e);
      DeepEntry(e, exn, st, lvl);
      var r := DestroyEntry(e, exn, st, lvl);
      if r.Ok? {
        FrameEntry(e, exn, st, lvl);
        DeepDestroy(es[..|es| - 1], exn, r.value, lvl);
      }
    }
  }

  lemma {:induction false} DeepEntry(e: Entry, exn: bool, st: Ctx, lvl: nat)
    requires Within(st) && Tame(st.stack) && TameEntry(e) && Fits(e, lvl)
    ensures DestroyEntry(e, exn, st, lvl) != Fail(TooDeep)
    decreases lvl, 0, 1
  {
    hide Within;
    match e
    case Value(_) =>
    case Final(b) => DeepCleanup(b, st, lvl);
    case Error(b) => DeepCleanup(b, st, lvl);
  }

  lemma {:induction false} DeepCleanup(b: seq<Stmt>, st: Ctx, lvl: nat)
    requires Within(st) && Tame(st.stack) && WellFormedAll(b, |b|, true, false, {}) && NestingAll(b) < lvl
    ensures RunCleanup(b, st, lvl) != Fail(TooDeep)
    decreases lvl, 0, 0
  {
    CleanupHasNoLabels(b, |b|, false, {});
    assert b[..|b|] == b;
    DeepStmt(Block(b), st.(check := false), lvl - 1, |st.stack|, true, false, {});
  }

  lemma {:induction false} DeepDestroyPop(marker: nat, exn: bool, st: Ctx, lvl: nat)
    requires Within(st) && Tame(st.stack) && marker <= |st.stack| && FitAll(st.stack[marker..], lvl)
    ensures DestroyPop(marker, exn, st, lvl) != Fail(TooDeep)
    decreases lvl, 1, |st.stack|
  {
    if |st.stack| != marker {
      var n := |st.stack| - 1;
      var e := st.stack[n];
      assert st.stack[marker..][n - marker] == e;
      assert st.stack[..n][marker..] == st.stack[marker..][..n - marker];
      DeepEntry(e, exn, PopTo(st, n), lvl);
      var r := DestroyEntry(e, exn, PopTo(st, n), lvl);
      if r.Ok? {
        FrameEntry(e, exn, PopTo(st, n), lvl);
        DeepDestroyPop(marker, exn, r.value, lvl);
      }
    }
  }

  // Popping temporaries.
  lemma {:induction false} DeepDrop(a: Ctx, st: Ctx, vs: seq<Slot>, lvl: nat)
    requires Within(st) && Tame(st.stack) && st.stack == a.stack + Values(vs)
    ensures DestroyPop(|a.stack|, false, st, lvl) != Fail(TooDeep)
    decreases lvl, 2
  {
    FitValues(vs, lvl);
    assert st.stack[|a.stack|..] == Values(vs);
    DeepDestroyPop(|a.stack|, false, st, lvl);
  }

  lemma {:induction false} DeepJump(jt: Target, exn: bool, st: Ctx, lvl: nat, base: nat, cleanup: bool, inLoop: bool)
    requires Roomy(st, lvl, base, cleanup, inLoop) && jt.marker >= base
    ensures Jump(jt, exn, st, lvl) != Fail(TooDeep)
    decreases lvl, 2
  {
    if jt.marker <= |st.stack| {
      FitSuffix(st.stack, base, jt.marker, lvl);
      DeepDestroy(st.stack[jt.marker..], exn, st, lvl);
    }
  }

  lemma {:induction false} DeepCall(f: Fn, args: seq<Slot>, out: Slot, st: Ctx, lvl: nat, base: nat, cleanup: bool, inLoop: bool)
    requires Roomy(st, lvl, base, cleanup, inLoop)
    ensures CgCall(f, args, out, st, lvl) != Fail(TooDeep)
    decreases lvl, 3
  {
    if st.check && st.excs != [] {
      CallIs(f, args, out, st, lvl);
      hide Ext, LabelsKept, NewBlocks, Fork, FitAll, Tame, CgCall, Jump, SameTargets;
      var x := Emit(st, ICall(f, args, out));
      var br := IExcBr(st.next + 1, st.next);
      Self(st, {});
      EmitFrame(st, st, ICall(f, args, out), {});
      ForkFrame(st, x, 2, br, {});
      var y := Fork(x, 2, br);
      RoomySame(st, y, lvl, base, cleanup, inLoop, {});
      DeepJump(y.excs[|y.excs| - 1], true, y, lvl, base, cleanup, inLoop);
    }
  }

  lemma {:induction false} DeepInto(e: Expr, out: Slot, st: Ctx, lvl: nat, base: nat, cleanup: bool, inLoop: bool)
    requires Roomy(st, lvl, base, cleanup, inLoop)
    ensures CgInto(e, out, st, lvl) != Fail(TooDeep)
    decreases lvl, 4, e, 1
  {
    hide Within, Tame, FitAll, SameTargets;
    match e
    case Lit(_, _) =>
    case Call(f, args, _, _) =>
      DeepArgs(args, |args|, st, lvl, base, cleanup, inLoop);
      var r := CgArgs(args, |args|, st, lvl);
      if r.Ok? {
        FrameArgs(args, |args|, st, lvl);
        RoomyValues(st, r.value, TempsArgs(args, |args|), lvl, base, cleanup, inLoop);
        DeepCall(f, Homes(args), out, r.value, lvl, base, cleanup, inLoop);
      }
    case And(_, _, _) => DeepAndOr(e, out, st, lvl, base, cleanup, inLoop);
    case Or(_, _, _) => DeepAndOr(e, out, st, lvl, base, cleanup, inLoop);
  }

  lemma {:induction false} DeepAndOr(e: Expr, out: Slot, st: Ctx, lvl: nat, base: nat, cleanup: bool, inLoop: bool)
    requires (e.And? || e.Or?) && Roomy(st, lvl, base, cleanup, inLoop)
    ensures CgAndOr(e, out, st, lvl) != Fail(TooDeep)
    decreases lvl, 4, e, 0
  {
    hide Within, Tame, FitAll, SameTargets, Ext, LabelsKept, NewBlocks, CgRef, CgArm;
    DeepRef(e.l, st, lvl, base, cleanup, inLoop);
    var r := CgRef(e.l, st, lvl);
    if r.Ok? {
      var st1 := r.value;
      var br := if e.Or? then ICondBr(Home(e.l), st1.next + 1, st1.next) else ICondBr(Home(e.l), st1.next, st1.next + 1);
      FrameRef(e.l, st, lvl);
      ForkFrame(st, st1, 3, br, {});
      ForkIs(st1, 3, br);
      RoomyValues(st, Fork(st1, 3, br), TempsRef(e.l), lvl, base, cleanup, inLoop);
      DeepArm(e.r, out, st1.next + 2, Fork(st1, 3, br), lvl, base, cleanup, inLoop);
    }
  }

  lemma {:induction false} DeepArm(e: Expr, out: Slot, merge: nat, st: Ctx, lvl: nat, base: nat, cleanup: bool, inLoop: bool)
    requires Roomy(st, lvl, base, cleanup, inLoop)
    ensures CgArm(e, out, merge, st, lvl) != Fail(TooDeep)
    decreases lvl, 4, e, 3
  {
    hide FitAll, SameTargets, Ext, LabelsKept, CgRef, Tame;
    DeepRef(e, st, lvl, base, cleanup, inLoop);
    var r := CgRef(e, st, lvl);
    if r.Ok? {
      FrameRef(e, st, lvl);
      EmitFrame(st, r.value, ICopy(out, Home(e)), {});
      DeepDrop(st, Emit(r.value, ICopy(out, Home(e))), TempsRef(e), lvl);
    }
  }

  lemma {:induction false} DeepRef(e: Expr, st: Ctx, lvl: nat, base: nat, cleanup: bool, inLoop: bool)
    requires Roomy(st, lvl, base, cleanup, inLoop)
    ensures CgRef(e, st, lvl) != Fail(TooDeep)
    decreases lvl, 4, e, 2
  {
    DeepInto(e, Home(e), st, lvl, base, cleanup, inLoop);
  }

  lemma {:induction false} DeepArgs(args: seq<Expr>, n: nat, st: Ctx, lvl: nat, base: nat, cleanup: bool, inLoop: bool)
    requires n <= |args| && Roomy(st, lvl, base, cleanup, inLoop)
    ensures CgArgs(args, n, st, lvl) != Fail(TooDeep)
    decreases lvl, 4, args, n
  {
    hide Within, Tame, FitAll, SameTargets, Ext, LabelsKept;
    if n > 0 {
      DeepArgs(args, n - 1, st, lvl, base, cleanup, inLoop);
      var r := CgArgs(args, n - 1, st, lvl);
      if r.Ok? {
        FrameArgs(args, n - 1, st, lvl);
        RoomyValues(st, r.value, TempsArgs(args, n - 1), lvl, base, cleanup, inLoop);
        DeepRef(args[n - 1], r.value, lvl, base, cleanup, inLoop);
      }
    }
  }

  lemma {:induction false} DeepWhole(e: Expr, st: Ctx, lvl: nat, base: nat, cleanup: bool, inLoop: bool)
    requires Roomy(st, lvl, base, cleanup, inLoop)
    ensures CgWhole(e, st, lvl) != Fail(TooDeep)
    decreases lvl, 5
  {
    DeepRef(e, st, lvl, base, cleanup, inLoop);
    var r := CgRef(e, st, lvl);
    if r.Ok? {
      FrameRef(e, st, lvl);
      DeepDrop(st, r.value, TempsRef(e), lvl);
    }
  }

  lemma {:induction false} DeepInits(inits: seq<Init>, n: nat, st: Ctx, lvl: nat, base: nat, cleanup: bool, inLoop: bool)
    requires n <= |inits| && Roomy(st, lvl, base, cleanup, inLoop)
    ensures CgInits(inits, n, st, lvl) != Fail(TooDeep)
    decreases lvl, 6, n
  {
    hide Within, Tame, FitAll, SameTargets, Ext, LabelsKept, CgOneInto;
    if n > 0 {
      DeepInits(inits, n - 1, st, lvl, base, cleanup, inLoop);
      var r := CgInits(inits, n - 1, st, lvl);
      if r.Ok? {
        FrameInits(inits, n - 1, st, lvl);
        RoomyValues(st, r.value, Slots(inits[..n - 1]), lvl, base, cleanup, inLoop);
        DeepOneInto(inits[n - 1].e, inits[n - 1].out, r.value, lvl, base, cleanup, inLoop);
      }
    }
  }

  lemma {:induction false} DeepOneInto(e: Expr, out: Slot, st: Ctx, lvl: nat, base: nat, cleanup: bool, inLoop: bool)
    requires Roomy(st, lvl, base, cleanup, inLoop)
    ensures CgOneInto(e, out, st, lvl) != Fail(TooDeep)
    decreases lvl, 5
  {
    DeepInto(e, out, st, lvl, base, cleanup, inLoop);
    var r := CgInto(e, out, st, lvl);
    if r.Ok? {
      FrameInto(e, out, st, lvl);
      FitValues(TempsInto(e), lvl);
      TameConcat(st.stack, Values(TempsInto(e)));
      DeepDrop(st, r.value, TempsInto(e), lvl);
    }
  }

  lemma {:induction false} DeepStmt(s: Stmt, st: Ctx, lvl: nat, base: nat, cleanup: bool, inLoop: bool, scope: set<string>)
    requires Roomy(st, lvl, base, cleanup, inLoop) && WellFormed(s, cleanup, inLoop, scope) && (cleanup ==> scope == {})
    requires st.labels.Keys !! LabelsOf(s) && Nesting(s) <= lvl
    ensures CgStmt(s, st, lvl) != Fail(TooDeep)
    decreases lvl, 8, s, 2
  {
    hide FitAll, SameTargets, Ext, LabelsKept;
    match s
    case Block(body) => DeepBlock(body, st, lvl, base, cleanup, inLoop, scope);
    case Goto(l) => if l in st.labels { DeepJump(st.labels[l], false, st, lvl, base, cleanup, inLoop); }
    case Eval(e) => DeepWhole(e, st, lvl, base, cleanup, inLoop);
    case Return(inits) => DeepReturn(inits, st, lvl, base, inLoop);
    case Throw(args) => DeepThrow(args, st, lvl, base, cleanup, inLoop);
    case If(_, _, _, _, _) => DeepIf(s, st, lvl, base, cleanup, inLoop, scope);
    case While(_, _, _) => DeepWhile(s, st, lvl, base, cleanup, inLoop, scope);
    case Break => if st.breaks != [] { DeepJump(st.breaks[|st.breaks| - 1], false, st, lvl, base, cleanup, inLoop); }
    case Continue => if st.continues != [] { DeepJump(st.continues[|st.continues| - 1], false, st, lvl, base, cleanup, inLoop); }
    case Try(_, _) => DeepTry(s, st, lvl, base, cleanup, inLoop, scope);
    case _ =>
  }

  lemma {:induction false} DeepReturn(inits: seq<Init>, st: Ctx, lvl: nat, base: nat, inLoop: bool)
    requires Roomy(st, lvl, base, false, inLoop)
    ensures CgStmt(Return(inits), st, lvl) != Fail(TooDeep)
    decreases lvl, 8, Return(inits), 1
  {
    hide FitAll, SameTargets, Ext, LabelsKept, Within, Tame;
    DeepInits(inits, |inits|, st, lvl, base, false, inLoop);
    var r := CgMultiInto(inits, st, lvl);
    if r.Ok? && r.value.rets != [] {
      FrameInits(inits, |inits|, st, lvl);
      MultiSame(inits, st, lvl);
      RoomySame(st, r.value, lvl, base, false, inLoop, {});
      DeepJump(r.value.rets[|r.value.rets| - 1], false, r.value, lvl, base, false, inLoop);
    }
  }

  lemma MultiSame(inits: seq<Init>, st: Ctx, lvl: nat)
    requires CgMultiInto(inits, st, lvl).Ok? && Frame(st, CgInits(inits, |inits|, st, lvl).value, {})
    ensures Frame(st, CgMultiInto(inits, st, lvl).value, {}) && CgMultiInto(inits, st, lvl).value.stack == st.stack
  {
  }

  lemma {:induction false} DeepThrow(args: seq<Expr>, st: Ctx, lvl: nat, base: nat, cleanup: bool, inLoop: bool)
    requires Roomy(st, lvl, base, cleanup, inLoop)
    ensures CgStmt(Throw(args), st, lvl) != Fail(TooDeep)
    decreases lvl, 8, Throw(args), 1
  {
    hide FitAll, SameTargets, Ext, LabelsKept, Tame, CgCall;
    DeepArgs(args, |args|, st, lvl, base, cleanup, inLoop);
    var r := CgArgs(args, |args|, st, lvl);
    if r.Ok? {
      var out := Slot(Temp, 0, true);
      FrameArgs(args, |args|, st, lvl);
      RoomyValues(st, r.value, TempsArgs(args, |args|), lvl, base, cleanup, inLoop);
      DeepCall(ThrowValue, Homes(args), out, r.value, lvl, base, cleanup, inLoop);
      var r2 := CgCall(ThrowValue, Homes(args), out, r.value, lvl);
      if r2.Ok? {
        FrameCall(ThrowValue, Homes(args), out, r.value, lvl);
        DeepDrop(st, r2.value, TempsArgs(args, |args|), lvl);
      }
    }
  }

  lemma {:induction false} DeepIf(s: Stmt, st: Ctx, lvl: nat, base: nat, cleanup: bool, inLoop: bool, scope: set<string>)
    requires s.If? && Roomy(st, lvl, base, cleanup, inLoop) && WellFormed(s, cleanup, inLoop, scope) && (cleanup ==> scope == {})
    requires st.labels.Keys !! LabelsOf(s) && Nesting(s) <= lvl
    ensures CgIf(s, st, lvl) != Fail(TooDeep)
    decreases lvl, 8, s, 1
  {
    hide FitAll, SameTargets, Ext, LabelsKept, Tame, Within, CgPre, CgWhole, CgArms, Roomy;
    var ls := LabelsOf(s);
    DeepHead(s, s.pre, s.cond, st, lvl, base, cleanup, inLoop);
    var p := CgPre(s.pre, |s.pre|, st, lvl);
    if p.Ok? && CgWhole(s.cond, p.value, lvl).Ok? {
      var st1 := CgWhole(s.cond, p.value, lvl).value;
      FewLabels(st, st1, {});
      DeepArms(s, st1, lvl, base, cleanup, inLoop, scope);
      if CgArms(s, st1, lvl).Ok? {
        var d := CgArms(s, st1, lvl).value;
        assert Within(st1) && Tame(st1.stack) by { RoomyIs(st1, lvl, base, cleanup, inLoop); }
        FrameArms(s, st1, lvl, cleanup, inLoop, scope);
        DeepEndScope(|st.stack|, d.term, d.st, Own(s.pre, |s.pre|), lvl) by { Prefix(st.stack, Own(s.pre, |s.pre|)); }
      }
    }
  }

  lemma RoomyIs(st: Ctx, lvl: nat, base: nat, cleanup: bool, inLoop: bool)
    requires Roomy(st, lvl, base, cleanup, inLoop)
    ensures Within(st) && Tame(st.stack)
  {
  }

  lemma Prefix(a: seq<Entry>, b: seq<Entry>)
    ensures (a + b)[|a|..] == b
  {
  }

  // The bindings of a condition, and the condition.
  lemma {:induction false} DeepHead(s: Stmt, pre: seq<Stmt>, cond: Expr, st: Ctx, lvl: nat, base: nat, cleanup: bool, inLoop: bool)
    requires Roomy(st, lvl, base, cleanup, inLoop) && Simple(pre)
    ensures CgPre(pre, |pre|, st, lvl) != Fail(TooDeep)
    ensures FitAll(Own(pre, |pre|), lvl) && Tame(Own(pre, |pre|))
    ensures var p := CgPre(pre, |pre|, st, lvl);
            p.Ok? ==> && CgWhole(cond, p.value, lvl) != Fail(TooDeep)
                      && (CgWhole(cond, p.value, lvl).Ok? ==>
                            var x := CgWhole(cond, p.value, lvl).value;
                            Frame(st, x, {}) && x.stack == st.stack + Own(pre, |pre|) && Roomy(x, lvl, base, cleanup, inLoop))
    decreases lvl, 7, 2
  {
    hide FitAll, SameTargets, Ext, LabelsKept, Tame, Within, CgPre, CgWhole;
    DeepPre(pre, |pre|, st, lvl, base, cleanup, inLoop);
    OwnPlain(pre, |pre|, lvl);
    var p := CgPre(pre, |pre|, st, lvl);
    if p.Ok? {
      FramePre(pre, |pre|, st, lvl);
      RoomyNext(st, p.value, Own(pre, |pre|), lvl, base, cleanup, inLoop, {});
      DeepWhole(cond, p.value, lvl, base, cleanup, inLoop);
      if CgWhole(cond, p.value, lvl).Ok? {
        FrameWhole(cond, p.value, lvl);
        Then(st, p.value, CgWhole(cond, p.value, lvl).value, {}, {});
        RoomyNext(st, CgWhole(cond, p.value, lvl).value, Own(pre, |pre|), lvl, base, cleanup, inLoop, {});
      }
    }
  }

  lemma OwnPlain(pre: seq<Stmt>, n: nat, lvl: nat)
    requires n <= |pre| && Simple(pre)
    ensures FitAll(Own(pre, n), lvl) && Tame(Own(pre, n))
  {
    if n > 0 { OwnPlain(pre, n - 1, lvl); }
  }

  lemma {:induction false} DeepPre(pre: seq<Stmt>, n: nat, st: Ctx, lvl: nat, base: nat, cleanup: bool, inLoop: bool)
    requires n <= |pre| && Simple(pre) && Roomy(st, lvl, base, cleanup, inLoop)
    ensures CgPre(pre, n, st, lvl) != Fail(TooDeep)
    decreases lvl, 7, 1, n
  {
    hide FitAll, SameTargets, Ext, LabelsKept, Tame, Within, CgVar, CgWhole;
    if n > 0 {
      DeepPre(pre, n - 1, st, lvl, base, cleanup, inLoop);
      var r := CgPre(pre, n - 1, st, lvl);
      if r.Ok? {
        FramePre(pre, n - 1, st, lvl);
        OwnPlain(pre, n - 1, lvl);
        RoomyNext(st, r.value, Own(pre, n - 1), lvl, base, cleanup, inLoop, {});
        match pre[n - 1]
        case Var(inits) => DeepVar(inits, r.value, lvl, base, cleanup, inLoop);
        case Eval(e) => DeepWhole(e, r.value, lvl, base, cleanup, inLoop);
      }
    }
  }

  lemma {:induction false} DeepVar(inits: seq<Init>, st: Ctx, lvl: nat, base: nat, cleanup: bool, inLoop: bool)
    requires Roomy(st, lvl, base, cleanup, inLoop)
    ensures CgVar(inits, st, lvl) != Fail(TooDeep)
    decreases lvl, 7, 0
  {
    DeepInits(inits, |inits|, st, lvl, base, cleanup, inLoop);
  }

  lemma {:induction false} DeepEndScope(marker: nat, term: bool, st: Ctx, own: seq<Entry>, lvl: nat)
    requires Within(st) && Tame(st.stack) && marker <= |st.stack| && st.stack[marker..] == own && FitAll(own, lvl) && Tame(own)
    ensures EndScope(marker, term, st, lvl) != Fail(TooDeep)
    decreases lvl, 2
  {
    DeepDestroy(own, false, st, lvl);
  }

  lemma {:induction false} DeepArms(s: Stmt, st: Ctx, lvl: nat, base: nat, cleanup: bool, inLoop: bool, scope: set<string>)
    requires s.If? && Roomy(st, lvl, base, cleanup, inLoop) && WellFormed(s, cleanup, inLoop, scope) && (cleanup ==> scope == {})
    requires st.labels.Keys !! LabelsOf(s) && Nesting(s) <= lvl
    ensures CgArms(s, st, lvl) != Fail(TooDeep)
    decreases lvl, 8, s, 0
  {
    hide FitAll, SameTargets, Ext, LabelsKept, Tame, Within, CgArms, CgStmt, NewBlocks, Fork, Merge, Roomy, BranchToEnd, CodeFrame;
    Self(st, {}) by { RoomyIs(st, lvl, base, cleanup, inLoop); }
    if s.kind.Dynamic? {
      var br := ICondBr(Home(s.cond), st.next, st.next + 1);
      ForkFrame(st, st, 2, br, {});
      TwoArms(s, st, lvl);
      var x := Fork(st, 2, br);
      RoomySame(st, x, lvl, base, cleanup, inLoop, {});
      DeepStmt(s.thn, x, lvl, base, cleanup, inLoop, scope);
      if CgStmt(s.thn, x, lvl).Ok? {
        var d1 := CgStmt(s.thn, x, lvl).value;
        FrameStmt(s.thn, x, lvl, cleanup, inLoop, scope);
        NoBinding(s.thn, x, lvl);
        BranchFrame(x, d1, None, LabelsOf(s.thn));
        CurBack(st, x, BranchToEnd(d1, None), st.next + 1, LabelsOf(s.thn));
        var y := BranchToEnd(d1, None).(cur := st.next + 1);
        RoomySame(st, y, lvl, base, cleanup, inLoop, LabelsOf(s.thn));
        FewLabels(st, y, LabelsOf(s.thn));
        DeepStmt(s.els, y, lvl, base, cleanup, inLoop, scope);
      }
    } else {
      var b := if s.kind.StaticTrue? then s.thn else s.els;
      ForkFrame(st, st, 1, IBr(st.next), {});
      OneArm(s, st, lvl);
      var x := Fork(st, 1, IBr(st.next));
      RoomySame(st, x, lvl, base, cleanup, inLoop, {});
      DeepStmt(b, x, lvl, base, cleanup, inLoop, scope);
    }
  }

  lemma CurBack(st: Ctx, x: Ctx, y: Ctx, b: nat, ls: set<string>)
    requires Frame(st, x, {}) && Frame(x, y, ls) && st.next <= b < x.next
    ensures Frame(st, y.(cur := b), ls)
  {
    hide Ext, LabelsKept, Within;
    Weak(st, x, ls);
    Then(st, x, y, ls, ls);
    CurFrame(st, y, b, ls);
  }

  lemma Weak(a: Ctx, b: Ctx, ls: set<string>)
    requires Frame(a, b, {})
    ensures Frame(a, b, ls)
  {
  }

  lemma {:induction false} DeepWhile(s: Stmt, st: Ctx, lvl: nat, base: nat, cleanup: bool, inLoop: bool, scope: set<string>)
    requires s.While? && Roomy(st, lvl, base, cleanup, inLoop) && WellFormed(s, cleanup, inLoop, scope) && (cleanup ==> scope == {})
    requires st.labels.Keys !! LabelsOf(s) && Nesting(s) <= lvl
    ensures CgWhile(s, st, lvl) != Fail(TooDeep)
    decreases lvl, 8, s, 1
  {
    hide FitAll, SameTargets, Ext, LabelsKept, Tame, Within, CgTest, LoopBody, LoopEnd, NewBlocks, Enter, Roomy, Fork, Own, Frame;
    var begin, body, cont, end := st.next, st.next + 1, st.next + 2, st.next + 3;
    RoomyIs(st, lvl, base, cleanup, inLoop);
    Self(st, {});
    ForkFrame(st, st, 4, IBr(begin), {});
    ForkIs(st, 4, IBr(begin));
    var st0 := Fork(st, 4, IBr(begin));
    RoomySame(st, st0, lvl, base, cleanup, inLoop, {});
    DeepTest(s, body, end, st, st0, lvl, base, cleanup, inLoop);
    if CgTest(s, body, end, st0, lvl).Ok? {
      var st1 := CgTest(s, body, end, st0, lvl).value;
      var st2 := Enter(body, cont, end, st1);
      RoomyEnter(st, st1, st2, body, cont, end, lvl, base, cleanup, inLoop);
      assert st1.labels.Keys <= st.labels.Keys + {} by { WhileLabels(st, st1); }
      RoomyBase(st, lvl, base, cleanup, inLoop);
      DeepBody(s, |st.stack|, cont, st2, lvl, base, cleanup, scope);
      if LoopBody(s, |st.stack|, cont, st2, lvl).Ok? {
        var st3 := LoopBody(s, |st.stack|, cont, st2, lvl).value;
        DeepLoopEnd(s, st, st3, begin, end, Own(s.pre, |s.pre|), lvl);
      }
    }
  }

  lemma {:induction false} DeepTest(s: Stmt, body: nat, end: nat, a: Ctx, st: Ctx, lvl: nat, base: nat, cleanup: bool, inLoop: bool)
    requires s.While? && Frame(a, st, {}) && Roomy(st, lvl, base, cleanup, inLoop) && Simple(s.pre)
    ensures CgTest(s, body, end, st, lvl) != Fail(TooDeep)
    ensures FitAll(Own(s.pre, |s.pre|), lvl) && Tame(Own(s.pre, |s.pre|))
    ensures CgTest(s, body, end, st, lvl).Ok? ==>
              var x := CgTest(s, body, end, st, lvl).value;
              Frame(a, x, {}) && st.next <= x.next && x.stack == st.stack + Own(s.pre, |s.pre|) && Roomy(x, lvl, base, cleanup, inLoop)
    decreases lvl, 8, s, 0
  {
    hide FitAll, SameTargets, Ext, LabelsKept, Tame, Within, CgPre, CgWhole;
    DeepHead(s, s.pre, s.cond, st, lvl, base, cleanup, inLoop);
    if CgTest(s, body, end, st, lvl).Ok? {
      var st1 := CgWhole(s.cond, CgPre(s.pre, |s.pre|, st, lvl).value, lvl).value;
      EmitFrame(st, st1, ICondBr(Home(s.cond), body, end), {});
      var x := Emit(st1, ICondBr(Home(s.cond), body, end));
      RoomyNext(st, x, Own(s.pre, |s.pre|), lvl, base, cleanup, inLoop, {});
      Then(a, st, x, {}, {});
    }
  }

  lemma WhileLabels(st: Ctx, x: Ctx)
    requires Frame(st, x, {})
    ensures x.labels.Keys <= st.labels.Keys + {}
  {
    FewLabels(st, x, {});
  }

  lemma RoomyBase(st: Ctx, lvl: nat, base: nat, cleanup: bool, inLoop: bool)
    requires Roomy(st, lvl, base, cleanup, inLoop)
    ensures base <= |st.stack|
  {
  }

  lemma RoomyEnter(st: Ctx, st1: Ctx, st2: Ctx, body: nat, cont: nat, end: nat, lvl: nat, base: nat, cleanup: bool, inLoop: bool)
    requires Roomy(st1, lvl, base, cleanup, inLoop) && st2 == Enter(body, cont, end, st1) && body < st1.next
    ensures Roomy(st2, lvl, base, cleanup, true) && st2.stack == st1.stack && st2.labels == st1.labels && st2.next == st1.next
  {
  }

  lemma {:induction false} DeepBody(s: Stmt, marker: nat, cont: nat, st: Ctx, lvl: nat, base: nat, cleanup: bool, scope: set<string>)
    requires s.While? && marker <= |st.stack| && Roomy(st, lvl, base, cleanup, true) && !Bare(s.loop) && WellFormed(s.loop, cleanup, true, scope)
    requires (cleanup ==> scope == {}) && st.labels.Keys !! LabelsOf(s.loop) && Nesting(s.loop) <= lvl && base <= marker && cont < st.next
    ensures LoopBody(s, marker, cont, st, lvl) != Fail(TooDeep)
    ensures LoopBody(s, marker, cont, st, lvl).Ok? ==>
              var x := LoopBody(s, marker, cont, st, lvl).value;
              Within(x) && x.stack == st.stack && st.next <= x.next
    decreases lvl, 8, s, 0
  {
    hide FitAll, SameTargets, LabelsKept, Tame, CgStmt;
    DeepStmt(s.loop, st, lvl, base, cleanup, true, scope);
    if CgStmt(s.loop, st, lvl).Ok? {
      var d := CgStmt(s.loop, st, lvl).value;
      FrameStmt(s.loop, st, lvl, cleanup, true, scope);
      NoBinding(s.loop, st, lvl);
      EmitFrame(st, d.st, IBr(cont), LabelsOf(s.loop));
      var x := (if d.term then d.st else Emit(d.st, IBr(cont))).(cur := cont);
      assert st.stack + [] == st.stack && x.stack == st.stack;
      assert Within(x);
      FitSuffix(st.stack, base, marker, lvl);
      SuffixTame(st.stack, marker);
      DeepDestroy(x.stack[marker..], false, x, lvl);
      if LoopBody(s, marker, cont, st, lvl).Ok? { FrameDestroy(x.stack[marker..], false, x, lvl); }
    }
  }

  // A binding is compiled as an item of a block, not as a statement.
  lemma NoBinding(s: Stmt, st: Ctx, lvl: nat)
    requires CgStmt(s, st, lvl).Ok? && !Bare(s)
    ensures Pushes(s) == []
  {
  }

  lemma SuffixTame(es: seq<Entry>, n: nat)
    requires Tame(es) && n <= |es|
    ensures Tame(es[n..])
  {
  }

  lemma {:induction false} DeepLoopEnd(s: Stmt, a: Ctx, st: Ctx, begin: nat, end: nat, own: seq<Entry>, lvl: nat)
    requires s.While? && Within(st) && Tame(st.stack) && st.stack == a.stack + own && FitAll(own, lvl) && Tame(own) && end < st.next
    ensures LoopEnd(s, |a.stack|, begin, end, st, lvl) != Fail(TooDeep)
    decreases lvl, 3
  {
    hide FitAll, Tame;
    Self(st, {});
    EmitFrame(st, st, IBr(begin), {});
    var st1 := Emit(st, IBr(begin));
    var st2 := st1.(breaks := Pop(st1.breaks), continues := Pop(st1.continues), cur := end);
    Prefix(a.stack, own);
    DeepEndScope(|a.stack|, false, st2, own, lvl);
  }

  lemma {:induction false} DeepTry(s: Stmt, st: Ctx, lvl: nat, base: nat, cleanup: bool, inLoop: bool, scope: set<string>)
    requires s.Try? && Roomy(st, lvl, base, cleanup, inLoop) && WellFormed(s, cleanup, inLoop, scope) && (cleanup ==> scope == {})
    requires st.labels.Keys !! LabelsOf(s) && Nesting(s) <= lvl
    ensures CgStmt(s, st, lvl) != Fail(TooDeep)
    decreases lvl, 8, s, 1
  {
    hide FitAll, Ext, Tame, Within, BranchToEnd;
    var jt := Target(st.next, |st.stack|, 0);
    RoomyIs(st, lvl, base, cleanup, inLoop);
    Self(st, {});
    NewFrame(st, st, {});
    var x := NewBlock(st).(excs := st.excs + [jt]);
    RoomyTry(st, x, lvl, base, cleanup, inLoop);
    DeepStmt(s.tried, x, lvl, base, cleanup, inLoop, scope);
    if CgStmt(s.tried, x, lvl).Ok? {
      var d1 := CgStmt(s.tried, x, lvl).value;
      FrameStmt(s.tried, x, lvl, cleanup, inLoop, scope);
      BranchFrame(x, d1, None, LabelsOf(s.tried));
      FewLabels(x, BranchToEnd(d1, None), LabelsOf(s.tried));
      var e := BranchToEnd(d1, None);
      var y := e.(excs := Pop(e.excs), cur := st.next);
      RoomyHandler(st, x, e, y, LabelsOf(s.tried), lvl, base, cleanup, inLoop);
      DeepStmt(s.handler, y, lvl, base, cleanup, inLoop, scope);
    }
  }

  lemma RoomyTry(st: Ctx, x: Ctx, lvl: nat, base: nat, cleanup: bool, inLoop: bool)
    requires Roomy(st, lvl, base, cleanup, inLoop) && x == NewBlock(st).(excs := x.excs)
    ensures Roomy(x, lvl, base, cleanup, inLoop) && Within(x) && Tame(x.stack)
  {
  }

  lemma RoomyHandler(st: Ctx, x: Ctx, e: Ctx, y: Ctx, ls: set<string>, lvl: nat, base: nat, cleanup: bool, inLoop: bool)
    requires Roomy(st, lvl, base, cleanup, inLoop) && x == NewBlock(st).(excs := x.excs) && Frame(x, e, ls) && e.stack == st.stack
    requires y == e.(excs := y.excs, cur := st.next)
    ensures Roomy(y, lvl, base, cleanup, inLoop)
  {
    hide LabelsKept, Ext;
  }

  lemma {:induction false} DeepBlock(ss: seq<Stmt>, st: Ctx, lvl: nat, base: nat, cleanup: bool, inLoop: bool, scope: set<string>)
    requires Roomy(st, lvl, base, cleanup, inLoop) && WellFormedAll(ss, |ss|, cleanup, inLoop, scope) && (cleanup ==> scope == {})
    requires st.labels.Keys !! LabelsOfAll(ss) && NestingAll(ss) <= lvl
    ensures CgStmt(Block(ss), st, lvl) != Fail(TooDeep)
    decreases lvl, 8, ss, |ss| + 1
  {
    hide FitAll, Ext, Tame, Within, SameTargets, LabelsKept, CgItems, CollectLabels;
    CollectFails(ss, 0, st);
    var r := CollectLabels(ss, 0, st);
    if r.Ok? {
      DeepItems(ss, |ss|, st, lvl, base, cleanup, inLoop, scope);
      var d := CgItems(ss, |ss|, Done(r.value, false), lvl);
      if d.Ok? {
        RoomyIs(st, lvl, base, cleanup, inLoop);
        FrameItems(ss, |ss|, st, lvl, cleanup, inLoop, scope);
        DeepClose(ss, st, d.value, lvl, cleanup, inLoop, scope);
      }
    }
  }

  lemma {:induction false} DeepClose(ss: seq<Stmt>, a: Ctx, d: Done, lvl: nat, cleanup: bool, inLoop: bool, scope: set<string>)
    requires ItemsInv(ss, |ss|, a, d) && Tame(a.stack) && WellFormedAll(ss, |ss|, cleanup, inLoop, scope) && NestingAll(ss) <= lvl
    requires |a.stack| <= |d.st.stack|
    ensures EndScope(|a.stack|, d.term, d.st, lvl) != Fail(TooDeep)
    decreases lvl, 3
  {
    if !d.term {
      OwnTame(ss, |ss|, cleanup, inLoop, scope);
      OwnFits(ss, |ss|, lvl);
      TameConcat(a.stack, Own(ss, |ss|));
      Prefix(a.stack, Own(ss, |ss|));
      DeepEndScope(|a.stack|, d.term, d.st, Own(ss, |ss|), lvl);
    }
  }

  lemma {:induction false} CollectFails(ss: seq<Stmt>, i: nat, st: Ctx)
    requires i <= |ss|
    ensures CollectLabels(ss, i, st) != Fail(TooDeep)
    decreases |ss| - i
  {
    if i < |ss| && !ss[i].Var? && (ss[i].Label? ==> ss[i].l !in st.labels) { CollectFails(ss, i + 1, CollectOne(ss, i, st)); }
  }

  lemma {:induction false} DeepItems(ss: seq<Stmt>, n: nat, a: Ctx, lvl: nat, base: nat, cleanup: bool, inLoop: bool, scope: set<string>)
    requires n <= |ss| && Roomy(a, lvl, base, cleanup, inLoop) && WellFormedAll(ss, |ss|, cleanup, inLoop, scope) && (cleanup ==> scope == {})
    requires a.labels.Keys !! LabelsOfAll(ss) && NestingAll(ss) <= lvl && CollectLabels(ss, 0, a).Ok?
    ensures CgItems(ss, n, Done(CollectLabels(ss, 0, a).value, false), lvl) != Fail(TooDeep)
    decreases lvl, 8, ss, n
  {
    hide FitAll, Ext, Tame, Within, SameTargets, LabelsKept, CgItem, CollectLabels, ItemsInv;
    if n > 0 {
      var d0 := Done(CollectLabels(ss, 0, a).value, false);
      DeepItems(ss, n - 1, a, lvl, base, cleanup, inLoop, scope);
      var d := CgItems(ss, n - 1, d0, lvl);
      if d.Ok? {
        RoomyIs(a, lvl, base, cleanup, inLoop);
        FrameItems(ss, n - 1, a, lvl, cleanup, inLoop, scope);
        DeepItem(ss, n - 1, a, d.value, lvl, base, cleanup, inLoop, scope);
      }
    }
  }

  lemma {:induction false} DeepItem(ss: seq<Stmt>, i: nat, a: Ctx, d: Done, lvl: nat, base: nat, cleanup: bool, inLoop: bool, scope: set<string>)
    requires i < |ss| && Roomy(a, lvl, base, cleanup, inLoop) && WellFormedAll(ss, |ss|, cleanup, inLoop, scope) && (cleanup ==> scope == {})
    requires ItemsInv(ss, i, a, d) && NestingAll(ss) <= lvl
    ensures CgItem(ss, i, d, lvl) != Fail(TooDeep)
    decreases lvl, 8, ss, 0
  {
    hide FitAll, Ext, Tame, Within, SameTargets, LabelsKept, CgStmt, CgVar, CollectLabels, Unplaced, Unseen, Dead, Reachable, Own;
    WellFormedItem(ss, |ss|, i, cleanup, inLoop, scope);
    if ss[i].Label? || d.term { return; }
    LiveItem(ss, i, a, d);
    LiveStack(ss, i, a, d);
    OwnTame(ss, i, cleanup, inLoop, scope);
    OwnFits(ss, i, lvl);
    RoomyNext(a, d.st, Own(ss, i), lvl, base, cleanup, inLoop, LabelsOfAll(ss));
    if ss[i].Var? {
      DeepVar(ss[i].inits, d.st, lvl, base, cleanup, inLoop);
      VarFails(ss, i, d, lvl);
    } else {
      UnseenItem(ss, i, d.st);
      NestingOfItem(ss, i);
      if cleanup { NoneVisible(ss, i, inLoop); }
      DeepStmt(ss[i], d.st, lvl, base, cleanup, inLoop, scope + Visible(ss, i));
    }
  }

  lemma VarFails(ss: seq<Stmt>, i: nat, d: Done, lvl: nat)
    requires i < |ss| && ss[i].Var? && CgVar(ss[i].inits, d.st, lvl) != Fail(TooDeep)
    ensures CgItem(ss, i, d, lvl) != Fail(TooDeep)
  {
    if CgVar(ss[i].inits, d.st, lvl).Ok? { CollectFails(ss, i + 1, CgVar(ss[i].inits, d.st, lvl).value); }
  }

  lemma NoneVisible(ss: seq<Stmt>, i: nat, inLoop: bool)
    requires WellFormedAll(ss, |ss|, true, inLoop, {})
    ensures {} + Visible(ss, i) == {}
  {
    forall q | 0 <= q < |ss| ensures !ss[q].Label? { WellFormedItem(ss, |ss|, q, true, inLoop, {}); }
  }

  // The nesting of a body's own cleanup bodies is depth enough.
  lemma DepthEnough(body: Stmt, needsReturn: bool, lvl: nat)
    requires WellFormed(body, false, false, {}) && !Bare(body) && Nesting(body) <= lvl
    ensures CgFunction(body, needsReturn, lvl) != Fail(TooDeep)
  {
    hide CgStmt, SameTargets, LabelsKept, Tame;
    EmptyRoomy(lvl);
    DeepStmt(body, Start(), lvl, 0, false, false, {});
    if CgStmt(body, Start(), lvl).Ok? {
      var d := CgStmt(body, Start(), lvl).value;
      FrameStmt(body, Start(), lvl, false, false, {});
      if !d.term && |d.st.stack| == 0 { assert Destroy([], false, d.st, lvl) == Ok(d.st) && d.st.stack[0..] == []; }
      EndStack(body, d, lvl);
    }
  }

  lemma EndStack(body: Stmt, d: Done, lvl: nat)
    requires CgStmt(body, Start(), lvl) == Ok(d) && d.st.stack == Start().stack + Pushes(body) && !Bare(body)
    ensures d.st.stack == []
  {
  }

  lemma EmptyRoomy(lvl: nat)
    ensures Roomy(Start(), lvl, 0, false, false)
  {
  }

  // ----- escaping from cleanup ----------------------------------------------

  // A return inside a cleanup body has no such bound: cleaning up for the return
  // compiles the body again, with the body still on the stack.
  lemma {:induction false} EscapeUnbounded(lvl: nat)
    ensures CgFunction(Block([Finally([Return([])])]), false, lvl) == Fail(TooDeep)
  {
    var b := [Return([])];
    var st := Push(Start(), Final(b));
    var ss := [Finally(b)];
    assert CollectLabels(ss, 1, Start()) == Ok(Start());
    assert CollectLabels(ss, 0, Start()) == Ok(Start());
    assert CgItems(ss, 0, Done(Start(), false), lvl) == Ok(Done(Start(), false));
    assert CgItem(ss, 0, Done(Start(), false), lvl) == Ok(Done(st, false));
    assert CgItems(ss, 1, Done(Start(), false), lvl) == Ok(Done(st, false));
    assert st.stack[0..] == [Final(b)];
    EscapeAgain(st, lvl);
    assert EndScope(0, false, st, lvl) == Fail(TooDeep);
    assert CgStmt(Block(ss), Start(), lvl) == Fail(TooDeep);
  }

  lemma {:induction false} EscapeAgain(st: Ctx, lvl: nat)
    requires st.stack == [Final([Return([])])] && st.rets == Start().rets
    ensures Destroy(st.stack, false, st, lvl) == Fail(TooDeep)
    decreases lvl
  {
    var b := [Return([])];
    assert DestroyEntry(Final(b), false, st, lvl) == RunCleanup(b, st, lvl);
    if lvl > 0 {
      var x := st.(check := false);
      assert CollectLabels(b, 1, x) == Ok(x);
      assert CollectLabels(b, 0, x) == Ok(x);
      assert CgItems(b, 0, Done(x, false), lvl - 1) == Ok(Done(x, false));
      assert CgInits([], 0, x, lvl - 1) == Ok(x);
      assert CgMultiInto([], x, lvl - 1) == Ok(x);
      assert x.stack[0..] == x.stack;
      EscapeAgain(x, lvl - 1);
      assert Jump(x.rets[0], false, x, lvl - 1) == Fail(TooDeep);
      assert CgStmt(Return([]), x, lvl - 1) == Fail(TooDeep);
      assert CgItem(b, 0, Done(x, false), lvl - 1) == Fail(TooDeep);
      assert CgItems(b, 1, Done(x, false), lvl - 1) == Fail(TooDeep);
      assert CgStmt(Block(b), x, lvl - 1) == Fail(TooDeep);
    }
  }
}
