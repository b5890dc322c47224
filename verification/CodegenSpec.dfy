// What the code generator computes: every function maps the state of the
// CodegenContext before a call to the state after it.
module CodegenSpec {
  import opened Wrappers
  import opened Syntax
  import opened Cfg

  // uses counts the jumps emitted to the target.
  datatype Target = Target(block: nat, marker: nat, uses: nat)

  datatype Ctx = Ctx(
    code: Code,                    // the blocks of the function
    next: nat,                     // the next fresh block
    cur: nat,                      // the insertion point
    stack: seq<Entry>,             // valueStack
    labels: map<string, Target>,
    breaks: seq<Target>,
    continues: seq<Target>,
    rets: seq<Target>,             // returnTargets
    excs: seq<Target>,             // exceptionTargets
    check: bool)                   // checkExceptions

  datatype Why =
    | InvalidBreak | InvalidContinue | InvalidLabel | InvalidBinding
    | LabelNotFound | LabelRedefined | MissingReturn
    | AssertionFailed
    | TooDeep                      // cleanup code nested deeper than the given depth

  type Compiled<+T> = Result<T, Why>

  // The state after a statement, with codegenStatement's terminated flag.
  datatype Done = Done(st: Ctx, term: bool)

  function Emit(st: Ctx, i: Instr): Ctx {
    st.(code := st.code[st.cur := At(st.code, st.cur) + [i]])
  }

  // The new block is st.next.
  function NewBlock(st: Ctx): Ctx {
    st.(code := st.code[st.next := []], next := st.next + 1)
  }

  function PopTo(st: Ctx, marker: nat): Ctx {
    if marker <= |st.stack| then st.(stack := st.stack[..marker]) else st
  }

  function Push(st: Ctx, e: Entry): Ctx {
    st.(stack := st.stack + [e])
  }

  function Pop(ts: seq<Target>): seq<Target> {
    if ts == [] then [] else ts[..|ts| - 1]
  }

  function Use(ts: seq<Target>): seq<Target> {
    if ts == [] then [] else ts[|ts| - 1 := ts[|ts| - 1].(uses := ts[|ts| - 1].uses + 1)]
  }

  // ----- cleanup ------------------------------------------------------------

  // codegenStackEntryDestroy. lvl bounds how deep cleanup code is nested; the
  // compiler itself has no bound.
  function DestroyEntry(e: Entry, exn: bool, st: Ctx, lvl: nat): (r: Compiled<Ctx>)
    ensures r.Ok? ==> r.value.stack == st.stack
    decreases lvl, 0, 1
  {
    match e
    case Value(v) => Ok(if v.prim then st else Emit(st, IDestroy(v)))
    case Final(b) => RunCleanup(b, st, lvl)
    case Error(b) => if exn then RunCleanup(b, st, lvl) else Ok(st)
  }

  function RunCleanup(b: seq<Stmt>, st: Ctx, lvl: nat): (r: Compiled<Ctx>)
    ensures r.Ok? ==> r.value.stack == st.stack
    decreases lvl, 0, 0
  {
    if lvl == 0 then Fail(TooDeep)
    else
      var d :- CgStmt(Block(b), st.(check := false), lvl - 1);
      Ok(d.st.(check := st.check))
  }

  // cgDestroyStack: emits the cleanup of es, last first; nothing is popped.
  function Destroy(es: seq<Entry>, exn: bool, st: Ctx, lvl: nat): (r: Compiled<Ctx>)
    ensures r.Ok? ==> r.value.stack == st.stack
    decreases lvl, 1, |es|
  {
    if es == [] then Ok(st)
    else
      var st1 :- DestroyEntry(es[|es| - 1], exn, st, lvl);
      Destroy(es[..|es| - 1], exn, st1, lvl)
  }

  // cgDestroyAndPopStack: each entry is gone before its cleanup is emitted.
  function DestroyPop(marker: nat, exn: bool, st: Ctx, lvl: nat): (r: Compiled<Ctx>)
    requires marker <= |st.stack|
    ensures r.Ok? ==> r.value.stack == st.stack[..marker]
    decreases lvl, 1, |st.stack|
  {
    if |st.stack| == marker then Ok(st)
    else
      var n := |st.stack| - 1;
      var st1 :- DestroyEntry(st.stack[n], exn, PopTo(st, n), lvl);
      DestroyPop(marker, exn, st1, lvl)
  }

  // Leaving for a jump target: clean up down to its marker and branch there.
  function Jump(jt: Target, exn: bool, st: Ctx, lvl: nat): (r: Compiled<Ctx>)
    ensures r.Ok? ==> r.value.stack == st.stack
    decreases lvl, 2
  {
    if jt.marker > |st.stack| then Fail(AssertionFailed)
    else
      var st1 :- Destroy(st.stack[jt.marker..], exn, st, lvl);
      Ok(Emit(st1, IBr(jt.block)))
  }

  // ----- expressions --------------------------------------------------------

  // codegenLowlevelCall.
  function CgCall(f: Fn, args: seq<Slot>, out: Slot, st: Ctx, lvl: nat): (r: Compiled<Ctx>)
    ensures r.Ok? ==> r.value.stack == st.stack
    decreases lvl, 3
  {
    if !st.check then Ok(Emit(st, ICallUnchecked(f, args, out)))
    else if st.excs == [] then Fail(AssertionFailed)
    else
      var landing := st.next;
      var normal := st.next + 1;
      var st1 := Emit(NewBlock(NewBlock(Emit(st, ICall(f, args, out)))), IExcBr(normal, landing));
      var st2 :- Jump(st1.excs[|st1.excs| - 1], true, st1.(cur := landing), lvl);
      Ok(st2.(cur := normal))
  }

  // codegenExpr.
  function CgInto(e: Expr, out: Slot, st: Ctx, lvl: nat): (r: Compiled<Ctx>)
    ensures r.Ok? ==> r.value.stack == st.stack + Values(TempsInto(e))
    decreases lvl, 4, e, 1
  {
    match e
    case Lit(b, _) => Ok(Emit(st, IStore(out, b)))
    case Call(f, args, _, _) =>
      var st1 :- CgArgs(args, |args|, st, lvl);
      CgCall(f, Homes(args), out, st1, lvl)
    case And(_, _, _) => CgAndOr(e, out, st, lvl)
    case Or(_, _, _) => CgAndOr(e, out, st, lvl)
  }

  // and/or: the right operand runs unless the left one's flag is e.Or?.
  function CgAndOr(e: Expr, out: Slot, st: Ctx, lvl: nat): (r: Compiled<Ctx>)
    requires e.And? || e.Or?
    ensures r.Ok? ==> r.value.stack == st.stack + Values(TempsRef(e.l))
    decreases lvl, 4, e, 0
  {
    var st1 :- CgRef(e.l, st, lvl);
    var arm, skip, merge := st1.next, st1.next + 1, st1.next + 2;
    var st2 := Emit(NewBlock(NewBlock(NewBlock(st1))),
                    if e.Or? then ICondBr(Home(e.l), skip, arm) else ICondBr(Home(e.l), arm, skip));
    var st3 :- CgArm(e.r, out, merge, st2.(cur := arm), lvl);
    Ok(Emit(Emit(st3.(cur := skip), IStore(out, e.Or?)), IBr(merge)).(cur := merge))
  }

  // The conditionally evaluated operand of and/or.
  function CgArm(e: Expr, out: Slot, merge: nat, st: Ctx, lvl: nat): (r: Compiled<Ctx>)
    ensures r.Ok? ==> r.value.stack == st.stack
    decreases lvl, 4, e, 3
  {
    var st1 :- CgRef(e, st, lvl);
    var st2 :- DestroyPop(|st.stack|, false, Emit(st1, ICopy(out, Home(e))), lvl);
    Ok(Emit(st2, IBr(merge)))
  }

  // codegenExprAsRef2.
  function CgRef(e: Expr, st: Ctx, lvl: nat): (r: Compiled<Ctx>)
    ensures r.Ok? ==> r.value.stack == st.stack + Values(TempsRef(e))
    decreases lvl, 4, e, 2
  {
    var st1 :- CgInto(e, Home(e), st, lvl);
    Ok(Push(st1, Value(Home(e))))
  }

  function CgArgs(args: seq<Expr>, n: nat, st: Ctx, lvl: nat): (r: Compiled<Ctx>)
    requires n <= |args|
    ensures r.Ok? ==> r.value.stack == st.stack + Values(TempsArgs(args, n))
    decreases lvl, 4, args, n
  {
    if n == 0 then Ok(st)
    else
      var st1 :- CgArgs(args, n - 1, st, lvl);
      CgRef(args[n - 1], st1, lvl)
  }

  // A whole expression statement or condition.
  function CgWhole(e: Expr, st: Ctx, lvl: nat): (r: Compiled<Ctx>)
    ensures r.Ok? ==> r.value.stack == st.stack
    decreases lvl, 5
  {
    var st1 :- CgRef(e, st, lvl);
    DestroyPop(|st.stack|, false, st1, lvl)
  }

  // codegenOneInto.
  function CgOneInto(e: Expr, out: Slot, st: Ctx, lvl: nat): (r: Compiled<Ctx>)
    ensures r.Ok? ==> r.value.stack == st.stack
    decreases lvl, 5
  {
    var st1 :- CgInto(e, out, st, lvl);
    DestroyPop(|st.stack|, false, st1, lvl)
  }

  // codegenMultiInto after n expressions, whose outputs are on the stack.
  function CgInits(inits: seq<Init>, n: nat, st: Ctx, lvl: nat): (r: Compiled<Ctx>)
    requires n <= |inits|
    ensures r.Ok? ==> r.value.stack == st.stack + Outs(inits[..n])
    decreases lvl, 6, n
  {
    assert n > 0 ==> inits[..n][..n - 1] == inits[..n - 1];
    if n == 0 then Ok(st)
    else
      var st1 :- CgInits(inits, n - 1, st, lvl);
      var st2 :- CgOneInto(inits[n - 1].e, inits[n - 1].out, st1, lvl);
      Ok(Push(st2, Value(inits[n - 1].out)))
  }

  // codegenMultiInto: the outputs now belong to the caller.
  function CgMultiInto(inits: seq<Init>, st: Ctx, lvl: nat): (r: Compiled<Ctx>)
    ensures r.Ok? ==> r.value.stack == st.stack
    decreases lvl, 7, 0
  {
    var st1 :- CgInits(inits, |inits|, st, lvl);
    Ok(PopTo(st1, |st.stack|))
  }

  // ----- statements ---------------------------------------------------------

  function CgStmt(s: Stmt, st: Ctx, lvl: nat): (r: Compiled<Done>)
    ensures r.Ok? ==> st.stack <= r.value.st.stack
    ensures r.Ok? && s.Block? ==> r.value.st.stack == st.stack
    decreases lvl, 8, s, 2
  {
    match s
    case Block(body) =>
      var st0 :- CollectLabels(body, 0, st);
      var d :- CgItems(body, |body|, Done(st0, false), lvl);
      EndScope(|st.stack|, d.term, d.st, lvl)
    case Label(_) => Fail(InvalidLabel)
    case Var(_) => Fail(InvalidBinding)
    case Goto(l) =>
      if l !in st.labels then Fail(LabelNotFound)
      else
        var st1 :- Jump(st.labels[l], false, st, lvl);
        Ok(Done(st1, true))
    case Eval(e) =>
      var st1 :- CgWhole(e, st, lvl);
      Ok(Done(st1, false))
    case Return(inits) =>
      var st1 :- CgMultiInto(inits, st, lvl);
      if st1.rets == [] then Fail(AssertionFailed)
      else
        var st2 :- Jump(st1.rets[|st1.rets| - 1], false, st1, lvl);
        Ok(Done(st2, true))
    case Throw(args) =>
      var st1 :- CgArgs(args, |args|, st, lvl);
      var st2 :- CgCall(ThrowValue, Homes(args), Slot(Temp, 0, true), st1, lvl);
      var st3 :- DestroyPop(|st.stack|, false, st2, lvl);
      Ok(Done(Emit(st3, IUnreachable), true))
    case If(_, _, _, _, _) => CgIf(s, st, lvl)
    case While(_, _, _) => CgWhile(s, st, lvl)
    case Break =>
      if st.breaks == [] then Fail(InvalidBreak)
      else
        var st1 :- Jump(st.breaks[|st.breaks| - 1], false, st, lvl);
        Ok(Done(st1.(breaks := Use(st1.breaks)), true))
    case Continue =>
      if st.continues == [] then Fail(InvalidContinue)
      else
        var st1 :- Jump(st.continues[|st.continues| - 1], false, st, lvl);
        Ok(Done(st1, true))
    case Try(tried, handler) =>
      var catchBegin := st.next;
      var st0 := NewBlock(st).(excs := st.excs + [Target(catchBegin, |st.stack|, 0)]);
      var d1 :- CgStmt(tried, st0, lvl);
      var st1 := BranchToEnd(d1, None);
      var st1 := st1.(excs := Pop(st1.excs), cur := catchBegin);
      var d2 :- CgStmt(handler, st1, lvl);
      Ok(Merge(d1, d2))
    case Finally(b) => Ok(Done(Push(st, Final(b)), false))
    case OnError(b) => Ok(Done(Push(st, Error(b)), false))
    case Unreachable => Ok(Done(Emit(st, IUnreachable), true))
  }

  // Falling off the end of one of two parts that meet in a merge block, which
  // is created when it is first needed.
  function BranchToEnd(d: Done, end: Option<nat>): Ctx {
    if d.term then d.st
    else
      match end
      case Some(b) => Emit(d.st, IBr(b))
      case None => Emit(NewBlock(d.st), IBr(d.st.next))
  }

  function CgIf(s: Stmt, st: Ctx, lvl: nat): (r: Compiled<Done>)
    requires s.If?
    ensures r.Ok? ==> r.value.st.stack == st.stack
    decreases lvl, 8, s, 1
  {
    var p :- CgPre(s.pre, |s.pre|, st, lvl);
    var st1 :- CgWhole(s.cond, p, lvl);
    var d :- CgArms(s, st1, lvl);
    EndScope(|st.stack|, d.term, d.st, lvl)
  }

  // What follows the condition; a condition known at compile time leaves one
  // branch only.
  function CgArms(s: Stmt, st1: Ctx, lvl: nat): (r: Compiled<Done>)
    requires s.If?
    ensures r.Ok? ==> st1.stack <= r.value.st.stack
    decreases lvl, 8, s, 0
  {
    if s.kind.Dynamic? then
      var yes, no := st1.next, st1.next + 1;
      var st2 := Emit(NewBlock(NewBlock(st1)), ICondBr(Home(s.cond), yes, no));
      var d1 :- CgStmt(s.thn, st2.(cur := yes), lvl);
      var st3 := BranchToEnd(d1, None).(cur := no);
      var d2 :- CgStmt(s.els, st3, lvl);
      Ok(Merge(d1, d2))
    else
      var st2 := Emit(NewBlock(st1), IBr(st1.next)).(cur := st1.next);
      var d :- CgStmt(if s.kind.StaticTrue? then s.thn else s.els, st2, lvl);
      Ok(if d.term then d else Done(BranchToEnd(d, None).(cur := d.st.next), false))
  }

  // d2 is the second of two parts; the first has already branched to the merge
  // block unless it terminated.
  function Merge(d1: Done, d2: Done): Done {
    var st := BranchToEnd(d2, if d1.term then None else Some(d1.st.next));
    if d1.term && d2.term then Done(st, true)
    else Done(st.(cur := if d1.term then d2.st.next else d1.st.next), false)
  }

  function CgWhile(s: Stmt, st: Ctx, lvl: nat): (r: Compiled<Done>)
    requires s.While?
    ensures r.Ok? ==> r.value.st.stack == st.stack
    decreases lvl, 8, s, 1
  {
    var begin, body, cont, end := st.next, st.next + 1, st.next + 2, st.next + 3;
    var st0 := Emit(NewBlock(NewBlock(NewBlock(NewBlock(st)))), IBr(begin)).(cur := begin);
    var st1 :- CgTest(s, body, end, st0, lvl);
    var st2 := Enter(body, cont, end, st1);
    var st3 :- LoopBody(s, |st.stack|, cont, st2, lvl);
    LoopEnd(s, |st.stack|, begin, end, st3, lvl)
  }

  // The condition of a loop.
  function CgTest(s: Stmt, body: nat, end: nat, st: Ctx, lvl: nat): (r: Compiled<Ctx>)
    requires s.While?
    ensures r.Ok? ==> st.stack <= r.value.stack
    decreases lvl, 8, s, 0
  {
    var p :- CgPre(s.pre, |s.pre|, st, lvl);
    var st1 :- CgWhole(s.cond, p, lvl);
    Ok(Emit(st1, ICondBr(Home(s.cond), body, end)))
  }

  function Enter(body: nat, cont: nat, end: nat, st: Ctx): Ctx {
    st.(breaks := st.breaks + [Target(end, |st.stack|, 0)],
        continues := st.continues + [Target(cont, |st.stack|, 0)],
        cur := body)
  }

  // The body, and the cleanup of the condition's own entries after each pass.
  function LoopBody(s: Stmt, marker: nat, cont: nat, st: Ctx, lvl: nat): (r: Compiled<Ctx>)
    requires s.While? && marker <= |st.stack|
    ensures r.Ok? ==> st.stack <= r.value.stack
    decreases lvl, 8, s, 0
  {
    var d :- CgStmt(s.loop, st, lvl);
    var st1 := (if d.term then d.st else Emit(d.st, IBr(cont))).(cur := cont);
    Destroy(st1.stack[marker..], false, st1, lvl)
  }

  // Closing the loop and moving past it. A while (true) that no break leaves
  // has nothing after it.
  function LoopEnd(s: Stmt, marker: nat, begin: nat, end: nat, st: Ctx, lvl: nat): (r: Compiled<Done>)
    requires s.While? && marker <= |st.stack|
    ensures r.Ok? ==> r.value.st.stack == st.stack[..marker]
    decreases lvl, 3
  {
    var st1 := Emit(st, IBr(begin));
    var used := st1.breaks != [] && st1.breaks[|st1.breaks| - 1].uses > 0;
    var st2 := st1.(breaks := Pop(st1.breaks), continues := Pop(st1.continues), cur := end);
    if !used && s.cond == Lit(true, s.cond.id) then
      EndScope(marker, true, Emit(st2, IUnreachable), lvl)
    else
      EndScope(marker, false, st2, lvl)
  }

  // codegenEndScope.
  function EndScope(marker: nat, term: bool, st: Ctx, lvl: nat): (r: Compiled<Done>)
    requires marker <= |st.stack|
    ensures r.Ok? ==> r.value.st.stack == st.stack[..marker]
    decreases lvl, 2
  {
    var st1 :- if term then Ok(st) else Destroy(st.stack[marker..], false, st, lvl);
    Ok(Done(PopTo(st1, marker), term))
  }

  // codegenStatementExpressionStatements after n items.
  function CgPre(pre: seq<Stmt>, n: nat, st: Ctx, lvl: nat): (r: Compiled<Ctx>)
    requires n <= |pre|
    ensures r.Ok? ==> st.stack <= r.value.stack
    decreases lvl, 8, pre, n
  {
    if n == 0 then Ok(st)
    else
      var st1 :- CgPre(pre, n - 1, st, lvl);
      CgPreItem(pre[n - 1], st1, lvl)
  }

  function CgPreItem(s: Stmt, st: Ctx, lvl: nat): (r: Compiled<Ctx>)
    ensures r.Ok? ==> st.stack <= r.value.stack
    decreases lvl, 8, s, 0
  {
    match s
    case Var(inits) => CgVar(inits, st, lvl)
    case Eval(e) => CgWhole(e, st, lvl)
    case _ => Fail(AssertionFailed)
  }

  // codegenBinding of a var.
  function CgVar(inits: seq<Init>, st: Ctx, lvl: nat): (r: Compiled<Ctx>)
    ensures r.Ok? ==> r.value.stack == st.stack + Outs(inits)
    decreases lvl, 7, 1
  {
    var st1 :- CgMultiInto(inits, st, lvl);
    Ok(st1.(stack := st1.stack + Outs(inits)))
  }

  // codegenCollectLabels from position i.
  function CollectLabels(ss: seq<Stmt>, i: nat, st: Ctx): (r: Compiled<Ctx>)
    requires i <= |ss|
    ensures r.Ok? ==> r.value.stack == st.stack
    decreases |ss| - i
  {
    if i == |ss| || ss[i].Var? then Ok(st)
    else if ss[i].Label? then
      if ss[i].l in st.labels then Fail(LabelRedefined)
      else
        CollectLabels(ss, i + 1, NewBlock(st).(labels := st.labels[ss[i].l := Target(st.next, |st.stack|, 0)]))
    else CollectLabels(ss, i + 1, st)
  }

  // The first n items of a block whose first labels are collected in d0.
  function CgItems(ss: seq<Stmt>, n: nat, d0: Done, lvl: nat): (r: Compiled<Done>)
    requires n <= |ss|
    ensures r.Ok? ==> d0.st.stack <= r.value.st.stack
    decreases lvl, 8, ss, n
  {
    if n == 0 then Ok(d0)
    else
      var d :- CgItems(ss, n - 1, d0, lvl);
      CgItem(ss, n - 1, d, lvl)
  }

  // codegenBlockStatement.
  function CgItem(ss: seq<Stmt>, i: nat, d: Done, lvl: nat): (r: Compiled<Done>)
    requires i < |ss|
    ensures r.Ok? ==> d.st.stack <= r.value.st.stack
    decreases lvl, 8, ss, 0
  {
    match ss[i]
    case Label(l) =>
      if l !in d.st.labels then Fail(AssertionFailed)
      else
        var b := d.st.labels[l].block;
        Ok(Done((if d.term then d.st else Emit(d.st, IBr(b))).(cur := b), false))
    case Var(inits) =>
      if d.term then Ok(d)
      else
        var st1 :- CgVar(inits, d.st, lvl);
        var st2 :- CollectLabels(ss, i + 1, st1);
        Ok(Done(st2, false))
    case _ =>
      if d.term then Ok(d) else CgStmt(ss[i], d.st, lvl)
  }

  // codegenCodeBody: the blocks of a function and the state its body starts in.
  const CODE: nat := 0
  const RETURN: nat := 1
  const EXCEPTION: nat := 2

  function Start(): Ctx {
    Ctx(map[CODE := [], RETURN := [], EXCEPTION := []], 3, CODE, [], map[], [], [],
        [Target(RETURN, 0, 0)], [Target(EXCEPTION, 0, 0)], true)
  }

  // needsReturn: the function has results and none of them is named.
  function CgFunction(body: Stmt, needsReturn: bool, lvl: nat): Compiled<Code> {
    var d :- CgStmt(body, Start(), lvl);
    if !d.term && needsReturn then Fail(MissingReturn)
    else
      var st1 :- if d.term then Ok(d.st) else Jump(Target(RETURN, 0, 0), false, d.st, lvl);
      Ok(Emit(Emit(st1.(cur := RETURN), IRet(false)).(cur := EXCEPTION), IRet(true)).code)
  }
}
