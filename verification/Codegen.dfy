// The code generator itself: a context whose value stack, jump targets, labels
// and insertion point are updated in place while statements are compiled. Every
// method takes the state where CodegenSpec says.
module Codegen {
  import opened Wrappers
  import opened Syntax
  import opened Cfg
  import opened CodegenSpec

  // r and after are what the specification computed in want.
  predicate Done1(r: Compiled<()>, after: Ctx, want: Compiled<Ctx>) {
    if want.Ok? then r == Ok(()) && after == want.value else r == Fail(want.error)
  }

  predicate Done2(r: Compiled<bool>, after: Ctx, want: Compiled<Done>) {
    if want.Ok? then r == Ok(want.value.term) && after == want.value.st else r == Fail(want.error)
  }

  // A loop over a prefix fails for good.

  lemma ArgsFail(args: seq<Expr>, m: nat, n: nat, st: Ctx, lvl: nat)
    requires m <= n <= |args| && CgArgs(args, m, st, lvl).Fail?
    ensures CgArgs(args, n, st, lvl) == CgArgs(args, m, st, lvl)
  {
    if m < n { ArgsFail(args, m, n - 1, st, lvl); }
  }

  lemma InitsFail(inits: seq<Init>, m: nat, n: nat, st: Ctx, lvl: nat)
    requires m <= n <= |inits| && CgInits(inits, m, st, lvl).Fail?
    ensures CgInits(inits, n, st, lvl) == CgInits(inits, m, st, lvl)
  {
    if m < n { InitsFail(inits, m, n - 1, st, lvl); }
  }

  lemma PreFail(pre: seq<Stmt>, m: nat, n: nat, st: Ctx, lvl: nat)
    requires m <= n <= |pre| && CgPre(pre, m, st, lvl).Fail?
    ensures CgPre(pre, n, st, lvl) == CgPre(pre, m, st, lvl)
  {
    if m < n { PreFail(pre, m, n - 1, st, lvl); }
  }

  lemma ItemsFail(ss: seq<Stmt>, m: nat, n: nat, d: Done, lvl: nat)
    requires m <= n <= |ss| && CgItems(ss, m, d, lvl).Fail?
    ensures CgItems(ss, n, d, lvl) == CgItems(ss, m, d, lvl)
  {
    if m < n { ItemsFail(ss, m, n - 1, d, lvl); }
  }

  class CodegenContext {
    var code: Code
    var next: nat
    var cur: nat
    var valueStack: seq<Entry>
    var labels: map<string, Target>
    var breaks: seq<Target>
    var continues: seq<Target>
    var returnTargets: seq<Target>
    var exceptionTargets: seq<Target>
    var checkExceptions: bool

    function State(): Ctx
      reads this
    {
      Ctx(code, next, cur, valueStack, labels, breaks, continues, returnTargets, exceptionTargets, checkExceptions)
    }

    // A function about to be compiled, with its blocks and outermost targets.
    constructor ()
      ensures State() == Start()
    {
      code, next, cur := map[CODE := [], RETURN := [], EXCEPTION := []], 3, CODE;
      valueStack, labels, breaks, continues := [], map[], [], [];
      returnTargets, exceptionTargets, checkExceptions := [Target(RETURN, 0, 0)], [Target(EXCEPTION, 0, 0)], true;
    }

    // ----- the instruction builder ------------------------------------------

    method Append(i: Instr)
      modifies this
      ensures State() == Emit(old(State()), i)
    {
      code := code[cur := At(code, cur) + [i]];
    }

    method NewBasicBlock() returns (b: nat)
      modifies this
      ensures State() == NewBlock(old(State())) && b == old(next)
    {
      b := next;
      code, next := code[next := []], next + 1;
    }

    // ----- the value stack --------------------------------------------------

    // cgDestroyStack
    method DestroyStack(marker: nat, exn: bool, lvl: nat) returns (r: Compiled<()>)
      requires marker <= |valueStack|
      modifies this
      ensures Done1(r, State(), Destroy(old(valueStack)[marker..], exn, old(State()), lvl))
      decreases lvl, 1
    {
      var i := |valueStack|;
      ghost var es := valueStack[marker..];
      assert valueStack[marker..i] == es;
      while marker < i
        invariant marker <= i <= |valueStack| && valueStack == old(valueStack)
        invariant Destroy(valueStack[marker..i], exn, State(), lvl) == Destroy(es, exn, old(State()), lvl)
      {
        ghost var part := valueStack[marker..i];
        i := i - 1;
        assert part[|part| - 1] == valueStack[i] && part[..|part| - 1] == valueStack[marker..i];
        var _ :- StackEntryDestroy(valueStack[i], exn, lvl);
      }
      return Ok(());
    }

    // cgPopStack
    method PopStack(marker: nat)
      requires marker <= |valueStack|
      modifies this
      ensures State() == PopTo(old(State()), marker)
    {
      while marker < |valueStack|
        invariant marker <= |valueStack| <= |old(valueStack)|
        invariant State() == PopTo(old(State()), |valueStack|)
      {
        valueStack := valueStack[..|valueStack| - 1];
      }
    }

    // cgDestroyAndPopStack
    method DestroyAndPopStack(marker: nat, exn: bool, lvl: nat) returns (r: Compiled<()>)
      requires marker <= |valueStack|
      modifies this
      ensures Done1(r, State(), DestroyPop(marker, exn, old(State()), lvl))
      decreases lvl, 1
    {
      while marker < |valueStack|
        invariant marker <= |valueStack|
        invariant DestroyPop(marker, exn, State(), lvl) == DestroyPop(marker, exn, old(State()), lvl)
        decreases |valueStack|
      {
        var entry := valueStack[|valueStack| - 1];
        valueStack := valueStack[..|valueStack| - 1];
        var _ :- StackEntryDestroy(entry, exn, lvl);
      }
      return Ok(());
    }

    method StackEntryDestroy(entry: Entry, exn: bool, lvl: nat) returns (r: Compiled<()>)
      modifies this
      ensures Done1(r, State(), DestroyEntry(entry, exn, old(State()), lvl))
      decreases lvl, 0, 1
    {
      match entry
      case Value(v) =>
        if !v.prim { Append(IDestroy(v)); }
        return Ok(());
      case Final(body) => r := Cleanup(body, lvl);
      case Error(body) =>
        if exn { r := Cleanup(body, lvl); } else { return Ok(()); }
    }

    // A finally or onerror body, with exception checks switched off.
    method Cleanup(body: seq<Stmt>, lvl: nat) returns (r: Compiled<()>)
      modifies this
      ensures Done1(r, State(), RunCleanup(body, old(State()), lvl))
      decreases lvl, 0, 0
    {
      if lvl == 0 { return Fail(TooDeep); }
      var savedCheckExceptions := checkExceptions;
      checkExceptions := false;
      var _ :- Statement(Block(body), lvl - 1);
      checkExceptions := savedCheckExceptions;
      return Ok(());
    }

    // Leaving for a jump target.
    method JumpTo(jt: Target, exn: bool, lvl: nat) returns (r: Compiled<()>)
      modifies this
      ensures Done1(r, State(), Jump(jt, exn, old(State()), lvl))
      decreases lvl, 2
    {
      if jt.marker > |valueStack| { return Fail(AssertionFailed); }
      var _ :- DestroyStack(jt.marker, exn, lvl);
      Append(IBr(jt.block));
      return Ok(());
    }

    // ----- expressions ------------------------------------------------------

    // codegenLowlevelCall
    method LowlevelCall(f: Fn, args: seq<Slot>, out: Slot, lvl: nat) returns (r: Compiled<()>)
      modifies this
      ensures Done1(r, State(), CgCall(f, args, out, old(State()), lvl))
      decreases lvl, 3
    {
      hide Jump;
      if !checkExceptions {
        Append(ICallUnchecked(f, args, out));
        return Ok(());
      }
      if exceptionTargets == [] { return Fail(AssertionFailed); }
      r := TestedCall(f, args, out, lvl);
    }

    // A call, the test of its result, and the landing block.
    method TestedCall(f: Fn, args: seq<Slot>, out: Slot, lvl: nat) returns (r: Compiled<()>)
      requires checkExceptions && exceptionTargets != []
      modifies this
      ensures Done1(r, State(), CgCall(f, args, out, old(State()), lvl))
      decreases lvl, 3, 0
    {
      hide Jump;
      Append(ICall(f, args, out));
      var landing := NewBasicBlock();
      var normal := NewBasicBlock();
      Append(IExcBr(normal, landing));
      cur := landing;
      var _ :- JumpTo(exceptionTargets[|exceptionTargets| - 1], true, lvl);
      cur := normal;
      return Ok(());
    }

    // codegenExpr
    method ExprInto(e: Expr, out: Slot, lvl: nat) returns (r: Compiled<()>)
      modifies this
      ensures Done1(r, State(), CgInto(e, out, old(State()), lvl))
      decreases lvl, 4, e, 1
    {
      match e
      case Lit(b, _) =>
        Append(IStore(out, b));
        return Ok(());
      case Call(f, args, _, _) =>
        var _ :- Args(args, lvl);
        r := LowlevelCall(f, Homes(args), out, lvl);
      case And(_, _, _) => r := AndOr(e, out, lvl);
      case Or(_, _, _) => r := AndOr(e, out, lvl);
    }

    method AndOr(e: Expr, out: Slot, lvl: nat) returns (r: Compiled<()>)
      requires e.And? || e.Or?
      modifies this
      ensures Done1(r, State(), CgAndOr(e, out, old(State()), lvl))
      decreases lvl, 4, e, 0
    {
      hide CgRef, CgArm, CgInto, Emit, NewBlock;
      var _ :- ExprAsRef(e.l, lvl);
      ghost var st1 := State();
      var arm, skip, merge := ForkAndOr(e);
      var _ :- Arm(e.r, out, merge, lvl);
      cur := skip;
      Append(IStore(out, e.Or?));
      Append(IBr(merge));
      cur := merge;
      return Ok(());
    }

    method ForkAndOr(e: Expr) returns (arm: nat, skip: nat, merge: nat)
      requires e.And? || e.Or?
      modifies this
      ensures arm == old(next) && skip == arm + 1 && merge == arm + 2
      ensures State() == Emit(NewBlock(NewBlock(NewBlock(old(State())))),
                              if e.Or? then ICondBr(Home(e.l), skip, arm) else ICondBr(Home(e.l), arm, skip)).(cur := arm)
    {
      arm := NewBasicBlock();
      skip := NewBasicBlock();
      merge := NewBasicBlock();
      Append(if e.Or? then ICondBr(Home(e.l), skip, arm) else ICondBr(Home(e.l), arm, skip));
      cur := arm;
    }

    // The conditionally evaluated operand of and/or.
    method Arm(e: Expr, out: Slot, merge: nat, lvl: nat) returns (r: Compiled<()>)
      modifies this
      ensures Done1(r, State(), CgArm(e, out, merge, old(State()), lvl))
      decreases lvl, 4, e, 3
    {
      var marker := |valueStack|;
      var _ :- ExprAsRef(e, lvl);
      Append(ICopy(out, Home(e)));
      var _ :- DestroyAndPopStack(marker, false, lvl);
      Append(IBr(merge));
      return Ok(());
    }

    // codegenExprAsRef2
    method ExprAsRef(e: Expr, lvl: nat) returns (r: Compiled<()>)
      modifies this
      ensures Done1(r, State(), CgRef(e, old(State()), lvl))
      decreases lvl, 4, e, 2
    {
      var _ :- ExprInto(e, Home(e), lvl);
      valueStack := valueStack + [Value(Home(e))];
      return Ok(());
    }

    method Args(args: seq<Expr>, lvl: nat) returns (r: Compiled<()>)
      modifies this
      ensures Done1(r, State(), CgArgs(args, |args|, old(State()), lvl))
      decreases lvl, 4, args, |args|
    {
      var i := 0;
      while i < |args|
        invariant i <= |args| && CgArgs(args, i, old(State()), lvl) == Ok(State())
      {
        r := ExprAsRef(args[i], lvl);
        if r.Fail? {
          ArgsFail(args, i + 1, |args|, old(State()), lvl);
          return;
        }
        i := i + 1;
      }
      return Ok(());
    }

    // A whole expression statement or condition.
    method WholeExpr(e: Expr, lvl: nat) returns (r: Compiled<()>)
      modifies this
      ensures Done1(r, State(), CgWhole(e, old(State()), lvl))
      decreases lvl, 5
    {
      var marker := |valueStack|;
      var _ :- ExprAsRef(e, lvl);
      r := DestroyAndPopStack(marker, false, lvl);
    }

    // codegenOneInto
    method OneInto(e: Expr, out: Slot, lvl: nat) returns (r: Compiled<()>)
      modifies this
      ensures Done1(r, State(), CgOneInto(e, out, old(State()), lvl))
      decreases lvl, 5
    {
      var marker := |valueStack|;
      var _ :- ExprInto(e, out, lvl);
      r := DestroyAndPopStack(marker, false, lvl);
    }

    // codegenMultiInto
    method MultiInto(inits: seq<Init>, lvl: nat) returns (r: Compiled<()>)
      modifies this
      ensures Done1(r, State(), CgMultiInto(inits, old(State()), lvl))
      decreases lvl, 7, 0
    {
      var marker := |valueStack|;
      var i := 0;
      while i < |inits|
        invariant i <= |inits| && CgInits(inits, i, old(State()), lvl) == Ok(State())
      {
        r := OneInto(inits[i].e, inits[i].out, lvl);
        if r.Fail? {
          InitsFail(inits, i + 1, |inits|, old(State()), lvl);
          return;
        }
        valueStack := valueStack + [Value(inits[i].out)];
        i := i + 1;
      }
      PopStack(marker);
      return Ok(());
    }

    // ----- statements -------------------------------------------------------

    // codegenStatement: the result is whether the statement terminated.
    method Statement(s: Stmt, lvl: nat) returns (r: Compiled<bool>)
      modifies this
      ensures Done2(r, State(), CgStmt(s, old(State()), lvl))
      decreases lvl, 8, s, 2
    {
      hide Jump, CgWhole, CgMultiInto, CgArgs, CgCall, DestroyPop, CgIf, CgWhile;
      match s
      case Block(body) => r := BlockStatements(body, lvl);
      case Label(_) => return Fail(InvalidLabel);
      case Var(_) => return Fail(InvalidBinding);
      case Goto(l) =>
        if l !in labels { return Fail(LabelNotFound); }
        var _ :- JumpTo(labels[l], false, lvl);
        return Ok(true);
      case Eval(e) =>
        var _ :- WholeExpr(e, lvl);
        return Ok(false);
      case Return(inits) => r := ReturnStatement(inits, lvl);
      case Throw(args) => r := ThrowStatement(args, lvl);
      case If(_, _, _, _, _) => r := IfStatement(s, lvl);
      case While(_, _, _) => r := WhileStatement(s, lvl);
      case Break =>
        if breaks == [] { return Fail(InvalidBreak); }
        var _ :- JumpTo(breaks[|breaks| - 1], false, lvl);
        breaks := Use(breaks);
        return Ok(true);
      case Continue =>
        if continues == [] { return Fail(InvalidContinue); }
        var _ :- JumpTo(continues[|continues| - 1], false, lvl);
        return Ok(true);
      case Try(_, _) => r := TryStatement(s, lvl);
      case Finally(body) =>
        valueStack := valueStack + [Final(body)];
        return Ok(false);
      case OnError(body) =>
        valueStack := valueStack + [Error(body)];
        return Ok(false);
      case Unreachable =>
        Append(IUnreachable);
        return Ok(true);
    }

    method ReturnStatement(inits: seq<Init>, lvl: nat) returns (r: Compiled<bool>)
      modifies this
      ensures Done2(r, State(), CgStmt(Return(inits), old(State()), lvl))
      decreases lvl, 7, 2
    {
      hide Jump, CgMultiInto;
      var _ :- MultiInto(inits, lvl);
      if returnTargets == [] { return Fail(AssertionFailed); }
      var _ :- JumpTo(returnTargets[|returnTargets| - 1], false, lvl);
      return Ok(true);
    }

    method ThrowStatement(args: seq<Expr>, lvl: nat) returns (r: Compiled<bool>)
      modifies this
      ensures Done2(r, State(), CgStmt(Throw(args), old(State()), lvl))
      decreases lvl, 7, 2
    {
      hide CgArgs, CgCall, DestroyPop;
      var marker := |valueStack|;
      var _ :- Args(args, lvl);
      var _ :- LowlevelCall(ThrowValue, Homes(args), Slot(Temp, 0, true), lvl);
      var _ :- DestroyAndPopStack(marker, false, lvl);
      Append(IUnreachable);
      return Ok(true);
    }

    method BlockStatements(ss: seq<Stmt>, lvl: nat) returns (r: Compiled<bool>)
      modifies this
      ensures Done2(r, State(), CgStmt(Block(ss), old(State()), lvl))
      decreases lvl, 8, ss, |ss| + 1
    {
      var marker := |valueStack|;
      var _ :- CollectLabelsFrom(ss, 0);
      ghost var d0 := Done(State(), false);
      var terminated := false;
      var i := 0;
      while i < |ss|
        invariant i <= |ss| && CgItems(ss, i, d0, lvl) == Ok(Done(State(), terminated))
      {
        r := BlockStatement(ss, i, terminated, lvl);
        if r.Fail? {
          ItemsFail(ss, i + 1, |ss|, d0, lvl);
          return;
        }
        terminated := r.value;
        i := i + 1;
      }
      r := CloseScope(marker, terminated, lvl);
    }

    // codegenBlockStatement
    method BlockStatement(ss: seq<Stmt>, i: nat, terminated: bool, lvl: nat) returns (r: Compiled<bool>)
      requires i < |ss|
      modifies this
      ensures Done2(r, State(), CgItem(ss, i, Done(old(State()), terminated), lvl))
      decreases lvl, 8, ss, 0
    {
      match ss[i]
      case Label(l) =>
        if l !in labels { return Fail(AssertionFailed); }
        if !terminated { Append(IBr(labels[l].block)); }
        cur := labels[l].block;
        return Ok(false);
      case Var(inits) =>
        if terminated { return Ok(true); }
        var _ :- Binding(inits, lvl);
        var _ :- CollectLabelsFrom(ss, i + 1);
        return Ok(false);
      case _ =>
        if terminated { return Ok(true); }
        r := Statement(ss[i], lvl);
    }

    // codegenCollectLabels
    method CollectLabelsFrom(ss: seq<Stmt>, start: nat) returns (r: Compiled<()>)
      requires start <= |ss|
      modifies this
      ensures Done1(r, State(), CollectLabels(ss, start, old(State())))
    {
      var i := start;
      while i < |ss| && !ss[i].Var?
        invariant i <= |ss| && CollectLabels(ss, i, State()) == CollectLabels(ss, start, old(State()))
      {
        if ss[i].Label? {
          if ss[i].l in labels { return Fail(LabelRedefined); }
          var marker := |valueStack|;
          var b := NewBasicBlock();
          labels := labels[ss[i].l := Target(b, marker, 0)];
        }
        i := i + 1;
      }
      return Ok(());
    }

    // codegenBinding of a var
    method Binding(inits: seq<Init>, lvl: nat) returns (r: Compiled<()>)
      modifies this
      ensures Done1(r, State(), CgVar(inits, old(State()), lvl))
      decreases lvl, 7, 1
    {
      var _ :- MultiInto(inits, lvl);
      valueStack := valueStack + Outs(inits);
      return Ok(());
    }

    // codegenStatementExpressionStatements
    method ConditionStatements(pre: seq<Stmt>, lvl: nat) returns (r: Compiled<()>)
      modifies this
      ensures Done1(r, State(), CgPre(pre, |pre|, old(State()), lvl))
      decreases lvl, 8, pre, |pre|
    {
      var i := 0;
      while i < |pre|
        invariant i <= |pre| && CgPre(pre, i, old(State()), lvl) == Ok(State())
      {
        r := ConditionStatement(pre[i], lvl);
        if r.Fail? {
          PreFail(pre, i + 1, |pre|, old(State()), lvl);
          return;
        }
        i := i + 1;
      }
      return Ok(());
    }

    method ConditionStatement(s: Stmt, lvl: nat) returns (r: Compiled<()>)
      modifies this
      ensures Done1(r, State(), CgPreItem(s, old(State()), lvl))
      decreases lvl, 8, s, 0
    {
      match s
      case Var(inits) => r := Binding(inits, lvl);
      case Eval(e) => r := WholeExpr(e, lvl);
      case _ => return Fail(AssertionFailed);
    }

    // codegenEndScope
    method CloseScope(marker: nat, terminated: bool, lvl: nat) returns (r: Compiled<bool>)
      requires marker <= |valueStack|
      modifies this
      ensures Done2(r, State(), EndScope(marker, terminated, old(State()), lvl))
      decreases lvl, 2
    {
      if !terminated {
        var _ :- DestroyStack(marker, false, lvl);
      }
      PopStack(marker);
      return Ok(terminated);
    }

    // Falling off the end of one of two parts.
    method BranchTo(terminated: bool, end: Option<nat>) returns (end': Option<nat>)
      modifies this
      ensures State() == BranchToEnd(Done(old(State()), terminated), end)
      ensures end' == if terminated then end else if end.Some? then end else Some(old(next))
    {
      end' := end;
      if !terminated {
        if end == None {
          var b := NewBasicBlock();
          end' := Some(b);
        }
        Append(IBr(end'.value));
      }
    }

    method IfStatement(s: Stmt, lvl: nat) returns (r: Compiled<bool>)
      requires s.If?
      modifies this
      ensures Done2(r, State(), CgIf(s, old(State()), lvl))
      decreases lvl, 8, s, 1
    {
      var marker := |valueStack|;
      var _ :- ConditionStatements(s.pre, lvl);
      var _ :- WholeExpr(s.cond, lvl);
      var terminated :- Branches(s, lvl);
      r := CloseScope(marker, terminated, lvl);
    }

    method Branches(s: Stmt, lvl: nat) returns (r: Compiled<bool>)
      requires s.If?
      modifies this
      ensures Done2(r, State(), CgArms(s, old(State()), lvl))
      decreases lvl, 8, s, 0
    {
      hide CgStmt, Emit;
      if s.kind.Dynamic? {
        var yes := NewBasicBlock();
        var no := NewBasicBlock();
        Append(ICondBr(Home(s.cond), yes, no));
        cur := yes;
        var terminated1 :- Statement(s.thn, lvl);
        var merge := BranchTo(terminated1, None);
        cur := no;
        var terminated2 :- Statement(s.els, lvl);
        merge := BranchTo(terminated2, merge);
        if !terminated1 || !terminated2 { cur := merge.value; }
        return Ok(terminated1 && terminated2);
      } else {
        var only := NewBasicBlock();
        Append(IBr(only));
        cur := only;
        var terminated :- Statement(if s.kind.StaticTrue? then s.thn else s.els, lvl);
        var merge := BranchTo(terminated, None);
        if !terminated { cur := merge.value; }
        return Ok(terminated);
      }
    }

    method WhileStatement(s: Stmt, lvl: nat) returns (r: Compiled<bool>)
      requires s.While?
      modifies this
      ensures Done2(r, State(), CgWhile(s, old(State()), lvl))
      decreases lvl, 8, s, 1
    {
      hide CgTest, LoopBody, LoopEnd;
      var scopeMarker := |valueStack|;
      var begin := NewBasicBlock();
      var body := NewBasicBlock();
      var cont := NewBasicBlock();
      var end := NewBasicBlock();
      Append(IBr(begin));
      cur := begin;
      var _ :- LoopTest(s, body, end, lvl);
      breaks := breaks + [Target(end, |valueStack|, 0)];
      continues := continues + [Target(cont, |valueStack|, 0)];
      cur := body;
      var _ :- LoopPass(s, scopeMarker, cont, lvl);
      r := CloseLoop(s, scopeMarker, begin, end, lvl);
    }

    method LoopTest(s: Stmt, body: nat, end: nat, lvl: nat) returns (r: Compiled<()>)
      requires s.While?
      modifies this
      ensures Done1(r, State(), CgTest(s, body, end, old(State()), lvl))
      decreases lvl, 8, s, 0
    {
      var _ :- ConditionStatements(s.pre, lvl);
      var _ :- WholeExpr(s.cond, lvl);
      Append(ICondBr(Home(s.cond), body, end));
      return Ok(());
    }

    method LoopPass(s: Stmt, marker: nat, cont: nat, lvl: nat) returns (r: Compiled<()>)
      requires s.While? && marker <= |valueStack|
      modifies this
      ensures Done1(r, State(), LoopBody(s, marker, cont, old(State()), lvl))
      decreases lvl, 8, s, 0
    {
      var terminated :- Statement(s.loop, lvl);
      if !terminated { Append(IBr(cont)); }
      cur := cont;
      r := DestroyStack(marker, false, lvl);
    }

    method CloseLoop(s: Stmt, marker: nat, begin: nat, end: nat, lvl: nat) returns (r: Compiled<bool>)
      requires s.While? && marker <= |valueStack|
      modifies this
      ensures Done2(r, State(), LoopEnd(s, marker, begin, end, old(State()), lvl))
      decreases lvl, 3
    {
      Append(IBr(begin));
      var breakUsed := breaks != [] && breaks[|breaks| - 1].uses > 0;
      breaks := Pop(breaks);
      continues := Pop(continues);
      cur := end;
      if !breakUsed && s.cond == Lit(true, s.cond.id) {
        Append(IUnreachable);
        r := CloseScope(marker, true, lvl);
      } else {
        r := CloseScope(marker, false, lvl);
      }
    }

    method TryStatement(s: Stmt, lvl: nat) returns (r: Compiled<bool>)
      requires s.Try?
      modifies this
      ensures Done2(r, State(), CgStmt(s, old(State()), lvl))
      decreases lvl, 8, s, 1
    {
      var catchBegin := NewBasicBlock();
      exceptionTargets := exceptionTargets + [Target(catchBegin, |valueStack|, 0)];
      var tryTerminated :- Statement(s.tried, lvl);
      var catchEnd := BranchTo(tryTerminated, None);
      exceptionTargets := Pop(exceptionTargets);
      cur := catchBegin;
      var catchTerminated :- Statement(s.handler, lvl);
      catchEnd := BranchTo(catchTerminated, catchEnd);
      if catchEnd.Some? { cur := catchEnd.value; }
      return Ok(tryTerminated && catchTerminated);
    }
  }

  // codegenCodeBody
  method CodeBody(body: Stmt, needsReturn: bool, lvl: nat) returns (r: Compiled<Code>)
    ensures r == CgFunction(body, needsReturn, lvl)
  {
    var ctx := new CodegenContext();
    var terminated :- ctx.Statement(body, lvl);
    if !terminated {
      if needsReturn { return Fail(MissingReturn); }
      var _ :- ctx.JumpTo(Target(RETURN, 0, 0), false, lvl);
    }
    ctx.cur := RETURN;
    ctx.Append(IRet(false));
    ctx.cur := EXCEPTION;
    ctx.Append(IRet(true));
    return Ok(ctx.code);
  }
}
