// The analyzer's verdict about a body against the code generator's flag, and
// both against the runs.
module Verdicts {
  import opened Wrappers
  import opened Syntax
  import opened Semantics
  import opened Cfg
  import opened CodegenSpec
  import opened Framing
  import opened Correctness
  import opened Endings
  import An = Inference

  // a is how the analysis sees s.
  predicate Seen(a: An.Stmt, s: Stmt) {
    match s
    case Block(body) => a.Block? && |a.body| == |body| && forall i :: 0 <= i < |body| ==> Seen(a.body[i], body[i])
    case Var(_) => a.Bind?
    case Return(_) => a.Return?
    case If(_, kind, _, thn, els) =>
      && a.If? && kind.Dynamic? == a.kind.Dynamic? && kind.StaticTrue? == a.kind.StaticTrue?
      && Seen(a.thn, thn) && |a.els| <= 1
      && (if |a.els| == 0 then els == Block([]) else Seen(a.els[0], els))
    case While(_, _, loop) => a.While? && Seen(a.loop, loop)
    case Try(tried, handler) => a.Try? && Seen(a.tried, tried) && Seen(a.handler, handler)
    case Label(_) => a.Other?
    case Eval(_) => a.Other?
    case Finally(_) => a.Other?
    case OnError(_) => a.Other?
    case _ => a.Leave?
  }

  predicate LabelFree(s: Stmt) {
    match s
    case Label(_) => false
    case Block(body) => forall i :: 0 <= i < |body| ==> LabelFree(body[i])
    case If(_, _, _, thn, els) => LabelFree(thn) && LabelFree(els)
    case While(_, _, loop) => LabelFree(loop)
    case Try(tried, handler) => LabelFree(tried) && LabelFree(handler)
    case _ => true
  }

  // No condition known at compile time, no loop without a way out.
  predicate Open(s: Stmt) {
    match s
    case Block(body) => forall i :: 0 <= i < |body| ==> Open(body[i])
    case If(_, kind, _, thn, els) => kind.Dynamic? && Open(thn) && Open(els)
    case While(_, _, loop) => !Ends(s) && Open(loop)
    case Try(tried, handler) => Open(tried) && Open(handler)
    case _ => true
  }

  // ----- the verdict --------------------------------------------------------

  ghost predicate Judged(ctx: An.Ctx, a: An.Analysed, falls: bool) {
    && (ctx.recursive ==> a.ctx.recursive)
    && (!a.ctx.recursive ==> a.sa == if falls then An.FALLTHROUGH else An.TERMINATED)
  }

  // Where no recursion got in the way, the verdict is the structural one.
  lemma {:induction false} VerdictStmt(p: An.Program, busy: set<An.EntryId>, table: An.Table, ctx: An.Ctx, env: An.Env, s: An.Stmt)
    requires An.Bound(p) && An.BoundStmt(p, s) && An.AnStmt(p, busy, table, ctx, env, s).Ok?
    ensures Judged(ctx, An.AnStmt(p, busy, table, ctx, env, s).value, An.Falls(s))
    decreases s, 2
  {
    hide An.AnExpr, An.Bound;
    match s
    case Block(body) => VerdictBlock(p, busy, table, ctx, env, body, 0);
    case If(_, _, _, _, _) => VerdictIf(p, busy, table, ctx, env, s);
    case While(_, _) => VerdictWhile(p, busy, table, ctx, env, s);
    case Try(_, _) =>
      VerdictStmt(p, busy, table, ctx, env, s.tried);
      var a := An.AnStmt(p, busy, table, ctx, env, s.tried).value;
      VerdictStmt(p, busy, a.table, a.ctx, env, s.handler);
    case _ =>
  }

  lemma {:induction false} VerdictIf(p: An.Program, busy: set<An.EntryId>, table: An.Table, ctx: An.Ctx, env: An.Env, s: An.Stmt)
    requires s.If? && An.Bound(p) && An.BoundStmt(p, s) && An.AnIf(p, busy, table, ctx, env, s).Ok?
    ensures Judged(ctx, An.AnIf(p, busy, table, ctx, env, s).value, An.Falls(s))
    decreases s, 1
  {
    hide An.AnExpr, An.Bound, An.AnBlock, An.AnStmt;
    VerdictBlock(p, busy, table, ctx, env, s.pre, 0);
    var a := An.AnBlock(p, busy, table, ctx, env, s.pre, 0).value;
    assert forall j :: 0 <= j < |s.pre| ==> An.Falls(s.pre[j]);
    if a.sa == An.FALLTHROUGH {
      var c := An.AnExpr(p, busy, a.table, a.env, s.cond).value;
      if !s.kind.StaticFalse? { VerdictStmt(p, busy, c.table, a.ctx, a.env, s.thn); }
      var b1 := An.AnBranch(p, busy, c.table, a.ctx, a.env, if s.kind.StaticFalse? then [] else [s.thn], s).value;
      if !s.kind.StaticTrue? && s.els != [] { VerdictStmt(p, busy, b1.table, b1.ctx, a.env, s.els[0]); }
    }
  }

  lemma {:induction false} VerdictWhile(p: An.Program, busy: set<An.EntryId>, table: An.Table, ctx: An.Ctx, env: An.Env, s: An.Stmt)
    requires s.While? && An.Bound(p) && An.BoundStmt(p, s) && An.AnWhile(p, busy, table, ctx, env, s).Ok?
    ensures Judged(ctx, An.AnWhile(p, busy, table, ctx, env, s).value, An.Falls(s))
    decreases s, 1
  {
    hide An.AnExpr, An.Bound, An.AnBlock, An.AnStmt;
    VerdictBlock(p, busy, table, ctx, env, s.pre, 0);
    var a := An.AnBlock(p, busy, table, ctx, env, s.pre, 0).value;
    assert forall j :: 0 <= j < |s.pre| ==> An.Falls(s.pre[j]);
    if a.sa == An.FALLTHROUGH { VerdictStmt(p, busy, a.table, a.ctx, a.env, s.loop); }
  }

  lemma {:induction false} VerdictBlock(p: An.Program, busy: set<An.EntryId>, table: An.Table, ctx: An.Ctx, env: An.Env, ss: seq<An.Stmt>, i: nat)
    requires An.Bound(p) && i <= |ss| && (forall j :: 0 <= j < |ss| ==> An.BoundStmt(p, ss[j]))
    requires An.AnBlock(p, busy, table, ctx, env, ss, i).Ok?
    ensures Judged(ctx, An.AnBlock(p, busy, table, ctx, env, ss, i).value, forall j :: i <= j < |ss| ==> An.Falls(ss[j]))
    decreases ss, |ss| - i
  {
    hide An.AnExpr, An.Bound, An.AnStmt, An.Falls;
    if i < |ss| {
      VerdictStmt(p, busy, table, ctx, env, ss[i]);
      var a := An.AnStmt(p, busy, table, ctx, env, ss[i]).value;
      if a.sa == An.FALLTHROUGH { VerdictBlock(p, busy, a.table, a.ctx, a.env, ss, i + 1); }
    }
  }

  // ----- the verdict and the flag -------------------------------------------

  // Without labels the flag is set wherever the verdict is; the converse fails
  // only for loops without a way out and for conditions known at compile time.
  lemma {:induction false} VerdictEnds(a: An.Stmt, s: Stmt)
    requires Seen(a, s) && LabelFree(s)
    ensures !An.Falls(a) ==> Ends(s)
    ensures Open(s) ==> Ends(s) == !An.Falls(a)
    decreases s
  {
    match s
    case Block(body) =>
      forall i | 0 <= i < |body|
        ensures !An.Falls(a.body[i]) ==> Ends(body[i])
        ensures Open(body[i]) ==> Ends(body[i]) == !An.Falls(a.body[i])
      {
        VerdictEnds(a.body[i], body[i]);
      }
      EndsSomewhere(body, |body|);
    case If(_, _, _, thn, els) =>
      VerdictEnds(a.thn, thn);
      if |a.els| > 0 {
        VerdictEnds(a.els[0], els);
        assert An.Falls(a) == (!a.kind.Dynamic? || An.Falls(a.thn) || An.Falls(a.els[0]));
      }
    case While(_, _, _) =>
    case Try(tried, handler) => VerdictEnds(a.tried, tried); VerdictEnds(a.handler, handler);
    case _ =>
  }

  lemma {:induction false} EndsSomewhere(ss: seq<Stmt>, n: nat)
    requires n <= |ss| && forall i :: 0 <= i < |ss| ==> LabelFree(ss[i])
    ensures EndsItems(ss, n) <==> exists i :: 0 <= i < n && Ends(ss[i])
  {
    if n > 0 { EndsSomewhere(ss, n - 1); }
  }

  // A label-free body the analysis calls terminated compiles as a body that
  // must return a value, and none of its runs falls off its end.
  lemma TerminatedBody(p: An.Program, busy: set<An.EntryId>, table: An.Table, params: An.Env, a: An.Stmt, body: Stmt, lvl: nat)
    requires An.Bound(p) && An.BoundStmt(p, a) && Seen(a, body) && Proper(body) && LabelFree(body)
    requires An.AnStmt(p, busy, table, An.Ctx(false, None), params, a).Ok?
    requires var r := An.AnStmt(p, busy, table, An.Ctx(false, None), params, a).value;
             r.sa == An.TERMINATED && !r.ctx.recursive
    requires CgStmt(body, Start(), lvl).Ok?
    ensures CgStmt(body, Start(), lvl).value.term && CgFunction(body, true, lvl).Ok?
    ensures forall w, fuel: nat :: Exec(w, body, [], true, fuel).out != Normal
  {
    VerdictStmt(p, busy, table, An.Ctx(false, None), params, a);
    VerdictEnds(a, body);
    EndsStmt(body, Start(), lvl, false, false, {});
    hide Exec;
    forall w, fuel: nat ensures Exec(w, body, [], true, fuel).out != Normal {
      ReturnsSomething(CgFunction(body, true, lvl).value, w, body, lvl, fuel);
    }
  }

  // Some item ends, and no label behind it makes the code alive again.
  predicate EndsForGood(ss: seq<Stmt>) {
    exists i :: 0 <= i < |ss| && Ends(ss[i]) && forall j :: i < j < |ss| ==> !ss[j].Label?
  }

  lemma {:induction false} EndsForGoodIff(ss: seq<Stmt>, n: nat)
    requires n <= |ss|
    ensures EndsItems(ss, n) <==> exists i :: 0 <= i < n && Ends(ss[i]) && forall j :: i < j < n ==> !ss[j].Label?
  {
    if n > 0 {
      EndsForGoodIff(ss, n - 1);
      if EndsItems(ss, n) && !Ends(ss[n - 1]) {
        var i :| 0 <= i < n - 1 && Ends(ss[i]) && forall j :: i < j < n - 1 ==> !ss[j].Label?;
        assert forall j :: i < j < n ==> !ss[j].Label?;
      }
    }
  }

  // With labels, a body that must return a value and whose parts compile is
  // accepted if and only if an item ends for good: that is when a verdict of
  // terminated is right, whatever the analysis has seen.
  lemma AcceptedIff(ss: seq<Stmt>, lvl: nat)
    requires Proper(Block(ss)) && CgStmt(Block(ss), Start(), lvl).Ok?
    ensures CgFunction(Block(ss), true, lvl).Ok? <==> EndsForGood(ss)
    ensures !EndsForGood(ss) ==> CgFunction(Block(ss), true, lvl) == Fail(MissingReturn)
  {
    EndsStmt(Block(ss), Start(), lvl, false, false, {});
    EndsForGoodIff(ss, |ss|);
  }

  // With a label the verdict can be wrong: code behind a goto is alive again.
  lemma LabelRevives(l: string, lvl: nat)
    ensures var body := Block([Goto(l), Label(l)]);
            && Seen(An.Block([An.Leave, An.Other]), body) && !An.Falls(An.Block([An.Leave, An.Other]))
            && Proper(body) && CgFunction(body, true, lvl) == Fail(MissingReturn)
  {
    var ss, a := [Goto(l), Label(l)], Start();
    assert !An.Falls(An.Block([An.Leave, An.Other])) by {
      var as' := [An.Leave, An.Other];
      assert !An.Falls(as'[0]);
      assert !An.Falls(An.Block(as'));
    }
    RevivesProper(l);
    var st0 := NewBlock(a).(labels := a.labels[l := Target(3, 0, 0)]);
    assert CollectLabels(ss, 2, st0) == Ok(st0);
    assert CollectLabels(ss, 1, a) == Ok(st0);
    assert CollectLabels(ss, 0, a) == Ok(st0);
    assert st0.stack[0..] == [] && Destroy([], false, st0, lvl) == Ok(st0);
    assert Jump(st0.labels[l], false, st0, lvl) == Ok(Emit(st0, IBr(3)));
    assert CgItems(ss, 0, Done(st0, false), lvl) == Ok(Done(st0, false));
    assert CgItem(ss, 0, Done(st0, false), lvl) == Ok(Done(Emit(st0, IBr(3)), true));
    assert CgItems(ss, 1, Done(st0, false), lvl) == Ok(Done(Emit(st0, IBr(3)), true));
    assert CgItems(ss, 2, Done(st0, false), lvl) == Ok(Done(Emit(st0, IBr(3)).(cur := 3), false));
    assert CgStmt(Block(ss), a, lvl).Ok? && !CgStmt(Block(ss), a, lvl).value.term by {
      var x := Emit(st0, IBr(3)).(cur := 3);
      assert x.stack[0..] == [] && Destroy([], false, x, lvl) == Ok(x);
    }
  }

  lemma RevivesProper(l: string)
    ensures Proper(Block([Goto(l), Label(l)]))
  {
    var ss := [Goto(l), Label(l)];
    assert LabelsOfAll(ss[..0]) == {} && ss[..1][..0] == [];
    assert LabelsOfAll(ss[..1]) == {} + {};
    assert SegmentStart(ss, 0) == 0 && SegmentStart(ss, 1) == 0;
    assert ss[1].Label? && ss[1].l in Visible(ss, 0);
    assert WellFormedAll(ss, 0, false, false, {});
    assert WellFormedAll(ss, 1, false, false, {});
    assert LabelsOf(ss[0]) == {} && !Bare(ss[0]);
    assert LabelsOfAll(ss[..1]) == {};
    assert WellFormed(ss[1], false, false, {} + Visible(ss, 1));
    assert forall j :: SegmentStart(ss, 1) <= j < 1 ==> !Bare(ss[j]);
    assert WellFormedAll(ss, 2, false, false, {});
  }
}
