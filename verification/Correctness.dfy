// The compiler is correct: a function's graph and its body agree on every run,
// finished or not.
module Correctness {
  import opened Wrappers
  import opened Syntax
  import opened Semantics
  import opened Cfg
  import opened CodegenSpec
  import opened Framing
  import opened Unwinding
  import opened Simulation
  import opened Lifetimes

  // Where a call of the function starts.
  function Entered(): Config { Running(CODE, 0, map[], false, []) }

  // The state of the graph that a result of the body stands for.
  predicate Shows(c: Config, r: Run) {
    match r.out
    case Normal => c == Finished(false, r.t, Replay(r.t))
    case Returned(_) => c == Finished(false, r.t, Replay(r.t))
    case Threw => c == Finished(true, r.t, Replay(r.t))
    case Stuck => c == Wedged(r.t)
    case OutOfFuel => c.Running? && c.t == r.t
    case _ => false
  }

  // A function body the compiler is given.
  predicate Proper(body: Stmt) {
    WellFormed(body, false, false, {}) && !Bare(body)
  }

  lemma StartReady()
    ensures Ready(Start(), {}) && Within(Start())
    ensures At(Start().code, CODE) == [] && At(Start().code, RETURN) == [] && At(Start().code, EXCEPTION) == []
  {
  }

  // The parts of a compiled function.
  lemma FunctionCode(body: Stmt, needsReturn: bool, lvl: nat, g: Code)
    requires Proper(body) && CgFunction(body, needsReturn, lvl) == Ok(g)
    ensures CgStmt(body, Start(), lvl).Ok?
    ensures var d := CgStmt(body, Start(), lvl).value;
            && Sub(d.st.code, g) && d.st.stack == []
            && (!d.term ==> Sub(Emit(d.st, IBr(RETURN)).code, g))
            && At(g, RETURN) == [IRet(false)] && At(g, EXCEPTION) == [IRet(true)]
            && (needsReturn ==> d.term)
  {
    hide Sub, Tame, Ext, LabelsKept;
    StartReady();
    FrameStmt(body, Start(), lvl, false, false, {});
    var d := CgStmt(body, Start(), lvl).value;
    var st1 := if d.term then d.st else Emit(d.st, IBr(RETURN));
    if !d.term {
      assert d.st.stack[0..] == [];
      assert Destroy([], false, d.st, lvl) == Ok(d.st);
      assert Jump(Target(RETURN, 0, 0), false, d.st, lvl) == Ok(st1);
      EmitFrame(Start(), d.st, IBr(RETURN), LabelsOf(body));
    }
    assert d.st.stack == [] && st1.stack == [];
    Untouched(Start(), st1, RETURN);
    Untouched(Start(), st1, EXCEPTION);
    Landing(st1, g);
    if !d.term { SubEmit(d.st, IBr(RETURN), g); }
  }

  lemma Landing(st1: Ctx, g: Code)
    requires g == Emit(Emit(st1.(cur := RETURN), IRet(false)).(cur := EXCEPTION), IRet(true)).code
    requires At(st1.code, RETURN) == [] && At(st1.code, EXCEPTION) == []
    ensures Sub(st1.code, g) && At(g, RETURN) == [IRet(false)] && At(g, EXCEPTION) == [IRet(true)]
  {
    var x := Emit(st1.(cur := RETURN), IRet(false));
    assert forall b: nat :: At(g, b) == if b == EXCEPTION then [IRet(true)] else At(x.code, b);
    assert forall b: nat :: At(x.code, b) == if b == RETURN then [IRet(false)] else At(st1.code, b);
  }

  // Control at the return or exception block is about to leave the function.
  lemma Leaving(g: Code, w: World, c: Config, exn: bool)
    requires At(g, RETURN) == [IRet(false)] && At(g, EXCEPTION) == [IRet(true)]
    requires AtBlock(c, if exn then EXCEPTION else RETURN)
    ensures Reaches(g, w, c, Finished(exn, c.t, c.mem), 1)
  {
    OneStep(g, w, c);
  }

  // Whatever the body does within its fuel, the graph does, in at least as many
  // steps as the fuel used up.
  lemma Preserved(g: Code, w: World, body: Stmt, needsReturn: bool, lvl: nat, fuel: nat) returns (k: nat)
    requires Proper(body) && CgFunction(body, needsReturn, lvl) == Ok(g)
    ensures var r := Exec(w, body, [], true, fuel);
            Shows(Steps(g, w, Entered(), k), r) && (r.out == OutOfFuel ==> k >= fuel) && (needsReturn ==> r.out != Normal)
  {
    hide CgStmt, Exec, Sub, Within, Reaches, Tame;
    StartReady();
    FunctionCode(body, needsReturn, lvl, g);
    var d := CgStmt(body, Start(), lvl).value;
    var c1 := SimStmt(g, w, body, Start(), lvl, Entered(), fuel, false, false, {});
    SpentStmt(w, body, [], true, fuel);
    k := Arrived(g, w, Exec(w, body, [], true, fuel), d, fuel, c1);
  }

  lemma Arrived(g: Code, w: World, r: Run, d: Done, fuel: nat, c1: Config) returns (k: nat)
    requires Match(g, w, Entered(), c1, r, Start(), d, {}, fuel) && d.st.stack == [] && (r.out == OutOfFuel ==> r.fuel == 0)
    requires !d.term ==> Sub(Emit(d.st, IBr(RETURN)).code, g)
    requires At(g, RETURN) == [IRet(false)] && At(g, EXCEPTION) == [IRet(true)]
    ensures Shows(Steps(g, w, Entered(), k), r) && (r.out == OutOfFuel ==> k >= fuel) && (d.term ==> r.out != Normal)
  {
    assert Start().stack[0..] == [];
    assert Finish(w, r, []) == r;
    var c2 := c1;
    if r.out == Normal {
      Execute(g, w, d.st, IBr(RETURN), c1);
      c2 := Do(w, c1, IBr(RETURN));
      Chain(g, w, Entered(), c1, c2, fuel - r.fuel, 1);
    }
    if Halting(r.out) && r.out != Normal {
      var j: nat :| j >= fuel - r.fuel && Steps(g, w, Entered(), j) == c1;
      return j;
    }
    Leaving(g, w, c2, r.out == Threw);
    var n :| Reaches(g, w, Entered(), c2, n);
    var f := Finished(r.out == Threw, c2.t, c2.mem);
    Chain(g, w, Entered(), c2, f, n, 1);
    var j: nat :| j >= n + 1 && Steps(g, w, Entered(), j) == f;
    StepsRemember(g, w, Entered(), j);
    return j;
  }

  // ----- the theorems -------------------------------------------------------

  // A body that comes to an end makes its graph come to the same end.
  lemma Preservation(g: Code, w: World, body: Stmt, needsReturn: bool, lvl: nat, fuel: nat) returns (k: nat)
    requires Proper(body) && CgFunction(body, needsReturn, lvl) == Ok(g)
    requires Exec(w, body, [], true, fuel).out != OutOfFuel
    ensures !Steps(g, w, Entered(), k).Running?
    ensures Shows(Steps(g, w, Entered(), k), Exec(w, body, [], true, fuel))
  {
    k := Preserved(g, w, body, needsReturn, lvl, fuel);
  }

  // A graph that stops has done what its body does.
  lemma Reflection(g: Code, w: World, body: Stmt, needsReturn: bool, lvl: nat, k: nat)
    requires Proper(body) && CgFunction(body, needsReturn, lvl) == Ok(g)
    requires !Steps(g, w, Entered(), k).Running?
    ensures Exec(w, body, [], true, k + 1).out != OutOfFuel
    ensures Shows(Steps(g, w, Entered(), k), Exec(w, body, [], true, k + 1))
  {
    hide *;
    var j := Preserved(g, w, body, needsReturn, lvl, k + 1);
    Reflected(g, w, j, k, Exec(w, body, [], true, k + 1));
  }

  lemma Reflected(g: Code, w: World, j: nat, k: nat, r: Run)
    requires Shows(Steps(g, w, Entered(), j), r) && (r.out == OutOfFuel ==> j >= k + 1)
    requires !Steps(g, w, Entered(), k).Running?
    ensures r.out != OutOfFuel && Shows(Steps(g, w, Entered(), k), r)
  {
    hide Steps, Replay;
    if j <= k { StoppedStays(g, w, Entered(), j, k); } else { StoppedStays(g, w, Entered(), k, j); }
  }

  lemma Followed(g: Code, w: World, j: nat, k: nat, r: Run)
    requires Shows(Steps(g, w, Entered(), j), r) && (r.out == OutOfFuel ==> j >= k + 1)
    ensures Steps(g, w, Entered(), k).t <= r.t
  {
    hide Steps, Replay;
    if j <= k {
      StoppedStays(g, w, Entered(), j, k);
    } else {
      StepsAdd(g, w, Entered(), k, j - k);
      TraceGrows(g, w, Steps(g, w, Entered(), k), j - k);
    }
  }

  // The graph runs for ever exactly when the body does.
  lemma Divergence(g: Code, w: World, body: Stmt, needsReturn: bool, lvl: nat)
    requires Proper(body) && CgFunction(body, needsReturn, lvl) == Ok(g)
    ensures (forall k: nat :: Steps(g, w, Entered(), k).Running?)
       <==> (forall fuel: nat :: Exec(w, body, [], true, fuel).out == OutOfFuel)
  {
    if forall k: nat :: Steps(g, w, Entered(), k).Running? {
      forall fuel: nat ensures Exec(w, body, [], true, fuel).out == OutOfFuel {
        var k := Preserved(g, w, body, needsReturn, lvl, fuel);
        assert Steps(g, w, Entered(), k).Running?;
      }
    } else {
      var k: nat :| !Steps(g, w, Entered(), k).Running?;
      Reflection(g, w, body, needsReturn, lvl, k);
    }
  }

  // Everything a running graph has done, the body does too, given fuel: at every
  // moment the trace is a prefix of what the reference semantics produces.
  lemma Prefixes(g: Code, w: World, body: Stmt, needsReturn: bool, lvl: nat, k: nat)
    requires Proper(body) && CgFunction(body, needsReturn, lvl) == Ok(g)
    ensures Steps(g, w, Entered(), k).t <= Exec(w, body, [], true, k + 1).t
  {
    hide *;
    var j := Preserved(g, w, body, needsReturn, lvl, k + 1);
    Followed(g, w, j, k, Exec(w, body, [], true, k + 1));
  }

  // More fuel does not change a result: read off the graph, which has none.
  lemma FuelIrrelevant(g: Code, w: World, body: Stmt, needsReturn: bool, lvl: nat, f1: nat, f2: nat)
    requires Proper(body) && CgFunction(body, needsReturn, lvl) == Ok(g)
    requires Exec(w, body, [], true, f1).out != OutOfFuel && Exec(w, body, [], true, f2).out != OutOfFuel
    ensures Exec(w, body, [], true, f1).t == Exec(w, body, [], true, f2).t
    ensures Exec(w, body, [], true, f1).out == Threw <==> Exec(w, body, [], true, f2).out == Threw
  {
    var j := Preserved(g, w, body, needsReturn, lvl, f1);
    var k := Preserved(g, w, body, needsReturn, lvl, f2);
    if j <= k { StoppedStays(g, w, Entered(), j, k); } else { StoppedStays(g, w, Entered(), k, j); }
  }

  // A function that must return a value and compiles never falls off its end.
  lemma ReturnsSomething(g: Code, w: World, body: Stmt, lvl: nat, fuel: nat)
    requires Proper(body) && CgFunction(body, true, lvl) == Ok(g)
    ensures Exec(w, body, [], true, fuel).out != Normal
  {
    var k := Preserved(g, w, body, true, lvl, fuel);
  }

  // ----- lifetimes in the graph ---------------------------------------------

  // At every moment of every run of the graph, finished or not, only the newest
  // value of its kind has ever been destroyed, counting calls in cleanup bodies
  // as having built their outputs.
  lemma GraphNeverOverdestroys(g: Code, w: World, body: Stmt, outs: seq<Slot>, needsReturn: bool, lvl: nat, n: nat, k: Kind)
    requires Wholesome(body, outs) && CgFunction(body, needsReturn, lvl) == Ok(g)
    ensures var t := Steps(g, w, Entered(), n).t;
            Live(t, k, true).Some? && (Clean(t) ==> Live(t, k, false).Some?)
  {
    hide Live, Exec, Steps;
    var t := Steps(g, w, Entered(), n).t;
    Prefixes(g, w, body, needsReturn, lvl, n);
    Accounted(w, body, outs, n + 1, k);
    LivePrefix(t, Exec(w, body, [], true, n + 1).t, k, true);
    if Clean(t) { CleanLive(t, k); }
  }

  // A run of the graph that leaves the function has destroyed everything it
  // built exactly once, in reverse order, except results handed over by a
  // return, if and only if no call in a cleanup body threw where its output
  // needs destroying.
  lemma GraphExactlyOnce(g: Code, w: World, body: Stmt, outs: seq<Slot>, needsReturn: bool, lvl: nat, n: nat)
    requires Wholesome(body, outs) && CgFunction(body, needsReturn, lvl) == Ok(g)
    requires Steps(g, w, Entered(), n).Finished?
    ensures var c := Steps(g, w, Entered(), n);
            var handed := !c.exn && Exec(w, body, [], true, n + 1).out.Returned?;
            && ((forall k :: Live(c.t, k, false) == Some(if handed then Keep(outs, k) else [])) <==> Clean(c.t))
            && (needsReturn && !c.exn ==> handed)
  {
    hide Live, Exec, Steps, Keep;
    Reflection(g, w, body, needsReturn, lvl, n);
    ExactlyOnce(w, body, outs, n + 1);
    if needsReturn { ReturnsSomething(g, w, body, lvl, n + 1); }
  }

  // ----- what the compiler turns away ---------------------------------------

  // A binding in dead code stops the collection of labels: a label behind it is
  // missing when its turn comes, and compilation stops there.
  lemma DeadBindingHidesLabel(l: string, lvl: nat)
    ensures var body := Block([Return([]), Var([]), Label(l)]);
            Proper(body) && CgFunction(body, false, lvl) == Fail(AssertionFailed)
  {
    DeadBindingProper(l);
    DeadBindingFails(l, lvl);
  }

  lemma DeadBindingProper(l: string)
    ensures Proper(Block([Return([]), Var([]), Label(l)]))
  {
    var ss := [Return([]), Var([]), Label(l)];
    assert ss[..1][..0] == [] && ss[..2][..1] == ss[..1];
    assert LabelsOfAll(ss[..0]) == {};
    assert LabelsOfAll(ss[..1]) == {} + {};
    assert LabelsOfAll(ss[..2]) == {} + {};
    assert SegmentStart(ss, 2) == 2;
    assert WellFormedAll(ss, 0, false, false, {});
    assert WellFormedAll(ss, 1, false, false, {});
    assert WellFormedAll(ss, 2, false, false, {});
    assert WellFormedAll(ss, 3, false, false, {});
  }

  lemma DeadBindingFails(l: string, lvl: nat)
    ensures CgFunction(Block([Return([]), Var([]), Label(l)]), false, lvl) == Fail(AssertionFailed)
  {
    var ss, a := [Return([]), Var([]), Label(l)], Start();
    var d0 := Done(a, false);
    var x := Emit(a, IBr(RETURN));
    assert CollectLabels(ss, 1, a) == Ok(a);
    assert CollectLabels(ss, 0, a) == Ok(a);
    assert CgInits([], 0, a, lvl) == Ok(a) && CgMultiInto([], a, lvl) == Ok(a);
    assert a.stack[0..] == [] && Destroy([], false, a, lvl) == Ok(a);
    assert Jump(a.rets[0], false, a, lvl) == Ok(x);
    assert CgItems(ss, 0, d0, lvl) == Ok(d0);
    assert CgItem(ss, 0, d0, lvl) == Ok(Done(x, true));
    assert CgItems(ss, 1, d0, lvl) == Ok(Done(x, true));
    assert CgItems(ss, 2, d0, lvl) == Ok(Done(x, true));
    assert CgItem(ss, 2, Done(x, true), lvl) == Fail(AssertionFailed);
    assert CgItems(ss, 3, d0, lvl) == Fail(AssertionFailed);
    assert CgStmt(Block(ss), a, lvl) == Fail(AssertionFailed);
  }
}
