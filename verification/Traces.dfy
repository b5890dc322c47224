// What the events of a run can be, judged by the text of the program: calls in
// cleanup bodies, and what is stored in the results of a function.
module Traces {
  import opened Wrappers
  import opened Syntax
  import opened Semantics
  import opened Cfg
  import opened CodegenSpec
  import opened Framing
  import opened Unwinding
  import opened Lifetimes
  import opened Correctness

  // NothingMissed: a call that is not tested for exceptions has an output that
  // needs no destruction. ResultsKept: nothing is stored in a result.
  datatype Rule = NothingMissed | ResultsKept

  predicate Allows(m: Rule, e: Event) {
    match m
    case NothingMissed => e.Called? && !e.checked ==> e.out.prim
    case ResultsKept => !e.Destroyed? ==> e.out.kind != Result
  }

  // Calls have outputs that need no destruction.
  predicate CallsPrim(e: Expr, out: Slot) {
    match e
    case Lit(_, _) => true
    case Call(_, args, _, _) => out.prim && forall i :: 0 <= i < |args| ==> CallsPrim(args[i], Home(args[i]))
    case And(l, r, _) => CallsPrim(l, Home(l)) && CallsPrim(r, Home(r))
    case Or(l, r, _) => CallsPrim(l, Home(l)) && CallsPrim(r, Home(r))
  }

  predicate ExprSuits(e: Expr, out: Slot, check: bool, m: Rule) {
    match m
    case NothingMissed => check || CallsPrim(e, out)
    case ResultsKept => out.kind != Result
  }

  predicate InitsSuit(inits: seq<Init>, check: bool, m: Rule) {
    forall i :: 0 <= i < |inits| ==> ExprSuits(inits[i].e, inits[i].out, check, m)
  }

  // Programs whose events the rule allows; check is false in cleanup bodies.
  predicate Suits(s: Stmt, check: bool, m: Rule)
    decreases s, 0
  {
    match s
    case Block(body) => SuitsAll(body, check, m)
    case Var(inits) => InitsSuit(inits, check, m)
    case Eval(e) => ExprSuits(e, Home(e), check, m)
    case Return(inits) => InitsSuit(inits, check, m)
    case Throw(args) => forall i :: 0 <= i < |args| ==> ExprSuits(args[i], Home(args[i]), check, m)
    case If(pre, _, cond, thn, els) =>
      SuitsAll(pre, check, m) && ExprSuits(cond, Home(cond), check, m) && Suits(thn, check, m) && Suits(els, check, m)
    case While(pre, cond, loop) =>
      SuitsAll(pre, check, m) && ExprSuits(cond, Home(cond), check, m) && Suits(loop, check, m)
    case Try(tried, handler) => Suits(tried, check, m) && Suits(handler, check, m)
    case Finally(b) => SuitsAll(b, false, m)
    case OnError(b) => SuitsAll(b, false, m)
    case _ => true
  }

  predicate SuitsAll(ss: seq<Stmt>, check: bool, m: Rule)
    decreases ss, 0
  {
    forall i :: 0 <= i < |ss| ==> Suits(ss[i], check, m)
  }

  predicate SuitEntries(es: seq<Entry>, m: Rule) {
    forall i :: 0 <= i < |es| && !es[i].Value? ==> SuitsAll(es[i].body, false, m)
  }

  lemma {:induction false} OwnSuits(ss: seq<Stmt>, i: nat, check: bool, m: Rule)
    requires i <= |ss| && SuitsAll(ss, check, m)
    ensures SuitEntries(Own(ss, i), m)
  {
    if i > 0 {
      OwnSuits(ss, i - 1, check, m);
      assert Suits(ss[i - 1], check, m);
    }
  }

  // t' has some events more, all of them allowed.
  predicate Grew(t: Trace, t': Trace, m: Rule) {
    t <= t' && forall i :: |t| <= i < |t'| ==> Allows(m, t'[i])
  }

  lemma GrewThen(t: Trace, t': Trace, t'': Trace, m: Rule)
    requires Grew(t, t', m) && Grew(t', t'', m)
    ensures Grew(t, t'', m)
  {
  }

  lemma GrewOne(t: Trace, e: Event, m: Rule)
    requires Allows(m, e)
    ensures Grew(t, t + [e], m)
  {
  }

  // ----- expressions --------------------------------------------------------

  lemma {:induction false} DropGrew(vs: seq<Slot>, t: Trace, m: Rule)
    ensures Grew(t, DropAll(vs, t), m)
  {
    if vs != [] {
      var v := vs[|vs| - 1];
      GrewOne(t, Destroyed(v), m);
      DropGrew(vs[..|vs| - 1], Drop(v, t), m);
      GrewThen(t, Drop(v, t), DropAll(vs, t), m);
    }
  }

  // Operands are evaluated into temporaries.
  lemma OperandSuits(e: Expr, out: Slot, x: Expr, check: bool, m: Rule)
    requires ExprSuits(e, out, check, m)
    requires (e.Call? && x in e.args) || ((e.And? || e.Or?) && (x == e.l || x == e.r))
    ensures ExprSuits(x, Home(x), check, m)
  {
  }

  lemma {:induction false} IntoGrew(w: World, e: Expr, out: Slot, t: Trace, check: bool, m: Rule)
    requires ExprSuits(e, out, check, m)
    ensures Grew(t, EvalInto(w, e, out, t, check).t, m)
    decreases e, 1
  {
    match e
    case Lit(b, _) => GrewOne(t, Stored(out, b), m);
    case Call(f, args, _, _) =>
      forall i | 0 <= i < |args| ensures ExprSuits(args[i], Home(args[i]), check, m) { OperandSuits(e, out, args[i], check, m); }
      ArgsGrew(w, args, |args|, t, check, m);
      var a := EvalArgs(w, args, |args|, t, check);
      if !a.threw {
        var reply := Answer(w, a.t, f, Homes(args));
        GrewOne(a.t, Called(f, Homes(args), out, reply.flag, reply.threw, check), m);
      }
    case And(_, _, _) => BothGrew(w, e, out, t, check, m);
    case Or(_, _, _) => BothGrew(w, e, out, t, check, m);
  }

  lemma {:induction false} BothGrew(w: World, e: Expr, out: Slot, t: Trace, check: bool, m: Rule)
    requires (e.And? || e.Or?) && ExprSuits(e, out, check, m)
    ensures Grew(t, EvalInto(w, e, out, t, check).t, m)
    decreases e, 0
  {
    hide Grew;
    OperandSuits(e, out, e.l, check, m);
    OperandSuits(e, out, e.r, check, m);
    IntoGrew(w, e.l, Home(e.l), t, check, m);
    var a := EvalRef(w, e.l, t, check);
    if !a.threw {
      GrewOne(a.t, Stored(out, a.flag), m);
      GrewThen(t, a.t, a.t + [Stored(out, a.flag)], m);
      if a.flag != e.Or? {
        IntoGrew(w, e.r, Home(e.r), a.t, check, m);
        var b := EvalRef(w, e.r, a.t, check);
        GrewThen(t, a.t, b.t, m);
        var t' := b.t + [Stored(out, b.flag)];
        GrewOne(b.t, Stored(out, b.flag), m);
        DropGrew(b.temps, t', m);
        GrewThen(t, b.t, t', m);
        GrewThen(t, t', DropAll(b.temps, t'), m);
      }
    }
  }

  lemma {:induction false} ArgsGrew(w: World, args: seq<Expr>, n: nat, t: Trace, check: bool, m: Rule)
    requires n <= |args| && forall i :: 0 <= i < |args| ==> ExprSuits(args[i], Home(args[i]), check, m)
    ensures Grew(t, EvalArgs(w, args, n, t, check).t, m)
    decreases args, n
  {
    hide Grew, ExprSuits;
    if n == 0 {
      DropGrew([], t, m);
    } else {
      ArgsGrew(w, args, n - 1, t, check, m);
      var a := EvalArgs(w, args, n - 1, t, check);
      if !a.threw {
        IntoGrew(w, args[n - 1], Home(args[n - 1]), a.t, check, m);
        var b := EvalRef(w, args[n - 1], a.t, check);
        assert b.t == EvalInto(w, args[n - 1], Home(args[n - 1]), a.t, check).t;
        assert EvalArgs(w, args, n, t, check).t == b.t;
        GrewThen(t, a.t, b.t, m);
      }
    }
  }

  lemma WholeGrew(w: World, e: Expr, t: Trace, check: bool, m: Rule)
    requires ExprSuits(e, Home(e), check, m)
    ensures Grew(t, EvalWhole(w, e, t, check).t, m)
  {
    IntoGrew(w, e, Home(e), t, check, m);
    var a := EvalRef(w, e, t, check);
    DropGrew(a.temps, a.t, m);
    GrewThen(t, a.t, EvalWhole(w, e, t, check).t, m);
  }

  lemma {:induction false} InitsGrew(w: World, inits: seq<Init>, n: nat, t: Trace, check: bool, m: Rule)
    requires n <= |inits| && InitsSuit(inits, check, m)
    ensures Grew(t, EvalInits(w, inits, n, t, check).t, m)
  {
    hide Grew;
    if n == 0 {
      assert Grew(t, t, m) by { DropGrew([], t, m); }
    } else {
      InitsGrew(w, inits, n - 1, t, check, m);
      var a := EvalInits(w, inits, n - 1, t, check);
      if a.out == Normal {
        var e, out := inits[n - 1].e, inits[n - 1].out;
        IntoGrew(w, e, out, a.t, check, m);
        var b := EvalInto(w, e, out, a.t, check);
        var t' := DropAll(b.temps, b.t);
        DropGrew(b.temps, b.t, m);
        GrewThen(t, a.t, b.t, m);
        GrewThen(t, b.t, t', m);
        DropGrew(Slots(inits[..n - 1]), t', m);
        GrewThen(t, t', DropAll(Slots(inits[..n - 1]), t'), m);
      }
    }
  }

  lemma ThrowGrew(w: World, args: seq<Expr>, t: Trace, check: bool, fuel: nat, m: Rule)
    requires Suits(Throw(args), check, m)
    ensures Grew(t, Exec(w, Throw(args), t, check, fuel).t, m)
  {
    hide Grew;
    ArgsGrew(w, args, |args|, t, check, m);
    var a := EvalArgs(w, args, |args|, t, check);
    var t' := if a.threw then a.t else a.t + [Called(ThrowValue, Homes(args), Slot(Temp, 0, true), false, true, check)];
    if !a.threw {
      GrewOne(a.t, Called(ThrowValue, Homes(args), Slot(Temp, 0, true), false, true, check), m);
      GrewThen(t, a.t, t', m);
    }
    DropGrew(a.temps, t', m);
    GrewThen(t, t', DropAll(a.temps, t'), m);
  }

  // ----- statements ---------------------------------------------------------

  lemma {:induction false} StmtGrew(w: World, s: Stmt, t: Trace, check: bool, fuel: nat, m: Rule)
    requires Suits(s, check, m)
    ensures Grew(t, Exec(w, s, t, check, fuel).t, m)
    decreases fuel, Size(s), 2
  {
    match s
    case Block(body) => BlockGrew(w, body, 0, t, check, fuel, m);
    case Var(inits) => InitsGrew(w, inits, |inits|, t, check, m);
    case Eval(e) => WholeGrew(w, e, t, check, m);
    case Return(inits) => InitsGrew(w, inits, |inits|, t, check, m);
    case Throw(args) => ThrowGrew(w, args, t, check, fuel, m);
    case If(_, _, _, _, _) => IfGrew(w, s, t, check, fuel, m);
    case While(_, _, _) => WhileGrew(w, s, t, check, fuel, m);
    case Try(tried, handler) =>
      StmtGrew(w, tried, t, check, fuel, m);
      var r := Exec(w, tried, t, check, fuel);
      if r.out == Threw {
        StmtGrew(w, handler, r.t, check, r.fuel, m);
        GrewThen(t, r.t, Exec(w, s, t, check, fuel).t, m);
      }
    case _ =>
  }

  lemma {:induction false} IfGrew(w: World, s: Stmt, t: Trace, check: bool, fuel: nat, m: Rule)
    requires s.If? && Suits(s, check, m)
    ensures Grew(t, Exec(w, s, t, check, fuel).t, m)
    decreases fuel, Size(s), 1
  {
    hide Grew, Finish, EvalWhole, ExecPre;
    PreGrew(w, s.pre, |s.pre|, t, check, fuel, m);
    var p := ExecPre(w, s.pre, |s.pre|, t, check, fuel);
    if p.out == Normal {
      WholeGrew(w, s.cond, p.t, check, m);
      var c := EvalWhole(w, s.cond, p.t, check);
      GrewThen(t, p.t, c.t, m);
      OwnLight(s.pre, |s.pre|);
      OwnSuits(s.pre, |s.pre|, check, m);
      var part := if s.kind.StaticTrue? || (s.kind.Dynamic? && c.flag) then s.thn else s.els;
      var r := if c.threw then Run(Threw, c.t, p.fuel) else Exec(w, part, c.t, check, p.fuel);
      if !c.threw {
        StmtGrew(w, part, c.t, check, p.fuel, m);
        GrewThen(t, c.t, r.t, m);
      }
      FinishGrew(w, r, Own(s.pre, |s.pre|), m);
      GrewThen(t, r.t, Finish(w, r, Own(s.pre, |s.pre|)).t, m);
    }
  }

  lemma {:induction false} WhileGrew(w: World, s: Stmt, t: Trace, check: bool, fuel: nat, m: Rule)
    requires s.While? && Suits(s, check, m)
    ensures Grew(t, Exec(w, s, t, check, fuel).t, m)
    decreases fuel, Size(s), 1
  {
    assert Grew(t, t, m);
    hide Grew, Finish, EvalWhole, ExecPre;
    if fuel > 0 {
      PreGrew(w, s.pre, |s.pre|, t, check, fuel - 1, m);
      var p := ExecPre(w, s.pre, |s.pre|, t, check, fuel - 1);
      if p.out == Normal {
        WholeGrew(w, s.cond, p.t, check, m);
        var c := EvalWhole(w, s.cond, p.t, check);
        GrewThen(t, p.t, c.t, m);
        OwnLight(s.pre, |s.pre|);
        OwnSuits(s.pre, |s.pre|, check, m);
        var r := if c.threw then Run(Threw, c.t, p.fuel) else if c.flag then Exec(w, s.loop, c.t, check, p.fuel) else Run(Broke, c.t, p.fuel);
        if !c.threw && c.flag {
          StmtGrew(w, s.loop, c.t, check, p.fuel, m);
          GrewThen(t, c.t, r.t, m);
        }
        FinishGrew(w, LoopExit(r), Own(s.pre, |s.pre|), m);
        var r' := Leave(w, LoopExit(r), s.pre, |s.pre|);
        GrewThen(t, r.t, r'.t, m);
        if r'.out == Normal && r.out != Broke {
          StmtGrew(w, s, r'.t, check, r'.fuel, m);
          GrewThen(t, r'.t, Exec(w, s, r'.t, check, r'.fuel).t, m);
        }
      }
    }
  }

  lemma {:induction false} PreGrew(w: World, pre: seq<Stmt>, n: nat, t: Trace, check: bool, fuel: nat, m: Rule)
    requires n <= |pre| && SuitsAll(pre, check, m)
    ensures Grew(t, ExecPre(w, pre, n, t, check, fuel).t, m)
    decreases fuel, SizeAll(pre), 1, n
  {
    assert Grew(t, t, m);
    hide Grew, Finish, Exec;
    if n > 0 {
      PreGrew(w, pre, n - 1, t, check, fuel, m);
      var a := ExecPre(w, pre, n - 1, t, check, fuel);
      if a.out == Normal {
        SizeOfItem(pre, n - 1);
        StmtGrew(w, pre[n - 1], a.t, check, a.fuel, m);
        var r := Exec(w, pre[n - 1], a.t, check, a.fuel);
        GrewThen(t, a.t, r.t, m);
        OwnLight(pre, n - 1);
        OwnSuits(pre, n - 1, check, m);
        FinishGrew(w, r, Own(pre, n - 1), m);
        GrewThen(t, r.t, Finish(w, r, Own(pre, n - 1)).t, m);
      }
    }
  }

  lemma {:induction false} BlockGrew(w: World, ss: seq<Stmt>, i: nat, t: Trace, check: bool, fuel: nat, m: Rule)
    requires i <= |ss| && SuitsAll(ss, check, m)
    ensures Grew(t, ExecBlock(w, ss, i, t, check, fuel).t, m)
    decreases fuel, SizeAll(ss), 1, |ss| - i
  {
    hide *;
    BlockIs(w, ss, i, t, check, fuel);
    if i == |ss| {
      LeaveGrew(w, Run(Normal, t, fuel), ss, i, check, m);
      return;
    }
    SizeOfItem(ss, i);
    StmtGrew(w, ss[i], t, check, fuel, m) by { ItemSuits(ss, i, check, m); }
    var r := Exec(w, ss[i], t, check, fuel);
    if r.out == Normal {
      BlockGrew(w, ss, i + 1, r.t, check, r.fuel, m);
    } else if r.out.Went? && FindLabel(ss, r.out.l, i) >= 0 {
      GotoGrew(w, ss, i, r, check, fuel, m);
    } else {
      LeaveGrew(w, r, ss, i, check, m);
    }
    GrewThen(t, r.t, ExecBlock(w, ss, i, t, check, fuel).t, m);
  }

  lemma ItemSuits(ss: seq<Stmt>, i: nat, check: bool, m: Rule)
    requires i < |ss| && SuitsAll(ss, check, m)
    ensures Suits(ss[i], check, m)
  {
  }

  // A block, item by item.
  lemma BlockIs(w: World, ss: seq<Stmt>, i: nat, t: Trace, check: bool, fuel: nat)
    requires i <= |ss|
    ensures i == |ss| ==> ExecBlock(w, ss, i, t, check, fuel) == Leave(w, Run(Normal, t, fuel), ss, i)
    ensures i < |ss| ==>
              var r := Exec(w, ss[i], t, check, fuel);
              && (r.out == Normal ==> ExecBlock(w, ss, i, t, check, fuel) == ExecBlock(w, ss, i + 1, r.t, check, r.fuel))
              && (r.out != Normal && !(r.out.Went? && FindLabel(ss, r.out.l, i) >= 0) ==>
                    ExecBlock(w, ss, i, t, check, fuel) == Leave(w, r, ss, i))
              && (r.out.Went? && FindLabel(ss, r.out.l, i) >= 0 ==>
                    var q := FindLabel(ss, r.out.l, i);
                    var u := Unwind(w, Own(ss, i)[Height(ss, q, i)..], false, r.t, r.fuel);
                    ExecBlock(w, ss, i, t, check, fuel) ==
                      if u.out != Normal then u
                      else if u.fuel == 0 then Run(OutOfFuel, u.t, 0)
                      else ExecBlock(w, ss, q + 1, u.t, check, u.fuel - 1))
  {
    hide Exec, Unwind, Own, FindLabel, Height, Leave, Size, SizeAll;
  }

  lemma LeaveGrew(w: World, r: Run, ss: seq<Stmt>, i: nat, check: bool, m: Rule)
    requires i <= |ss| && SuitsAll(ss, check, m)
    ensures Grew(r.t, Leave(w, r, ss, i).t, m)
    decreases r.fuel, SizeAll(ss), 0
  {
    OwnLight(ss, i);
    OwnSuits(ss, i, check, m);
    FinishGrew(w, r, Own(ss, i), m);
  }

  lemma {:induction false} GotoGrew(w: World, ss: seq<Stmt>, i: nat, r: Run, check: bool, fuel: nat, m: Rule)
    requires i < |ss| && r.out.Went? && FindLabel(ss, r.out.l, i) >= 0 && r.fuel <= fuel && SuitsAll(ss, check, m)
    ensures var q := FindLabel(ss, r.out.l, i);
            var u := Unwind(w, Own(ss, i)[Height(ss, q, i)..], false, r.t, r.fuel);
            && Grew(r.t, u.t, m)
            && (u.out == Normal && u.fuel > 0 ==> Grew(r.t, ExecBlock(w, ss, q + 1, u.t, check, u.fuel - 1).t, m))
    decreases fuel, SizeAll(ss), 1, 0
  {
    hide Exec, ExecBlock, Unwind, Own, Grew;
    var q := FindLabel(ss, r.out.l, i);
    var es := Own(ss, i)[Height(ss, q, i)..];
    KeptLight(ss, i, Height(ss, q, i));
    OwnSuits(ss, i, check, m);
    UnwindGrew(w, es, false, r.t, r.fuel, m);
    var u := Unwind(w, es, false, r.t, r.fuel);
    if u.out == Normal && u.fuel > 0 {
      BlockGrew(w, ss, q + 1, u.t, check, u.fuel - 1, m);
      GrewThen(r.t, u.t, ExecBlock(w, ss, q + 1, u.t, check, u.fuel - 1).t, m);
    }
  }

  lemma FinishGrew(w: World, r: Run, es: seq<Entry>, m: Rule)
    requires SuitEntries(es, m)
    ensures Grew(r.t, Finish(w, r, es).t, m)
    decreases r.fuel, Weight(es), |es| + 1
  {
    UnwindGrew(w, es, r.out == Threw, r.t, r.fuel, m);
  }

  lemma {:induction false} UnwindGrew(w: World, es: seq<Entry>, exn: bool, t: Trace, fuel: nat, m: Rule)
    requires SuitEntries(es, m)
    ensures Grew(t, Unwind(w, es, exn, t, fuel).t, m)
    decreases fuel, Weight(es), |es|
  {
    if es != [] {
      var e := es[|es| - 1];
      var r := match e
        case Value(v) => Run(Normal, Drop(v, t), fuel)
        case Final(b) => Exec(w, Block(b), t, false, fuel)
        case Error(b) => if exn then Exec(w, Block(b), t, false, fuel) else Run(Normal, t, fuel);
      if e.Value? { GrewOne(t, Destroyed(e.v), m); } else { StmtGrew(w, Block(e.body), t, false, fuel, m); }
      UnwindGrew(w, es[..|es| - 1], exn, r.t, r.fuel, m);
      GrewThen(t, r.t, Unwind(w, es[..|es| - 1], exn, r.t, r.fuel).t, m);
    }
  }

  // ----- calls in cleanup bodies --------------------------------------------

  // Where no finally or onerror body has a call whose output needs destroying,
  // every run is clean, whatever the calls answer.
  lemma CleanByText(w: World, body: Stmt, fuel: nat)
    requires Suits(body, true, NothingMissed)
    ensures Clean(Exec(w, body, [], true, fuel).t)
  {
    StmtGrew(w, body, [], true, fuel, NothingMissed);
  }

  // Such a function destroys everything it builds exactly once in every run,
  // newest of its kind first, and nothing that was never built.
  lemma ExactlyOnceByText(g: Code, w: World, body: Stmt, outs: seq<Slot>, needsReturn: bool, lvl: nat, n: nat)
    requires Wholesome(body, outs) && CgFunction(body, needsReturn, lvl) == Ok(g) && Suits(body, true, NothingMissed)
    requires Steps(g, w, Entered(), n).Finished?
    ensures var c := Steps(g, w, Entered(), n);
            var handed := !c.exn && Exec(w, body, [], true, n + 1).out.Returned?;
            forall k :: Live(c.t, k, false) == Some(if handed then Keep(outs, k) else [])
  {
    hide Exec, Steps, Live, Keep, Suits;
    GraphExactlyOnce(g, w, body, outs, needsReturn, lvl, n);
    CleanByText(w, body, n + 1);
    Reflection(g, w, body, needsReturn, lvl, n);
  }

  // ----- results ------------------------------------------------------------

  lemma {:induction false} GrewKeeps(t: Trace, t': Trace, v: Slot)
    requires Grew(t, t', ResultsKept) && v.kind == Result
    ensures Load(Replay(t'), v) == Load(Replay(t), v)
  {
    if t' != t {
      var n := |t'| - 1;
      assert Allows(ResultsKept, t'[n]);
      assert Grew(t, t'[..n], ResultsKept);
      GrewKeeps(t, t'[..n], v);
    }
  }

  // Evaluating into a result stores its flag there and in no other result.
  lemma IntoStores(w: World, e: Expr, out: Slot, t: Trace, check: bool)
    requires out.kind == Result && !EvalInto(w, e, out, t, check).threw
    ensures var r := EvalInto(w, e, out, t, check);
            Load(Replay(r.t), out) == r.flag && forall v: Slot :: v.kind == Result && v != out ==> Load(Replay(r.t), v) == Load(Replay(t), v)
  {
    hide Grew;
    match e
    case Lit(b, _) => ReplayNext(t, Stored(out, b));
    case Call(f, args, _, _) =>
      ArgsGrew(w, args, |args|, t, check, ResultsKept);
      var a := EvalArgs(w, args, |args|, t, check);
      KeepsAll(t, a.t);
      var reply := Answer(w, a.t, f, Homes(args));
      ReplayNext(a.t, Called(f, Homes(args), out, reply.flag, reply.threw, check));
    case And(_, _, _) => BothStores(w, e, out, t, check);
    case Or(_, _, _) => BothStores(w, e, out, t, check);
  }

  lemma BothStores(w: World, e: Expr, out: Slot, t: Trace, check: bool)
    requires (e.And? || e.Or?) && out.kind == Result && !EvalInto(w, e, out, t, check).threw
    ensures var r := EvalInto(w, e, out, t, check);
            Load(Replay(r.t), out) == r.flag && forall v: Slot :: v.kind == Result && v != out ==> Load(Replay(r.t), v) == Load(Replay(t), v)
  {
    hide Grew, EvalRef, Replay, DropAll;
    RefGrew(w, e.l, t, check);
    var a := EvalRef(w, e.l, t, check);
    KeepsAll(t, a.t);
    if a.flag == e.Or? {
      ReplayNext(a.t, Stored(out, e.Or?));
    } else {
      RefGrew(w, e.r, a.t, check);
      var b := EvalRef(w, e.r, a.t, check);
      var t' := b.t + [Stored(out, b.flag)];
      KeepsAll(a.t, b.t);
      ReplayNext(b.t, Stored(out, b.flag));
      DropGrew(b.temps, t', ResultsKept);
      KeepsAll(t', DropAll(b.temps, t'));
    }
  }

  lemma KeepsAll(t: Trace, t': Trace)
    requires Grew(t, t', ResultsKept)
    ensures forall v: Slot :: v.kind == Result ==> Load(Replay(t'), v) == Load(Replay(t), v)
  {
    forall v: Slot | v.kind == Result ensures Load(Replay(t'), v) == Load(Replay(t), v) { GrewKeeps(t, t', v); }
  }

  lemma RefGrew(w: World, e: Expr, t: Trace, check: bool)
    ensures Grew(t, EvalRef(w, e, t, check).t, ResultsKept)
  {
    IntoGrew(w, e, Home(e), t, check, ResultsKept);
  }

  // Each result holds its value.
  predicate Holds(t: Trace, outs: seq<Slot>, values: seq<bool>) {
    |values| == |outs| && forall i :: 0 <= i < |outs| ==> Load(Replay(t), outs[i]) == values[i]
  }

  predicate AllDifferent(vs: seq<Slot>) {
    forall i, j :: 0 <= i < j < |vs| ==> vs[i] != vs[j]
  }

  lemma {:induction false} SlotsAre(inits: seq<Init>)
    ensures |Slots(inits)| == |inits| && forall i :: 0 <= i < |inits| ==> Slots(inits)[i] == inits[i].out
  {
    if inits != [] { SlotsAre(inits[..|inits| - 1]); }
  }

  lemma {:induction false} InitsHold(w: World, inits: seq<Init>, n: nat, t: Trace, check: bool)
    requires n <= |inits| && TypedInits(inits, Result) && AllDifferent(Slots(inits))
    requires EvalInits(w, inits, n, t, check).out == Normal
    ensures n <= |Slots(inits)| && Holds(EvalInits(w, inits, n, t, check).t, Slots(inits)[..n], Flags(w, inits, n, t, check))
  {
    SlotsAre(inits);
    hide Replay, EvalInto, DropAll;
    if n > 0 {
      InitsHold(w, inits, n - 1, t, check);
      var a := EvalInits(w, inits, n - 1, t, check);
      var e, out := inits[n - 1].e, inits[n - 1].out;
      var b := EvalInto(w, e, out, a.t, check);
      IntoStores(w, e, out, a.t, check);
      DropGrew(b.temps, b.t, ResultsKept);
      KeepsAll(b.t, DropAll(b.temps, b.t));
    }
  }

  predicate ReturnHolds(r: Run, outs: seq<Slot>) {
    r.out.Returned? ==> Holds(r.t, outs, r.out.values)
  }

  // Cleanup bodies store nothing in results.
  lemma {:induction false} CleanupKeeps(s: Stmt, inLoop: bool, scope: set<string>, outs: seq<Slot>)
    requires WellFormed(s, true, inLoop, scope) && Typed(s, outs)
    ensures Suits(s, false, ResultsKept)
    decreases s, 1
  {
    match s
    case Block(body) => CleanupAllKeeps(body, |body|, inLoop, scope, outs);
    case If(pre, _, cond, thn, els) =>
      PreKeeps(pre, outs);
      CleanupKeeps(thn, inLoop, scope, outs);
      CleanupKeeps(els, inLoop, scope, outs);
    case While(pre, cond, loop) =>
      PreKeeps(pre, outs);
      CleanupKeeps(loop, true, scope, outs);
    case Try(tried, handler) =>
      CleanupKeeps(tried, inLoop, scope, outs);
      CleanupKeeps(handler, inLoop, scope, outs);
    case Finally(b) => CleanupAllKeeps(b, |b|, false, {}, outs);
    case OnError(b) => CleanupAllKeeps(b, |b|, false, {}, outs);
    case _ =>
  }

  lemma PreKeeps(pre: seq<Stmt>, outs: seq<Slot>)
    requires Simple(pre) && TypedAll(pre, outs)
    ensures SuitsAll(pre, false, ResultsKept)
  {
    forall i | 0 <= i < |pre| ensures Suits(pre[i], false, ResultsKept) { assert Typed(pre[i], outs); }
  }

  lemma {:induction false} CleanupAllKeeps(ss: seq<Stmt>, n: nat, inLoop: bool, scope: set<string>, outs: seq<Slot>)
    requires n <= |ss| && WellFormedAll(ss, n, true, inLoop, scope) && TypedAll(ss, outs)
    ensures forall i :: 0 <= i < n ==> Suits(ss[i], false, ResultsKept)
    decreases ss, n
  {
    if n > 0 {
      CleanupAllKeeps(ss, n - 1, inLoop, scope, outs);
      CleanupKeeps(ss[n - 1], inLoop, scope + Visible(ss, n - 1), outs);
    }
  }

  lemma EntriesKeep(es: seq<Entry>, outs: seq<Slot>)
    requires Tame(es) && TypedEntries(es, outs)
    ensures SuitEntries(es, ResultsKept)
  {
    forall i | 0 <= i < |es| && !es[i].Value? ensures SuitsAll(es[i].body, false, ResultsKept) {
      assert TameEntry(es[i]) && TypedEntry(es[i], outs);
      CleanupAllKeeps(es[i].body, |es[i].body|, false, {}, outs);
    }
  }

  // Leaving a scope, results keep what was returned.
  lemma FinishHolds(w: World, r: Run, es: seq<Entry>, outs: seq<Slot>)
    requires Tame(es) && TypedEntries(es, outs) && AllKind(outs, Result) && ReturnHolds(r, outs)
    ensures ReturnHolds(Finish(w, r, es), outs)
  {
    hide Replay, Unwind, Tame, TypedEntries;
    FinishOutcome(w, r, es);
    if r.out.Returned? {
      EntriesKeep(es, outs);
      UnwindGrew(w, es, false, r.t, r.fuel, ResultsKept);
      var u := Unwind(w, es, false, r.t, r.fuel);
      forall i | 0 <= i < |outs| ensures Load(Replay(u.t), outs[i]) == Load(Replay(r.t), outs[i]) { GrewKeeps(r.t, u.t, outs[i]); }
    }
  }

  // A run that returns leaves in each result the flag of its expression.
  lemma {:induction false} StmtHolds(w: World, s: Stmt, t: Trace, check: bool, fuel: nat, cleanup: bool, inLoop: bool, scope: set<string>, outs: seq<Slot>)
    requires WellFormed(s, cleanup, inLoop, scope) && Typed(s, outs) && AllKind(outs, Result) && AllDifferent(outs)
    ensures ReturnHolds(Exec(w, s, t, check, fuel), outs)
    decreases fuel, Size(s), 2
  {
    hide Holds, TypedInits;
    match s
    case Block(body) => BlockHolds(w, body, 0, t, check, fuel, cleanup, inLoop, scope, outs);
    case Return(inits) =>
      if EvalInits(w, inits, |inits|, t, check).out == Normal {
        InitsHold(w, inits, |inits|, t, check);
        SlotsAre(inits);
        assert Slots(inits)[..|inits|] == outs;
      }
    case If(_, _, _, _, _) => IfHolds(w, s, t, check, fuel, cleanup, inLoop, scope, outs);
    case While(_, _, _) => WhileHolds(w, s, t, check, fuel, cleanup, inLoop, scope, outs);
    case Try(tried, handler) =>
      StmtHolds(w, tried, t, check, fuel, cleanup, inLoop, scope, outs);
      var r := Exec(w, tried, t, check, fuel);
      if r.out == Threw { StmtHolds(w, handler, r.t, check, r.fuel, cleanup, inLoop, scope, outs); }
    case _ =>
  }

  // What stands in front of a condition does not return.
  lemma {:induction false} PreStays(w: World, pre: seq<Stmt>, n: nat, t: Trace, check: bool, fuel: nat)
    requires n <= |pre| && Simple(pre)
    ensures !ExecPre(w, pre, n, t, check, fuel).out.Returned?
  {
    hide Own, Finish, Tame, SizeAll, EvalInits, EvalWhole;
    if n > 0 {
      PreStays(w, pre, n - 1, t, check, fuel);
      var a := ExecPre(w, pre, n - 1, t, check, fuel);
      if a.out == Normal {
        SizeOfItem(pre, n - 1);
        OwnLight(pre, n - 1);
        OwnSimple(pre, n - 1);
        FinishOutcome(w, Exec(w, pre[n - 1], a.t, check, a.fuel), Own(pre, n - 1));
      }
    }
  }

  lemma {:induction false} IfHolds(w: World, s: Stmt, t: Trace, check: bool, fuel: nat, cleanup: bool, inLoop: bool, scope: set<string>, outs: seq<Slot>)
    requires s.If? && WellFormed(s, cleanup, inLoop, scope) && Typed(s, outs) && AllKind(outs, Result) && AllDifferent(outs)
    ensures ReturnHolds(Exec(w, s, t, check, fuel), outs)
    decreases fuel, Size(s), 1
  {
    hide Holds, Finish, EvalWhole, ExecPre, TypedAll;
    PreStays(w, s.pre, |s.pre|, t, check, fuel);
    var p := ExecPre(w, s.pre, |s.pre|, t, check, fuel);
    if p.out == Normal {
      var c := EvalWhole(w, s.cond, p.t, check);
      OwnLight(s.pre, |s.pre|);
      OwnTyped(s.pre, |s.pre|, outs);
      OwnSimple(s.pre, |s.pre|);
      var part := if s.kind.StaticTrue? || (s.kind.Dynamic? && c.flag) then s.thn else s.els;
      var r := if c.threw then Run(Threw, c.t, p.fuel) else Exec(w, part, c.t, check, p.fuel);
      if !c.threw { StmtHolds(w, part, c.t, check, p.fuel, cleanup, inLoop, scope, outs); }
      FinishHolds(w, r, Own(s.pre, |s.pre|), outs);
    }
  }

  lemma {:induction false} WhileHolds(w: World, s: Stmt, t: Trace, check: bool, fuel: nat, cleanup: bool, inLoop: bool, scope: set<string>, outs: seq<Slot>)
    requires s.While? && WellFormed(s, cleanup, inLoop, scope) && Typed(s, outs) && AllKind(outs, Result) && AllDifferent(outs)
    ensures ReturnHolds(Exec(w, s, t, check, fuel), outs)
    decreases fuel, Size(s), 1
  {
    hide Holds, Finish, EvalWhole, ExecPre, TypedAll;
    if fuel > 0 {
      PreStays(w, s.pre, |s.pre|, t, check, fuel - 1);
      var p := ExecPre(w, s.pre, |s.pre|, t, check, fuel - 1);
      if p.out == Normal {
        var c := EvalWhole(w, s.cond, p.t, check);
        OwnLight(s.pre, |s.pre|);
        OwnTyped(s.pre, |s.pre|, outs);
        OwnSimple(s.pre, |s.pre|);
        var r := if c.threw then Run(Threw, c.t, p.fuel) else if c.flag then Exec(w, s.loop, c.t, check, p.fuel) else Run(Broke, c.t, p.fuel);
        if !c.threw && c.flag { StmtHolds(w, s.loop, c.t, check, p.fuel, cleanup, true, scope, outs); }
        FinishHolds(w, LoopExit(r), Own(s.pre, |s.pre|), outs);
        var r' := Leave(w, LoopExit(r), s.pre, |s.pre|);
        if r'.out == Normal && r.out != Broke { StmtHolds(w, s, r'.t, check, r'.fuel, cleanup, inLoop, scope, outs); }
      }
    }
  }

  lemma {:induction false} BlockHolds(w: World, ss: seq<Stmt>, i: nat, t: Trace, check: bool, fuel: nat, cleanup: bool, inLoop: bool, scope: set<string>, outs: seq<Slot>)
    requires i <= |ss| && WellFormedAll(ss, |ss|, cleanup, inLoop, scope) && TypedAll(ss, outs) && AllKind(outs, Result) && AllDifferent(outs)
    ensures ReturnHolds(ExecBlock(w, ss, i, t, check, fuel), outs)
    decreases fuel, SizeAll(ss), 1, |ss| - i
  {
    hide *;
    BlockIs(w, ss, i, t, check, fuel);
    NotReturned(outs);
    if i == |ss| {
      LeaveHolds(w, Run(Normal, t, fuel), ss, i, cleanup, inLoop, scope, outs);
      return;
    }
    SizeOfItem(ss, i);
    WellFormedItem(ss, |ss|, i, cleanup, inLoop, scope);
    ItemTyped(ss, i, outs);
    StmtHolds(w, ss[i], t, check, fuel, cleanup, inLoop, scope + Visible(ss, i), outs);
    var r := Exec(w, ss[i], t, check, fuel);
    if r.out == Normal {
      BlockHolds(w, ss, i + 1, r.t, check, r.fuel, cleanup, inLoop, scope, outs);
    } else if r.out.Went? && FindLabel(ss, r.out.l, i) >= 0 {
      GotoHolds(w, ss, i, r, check, fuel, cleanup, inLoop, scope, outs);
    } else {
      LeaveHolds(w, r, ss, i, cleanup, inLoop, scope, outs);
    }
  }

  lemma NotReturned(outs: seq<Slot>)
    ensures forall r: Run :: !r.out.Returned? ==> ReturnHolds(r, outs)
  {
  }

  lemma LeaveHolds(w: World, r: Run, ss: seq<Stmt>, i: nat, cleanup: bool, inLoop: bool, scope: set<string>, outs: seq<Slot>)
    requires i <= |ss| && WellFormedAll(ss, |ss|, cleanup, inLoop, scope) && TypedAll(ss, outs) && AllKind(outs, Result) && ReturnHolds(r, outs)
    ensures ReturnHolds(Leave(w, r, ss, i), outs)
  {
    hide ReturnHolds;
    if i < |ss| { WellFormedItem(ss, |ss|, i, cleanup, inLoop, scope); }
    OwnLight(ss, i);
    OwnTame(ss, i, cleanup, inLoop, scope);
    OwnTyped(ss, i, outs);
    FinishHolds(w, r, Own(ss, i), outs);
  }

  lemma {:induction false} GotoHolds(w: World, ss: seq<Stmt>, i: nat, r: Run, check: bool, fuel: nat, cleanup: bool, inLoop: bool, scope: set<string>, outs: seq<Slot>)
    requires i < |ss| && WellFormedAll(ss, |ss|, cleanup, inLoop, scope) && TypedAll(ss, outs) && AllKind(outs, Result) && AllDifferent(outs)
    requires r.out.Went? && FindLabel(ss, r.out.l, i) >= 0 && r.fuel <= fuel
    ensures var q := FindLabel(ss, r.out.l, i);
            var u := Unwind(w, Own(ss, i)[Height(ss, q, i)..], false, r.t, r.fuel);
            && ReturnHolds(u, outs)
            && (u.out == Normal && u.fuel > 0 ==> ReturnHolds(ExecBlock(w, ss, q + 1, u.t, check, u.fuel - 1), outs))
    decreases fuel, SizeAll(ss), 1, 0
  {
    hide Exec, ExecBlock, Unwind, Own, Holds, TypedAll, AllDifferent, LabelsOfAll, Visible, WellFormed;
    var q := FindLabel(ss, r.out.l, i);
    var h := Height(ss, q, i);
    WellFormedItem(ss, |ss|, i, cleanup, inLoop, scope);
    OwnTame(ss, i, cleanup, inLoop, scope);
    OwnTyped(ss, i, outs);
    Suffixes(Own(ss, i), h, outs);
    KeptLight(ss, i, h);
    UnwindOutcome(w, Own(ss, i)[h..], false, r.t, r.fuel);
    var u := Unwind(w, Own(ss, i)[h..], false, r.t, r.fuel);
    if u.out == Normal && u.fuel > 0 {
      BlockHolds(w, ss, q + 1, u.t, check, u.fuel - 1, cleanup, inLoop, scope, outs);
    }
  }

  // The graph leaves in the function's results what the body returns: each
  // result holds the flag of the expression it was returned by.
  lemma ReturnedValues(g: Code, w: World, body: Stmt, outs: seq<Slot>, needsReturn: bool, lvl: nat, n: nat)
    requires Wholesome(body, outs) && AllDifferent(outs) && CgFunction(body, needsReturn, lvl) == Ok(g)
    requires Steps(g, w, Entered(), n).Finished?
    ensures var c, r := Steps(g, w, Entered(), n), Exec(w, body, [], true, n + 1);
            && (needsReturn && !c.exn ==> r.out.Returned?)
            && (r.out.Returned? ==> |r.out.values| == |outs| && forall i :: 0 <= i < |outs| ==> Load(c.mem, outs[i]) == r.out.values[i])
  {
    hide Exec, Steps, Replay;
    Reflection(g, w, body, needsReturn, lvl, n);
    StmtHolds(w, body, [], true, n + 1, false, false, {}, outs);
    if needsReturn { ReturnsSomething(g, w, body, lvl, n + 1); }
  }
}
