// In which order the evaluator destroys what it builds, against the reference
// semantics: when the two traces agree event for event.
module EvaluatorOrder {
  import opened Wrappers
  import opened Syntax
  import opened Semantics
  import opened CodegenSpec
  import opened Evaluator
  import opened Agreement
  import opened Lifetimes
  import opened EvaluatorLifetimes
  import Traces

  // The values that need destroying.
  function Needy(vs: seq<Slot>): seq<Slot> {
    if vs == [] then [] else Needy(vs[..|vs| - 1]) + if vs[|vs| - 1].prim then [] else [vs[|vs| - 1]]
  }

  lemma {:induction false} NeedyConcat(a: seq<Slot>, b: seq<Slot>)
    ensures Needy(a + b) == Needy(a) + Needy(b)
  {
    if b == [] {
      assert a + b == a;
    } else {
      assert (a + b)[..|a + b| - 1] == a + b[..|b| - 1];
      NeedyConcat(a, b[..|b| - 1]);
    }
  }

  lemma NeedyOne(v: Slot)
    ensures Needy([v]) == if v.prim then [] else [v]
  {
    assert [v][..0] == [];
  }

  // Only they show.
  lemma {:induction false} DropNeedy(vs: seq<Slot>, t: Trace)
    ensures DropAll(vs, t) == DropAll(Needy(vs), t)
  {
    if vs != [] {
      var rest, v := vs[..|vs| - 1], vs[|vs| - 1];
      DropNeedy(rest, Drop(v, t));
      if !v.prim {
        assert Needy(vs)[..|Needy(vs)| - 1] == Needy(rest);
      } else {
        assert Needy(vs) == Needy(rest);
      }
    }
  }

  predicate AllNeedy(vs: seq<Slot>) {
    forall i :: 0 <= i < |vs| ==> !vs[i].prim
  }

  lemma {:induction false} NeedyAll(vs: seq<Slot>)
    ensures AllNeedy(Needy(vs))
  {
    if vs != [] { NeedyAll(vs[..|vs| - 1]); }
  }

  // What is destroyed, newest first.
  function Deaths(vs: seq<Slot>): Trace {
    seq(|vs|, i requires 0 <= i < |vs| => Destroyed(vs[|vs| - 1 - i]))
  }

  lemma {:induction false} DropIs(vs: seq<Slot>, t: Trace)
    requires AllNeedy(vs)
    ensures DropAll(vs, t) == t + Deaths(vs)
  {
    if vs == [] {
      assert t + Deaths(vs) == t;
    } else {
      var v, rest := vs[|vs| - 1], vs[..|vs| - 1];
      DropIs(rest, t + [Destroyed(v)]);
      assert Deaths(vs) == [Destroyed(v)] + Deaths(rest);
      assert t + ([Destroyed(v)] + Deaths(rest)) == t + [Destroyed(v)] + Deaths(rest);
    }
  }

  // The trace tells what has been destroyed, and in which order.
  lemma DropInjective(a: seq<Slot>, b: seq<Slot>, t: Trace)
    requires DropAll(a, t) == DropAll(b, t)
    ensures Needy(a) == Needy(b)
  {
    hide Needy, DropAll, AllNeedy;
    DropNeedy(a, t);
    DropNeedy(b, t);
    NeedyAll(a);
    NeedyAll(b);
    DropIs(Needy(a), t);
    DropIs(Needy(b), t);
    SameTail(t, Deaths(Needy(a)), Deaths(Needy(b)));
    DeathsInjective(Needy(a), Needy(b));
  }

  lemma SameTail(t: Trace, a: Trace, b: Trace)
    requires t + a == t + b
    ensures a == b
  {
    assert a == (t + a)[|t|..] && b == (t + b)[|t|..];
  }

  lemma DeathsInjective(a: seq<Slot>, b: seq<Slot>)
    requires Deaths(a) == Deaths(b)
    ensures a == b
  {
    assert |a| == |Deaths(a)| == |Deaths(b)| == |b|;
    forall i | 0 <= i < |a| ensures a[i] == b[i] {
      assert Deaths(a)[|a| - 1 - i] == Destroyed(a[i]) && Deaths(b)[|a| - 1 - i] == Destroyed(b[i]);
    }
  }

  // ----- expressions --------------------------------------------------------

  // e builds a value that needs destroying, second operands of and/or apart.
  predicate Builds(e: Expr) {
    match e
    case Lit(_, _) => false
    case Call(_, args, _, prim) => !prim || exists i :: 0 <= i < |args| && Builds(args[i])
    case And(l, _, _) => Builds(l)
    case Or(l, _, _) => Builds(l)
  }

  // No value that needs destroying has another among its operands, second
  // operands of and/or apart.
  predicate Flat(e: Expr) {
    match e
    case Lit(_, _) => true
    case Call(_, args, _, prim) => forall i :: 0 <= i < |args| ==> Flat(args[i]) && (prim || !Builds(args[i]))
    case And(l, _, _) => Flat(l)
    case Or(l, _, _) => Flat(l)
  }

  // Second operands of and/or build nothing that needs destroying.
  predicate Calm(e: Expr) {
    match e
    case Lit(_, _) => true
    case Call(_, args, _, _) => forall i :: 0 <= i < |args| ==> Calm(args[i])
    case And(l, r, _) => Calm(l) && Calm(r) && !Builds(r)
    case Or(l, r, _) => Calm(l) && Calm(r) && !Builds(r)
  }

  // The evaluator's temporaries in the order in which it allocates them: a
  // value before those of its operands.
  function OuterFirst(e: Expr): seq<Slot>
    decreases e, 1
  {
    [Home(e)] + OuterFirstInto(e)
  }

  function OuterFirstInto(e: Expr): seq<Slot>
    decreases e, 0
  {
    match e
    case Lit(_, _) => []
    case Call(_, args, _, _) => OuterFirstArgs(args, |args|)
    case And(l, _, _) => OuterFirst(l)
    case Or(l, _, _) => OuterFirst(l)
  }

  function OuterFirstArgs(args: seq<Expr>, n: nat): seq<Slot>
    requires n <= |args|
    decreases args, n
  {
    if n == 0 then [] else OuterFirstArgs(args, n - 1) + OuterFirst(args[n - 1])
  }

  // Both destroy as many.
  lemma {:induction false} SameSize(e: Expr)
    ensures |Needy(OuterFirst(e))| == |Needy(TempsRef(e))| && (Needy(TempsRef(e)) == [] <==> !Builds(e))
    ensures |Needy(OuterFirstInto(e))| == |Needy(TempsInto(e))|
    ensures e.And? || e.Or? ==> (Needy(TempsInto(e)) == [] <==> !Builds(e))
    decreases e
  {
    match e {
      case Lit(_, _) =>
      case Call(_, args, _, _) => SameSizeArgs(args, |args|);
      case And(l, _, _) => SameSize(l);
      case Or(l, _, _) => SameSize(l);
    }
    hide Needy;
    NeedyConcat(TempsInto(e), [Home(e)]);
    NeedyConcat([Home(e)], OuterFirstInto(e));
    NeedyOne(Home(e));
  }

  lemma {:induction false} SameSizeArgs(args: seq<Expr>, n: nat)
    requires n <= |args|
    ensures |Needy(OuterFirstArgs(args, n))| == |Needy(TempsArgs(args, n))|
    ensures Needy(TempsArgs(args, n)) == [] <==> forall i :: 0 <= i < n ==> !Builds(args[i])
    decreases args, n
  {
    hide OuterFirst, TempsRef, Builds, Needy;
    if n == 0 {
      NoneNeedy(args);
    } else {
      SameSizeArgs(args, n - 1);
      SameSize(args[n - 1]);
      OneMoreArg(args, n);
    }
  }

  // Temporaries die in the same order in both, second operands apart.
  predicate SameOrder(e: Expr) {
    Needy(OuterFirst(e)) == Needy(TempsRef(e))
  }

  predicate NoRepeats(vs: seq<Slot>) {
    forall i, j :: 0 <= i < j < |vs| ==> vs[i] != vs[j]
  }

  // Flat below e.
  predicate FlatInside(e: Expr) {
    if e.Call? then forall i :: 0 <= i < |e.args| ==> Flat(e.args[i]) else Flat(e)
  }

  // Where temporaries have slots of their own this is a matter of nesting.
  lemma {:induction false} FlatIff(e: Expr)
    requires NoRepeats(Needy(TempsRef(e)))
    ensures SameOrder(e) <==> Flat(e)
    decreases e, 1
  {
    NeedyConcat(TempsInto(e), [Home(e)]);
    NeedyConcat([Home(e)], OuterFirstInto(e));
    NeedyOne(Home(e));
    var x, y := Needy(OuterFirstInto(e)), Needy(TempsInto(e));
    hide Needy;
    SameSize(e);
    Parts(y, Needy([Home(e)]));
    FlatInsideIff(e);
    hide Flat, Builds, TempsInto, OuterFirstInto, FlatInside;
    if Home(e).prim {
      assert [] + x == x && y + [] == y;
      FlatPrim(e);
    } else {
      Around(Home(e), x, y);
      FlatNeedy(e);
    }
  }

  lemma FlatPrim(e: Expr)
    requires Home(e).prim
    ensures Flat(e) <==> FlatInside(e)
  {
  }

  lemma FlatNeedy(e: Expr)
    requires !Home(e).prim
    ensures Flat(e) <==> FlatInside(e) && Needy(TempsInto(e)) == []
  {
    SameSizeArgs(e.args, |e.args|);
  }

  lemma Around(h: Slot, x: seq<Slot>, y: seq<Slot>)
    requires |x| == |y| && NoRepeats(y + [h])
    ensures [h] + x == y + [h] <==> y == []
  {
    assert y != [] ==> (y + [h])[0] == y[0] && (y + [h])[|y|] == h;
    assert ([h] + x)[0] == h;
  }

  lemma {:induction false} FlatInsideIff(e: Expr)
    requires NoRepeats(Needy(TempsInto(e)))
    ensures Needy(OuterFirstInto(e)) == Needy(TempsInto(e)) <==> FlatInside(e)
    decreases e, 0
  {
    hide Needy;
    match e
    case Lit(_, _) =>
    case Call(_, args, _, _) => FlatArgs(args, |args|);
    case And(l, _, _) => FlatIff(l);
    case Or(l, _, _) => FlatIff(l);
  }

  lemma {:induction false} FlatArgs(args: seq<Expr>, n: nat)
    requires n <= |args| && NoRepeats(Needy(TempsArgs(args, n)))
    ensures Needy(OuterFirstArgs(args, n)) == Needy(TempsArgs(args, n)) <==> forall i :: 0 <= i < n ==> Flat(args[i])
    decreases args, n
  {
    hide OuterFirst, TempsRef, Flat, Needy, NoRepeats, SameOrder;
    if n == 0 {
      NoneNeedy(args);
    } else {
      var x, y := Needy(TempsArgs(args, n - 1)), Needy(TempsRef(args[n - 1]));
      OneMoreArg(args, n);
      Parts(x, y);
      SameSizeArgs(args, n - 1);
      FlatArgs(args, n - 1);
      FlatIff(args[n - 1]);
      OrderIs(args[n - 1]);
      Pieces(Needy(OuterFirstArgs(args, n - 1)), Needy(OuterFirst(args[n - 1])), x, y);
    }
  }

  lemma NoneNeedy(args: seq<Expr>)
    ensures Needy(OuterFirstArgs(args, 0)) == Needy(TempsArgs(args, 0)) == []
  {
  }

  lemma OrderIs(e: Expr)
    ensures SameOrder(e) <==> Needy(OuterFirst(e)) == Needy(TempsRef(e))
  {
  }

  lemma OneMoreArg(args: seq<Expr>, n: nat)
    requires 0 < n <= |args|
    ensures Needy(TempsArgs(args, n)) == Needy(TempsArgs(args, n - 1)) + Needy(TempsRef(args[n - 1]))
    ensures Needy(OuterFirstArgs(args, n)) == Needy(OuterFirstArgs(args, n - 1)) + Needy(OuterFirst(args[n - 1]))
  {
    NeedyConcat(TempsArgs(args, n - 1), TempsRef(args[n - 1]));
    NeedyConcat(OuterFirstArgs(args, n - 1), OuterFirst(args[n - 1]));
  }

  lemma Parts(a: seq<Slot>, b: seq<Slot>)
    requires NoRepeats(a + b)
    ensures NoRepeats(a) && NoRepeats(b)
  {
    assert forall i :: 0 <= i < |a| ==> a[i] == (a + b)[i];
    assert forall i :: 0 <= i < |b| ==> b[i] == (a + b)[|a| + i];
  }

  lemma Pieces(a: seq<Slot>, b: seq<Slot>, c: seq<Slot>, d: seq<Slot>)
    requires |a| == |c|
    ensures a + b == c + d <==> a == c && b == d
  {
    if a + b == c + d { assert a == (a + b)[..|a|] && b == (a + b)[|a|..]; }
  }

  // ----- where the reference destroys early ---------------------------------

  // While e is evaluated from st, a second operand runs that builds a value that
  // needs destroying: the reference destroys it at once, the evaluator with the
  // whole expression.
  predicate Early(w: World, e: Expr, st: State)
    decreases e, 0
  {
    match e
    case Lit(_, _) => false
    case Call(_, args, _, _) => EarlyArgs(w, args, |args|, st)
    case And(l, r, _) =>
      var a := EvRef(w, l, st);
      EarlyRef(w, l, st) || (a.flag && (EarlyRef(w, r, a.st) || Builds(r)))
    case Or(l, r, _) =>
      var a := EvRef(w, l, st);
      EarlyRef(w, l, st) || (!a.flag && (EarlyRef(w, r, a.st) || Builds(r)))
  }

  predicate EarlyRef(w: World, e: Expr, st: State)
    decreases e, 1
  {
    Early(w, e, PushValue(st, Home(e)))
  }

  predicate EarlyArgs(w: World, args: seq<Expr>, n: nat, st: State)
    requires n <= |args|
    decreases args, n
  {
    n > 0 && (EarlyArgs(w, args, n - 1, st) || EarlyRef(w, args[n - 1], EvArgs(w, args, n - 1, st)))
  }

  lemma {:induction false} CalmNotEarly(w: World, e: Expr, st: State)
    requires Calm(e)
    ensures !Early(w, e, st) && !EarlyRef(w, e, st)
    decreases e, 1
  {
    CalmInto(w, e, st);
    CalmInto(w, e, PushValue(st, Home(e)));
  }

  lemma {:induction false} CalmInto(w: World, e: Expr, st: State)
    requires Calm(e)
    ensures !Early(w, e, st)
    decreases e, 0
  {
    hide EvRef;
    match e
    case Lit(_, _) =>
    case Call(_, args, _, _) => CalmArgs(w, args, |args|, st);
    case And(l, r, _) => CalmNotEarly(w, l, st); CalmNotEarly(w, r, EvRef(w, l, st).st);
    case Or(l, r, _) => CalmNotEarly(w, l, st); CalmNotEarly(w, r, EvRef(w, l, st).st);
  }

  lemma {:induction false} CalmArgs(w: World, args: seq<Expr>, n: nat, st: State)
    requires n <= |args| && forall i :: 0 <= i < |args| ==> Calm(args[i])
    ensures !EarlyArgs(w, args, n, st)
    decreases args, n
  {
    hide Calm, EarlyRef, EvRef;
    if n > 0 {
      CalmArgs(w, args, n - 1, st);
      CalmNotEarly(w, args[n - 1], EvArgs(w, args, n - 1, st));
    }
  }

  // ----- evaluated alike ----------------------------------------------------

  // st' has vs more on its stack, primitive values apart.
  predicate Adds(st: State, st': State, vs: seq<Slot>) {
    st.stack <= st'.stack && Needy(st'.stack[|st.stack|..]) == vs
  }

  lemma AddsNothing(st: State, st': State)
    requires st'.stack == st.stack
    ensures Adds(st, st', [])
  {
  }

  lemma AddsThen(a: State, b: State, c: State, us: seq<Slot>, vs: seq<Slot>)
    requires Adds(a, b, us) && Adds(b, c, vs)
    ensures Adds(a, c, us + vs)
  {
    assert c.stack[|a.stack|..] == b.stack[|a.stack|..] + c.stack[|b.stack|..];
    NeedyConcat(b.stack[|a.stack|..], c.stack[|b.stack|..]);
  }

  lemma AddsOne(st: State, v: Slot)
    ensures Adds(st, PushValue(st, v), Needy([v]))
  {
    assert (st.stack + [v])[|st.stack|..] == [v];
  }

  // Evaluated alike, with these temporaries on either side.
  predicate Alike(st: State, v: Flagged, a: Evaled, mine: seq<Slot>, theirs: seq<Slot>) {
    !a.threw && v.st.t == a.t && v.flag == a.flag && a.temps == theirs && Adds(st, v.st, mine)
  }

  lemma {:induction false} IntoAlike(w: World, e: Expr, out: Slot, st: State)
    requires Quiet(w) && PlainExpr(e) && !Early(w, e, st)
    ensures Alike(st, EvInto(w, e, out, st), EvalInto(w, e, out, st.t, true), Needy(OuterFirstInto(e)), TempsInto(e))
    decreases e, 1
  {
    hide Needy;
    match e
    case Lit(b, _) => LitAlike(st);
    case Call(f, args, _, _) =>
      ArgsAlike(w, args, |args|, st);
      assert !w(EvArgs(w, args, |args|, st).t, f, Homes(args)).threw;
    case And(_, _, _) => BothAlike(w, e, out, st);
    case Or(_, _, _) => BothAlike(w, e, out, st);
  }

  lemma LitAlike(st: State)
    ensures Adds(st, st, Needy([])) && forall e :: Adds(st, Happens(st, e), Needy([]))
  {
    AddsNothing(st, st);
  }

  lemma {:induction false} BothAlike(w: World, e: Expr, out: Slot, st: State)
    requires Quiet(w) && (e.And? || e.Or?) && PlainExpr(e) && !Early(w, e, st)
    ensures Alike(st, EvInto(w, e, out, st), EvalInto(w, e, out, st.t, true), Needy(OuterFirst(e.l)), TempsRef(e.l))
    decreases e, 0
  {
    hide Quiet, EvRef, EvalRef, Needy, OuterFirst, TempsRef, DropAll, Adds, PlainExpr, Builds, EarlyRef;
    RefAlike(w, e.l, st) by { PlainOperands(e); }
    var v, a := EvRef(w, e.l, st), EvalRef(w, e.l, st.t, true);
    if a.flag == e.Or? {
      StackOnly(st, v.st, Happens(v.st, Stored(out, v.flag)), Needy(OuterFirst(e.l)));
    } else {
      RefAlike(w, e.r, v.st) by { PlainOperands(e); }
      SameSize(e.r);
      var v2, b := EvRef(w, e.r, v.st), EvalRef(w, e.r, a.t, true);
      DropNone(b.temps, b.t + [Stored(out, b.flag)]);
      AddsThen(st, v.st, v2.st, Needy(OuterFirst(e.l)), []);
      assert Needy(OuterFirst(e.l)) + [] == Needy(OuterFirst(e.l));
      StackOnly(st, v2.st, Happens(v2.st, Stored(out, v2.flag)), Needy(OuterFirst(e.l)));
    }
  }

  lemma PlainOperands(e: Expr)
    requires (e.And? || e.Or?) && PlainExpr(e)
    ensures PlainExpr(e.l) && PlainExpr(e.r)
  {
  }

  lemma StackOnly(st: State, a: State, b: State, vs: seq<Slot>)
    requires Adds(st, a, vs) && b.stack == a.stack
    ensures Adds(st, b, vs)
  {
  }

  lemma DropNone(vs: seq<Slot>, t: Trace)
    requires Needy(vs) == []
    ensures DropAll(vs, t) == t
  {
    DropNeedy(vs, t);
  }

  lemma {:induction false} RefAlike(w: World, e: Expr, st: State)
    requires Quiet(w) && PlainExpr(e) && !EarlyRef(w, e, st)
    ensures Alike(st, EvRef(w, e, st), EvalRef(w, e, st.t, true), Needy(OuterFirst(e)), TempsRef(e))
    decreases e, 2
  {
    hide EvInto, EvalInto, Needy, Early;
    IntoAlike(w, e, Home(e), PushValue(st, Home(e)));
    AddsOne(st, Home(e));
    AddsThen(st, PushValue(st, Home(e)), EvRef(w, e, st).st, Needy([Home(e)]), Needy(OuterFirstInto(e)));
    NeedyConcat([Home(e)], OuterFirstInto(e));
  }

  lemma {:induction false} ArgsAlike(w: World, args: seq<Expr>, n: nat, st: State)
    requires Quiet(w) && n <= |args| && (forall i :: 0 <= i < |args| ==> PlainExpr(args[i])) && !EarlyArgs(w, args, n, st)
    ensures var v, a := EvArgs(w, args, n, st), EvalArgs(w, args, n, st.t, true);
            !a.threw && v.t == a.t && a.temps == TempsArgs(args, n) && Adds(st, v, Needy(OuterFirstArgs(args, n)))
    decreases args, n
  {
    hide EvRef, EvalRef, Quiet, Needy, OuterFirst, TempsRef, EarlyRef;
    if n == 0 {
      LitAlike(st);
    } else {
      ArgsAlike(w, args, n - 1, st);
      var v := EvArgs(w, args, n - 1, st);
      RefAlike(w, args[n - 1], v);
      AddsThen(st, v, EvArgs(w, args, n, st), Needy(OuterFirstArgs(args, n - 1)), Needy(OuterFirst(args[n - 1])));
      NeedyConcat(OuterFirstArgs(args, n - 1), OuterFirst(args[n - 1]));
    }
  }

  lemma PopIs(st: State, st': State, vs: seq<Slot>)
    requires Adds(st, st', vs)
    ensures PopStack(st', |st.stack|) == State(DropAll(vs, st'.t), st.stack)
  {
    DropNeedy(st'.stack[|st.stack|..], st'.t);
  }

  // ----- evaluated apart ----------------------------------------------------

  // t and u differ somewhere in what both have.
  ghost predicate Apart(t: Trace, u: Trace) {
    exists k :: 0 <= k < |t| && k < |u| && t[k] != u[k]
  }

  // u is t and a destruction, at least.
  predicate Ahead(t: Trace, u: Trace) {
    t < u && u[|t|].Destroyed?
  }

  // Whatever comes after, the traces differ, once the first goes on with
  // something else than a destruction.
  lemma GoesOn(t: Trace, u: Trace, t': Trace, u': Trace)
    requires Apart(t, u) || Ahead(t, u)
    requires t <= t' && u <= u'
    ensures Apart(t, u) ==> Apart(t', u')
    ensures |t| < |t'| && !t'[|t|].Destroyed? ==> Apart(t', u')
  {
    if Apart(t, u) {
      var k :| 0 <= k < |t| && k < |u| && t[k] != u[k];
      assert t'[k] != u'[k];
    } else if |t| < |t'| && !t'[|t|].Destroyed? {
      assert t'[|t|] != u'[|t|];
    }
  }

  // The evaluator does some work and destroys nothing.
  predicate Works(t: Trace, t': Trace) {
    t <= t' && forall k :: |t| <= k < |t'| ==> !t'[k].Destroyed?
  }

  lemma {:induction false} IntoWorks(w: World, e: Expr, out: Slot, st: State)
    ensures var t := EvInto(w, e, out, st).st.t; Works(st.t, t) && |st.t| < |t|
    decreases e, 0
  {
    hide EvRef, EvArgs;
    match e
    case Lit(_, _) =>
    case Call(_, args, _, _) => ArgsWork(w, args, |args|, st);
    case And(l, r, _) => RefWorks(w, l, st); RefWorks(w, r, EvRef(w, l, st).st);
    case Or(l, r, _) => RefWorks(w, l, st); RefWorks(w, r, EvRef(w, l, st).st);
  }

  lemma {:induction false} RefWorks(w: World, e: Expr, st: State)
    ensures var t := EvRef(w, e, st).st.t; Works(st.t, t) && |st.t| < |t|
    decreases e, 1
  {
    IntoWorks(w, e, Home(e), PushValue(st, Home(e)));
  }

  lemma {:induction false} ArgsWork(w: World, args: seq<Expr>, n: nat, st: State)
    requires n <= |args|
    ensures Works(st.t, EvArgs(w, args, n, st).t)
    decreases args, n
  {
    hide EvRef;
    if n > 0 {
      ArgsWork(w, args, n - 1, st);
      RefWorks(w, args[n - 1], EvArgs(w, args, n - 1, st));
    }
  }

  // The reference only adds to its trace, too.
  lemma {:induction false} EvalGrows(w: World, e: Expr, out: Slot, t: Trace)
    ensures t <= EvalInto(w, e, out, t, true).t && t <= EvalRef(w, e, t, true).t
  {
    Traces.IntoGrew(w, e, out, t, true, Traces.NothingMissed);
    Traces.IntoGrew(w, e, Home(e), t, true, Traces.NothingMissed);
  }

  lemma {:induction false} IntoApart(w: World, e: Expr, out: Slot, st: State)
    requires Quiet(w) && PlainExpr(e) && Early(w, e, st)
    ensures var t, u := EvInto(w, e, out, st).st.t, EvalInto(w, e, out, st.t, true).t;
            Apart(t, u) || (Ahead(t, u) && !e.Call?)
    decreases e, 1
  {
    hide Quiet, EvArgs, EvalArgs, Apart, Ahead;
    match e
    case Call(f, args, _, _) =>
      ArgsApart(w, args, |args|, st);
      var v, a := EvArgs(w, args, |args|, st), EvalArgs(w, args, |args|, st.t, true);
      GoesOn(v.t, a.t, EvInto(w, e, out, st).st.t, EvalInto(w, e, out, st.t, true).t);
    case And(_, _, _) => BothApart(w, e, out, st);
    case Or(_, _, _) => BothApart(w, e, out, st);
  }

  lemma {:induction false} RefApart(w: World, e: Expr, st: State)
    requires Quiet(w) && PlainExpr(e) && EarlyRef(w, e, st)
    ensures var t, u := EvRef(w, e, st).st.t, EvalRef(w, e, st.t, true).t; Apart(t, u) || Ahead(t, u)
    decreases e, 2
  {
    hide EvInto, EvalInto, Early, Apart, Ahead;
    IntoApart(w, e, Home(e), PushValue(st, Home(e)));
  }

  lemma {:induction false} ArgsApart(w: World, args: seq<Expr>, n: nat, st: State)
    requires Quiet(w) && n <= |args| && (forall i :: 0 <= i < |args| ==> PlainExpr(args[i])) && EarlyArgs(w, args, n, st)
    ensures var t, u := EvArgs(w, args, n, st).t, EvalArgs(w, args, n, st.t, true).t; Apart(t, u) || Ahead(t, u)
    decreases args, n
  {
    hide Quiet, EvRef, EvalRef, EarlyRef, Apart, Ahead;
    var x := args[n - 1];
    var v, a := EvArgs(w, args, n - 1, st), EvalArgs(w, args, n - 1, st.t, true);
    if EarlyArgs(w, args, n - 1, st) {
      ArgsApart(w, args, n - 1, st);
      RefWorks(w, x, v);
      EvalGrows(w, x, Home(x), a.t);
      GoesOn(v.t, a.t, EvArgs(w, args, n, st).t, EvalArgs(w, args, n, st.t, true).t);
    } else {
      ArgsAlike(w, args, n - 1, st);
      RefApart(w, x, v);
    }
  }

  // What follows the first operand, in the evaluator and in the reference.
  lemma AfterFirst(w: World, e: Expr, out: Slot, st: State)
    requires e.And? || e.Or?
    ensures var t, t' := EvRef(w, e.l, st).st.t, EvInto(w, e, out, st).st.t; Works(t, t') && |t| < |t'|
    ensures EvalRef(w, e.l, st.t, true).t <= EvalInto(w, e, out, st.t, true).t
  {
    hide EvRef, EvalRef;
    var v, a := EvRef(w, e.l, st), EvalRef(w, e.l, st.t, true);
    RefWorks(w, e.r, v.st);
    EvalGrows(w, e.r, out, a.t);
    var b := EvalRef(w, e.r, a.t, true);
    DropGrows(b.temps, b.t + [Stored(out, b.flag)]);
  }

  lemma DropGrows(vs: seq<Slot>, t: Trace)
    ensures t <= DropAll(vs, t)
  {
    DropNeedy(vs, t);
    NeedyAll(vs);
    DropIs(Needy(vs), t);
  }

  lemma {:induction false} BothApart(w: World, e: Expr, out: Slot, st: State)
    requires Quiet(w) && (e.And? || e.Or?) && PlainExpr(e) && Early(w, e, st)
    ensures var t, u := EvInto(w, e, out, st).st.t, EvalInto(w, e, out, st.t, true).t; Apart(t, u) || Ahead(t, u)
    ensures EarlyRef(w, e.l, st) || EarlyRef(w, e.r, EvRef(w, e.l, st).st) ==>
              Apart(EvInto(w, e, out, st).st.t, EvalInto(w, e, out, st.t, true).t)
    decreases e, 0
  {
    hide Quiet, EvRef, EvalRef, EarlyRef, Apart, Ahead, Needy, DropAll;
    var v, a := EvRef(w, e.l, st), EvalRef(w, e.l, st.t, true);
    var t, u := EvInto(w, e, out, st).st.t, EvalInto(w, e, out, st.t, true).t;
    AfterFirst(w, e, out, st);
    if EarlyRef(w, e.l, st) {
      RefApart(w, e.l, st);
      GoesOn(v.st.t, a.t, t, u);
    } else {
      RefAlike(w, e.l, st);
      var v2, b := EvRef(w, e.r, v.st), EvalRef(w, e.r, a.t, true);
      DropGrows(b.temps, b.t + [Stored(out, b.flag)]);
      if EarlyRef(w, e.r, v.st) {
        RefApart(w, e.r, v.st);
        GoesOn(v2.st.t, b.t, t, u);
      } else {
        RefAlike(w, e.r, v.st);
        SameSize(e.r);
        DropAhead(b.temps, b.t + [Stored(out, b.flag)]);
      }
    }
  }

  lemma DropAhead(vs: seq<Slot>, t: Trace)
    requires Needy(vs) != []
    ensures Ahead(t, DropAll(vs, t))
  {
    DropNeedy(vs, t);
    NeedyAll(vs);
    DropIs(Needy(vs), t);
  }

  // ----- whole expressions --------------------------------------------------

  // What the evaluator destroys at the end of e, the reference destroys in the
  // same order. A second operand of e itself may build values: the reference
  // destroys them as the last thing but for what the first has built.
  predicate InOrder(w: World, e: Expr, st: State) {
    var st1 := PushValue(st, Home(e));
    match e
    case Lit(_, _) => true
    case Call(_, _, _, _) => !Early(w, e, st1) && SameOrder(e)
    case And(l, r, _) =>
      var a := EvRef(w, l, st1);
      !EarlyRef(w, l, st1) && SameOrder(l) && (a.flag ==> !EarlyRef(w, r, a.st) && SameOrder(r))
    case Or(l, r, _) =>
      var a := EvRef(w, l, st1);
      !EarlyRef(w, l, st1) && SameOrder(l) && (!a.flag ==> !EarlyRef(w, r, a.st) && SameOrder(r))
  }

  // A whole expression leaves the same trace in both if and only if it is in
  // order.
  lemma WholeOrder(w: World, e: Expr, st: State)
    requires Quiet(w) && PlainExpr(e)
    ensures var v, a := EvWhole(w, e, st), EvalWhole(w, e, st.t, true);
            (v.st.t == a.t <==> InOrder(w, e, st)) && (InOrder(w, e, st) ==> !a.threw && v.flag == a.flag)
  {
    hide Quiet, PlainExpr, Early, EarlyRef, EvRef, EvalRef, DropAll, SameOrder, Apart;
    LitNotEarly(w, e, st);
    if !EarlyRef(w, e, st) {
      NotEarly(w, e, st);
      InOrderThen(w, e, st);
    } else if e.Call? {
      CallApart(w, e, st);
    } else {
      BothOrder(w, e, st);
    }
  }

  lemma LitNotEarly(w: World, e: Expr, st: State)
    ensures e.Lit? ==> !EarlyRef(w, e, st)
  {
  }

  lemma NotEarly(w: World, e: Expr, st: State)
    requires Quiet(w) && PlainExpr(e) && !EarlyRef(w, e, st)
    ensures var v, a := EvWhole(w, e, st), EvalWhole(w, e, st.t, true);
            !a.threw && v.flag == a.flag && (v.st.t == a.t <==> SameOrder(e))
  {
    hide Quiet, PlainExpr, EarlyRef, Needy, EvRef, EvalRef, DropAll;
    RefAlike(w, e, st);
    var v, a := EvRef(w, e, st), EvalRef(w, e, st.t, true);
    PopIs(st, v.st, Needy(OuterFirst(e)));
    SameDrop(OuterFirst(e), a.temps, a.t);
  }

  // The same is destroyed in the same order.
  lemma SameDrop(vs: seq<Slot>, us: seq<Slot>, t: Trace)
    ensures DropAll(Needy(vs), t) == DropAll(us, t) <==> Needy(vs) == Needy(us)
  {
    hide Needy, DropAll;
    NeedyTwice(vs);
    DropNeedy(us, t);
    if DropAll(Needy(vs), t) == DropAll(us, t) { DropInjective(Needy(vs), us, t); }
  }

  lemma InOrderThen(w: World, e: Expr, st: State)
    requires !EarlyRef(w, e, st)
    ensures InOrder(w, e, st) <==> SameOrder(e)
  {
    hide Needy, EvRef, Builds, TempsRef, OuterFirst;
    if e.And? || e.Or? {
      OperandOrder(e);
      SameSize(e.r);
    } else if e.Lit? {
      LitOrder(e);
    }
  }

  lemma LitOrder(e: Expr)
    requires e.Lit?
    ensures SameOrder(e)
  {
    assert [Home(e)] + [] == [] + [Home(e)];
  }

  lemma OperandOrder(e: Expr)
    requires e.And? || e.Or?
    ensures SameOrder(e) <==> SameOrder(e.l)
  {
    assert OuterFirst(e) == [Home(e)] + OuterFirst(e.l) && TempsRef(e) == TempsRef(e.l) + [Home(e)];
    hide OuterFirst, TempsRef;
    NeedyConcat([Home(e)], OuterFirst(e.l));
    NeedyConcat(TempsRef(e.l), [Home(e)]);
    NeedyOne(Home(e));
    assert [] + Needy(OuterFirst(e.l)) == Needy(OuterFirst(e.l)) && Needy(TempsRef(e.l)) + [] == Needy(TempsRef(e.l));
  }

  // Once apart, the traces stay so to the end.
  lemma ApartToTheEnd(w: World, e: Expr, st: State)
    requires Apart(EvRef(w, e, st).st.t, EvalRef(w, e, st.t, true).t)
    ensures EvWhole(w, e, st).st.t != EvalWhole(w, e, st.t, true).t
  {
    hide EvRef, EvalRef, DropAll;
    var v, a := EvRef(w, e, st), EvalRef(w, e, st.t, true);
    DropGrows(v.st.stack[|st.stack|..], v.st.t);
    DropGrows(a.temps, a.t);
    GoesOn(v.st.t, a.t, EvWhole(w, e, st).st.t, EvalWhole(w, e, st.t, true).t);
  }

  lemma CallApart(w: World, e: Expr, st: State)
    requires Quiet(w) && PlainExpr(e) && e.Call? && EarlyRef(w, e, st)
    ensures EvWhole(w, e, st).st.t != EvalWhole(w, e, st.t, true).t && !InOrder(w, e, st)
  {
    hide Quiet, PlainExpr, Early, EvInto, EvalInto, Apart, EvWhole, EvalWhole;
    IntoApart(w, e, Home(e), PushValue(st, Home(e)));
    ApartToTheEnd(w, e, st);
  }

  lemma BothOrder(w: World, e: Expr, st: State)
    requires Quiet(w) && PlainExpr(e) && (e.And? || e.Or?) && EarlyRef(w, e, st)
    ensures var v, a := EvWhole(w, e, st), EvalWhole(w, e, st.t, true);
            (v.st.t == a.t <==> InOrder(w, e, st)) && (InOrder(w, e, st) ==> !a.threw && v.flag == a.flag)
  {
    hide Quiet, PlainExpr, EvRef, EvalRef, EvInto, EvalInto, Apart, EvWhole, EvalWhole, SameOrder, Builds;
    var st1 := PushValue(st, Home(e));
    PlainOperands(e);
    RefEarly(w, e, st);
    if EarlyRef(w, e.l, st1) || EarlyRef(w, e.r, EvRef(w, e.l, st1).st) {
      BothApart(w, e, Home(e), st1);
      RefsAre(w, e, st);
      ApartToTheEnd(w, e, st);
    } else {
      TailOrder(w, e, st);
    }
  }

  lemma RefEarly(w: World, e: Expr, st: State)
    requires EarlyRef(w, e, st)
    ensures Early(w, e, PushValue(st, Home(e)))
  {
  }

  lemma RefsAre(w: World, e: Expr, st: State)
    ensures EvRef(w, e, st) == EvInto(w, e, Home(e), PushValue(st, Home(e)))
    ensures EvalRef(w, e, st.t, true).t == EvalInto(w, e, Home(e), st.t, true).t
  {
  }

  lemma {:induction false} DropConcat(a: seq<Slot>, b: seq<Slot>, t: Trace)
    ensures DropAll(a + b, t) == DropAll(a, DropAll(b, t))
  {
    if b == [] {
      assert a + b == a;
    } else {
      var b', v := b[..|b| - 1], b[|b| - 1];
      assert (a + b)[..|a + b| - 1] == a + b' && (a + b)[|a + b| - 1] == v;
      DropConcat(a, b', Drop(v, t));
    }
  }

  // A second operand that is the last thing to be evaluated.
  lemma TailOrder(w: World, e: Expr, st: State)
    requires Quiet(w) && PlainExpr(e) && (e.And? || e.Or?)
    requires var st1 := PushValue(st, Home(e));
             var a := EvRef(w, e.l, st1);
             a.flag == e.And? && !EarlyRef(w, e.l, st1) && !EarlyRef(w, e.r, a.st)
    ensures var v, a := EvWhole(w, e, st), EvalWhole(w, e, st.t, true);
            !a.threw && v.flag == a.flag && (v.st.t == a.t <==> SameOrder(e.l) && SameOrder(e.r))
  {
    hide Quiet, PlainExpr, EvRef, EvalRef, EarlyRef, Needy, OuterFirst, TempsRef, DropAll, Adds;
    var st1 := PushValue(st, Home(e));
    PlainOperands(e);
    RefAlike(w, e.l, st1);
    var v, a := EvRef(w, e.l, st1), EvalRef(w, e.l, st.t, true);
    RefAlike(w, e.r, v.st);
    var v2, b := EvRef(w, e.r, v.st), EvalRef(w, e.r, a.t, true);
    TailIs(w, e, st);
    var ofs, temps := OuterFirst(e.l) + OuterFirst(e.r), TempsRef(e.l) + [Home(e)] + TempsRef(e.r);
    var t := b.t + [Stored(Home(e), b.flag)];
    AddsOne(st, Home(e));
    AddsThen(st1, v.st, v2.st, Needy(OuterFirst(e.l)), Needy(OuterFirst(e.r)));
    NeedyConcat(OuterFirst(e.l), OuterFirst(e.r));
    AddsThen(st, st1, v2.st, Needy([Home(e)]), Needy(ofs));
    NeedyOne(Home(e));
    assert [] + Needy(ofs) == Needy(ofs);
    var end := Happens(v2.st, Stored(Home(e), v2.flag));
    StackOnly(st, v2.st, end, Needy(ofs));
    PopIs(st, end, Needy(ofs));
    DropConcat(TempsRef(e.l) + [Home(e)], TempsRef(e.r), t);
    SameDrop(ofs, temps, t);
    NeedyConcat(TempsRef(e.l) + [Home(e)], TempsRef(e.r));
    NeedyConcat(TempsRef(e.l), [Home(e)]);
    assert Needy(TempsRef(e.l)) + [] == Needy(TempsRef(e.l));
    SameSize(e.l);
    Pieces(Needy(OuterFirst(e.l)), Needy(OuterFirst(e.r)), Needy(TempsRef(e.l)), Needy(TempsRef(e.r)));
  }

  // What both do with an and/or whose second operand runs.
  lemma TailIs(w: World, e: Expr, st: State)
    requires e.And? || e.Or?
    requires var a := EvalRef(w, e.l, st.t, true);
             !a.threw && a.flag == e.And? && EvRef(w, e.l, PushValue(st, Home(e))).flag == a.flag && !EvalRef(w, e.r, a.t, true).threw
    ensures var v := EvRef(w, e.l, PushValue(st, Home(e)));
            var v2 := EvRef(w, e.r, v.st);
            var end := Happens(v2.st, Stored(Home(e), v2.flag));
            st.stack <= end.stack && EvWhole(w, e, st) == Flagged(PopStack(end, |st.stack|), v2.flag)
    ensures var a := EvalRef(w, e.l, st.t, true);
            var b := EvalRef(w, e.r, a.t, true);
            EvalWhole(w, e, st.t, true) ==
              Evaled(false, DropAll(a.temps + [Home(e)], DropAll(b.temps, b.t + [Stored(Home(e), b.flag)])), b.flag, [])
  {
    hide DropAll;
    var st1 := PushValue(st, Home(e));
    var v := EvRef(w, e.l, st1);
    var v2 := EvRef(w, e.r, v.st);
    assert EvInto(w, e, Home(e), st1) == Flagged(Happens(v2.st, Stored(Home(e), v2.flag)), v2.flag);
    var a := EvalRef(w, e.l, st.t, true);
    assert EvalInto(w, e, Home(e), st.t, true) == EvalArm(w, e.r, Home(e), a, true);
  }

  // Every temporary has a slot of its own, those of the two operands of an and/or
  // considered separately.
  predicate Separate(e: Expr) {
    match e
    case And(l, r, _) => NoRepeats(Needy(TempsRef(l))) && NoRepeats(Needy(TempsRef(r)))
    case Or(l, r, _) => NoRepeats(Needy(TempsRef(l))) && NoRepeats(Needy(TempsRef(r)))
    case _ => NoRepeats(Needy(TempsRef(e)))
  }

  // The same by nesting: no value that needs destroying has another among its
  // operands, and no second operand builds one, but for that of e itself.
  predicate Nested(w: World, e: Expr, st: State) {
    var st1 := PushValue(st, Home(e));
    match e
    case Lit(_, _) => true
    case Call(_, _, _, _) => !Early(w, e, st1) && Flat(e)
    case And(l, r, _) =>
      var a := EvRef(w, l, st1);
      !EarlyRef(w, l, st1) && Flat(l) && (a.flag ==> !EarlyRef(w, r, a.st) && Flat(r))
    case Or(l, r, _) =>
      var a := EvRef(w, l, st1);
      !EarlyRef(w, l, st1) && Flat(l) && (!a.flag ==> !EarlyRef(w, r, a.st) && Flat(r))
  }

  lemma WholeNesting(w: World, e: Expr, st: State)
    requires Quiet(w) && PlainExpr(e) && Separate(e)
    ensures EvWhole(w, e, st).st.t == EvalWhole(w, e, st.t, true).t <==> Nested(w, e, st)
  {
    hide Quiet, PlainExpr, EvWhole, EvalWhole, Early, EarlyRef, EvRef, SameOrder, Flat, Needy, TempsRef;
    WholeOrder(w, e, st);
    match e
    case Lit(_, _) =>
    case Call(_, _, _, _) => FlatIff(e);
    case And(l, r, _) => FlatIff(l); FlatIff(r);
    case Or(l, r, _) => FlatIff(l); FlatIff(r);
  }

  // Judged by the text, in order whatever runs.
  predicate Orderly(e: Expr) {
    if e.And? || e.Or? then Calm(e.l) && SameOrder(e.l) && Calm(e.r) && SameOrder(e.r)
    else Calm(e) && SameOrder(e)
  }

  lemma OrderlyWhole(w: World, e: Expr, st: State)
    requires Quiet(w) && PlainExpr(e) && Orderly(e)
    ensures var v, a := EvWhole(w, e, st), EvalWhole(w, e, st.t, true);
            !a.threw && v.flag == a.flag && v.st == State(a.t, st.stack)
  {
    hide Quiet, PlainExpr, EvWhole, EvalWhole, EvRef, Early, EarlyRef, SameOrder, Calm;
    WholeOrder(w, e, st);
    var st1 := PushValue(st, Home(e));
    if e.And? || e.Or? {
      CalmNotEarly(w, e.l, st1);
      CalmNotEarly(w, e.r, EvRef(w, e.l, st1).st);
    } else {
      CalmNotEarly(w, e, st1);
    }
  }

  lemma {:induction false} NeedyTwice(vs: seq<Slot>)
    ensures Needy(Needy(vs)) == Needy(vs)
  {
    if vs != [] {
      var rest := Needy(vs[..|vs| - 1]);
      NeedyTwice(vs[..|vs| - 1]);
      NeedyConcat(rest, [vs[|vs| - 1]]);
      NeedyOne(vs[|vs| - 1]);
      assert rest + [] == rest;
    }
  }

  // ----- initialisers -------------------------------------------------------

  // The reference destroys the temporaries of each initialiser when it is done,
  // the evaluator those of all of them at the end: only the last may have any.
  predicate SameOrderInits(inits: seq<Init>) {
    && (forall i :: 0 <= i < |inits| ==> Calm(inits[i].e))
    && (forall i :: 0 <= i < |inits| - 1 ==> Needy(TempsInto(inits[i].e)) == [] && Needy(OuterFirstInto(inits[i].e)) == [])
    && (inits != [] ==> var e := inits[|inits| - 1].e; Needy(OuterFirstInto(e)) == Needy(TempsInto(e)))
  }

  // What the first n initialisers have left to destroy.
  function Waiting(inits: seq<Init>, n: nat): seq<Slot>
    requires n <= |inits|
  {
    if n < |inits| || n == 0 then [] else Needy(OuterFirstInto(inits[n - 1].e))
  }

  lemma {:induction false} InitsAlike(w: World, inits: seq<Init>, n: nat, st: State)
    requires Quiet(w) && n <= |inits| && PlainInits(inits) && SameOrderInits(inits)
    ensures var v, a := EvInits(w, inits, n, st), EvalInits(w, inits, n, st.t, true);
            && a.out == Normal && Adds(st, v, Waiting(inits, n)) && DropAll(Waiting(inits, n), v.t) == a.t
            && EvFlags(w, inits, n, st) == Flags(w, inits, n, st.t, true)
  {
    hide EvInto, EvalInto, Quiet, PlainExpr, Calm, Needy, OuterFirstInto, TempsInto, Adds, DropAll;
    if n == 0 {
      NothingDropped(st.t);
      AddsNothing(st, st);
    } else {
      InitsAlike(w, inits, n - 1, st);
      var e, out := inits[n - 1].e, inits[n - 1].out;
      var v := EvInits(w, inits, n - 1, st);
      assert Waiting(inits, n - 1) == [];
      NothingDropped(v.t);
      CalmNotEarly(w, e, v);
      IntoAlike(w, e, out, v);
      var b := EvalInto(w, e, out, v.t, true);
      DropNeedy(b.temps, b.t);
      if n < |inits| { NothingDropped(b.t); }
      AddsThen(st, v, EvInits(w, inits, n, st), [], Needy(OuterFirstInto(e)));
      assert [] + Needy(OuterFirstInto(e)) == Needy(OuterFirstInto(e));
    }
  }

  lemma NothingDropped(t: Trace)
    ensures DropAll([], t) == t
  {
  }

  lemma MultiAlike(w: World, inits: seq<Init>, st: State)
    requires Quiet(w) && PlainInits(inits) && SameOrderInits(inits)
    ensures var a := EvalInits(w, inits, |inits|, st.t, true);
            && a.out == Normal && EvMulti(w, inits, st) == State(a.t, st.stack)
            && EvFlags(w, inits, |inits|, st) == Flags(w, inits, |inits|, st.t, true)
  {
    InitsAlike(w, inits, |inits|, st);
    PopIs(st, EvInits(w, inits, |inits|, st), Waiting(inits, |inits|));
  }

  // ----- statements ---------------------------------------------------------

  // Programs both destroy in the same order: temporaries die in the same order,
  // and conditions bind primitive values.
  predicate Aligned(s: Stmt)
    decreases s, 0
  {
    match s
    case Block(body) => AlignedAll(body)
    case Var(inits) => SameOrderInits(inits)
    case Eval(e) => Orderly(e)
    case Return(inits) => SameOrderInits(inits)
    case If(pre, _, cond, thn, els) => AlignedPre(pre, cond) && Aligned(thn) && Aligned(els)
    case While(pre, cond, loop) => AlignedPre(pre, cond) && Aligned(loop)
    case Try(tried, _) => Aligned(tried)
    case _ => true
  }

  predicate AlignedAll(ss: seq<Stmt>)
    decreases ss, 0
  {
    forall i :: 0 <= i < |ss| ==> Aligned(ss[i])
  }

  predicate AlignedPre(pre: seq<Stmt>, cond: Expr)
    decreases pre, 1
  {
    AlignedAll(pre) && Orderly(cond) && forall n :: 0 <= n <= |pre| ==> Needy(BoundBy(pre, n)) == []
  }

  lemma {:induction false} UnwindPassive(w: World, es: seq<Entry>, t: Trace, fuel: nat)
    requires Passive(es)
    ensures Unwind(w, es, false, t, fuel) == Run(Normal, DropAll(Vals(es), t), fuel)
  {
    if es != [] {
      var n := |es| - 1;
      if es[n].Value? {
        assert Vals(es)[..|Vals(es)| - 1] == Vals(es[..n]);
        UnwindPassive(w, es[..n], Drop(es[n].v, t), fuel);
      } else {
        assert Vals(es) == Vals(es[..n]);
        UnwindPassive(w, es[..n], t, fuel);
      }
    }
  }

  lemma LeavePassive(w: World, r: Run, ss: seq<Stmt>, i: nat)
    requires i <= |ss| && Passive(Own(ss, i)) && r.out != Threw
    ensures Leave(w, r, ss, i) == if r.out == Stuck || r.out == OutOfFuel then r else r.(t := DropAll(Vals(Own(ss, i)), r.t))
  {
    UnwindPassive(w, Own(ss, i), r.t, r.fuel);
  }

  predicate SameEnd(v: Ended, r: Run) {
    && v.fuel == r.fuel
    && match v.end
       case Fell => r.out == Normal
       case Broken => r.out == Broke
       case Continuing => r.out == Continued
       case Returning(values) => r.out == Returned(values)
       case Unfinished => r.out == OutOfFuel
       case Unsupported => false
  }

  predicate SameTrace(st: State, v: Ended, r: Run) {
    v.st.t == r.t && SameEnd(v, r) && (v.end != Unfinished ==> Adds(st, v.st, []))
  }

  // The traces agree, event for event.
  lemma {:induction false} TracesAgree(w: World, s: Stmt, st: State, fuel: nat)
    requires Quiet(w) && Plain(s) && Aligned(s)
    ensures SameTrace(st, EvStmt(w, s, st, fuel), Exec(w, s, st.t, true, fuel))
    decreases fuel, s, 2
  {
    hide Quiet, PlainExpr, PlainInits, PlainPre, EvWhole, EvMulti, EvPre, EvFlags, Flags, PlainAll, EvalWhole, EvalInits, Needy, Orderly, SameOrderInits, Adds, DropAll;
    match s
    case Block(body) => BlockTraces(w, body, st, fuel);
    case Eval(e) =>
      OrderlyWhole(w, e, st);
      AddsNothing(st, EvWhole(w, e, st).st);
    case Return(inits) =>
      MultiAlike(w, inits, st);
      AddsNothing(st, EvMulti(w, inits, st));
    case If(_, _, _, _, _) => IfTraces(w, s, st, fuel);
    case While(_, _, _) =>
      AddsNothing(st, st);
      LoopTraces(w, s, |st.stack|, st, st, fuel);
      var v := EvLoop(w, s, |st.stack|, st, fuel);
      if v.end == Fell { PopNone(st, v.st); }
    case Try(tried, _) => TracesAgree(w, tried, st, fuel);
    case _ => AddsNothing(st, st);
  }

  lemma PopNone(st: State, st': State)
    requires Adds(st, st', [])
    ensures PopStack(st', |st.stack|) == State(st'.t, st.stack) && Adds(st, PopStack(st', |st.stack|), [])
  {
    PopIs(st, st', []);
    AddsNothing(st, PopStack(st', |st.stack|));
  }

  lemma {:induction false} PreTraces(w: World, pre: seq<Stmt>, n: nat, st: State, fuel: nat)
    requires Quiet(w) && n <= |pre| && PlainPre(pre) && AlignedAll(pre)
    ensures ExecPre(w, pre, n, st.t, true, fuel) == Run(Normal, EvPre(w, pre, n, st).t, fuel)
  {
    hide Quiet, PlainExpr, PlainInits, EvWhole, EvMulti, EvalWhole, EvalInits, Orderly, SameOrderInits, Needy, Exec, Leave, OuterFirst, TempsRef;
    if n > 0 {
      PreTraces(w, pre, n - 1, st, fuel);
      var v := EvPre(w, pre, n - 1, st);
      SimpleIs(w, pre[n - 1], v.t, fuel);
      assert Aligned(pre[n - 1]);
      match pre[n - 1]
      case Var(inits) => MultiAlike(w, inits, v.(stack := v.stack + Slots(inits)));
      case Eval(e) => OrderlyWhole(w, e, v);
    }
  }

  lemma {:induction false} BoundVals(pre: seq<Stmt>, n: nat)
    requires n <= |pre| && PlainPre(pre)
    ensures Vals(Own(pre, n)) == BoundBy(pre, n)
  {
    hide Vals, PlainInits, PlainExpr;
    if n > 0 {
      BoundVals(pre, n - 1);
      ValsConcat(Own(pre, n - 1), Pushes(pre[n - 1]));
      if pre[n - 1].Var? { ValsOfValues(Slots(pre[n - 1].inits)); } else { NoVals(pre[n - 1]); }
    } else {
      NothingHeld();
    }
  }

  lemma NothingHeld()
    ensures Vals([]) == []
  {
  }

  // The condition of an if or loop, behind its bindings.
  lemma HeadTraces(w: World, pre: seq<Stmt>, cond: Expr, st: State, fuel: nat)
    requires Quiet(w) && PlainPre(pre) && PlainExpr(cond) && AlignedPre(pre, cond)
    ensures var p := ExecPre(w, pre, |pre|, st.t, true, fuel);
            var c, v := EvalWhole(w, cond, p.t, true), EvWhole(w, cond, EvPre(w, pre, |pre|, st));
            && p.out == Normal && p.fuel == fuel && Passive(Own(pre, |pre|)) && Needy(Vals(Own(pre, |pre|))) == []
            && !c.threw && v.flag == c.flag && v.st.t == c.t && Adds(st, v.st, [])
  {
    hide Quiet, PlainExpr, EvWhole, EvalWhole, EvPre, ExecPre, PlainPre, Orderly;
    PreTraces(w, pre, |pre|, st, fuel);
    var a := EvPre(w, pre, |pre|, st);
    OrderlyWhole(w, cond, a);
    PreStack(w, pre, |pre|, st);
    BoundVals(pre, |pre|);
    OwnPassive(pre, |pre|);
    assert a.stack[|st.stack|..] == BoundBy(pre, |pre|);
  }

  lemma LeaveNothing(w: World, r: Run, pre: seq<Stmt>)
    requires Passive(Own(pre, |pre|)) && Needy(Vals(Own(pre, |pre|))) == [] && r.out != Threw
    ensures Leave(w, r, pre, |pre|) == r
  {
    LeavePassive(w, r, pre, |pre|);
    DropNone(Vals(Own(pre, |pre|)), r.t);
  }

  lemma {:induction false} IfTraces(w: World, s: Stmt, st: State, fuel: nat)
    requires Quiet(w) && s.If? && Plain(s) && Aligned(s)
    ensures SameTrace(st, EvStmt(w, s, st, fuel), Exec(w, s, st.t, true, fuel))
    decreases fuel, s, 1
  {
    hide Quiet, PlainExpr, PlainPre, EvWhole, EvalWhole, EvPre, ExecPre, Own, Passive, Adds, Needy, AlignedPre, Leave, PopStack;
    HeadTraces(w, s.pre, s.cond, st, fuel);
    var p := ExecPre(w, s.pre, |s.pre|, st.t, true, fuel);
    var c, v := EvalWhole(w, s.cond, p.t, true), EvWhole(w, s.cond, EvPre(w, s.pre, |s.pre|, st));
    var taken := s.kind.StaticTrue? || (s.kind.Dynamic? && c.flag);
    var part := if taken then s.thn else s.els;
    var r := Exec(w, part, c.t, true, fuel);
    if !taken && s.els == Block([]) {
      EmptyBlock(w, c.t, fuel);
      PopNone(st, v.st);
    } else {
      TracesAgree(w, part, v.st, fuel);
      var v2 := EvStmt(w, part, v.st, fuel);
      if v2.end != Unfinished { AddsThen(st, v.st, v2.st, [], []); }
    }
    LeaveNothing(w, r, s.pre);
  }

  lemma {:induction false} LoopTraces(w: World, s: Stmt, marker: nat, base: State, st: State, fuel: nat)
    requires Quiet(w) && s.While? && Plain(s) && Aligned(s) && marker == |base.stack| && Adds(base, st, [])
    ensures var v, r := EvLoop(w, s, marker, st, fuel), Exec(w, s, st.t, true, fuel);
            SameTrace(base, v, r) && v.end != Broken && v.end != Continuing
    decreases fuel, s, 1
  {
    hide Quiet, PlainExpr, PlainPre, EvWhole, EvalWhole, EvPre, ExecPre, Own, EvStmt, Passive, Leave, Adds, Needy, AlignedPre, DropAll, Vals, Orderly;
    if fuel > 0 {
      HeadTraces(w, s.pre, s.cond, st, fuel - 1);
      var p := ExecPre(w, s.pre, |s.pre|, st.t, true, fuel - 1);
      var c, v := EvalWhole(w, s.cond, p.t, true), EvWhole(w, s.cond, EvPre(w, s.pre, |s.pre|, st));
      WhileUnfolds(w, s, st.t, fuel, p, c);
      hide Exec;
      AddsThen(base, st, v.st, [], []);
      if c.flag {
        PassTraces(w, s, marker, base, v.st, fuel - 1);
      } else {
        LeaveNothing(w, Run(Normal, c.t, fuel - 1), s.pre);
      }
    }
  }

  // One run of the body, and the rest of the loop.
  lemma {:induction false} PassTraces(w: World, s: Stmt, marker: nat, base: State, st: State, fuel: nat)
    requires Quiet(w) && s.While? && Plain(s) && Aligned(s) && marker == |base.stack| && Adds(base, st, [])
    requires Passive(Own(s.pre, |s.pre|)) && Needy(Vals(Own(s.pre, |s.pre|))) == []
    ensures var b, r := EvStmt(w, s.loop, st, fuel), Exec(w, s.loop, st.t, true, fuel);
            && SameTrace(base, b, r) && Leave(w, LoopExit(r), s.pre, |s.pre|) == LoopExit(r)
            && (b.end == Fell || b.end == Continuing ==>
                  var t' := DropAll(b.st.stack[marker..], b.st.t);
                  var v2, r2 := EvLoop(w, s, marker, b.st.(t := t'), b.fuel), Exec(w, s, r.t, true, r.fuel);
                  t' == r.t && SameTrace(base, v2, r2) && v2.end != Broken && v2.end != Continuing)
    decreases fuel, s, 3
  {
    hide Quiet, PlainExpr, PlainPre, EvWhole, EvalWhole, EvPre, ExecPre, Own, EvStmt, Exec, EvLoop, Passive, Leave, Needy, AlignedPre;
    TracesAgree(w, s.loop, st, fuel);
    var b, r := EvStmt(w, s.loop, st, fuel), Exec(w, s.loop, st.t, true, fuel);
    if b.end != Unfinished { AddsThen(base, st, b.st, [], []); }
    LeaveNothing(w, LoopExit(r), s.pre);
    if b.end == Fell || b.end == Continuing {
      DropNone(b.st.stack[marker..], b.st.t);
      LoopTraces(w, s, marker, base, b.st, b.fuel);
    }
  }

  lemma {:induction false} BlockTraces(w: World, ss: seq<Stmt>, st: State, fuel: nat)
    requires Quiet(w) && PlainAll(ss) && AlignedAll(ss)
    ensures SameTrace(st, EvStmt(w, Block(ss), st, fuel), Exec(w, Block(ss), st.t, true, fuel))
    decreases fuel, ss, |ss| + 1
  {
    assert Needy(Vals(Own(ss, 0))) == [];
    hide Quiet, Plain, Aligned, Needy;
    AddsNothing(st, st);
    ItemsTraces(w, ss, 0, st, st, fuel);
    var v := EvBlock(w, ss, 0, st, fuel);
    if v.end != Unfinished { AddsNothing(st, PopStack(v.st, |st.stack|)); }
  }

  // The items from i on, above the values the block has bound.
  lemma {:induction false} ItemsTraces(w: World, ss: seq<Stmt>, i: nat, base: State, st: State, fuel: nat)
    requires Quiet(w) && i <= |ss| && PlainAll(ss) && AlignedAll(ss) && Adds(base, st, Needy(Vals(Own(ss, i))))
    ensures var v, r := EvBlock(w, ss, i, st, fuel), ExecBlock(w, ss, i, st.t, true, fuel);
            && SameEnd(v, r) && base.stack <= v.st.stack
            && (if v.end == Unfinished then v.st.t else PopStack(v.st, |base.stack|).t) == r.t
    decreases fuel, ss, |ss| - i
  {
    hide Quiet, Plain, Aligned, EvStmt, EvMulti, EvalInits, Own, Passive, Unwind, Exec, Needy, Vals, PlainInits, Adds, DropAll, Leave;
    assert base.stack <= st.stack by { AddsPrefix(base, st, Needy(Vals(Own(ss, i)))); }
    OwnPassive(ss, i);
    if i == |ss| {
      LeavePassive(w, Run(Normal, st.t, fuel), ss, i);
      PoppedItems(base, st, Vals(Own(ss, i)));
    } else if ss[i].Var? {
      var inits := ss[i].inits;
      MultiAlike(w, inits, st.(stack := st.stack + Slots(inits))) by { AlignedVar(ss, i); }
      var st1 := EvBinding(w, inits, st);
      VarIs(w, inits, st.t, fuel);
      BoundMore(ss, i, base, st, st1);
      ItemsTraces(w, ss, i + 1, base, st1, fuel);
    } else {
      ItemTraces(w, ss, i, base, st, fuel);
    }
  }

  lemma AddsPrefix(st: State, st': State, vs: seq<Slot>)
    requires Adds(st, st', vs)
    ensures st.stack <= st'.stack
  {
  }

  lemma AlignedVar(ss: seq<Stmt>, i: nat)
    requires i < |ss| && PlainAll(ss) && AlignedAll(ss) && ss[i].Var?
    ensures PlainInits(ss[i].inits) && SameOrderInits(ss[i].inits)
  {
    assert Aligned(ss[i]);
  }

  lemma PoppedItems(base: State, st: State, vs: seq<Slot>)
    requires Adds(base, st, Needy(vs))
    ensures PopStack(st, |base.stack|).t == DropAll(vs, st.t)
  {
    PopIs(base, st, Needy(vs));
    DropNeedy(vs, st.t);
  }

  lemma BoundMore(ss: seq<Stmt>, i: nat, base: State, st: State, st1: State)
    requires i < |ss| && ss[i].Var? && Adds(base, st, Needy(Vals(Own(ss, i)))) && st1.stack == st.stack + Slots(ss[i].inits)
    ensures Adds(base, st1, Needy(Vals(Own(ss, i + 1))))
  {
    hide Needy, Vals;
    var vs := Slots(ss[i].inits);
    assert st1.stack[|st.stack|..] == vs;
    AddsThen(base, st, st1, Needy(Vals(Own(ss, i))), Needy(vs));
    ValsConcat(Own(ss, i), Pushes(ss[i]));
    ValsOfValues(vs);
    NeedyConcat(Vals(Own(ss, i)), vs);
  }

  lemma {:induction false} ItemTraces(w: World, ss: seq<Stmt>, i: nat, base: State, st: State, fuel: nat)
    requires Quiet(w) && i < |ss| && PlainAll(ss) && AlignedAll(ss) && !ss[i].Var? && Passive(Own(ss, i))
    requires Adds(base, st, Needy(Vals(Own(ss, i)))) && base.stack <= st.stack
    ensures var v, r := EvBlock(w, ss, i, st, fuel), ExecBlock(w, ss, i, st.t, true, fuel);
            && SameEnd(v, r) && base.stack <= v.st.stack
            && (if v.end == Unfinished then v.st.t else PopStack(v.st, |base.stack|).t) == r.t
    decreases fuel, ss, |ss| - i, 0
  {
    hide Quiet, Plain, Aligned, EvStmt, Exec, Own, Passive, Unwind, Needy, Vals, Adds, DropAll, Leave, PopStack;
    SizeOfItem(ss, i);
    TracesAgree(w, ss[i], st, fuel);
    var v, r := EvStmt(w, ss[i], st, fuel), Exec(w, ss[i], st.t, true, fuel);
    LeavePassive(w, r, ss, i);
    if v.end != Unfinished { ItemAdds(ss, i, base, st, v.st); }
    if v.end == Fell {
      ItemsTraces(w, ss, i + 1, base, v.st, v.fuel);
    } else if v.end != Unfinished {
      PoppedItems(base, v.st, Vals(Own(ss, i)));
    }
  }

  lemma ItemAdds(ss: seq<Stmt>, i: nat, base: State, st: State, st1: State)
    requires i < |ss| && !ss[i].Var? && Adds(base, st, Needy(Vals(Own(ss, i)))) && Adds(st, st1, [])
    ensures Adds(base, st1, Needy(Vals(Own(ss, i)))) && Adds(base, st1, Needy(Vals(Own(ss, i + 1))))
  {
    hide Needy, Vals;
    AddsThen(base, st, st1, Needy(Vals(Own(ss, i))), []);
    assert Needy(Vals(Own(ss, i))) + [] == Needy(Vals(Own(ss, i)));
    ValsConcat(Own(ss, i), Pushes(ss[i]));
    NoVals(ss[i]);
    assert Vals(Own(ss, i)) + [] == Vals(Own(ss, i));
  }
}
