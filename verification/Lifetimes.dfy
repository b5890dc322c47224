// Every value that is built is destroyed exactly once, in the reverse of the
// order in which values of its kind were built, and nothing else is destroyed.
module Lifetimes {
  import opened Wrappers
  import opened Syntax
  import opened Semantics
  import opened CodegenSpec
  import opened Framing
  import opened Unwinding

  // Whether an event leaves a value behind for someone to destroy. A call that
  // throws builds nothing; where exceptions are not tested for, the program goes
  // on as if it had (asIf).
  predicate Builds(e: Event, k: Kind, asIf: bool) {
    e.Called? && e.out.kind == k && !e.out.prim && (!e.threw || (asIf && !e.checked))
  }

  // The values of kind k alive after t, oldest first; None once something other
  // than the newest of them has been destroyed.
  function Live(t: Trace, k: Kind, asIf: bool): Option<seq<Slot>> {
    if t == [] then Some([])
    else
      var before := Live(t[..|t| - 1], k, asIf);
      var e := t[|t| - 1];
      if before == None then None
      else if Builds(e, k, asIf) then Some(before.value + [e.out])
      else if e.Destroyed? && e.v.kind == k then
        if before.value != [] && before.value[|before.value| - 1] == e.v then Some(before.value[..|before.value| - 1]) else None
      else before
  }

  lemma LiveNext(t: Trace, e: Event, k: Kind, asIf: bool)
    ensures Live(t, k, asIf) == None ==> Live(t + [e], k, asIf) == None
    ensures Live(t, k, asIf).Some? && Builds(e, k, asIf) ==> Live(t + [e], k, asIf) == Some(Live(t, k, asIf).value + [e.out])
    ensures Live(t, k, asIf).Some? && e.Destroyed? && e.v.kind == k ==>
              var vs := Live(t, k, asIf).value;
              Live(t + [e], k, asIf) == if vs != [] && vs[|vs| - 1] == e.v then Some(vs[..|vs| - 1]) else None
    ensures !Builds(e, k, asIf) && !(e.Destroyed? && e.v.kind == k) ==> Live(t + [e], k, asIf) == Live(t, k, asIf)
  {
    assert (t + [e])[..|t + [e]| - 1] == t;
  }

  // Safety passes to every prefix of a trace.
  lemma {:induction false} LivePrefix(t: Trace, t': Trace, k: Kind, asIf: bool)
    requires t <= t' && Live(t', k, asIf).Some?
    ensures Live(t, k, asIf).Some?
  {
    if |t| < |t'| {
      LivePrefix(t, t'[..|t'| - 1], k, asIf);
    } else {
      assert t == t';
    }
  }

  // The values of kind k among slots.
  function Keep(vs: seq<Slot>, k: Kind): seq<Slot> {
    if vs == [] then []
    else
      var v := vs[|vs| - 1];
      Keep(vs[..|vs| - 1], k) + if v.kind == k && !v.prim then [v] else []
  }

  lemma {:induction false} KeepConcat(a: seq<Slot>, b: seq<Slot>, k: Kind)
    ensures Keep(a + b, k) == Keep(a, k) + Keep(b, k)
  {
    if b == [] {
      assert a + b == a;
    } else {
      assert (a + b)[..|a + b| - 1] == a + b[..|b| - 1];
      KeepConcat(a, b[..|b| - 1], k);
    }
  }

  lemma KeepOn(base: seq<Slot>, a: seq<Slot>, b: seq<Slot>, k: Kind)
    ensures base + Keep(a + b, k) == base + Keep(a, k) + Keep(b, k)
  {
    hide Keep;
    KeepConcat(a, b, k);
    assert base + (Keep(a, k) + Keep(b, k)) == base + Keep(a, k) + Keep(b, k);
  }

  lemma KeepNone(base: seq<Slot>, k: Kind)
    ensures base + Keep([], k) == base && base + [] == base
  {
  }

  lemma KeepOne(v: Slot, k: Kind)
    ensures Keep([v], k) == if v.kind == k && !v.prim then [v] else []
  {
    assert [v][..0] == [];
  }

  predicate AllKind(vs: seq<Slot>, k: Kind) {
    forall i :: 0 <= i < |vs| ==> vs[i].kind == k
  }

  lemma KeepOther(vs: seq<Slot>, k: Kind, k': Kind)
    requires AllKind(vs, k) && k != k'
    ensures Keep(vs, k') == []
  {
  }

  // The values among stack entries.
  function Vals(es: seq<Entry>): seq<Slot> {
    if es == [] then []
    else Vals(es[..|es| - 1]) + if es[|es| - 1].Value? then [es[|es| - 1].v] else []
  }

  lemma {:induction false} ValsConcat(a: seq<Entry>, b: seq<Entry>)
    ensures Vals(a + b) == Vals(a) + Vals(b)
  {
    if b == [] {
      assert a + b == a;
    } else {
      assert (a + b)[..|a + b| - 1] == a + b[..|b| - 1];
      ValsConcat(a, b[..|b| - 1]);
    }
  }

  lemma {:induction false} ValsOfValues(vs: seq<Slot>)
    ensures Vals(Values(vs)) == vs
  {
    if vs != [] {
      assert Values(vs)[..|vs| - 1] == Values(vs[..|vs| - 1]);
      ValsOfValues(vs[..|vs| - 1]);
    }
  }

  // ----- well-typed programs ------------------------------------------------

  // Only calls build values that need destroying; a binding's outputs are
  // locals and a return's are the function's results.
  predicate TypedInits(inits: seq<Init>, k: Kind) {
    forall i :: 0 <= i < |inits| ==> inits[i].out.kind == k && (!inits[i].e.Call? ==> inits[i].out.prim)
  }

  predicate Typed(s: Stmt, outs: seq<Slot>)
    decreases s, 0
  {
    match s
    case Block(body) => TypedAll(body, outs)
    case Var(inits) => TypedInits(inits, Local)
    case Return(inits) => TypedInits(inits, Result) && Slots(inits) == outs
    case If(pre, _, _, thn, els) => TypedAll(pre, outs) && TypedPart(thn, outs) && TypedPart(els, outs)
    case While(pre, _, loop) => TypedAll(pre, outs) && TypedPart(loop, outs)
    case Try(tried, handler) => TypedPart(tried, outs) && TypedPart(handler, outs)
    case Finally(b) => TypedAll(b, outs)
    case OnError(b) => TypedAll(b, outs)
    case _ => true
  }

  // A binding stands in a block, never alone in a branch.
  predicate TypedPart(s: Stmt, outs: seq<Slot>)
    decreases s, 1
  {
    !s.Var? && Typed(s, outs)
  }

  predicate TypedAll(ss: seq<Stmt>, outs: seq<Slot>)
    decreases ss, 0
  {
    forall i :: 0 <= i < |ss| ==> Typed(ss[i], outs)
  }

  predicate TypedEntry(e: Entry, outs: seq<Slot>) {
    match e
    case Value(v) => v.kind == Local
    case Final(b) => TypedAll(b, outs)
    case Error(b) => TypedAll(b, outs)
  }

  predicate TypedEntries(es: seq<Entry>, outs: seq<Slot>) {
    forall i :: 0 <= i < |es| ==> TypedEntry(es[i], outs)
  }

  lemma {:induction false} SlotsKind(inits: seq<Init>, k: Kind)
    requires TypedInits(inits, k)
    ensures AllKind(Slots(inits), k)
  {
    if inits != [] { SlotsKind(inits[..|inits| - 1], k); }
  }

  lemma {:induction false} OwnTyped(ss: seq<Stmt>, i: nat, outs: seq<Slot>)
    requires i <= |ss| && TypedAll(ss, outs)
    ensures TypedEntries(Own(ss, i), outs)
  {
    if i > 0 {
      OwnTyped(ss, i - 1, outs);
      if ss[i - 1].Var? { SlotsKind(ss[i - 1].inits, Local); }
    }
  }

  lemma {:induction false} EntriesKind(es: seq<Entry>, outs: seq<Slot>)
    requires TypedEntries(es, outs)
    ensures AllKind(Vals(es), Local)
  {
    if es != [] { EntriesKind(es[..|es| - 1], outs); }
  }

  // ----- expressions --------------------------------------------------------

  lemma {:induction false} DropLive(vs: seq<Slot>, t: Trace, k: Kind, base: seq<Slot>)
    requires Live(t, k, true) == Some(base + Keep(vs, k))
    ensures Live(DropAll(vs, t), k, true) == Some(base)
  {
    if vs == [] {
      assert base + [] == base;
    } else {
      var v := vs[|vs| - 1];
      var rest := Keep(vs[..|vs| - 1], k);
      LiveNext(t, Destroyed(v), k, true);
      if v.kind == k && !v.prim { assert base + (rest + [v]) == base + rest + [v]; } else { assert rest + [] == rest; }
      DropLive(vs[..|vs| - 1], Drop(v, t), k, base);
    }
  }

  lemma {:induction false} TempsKind(e: Expr)
    ensures AllKind(TempsInto(e), Temp)
    decreases e, 0
  {
    match e
    case Lit(_, _) =>
    case Call(_, args, _, _) => TempsKindArgs(args, |args|);
    case And(l, _, _) => TempsKind(l);
    case Or(l, _, _) => TempsKind(l);
  }

  lemma {:induction false} TempsKindArgs(args: seq<Expr>, n: nat)
    requires n <= |args|
    ensures AllKind(TempsArgs(args, n), Temp)
    decreases args, n
  {
    if n > 0 {
      TempsKindArgs(args, n - 1);
      TempsKind(args[n - 1]);
    }
  }

  // What an evaluation leaves alive on top of base.
  predicate LeavesTemps(r: Evaled, k: Kind, base: seq<Slot>) {
    Live(r.t, k, true) == Some(base + Keep(r.temps, k)) && AllKind(r.temps, Temp)
  }

  predicate LeavesOutput(r: Evaled, out: Slot, k: Kind, base: seq<Slot>) {
    Live(r.t, k, true) == Some(base + Keep(r.temps, k) + if r.threw then [] else Keep([out], k)) && AllKind(r.temps, Temp)
  }

  lemma {:induction false} IntoLive(w: World, e: Expr, out: Slot, t: Trace, check: bool, k: Kind, base: seq<Slot>)
    requires Live(t, k, true) == Some(base) && (!e.Call? ==> out.prim)
    ensures LeavesOutput(EvalInto(w, e, out, t, check), out, k, base)
    decreases e, 1
  {
    hide Live, Keep;
    KeepNone(base, k);
    KeepOne(out, k);
    match e
    case Lit(b, _) => LiveNext(t, Stored(out, b), k, true);
    case Call(f, args, _, _) =>
      ArgsLive(w, args, |args|, t, check, k, base);
      var a := EvalArgs(w, args, |args|, t, check);
      KeepNone(base + Keep(a.temps, k), k);
      if !a.threw { CallLive(w, f, Homes(args), out, a, check, k, base + Keep(a.temps, k)); }
    case And(l, r, _) => BothLive(w, e, out, t, check, k, base);
    case Or(l, r, _) => BothLive(w, e, out, t, check, k, base);
  }

  lemma CallLive(w: World, f: Fn, args: seq<Slot>, out: Slot, a: Evaled, check: bool, k: Kind, base: seq<Slot>)
    requires Live(a.t, k, true) == Some(base)
    ensures var r := CallNow(w, f, args, out, a, check);
            Live(r.t, k, true) == Some(base + if r.threw then [] else Keep([out], k))
  {
    hide Live;
    KeepOne(out, k);
    KeepNone(base, k);
    LiveNext(a.t, Called(f, args, out, Answer(w, a.t, f, args).flag, Answer(w, a.t, f, args).threw, check), k, true);
  }

  lemma {:induction false} BothLive(w: World, e: Expr, out: Slot, t: Trace, check: bool, k: Kind, base: seq<Slot>)
    requires (e.And? || e.Or?) && Live(t, k, true) == Some(base)
    ensures var a := EvalRef(w, e.l, t, check);
            var r := if a.threw then a else if a.flag == e.Or? then a.(t := a.t + [Stored(out, a.flag)]) else EvalArm(w, e.r, out, a, check);
            Live(r.t, k, true) == Some(base + Keep(r.temps, k) + []) && AllKind(r.temps, Temp)
    decreases e, 0
  {
    hide Live, Keep, EvalRef;
    RefLive(w, e.l, t, check, k, base);
    var a := EvalRef(w, e.l, t, check);
    var base' := base + Keep(a.temps, k);
    KeepNone(base', k);
    LiveNext(a.t, Stored(out, a.flag), k, true);
    if !a.threw {
      RefLive(w, e.r, a.t, check, k, base');
      var b := EvalRef(w, e.r, a.t, check);
      KeepOn(base, a.temps, b.temps, k);
      KeepNone(base + Keep(a.temps + b.temps, k), k);
      LiveNext(b.t, Stored(out, b.flag), k, true);
      if !b.threw { DropLive(b.temps, b.t + [Stored(out, b.flag)], k, base'); }
    }
  }

  lemma {:induction false} RefLive(w: World, e: Expr, t: Trace, check: bool, k: Kind, base: seq<Slot>)
    requires Live(t, k, true) == Some(base)
    ensures LeavesTemps(EvalRef(w, e, t, check), k, base)
    decreases e, 2
  {
    hide Live, Keep, EvalInto;
    IntoLive(w, e, Home(e), t, check, k, base);
    var a := EvalInto(w, e, Home(e), t, check);
    KeepOn(base, a.temps, [Home(e)], k);
    KeepNone(base + Keep(a.temps, k), k);
  }

  lemma {:induction false} ArgsLive(w: World, args: seq<Expr>, n: nat, t: Trace, check: bool, k: Kind, base: seq<Slot>)
    requires n <= |args| && Live(t, k, true) == Some(base)
    ensures LeavesTemps(EvalArgs(w, args, n, t, check), k, base)
    decreases args, n
  {
    hide Live, Keep, EvalRef;
    KeepNone(base, k);
    if n > 0 {
      ArgsLive(w, args, n - 1, t, check, k, base);
      var a := EvalArgs(w, args, n - 1, t, check);
      if !a.threw {
        RefLive(w, args[n - 1], a.t, check, k, base + Keep(a.temps, k));
        KeepOn(base, a.temps, EvalRef(w, args[n - 1], a.t, check).temps, k);
      }
    }
  }

  lemma WholeLive(w: World, e: Expr, t: Trace, check: bool, k: Kind, base: seq<Slot>)
    requires Live(t, k, true) == Some(base)
    ensures Live(EvalWhole(w, e, t, check).t, k, true) == Some(base)
  {
    RefLive(w, e, t, check, k, base);
    var a := EvalRef(w, e, t, check);
    DropLive(a.temps, a.t, k, base);
  }

  lemma {:induction false} InitsLive(w: World, inits: seq<Init>, n: nat, t: Trace, check: bool, k: Kind, base: seq<Slot>, outKind: Kind)
    requires n <= |inits| && Live(t, k, true) == Some(base) && TypedInits(inits, outKind) && outKind != Temp
    ensures var r := EvalInits(w, inits, n, t, check);
            Live(r.t, k, true) == Some(if r.out == Normal then base + Keep(Slots(inits[..n]), k) else base)
  {
    assert base + [] == base;
    if n > 0 {
      InitsLive(w, inits, n - 1, t, check, k, base, outKind);
      var a := EvalInits(w, inits, n - 1, t, check);
      if a.out == Normal { OneLive(w, inits, n, a.t, check, k, base, outKind); }
    }
  }

  // One more initialiser.
  lemma OneLive(w: World, inits: seq<Init>, n: nat, t: Trace, check: bool, k: Kind, base: seq<Slot>, outKind: Kind)
    requires 0 < n <= |inits| && TypedInits(inits, outKind) && outKind != Temp
    requires Live(t, k, true) == Some(base + Keep(Slots(inits[..n - 1]), k))
    ensures var b := EvalInto(w, inits[n - 1].e, inits[n - 1].out, t, check);
            var t' := DropAll(b.temps, b.t);
            if b.threw then Live(DropAll(Slots(inits[..n - 1]), t'), k, true) == Some(base)
            else Live(t', k, true) == Some(base + Keep(Slots(inits[..n]), k))
  {
    hide Live, Keep, EvalInto, DropAll;
    var prior := Slots(inits[..n - 1]);
    var base' := base + Keep(prior, k);
    var out := inits[n - 1].out;
    IntoLive(w, inits[n - 1].e, out, t, check, k, base');
    var b := EvalInto(w, inits[n - 1].e, out, t, check);
    assert inits[..n][..n - 1] == inits[..n - 1];
    KeepOn(base, prior, [out], k);
    TempsGone(b, out, k, base');
    if b.threw { DropLive(prior, DropAll(b.temps, b.t), k, base); }
  }

  // Destroying the temporaries leaves the output.
  lemma TempsGone(b: Evaled, out: Slot, k: Kind, base: seq<Slot>)
    requires LeavesOutput(b, out, k, base) && out.kind != Temp
    ensures Live(DropAll(b.temps, b.t), k, true) == Some(if b.threw then base else base + Keep([out], k))
  {
    hide Live;
    KeepOne(out, k);
    KeepNone(base, k);
    var mine := if b.threw then [] else Keep([out], k);
    if k != Temp { KeepOther(b.temps, Temp, k); }
    assert base + Keep(b.temps, k) + mine == base + mine + Keep(b.temps, k);
    DropLive(b.temps, b.t, k, base + mine);
  }

  // ----- statements ---------------------------------------------------------

  // What a run leaves alive on top of base, where vs are the run's own values.
  predicate Ends(r: Run, vs: seq<Slot>, outs: seq<Slot>, k: Kind, base: seq<Slot>) {
    match r.out
    case Stuck => Live(r.t, k, true).Some?
    case OutOfFuel => Live(r.t, k, true).Some?
    case Normal => Live(r.t, k, true) == Some(base + Keep(vs, k))
    case Returned(_) => Live(r.t, k, true) == Some(base + Keep(outs, k))
    case _ => Live(r.t, k, true) == Some(base)
  }

  lemma {:induction false} StmtLive(w: World, s: Stmt, t: Trace, check: bool, fuel: nat, cleanup: bool, inLoop: bool, scope: set<string>, outs: seq<Slot>, k: Kind, base: seq<Slot>)
    requires WellFormed(s, cleanup, inLoop, scope) && Typed(s, outs) && AllKind(outs, Result) && Live(t, k, true) == Some(base)
    ensures Ends(Exec(w, s, t, check, fuel), Vals(Pushes(s)), outs, k, base)
    decreases fuel, Size(s), 2
  {
    assert base + [] == base;
    match s
    case Block(body) =>
      BlockLive(w, body, 0, t, check, fuel, cleanup, inLoop, scope, outs, k, base);
    case Var(inits) =>
      InitsLive(w, inits, |inits|, t, check, k, base, Local);
      assert inits[..|inits|] == inits;
      ValsOfValues(Slots(inits));
    case Eval(e) => WholeLive(w, e, t, check, k, base);
    case Return(inits) =>
      InitsLive(w, inits, |inits|, t, check, k, base, Result);
      assert inits[..|inits|] == inits;
    case Throw(args) => ThrowLive(w, args, t, check, fuel, k, base);
    case If(_, _, _, _, _) => IfLive(w, s, t, check, fuel, cleanup, inLoop, scope, outs, k, base);
    case While(_, _, _) => WhileLive(w, s, t, check, fuel, cleanup, inLoop, scope, outs, k, base);
    case Try(tried, handler) =>
      PartLive(w, tried, t, check, fuel, cleanup, inLoop, scope, outs, k, base);
      var r := Exec(w, tried, t, check, fuel);
      if r.out == Threw { PartLive(w, handler, r.t, check, r.fuel, cleanup, inLoop, scope, outs, k, base); }
    case _ =>
  }

  // A branch or body leaves nothing of its own.
  lemma {:induction false} PartLive(w: World, s: Stmt, t: Trace, check: bool, fuel: nat, cleanup: bool, inLoop: bool, scope: set<string>, outs: seq<Slot>, k: Kind, base: seq<Slot>)
    requires WellFormed(s, cleanup, inLoop, scope) && !Bare(s) && TypedPart(s, outs) && AllKind(outs, Result) && Live(t, k, true) == Some(base)
    ensures Ends(Exec(w, s, t, check, fuel), [], outs, k, base)
    decreases fuel, Size(s), 3
  {
    StmtLive(w, s, t, check, fuel, cleanup, inLoop, scope, outs, k, base);
  }

  lemma ThrowLive(w: World, args: seq<Expr>, t: Trace, check: bool, fuel: nat, k: Kind, base: seq<Slot>)
    requires Live(t, k, true) == Some(base)
    ensures Live(Exec(w, Throw(args), t, check, fuel).t, k, true) == Some(base)
  {
    ArgsLive(w, args, |args|, t, check, k, base);
    var a := EvalArgs(w, args, |args|, t, check);
    if a.threw {
      DropLive(a.temps, a.t, k, base);
    } else {
      var b := CallNow(w, ThrowValue, Homes(args), Slot(Temp, 0, true), a, check);
      LiveNext(a.t, Called(ThrowValue, Homes(args), Slot(Temp, 0, true), false, true, check), k, true);
      DropLive(b.temps, b.t, k, base);
    }
  }

  lemma {:induction false} IfLive(w: World, s: Stmt, t: Trace, check: bool, fuel: nat, cleanup: bool, inLoop: bool, scope: set<string>, outs: seq<Slot>, k: Kind, base: seq<Slot>)
    requires s.If? && WellFormed(s, cleanup, inLoop, scope) && Typed(s, outs) && AllKind(outs, Result) && Live(t, k, true) == Some(base)
    ensures Ends(Exec(w, s, t, check, fuel), [], outs, k, base)
    decreases fuel, Size(s), 1
  {
    hide Ends, Live, Finish, Unwind, TypedAll;
    var pre := s.pre;
    PreLive(w, pre, |pre|, t, check, fuel, outs, k, base);
    var p := ExecPre(w, pre, |pre|, t, check, fuel);
    if p.out == Normal {
      var base' := base + Keep(Vals(Own(pre, |pre|)), k);
      EndsNormal(p, Vals(Own(pre, |pre|)), outs, k, base);
      WholeLive(w, s.cond, p.t, check, k, base');
      var c := EvalWhole(w, s.cond, p.t, check);
      OwnLight(pre, |pre|);
      OwnTyped(pre, |pre|, outs);
      OwnSimple(pre, |pre|);
      var part := if s.kind.StaticTrue? || (s.kind.Dynamic? && c.flag) then s.thn else s.els;
      var r := if c.threw then Run(Threw, c.t, p.fuel) else Exec(w, part, c.t, check, p.fuel);
      if c.threw {
        EndsThrew(r, outs, k, base');
      } else {
        PartLive(w, part, c.t, check, p.fuel, cleanup, inLoop, scope, outs, k, base');
      }
      FinishLive(w, r, Own(pre, |pre|), outs, k, base);
    } else {
      EndsAbrupt(p, Vals(Own(pre, |pre|)), outs, k, base);
    }
  }

  lemma EndsNormal(r: Run, vs: seq<Slot>, outs: seq<Slot>, k: Kind, base: seq<Slot>)
    requires Ends(r, vs, outs, k, base) && r.out == Normal
    ensures Live(r.t, k, true) == Some(base + Keep(vs, k))
  {
  }

  lemma EndsThrew(r: Run, outs: seq<Slot>, k: Kind, base: seq<Slot>)
    requires r.out == Threw && Live(r.t, k, true) == Some(base)
    ensures Ends(r, [], outs, k, base)
  {
  }

  lemma EndsAbrupt(r: Run, vs: seq<Slot>, outs: seq<Slot>, k: Kind, base: seq<Slot>)
    requires Ends(r, vs, outs, k, base) && r.out != Normal
    ensures Ends(r, [], outs, k, base)
  {
  }

  lemma {:induction false} PreLive(w: World, pre: seq<Stmt>, n: nat, t: Trace, check: bool, fuel: nat, outs: seq<Slot>, k: Kind, base: seq<Slot>)
    requires n <= |pre| && Simple(pre) && TypedAll(pre, outs) && AllKind(outs, Result) && Live(t, k, true) == Some(base)
    ensures Ends(ExecPre(w, pre, n, t, check, fuel), Vals(Own(pre, n)), outs, k, base)
    decreases fuel, SizeAll(pre), 1, n
  {
    hide Live, Exec, Keep, Leave, Ends, Vals, Own, TypedAll, Simple;
    if n == 0 {
      NothingBound(pre, t, fuel, outs, k, base);
    } else {
      PreLive(w, pre, n - 1, t, check, fuel, outs, k, base);
      var a := ExecPre(w, pre, n - 1, t, check, fuel);
      if a.out == Normal {
        EndsNormal(a, Vals(Own(pre, n - 1)), outs, k, base);
        PreItemLive(w, pre, n, a.t, check, a.fuel, outs, k, base);
      } else {
        EndsAbrupt(a, Vals(Own(pre, n - 1)), outs, k, base);
        AbruptEnds(a, Vals(Own(pre, n)), outs, k, base);
      }
    }
  }

  lemma NothingBound(pre: seq<Stmt>, t: Trace, fuel: nat, outs: seq<Slot>, k: Kind, base: seq<Slot>)
    requires Live(t, k, true) == Some(base)
    ensures Ends(Run(Normal, t, fuel), Vals(Own(pre, 0)), outs, k, base)
  {
    KeepNone(base, k);
  }

  lemma {:induction false} PreItemLive(w: World, pre: seq<Stmt>, n: nat, t: Trace, check: bool, fuel: nat, outs: seq<Slot>, k: Kind, base: seq<Slot>)
    requires 0 < n <= |pre| && Simple(pre) && TypedAll(pre, outs) && AllKind(outs, Result)
    requires Live(t, k, true) == Some(base + Keep(Vals(Own(pre, n - 1)), k))
    ensures var r := Exec(w, pre[n - 1], t, check, fuel);
            if r.out == Normal then Ends(r, Vals(Own(pre, n)), outs, k, base)
            else Leave(w, r, pre, n - 1).out != Normal && Ends(Leave(w, r, pre, n - 1), Vals(Own(pre, n)), outs, k, base)
    decreases fuel, SizeAll(pre), 1, 0
  {
    hide Live, Finish, Unwind, Exec, Keep, Vals, Own, Size, SizeAll, Ends;
    SizeOfItem(pre, n - 1);
    var base' := base + Keep(Vals(Own(pre, n - 1)), k);
    var own := Own(pre, n - 1);
    StmtLive(w, pre[n - 1], t, check, fuel, false, false, {}, outs, k, base');
    var r := Exec(w, pre[n - 1], t, check, fuel);
    if r.out == Normal {
      OwnStep(pre, n - 1, k, base);
      EndsNormal(r, Vals(Pushes(pre[n - 1])), outs, k, base');
      NormalEnds(r, Vals(Own(pre, n)), outs, k, base);
    } else {
      OwnLight(pre, n - 1);
      OwnTyped(pre, n - 1, outs);
      OwnSimple(pre, n - 1);
      EndsAbrupt(r, Vals(Pushes(pre[n - 1])), outs, k, base');
      FinishLive(w, r, own, outs, k, base);
      FinishAbrupt(w, r, own);
      AbruptEnds(Finish(w, r, own), Vals(Own(pre, n)), outs, k, base);
    }
  }

  lemma NormalEnds(r: Run, vs: seq<Slot>, outs: seq<Slot>, k: Kind, base: seq<Slot>)
    requires r.out == Normal && Live(r.t, k, true) == Some(base + Keep(vs, k))
    ensures Ends(r, vs, outs, k, base)
  {
  }

  lemma AbruptEnds(r: Run, vs: seq<Slot>, outs: seq<Slot>, k: Kind, base: seq<Slot>)
    requires Ends(r, [], outs, k, base) && r.out != Normal
    ensures Ends(r, vs, outs, k, base)
  {
  }

  lemma FinishAbrupt(w: World, r: Run, es: seq<Entry>)
    requires r.out != Normal && Tame(es)
    ensures Finish(w, r, es).out != Normal
  {
    UnwindOutcome(w, es, r.out == Threw, r.t, r.fuel);
  }

  lemma OwnStep(ss: seq<Stmt>, i: nat, k: Kind, base: seq<Slot>)
    requires i < |ss|
    ensures base + Keep(Vals(Own(ss, i)), k) + Keep(Vals(Pushes(ss[i])), k) == base + Keep(Vals(Own(ss, i + 1)), k)
  {
    hide Keep, Vals;
    ValsConcat(Own(ss, i), Pushes(ss[i]));
    KeepOn(base, Vals(Own(ss, i)), Vals(Pushes(ss[i])), k);
  }

  lemma {:induction false} WhileLive(w: World, s: Stmt, t: Trace, check: bool, fuel: nat, cleanup: bool, inLoop: bool, scope: set<string>, outs: seq<Slot>, k: Kind, base: seq<Slot>)
    requires s.While? && WellFormed(s, cleanup, inLoop, scope) && Typed(s, outs) && AllKind(outs, Result) && Live(t, k, true) == Some(base)
    ensures Ends(Exec(w, s, t, check, fuel), [], outs, k, base)
    decreases fuel, Size(s), 1
  {
    hide Live, Finish, Unwind, TypedAll, Keep;
    if fuel > 0 {
      var pre := s.pre;
      PreLive(w, pre, |pre|, t, check, fuel - 1, outs, k, base);
      var p := ExecPre(w, pre, |pre|, t, check, fuel - 1);
      if p.out == Normal {
        PassLive(w, s, p, check, fuel - 1, cleanup, inLoop, scope, outs, k, base);
      } else {
        EndsAbrupt(p, Vals(Own(pre, |pre|)), outs, k, base);
      }
    }
  }

  // The condition, one run of the body, and the rest of the loop.
  lemma {:induction false} PassLive(w: World, s: Stmt, p: Run, check: bool, fuel: nat, cleanup: bool, inLoop: bool, scope: set<string>, outs: seq<Slot>, k: Kind, base: seq<Slot>)
    requires s.While? && WellFormed(s, cleanup, inLoop, scope) && Typed(s, outs) && AllKind(outs, Result)
    requires Ends(p, Vals(Own(s.pre, |s.pre|)), outs, k, base) && p.out == Normal && p.fuel <= fuel
    ensures var c := EvalWhole(w, s.cond, p.t, check);
            var r := if c.threw then Run(Threw, c.t, p.fuel) else if c.flag then Exec(w, s.loop, c.t, check, p.fuel) else Run(Broke, c.t, p.fuel);
            var r' := Leave(w, LoopExit(r), s.pre, |s.pre|);
            Ends(if r'.out == Normal && r.out != Broke then Exec(w, s, r'.t, check, r'.fuel) else r', [], outs, k, base)
    decreases fuel, Size(s), 4
  {
    hide Live, Finish, Unwind, TypedAll, Keep, Own, Vals, Exec, SizeAll;
    var pre := s.pre;
    var base' := base + Keep(Vals(Own(pre, |pre|)), k);
    WholeLive(w, s.cond, p.t, check, k, base');
    var c := EvalWhole(w, s.cond, p.t, check);
    if c.flag && !c.threw { PartLive(w, s.loop, c.t, check, p.fuel, cleanup, true, scope, outs, k, base'); }
    var r := if c.threw then Run(Threw, c.t, p.fuel) else if c.flag then Exec(w, s.loop, c.t, check, p.fuel) else Run(Broke, c.t, p.fuel);
    LoopEnds(r, outs, k, base');
    OwnTyped(pre, |pre|, outs);
    OwnSimple(pre, |pre|);
    FinishPre(w, LoopExit(r), pre, outs, k, base, s);
    var r' := Leave(w, LoopExit(r), pre, |pre|);
    if r'.out == Normal && r.out != Broke {
      EndsNormal(r', [], outs, k, base);
      KeepNone(base, k);
      NoVals(s);
      StmtLive(w, s, r'.t, check, r'.fuel, cleanup, inLoop, scope, outs, k, base);
    }
  }

  lemma {:induction false} FinishPre(w: World, r: Run, pre: seq<Stmt>, outs: seq<Slot>, k: Kind, base: seq<Slot>, s: Stmt)
    requires s.While? && s.pre == pre && Tame(Own(pre, |pre|)) && TypedEntries(Own(pre, |pre|), outs) && AllKind(outs, Result)
    requires Ends(r, [], outs, k, base + Keep(Vals(Own(pre, |pre|)), k))
    ensures Ends(Leave(w, r, pre, |pre|), [], outs, k, base)
    decreases r.fuel, SizeAll(pre), 0
  {
    hide Live, Finish, Ends;
    OwnLight(pre, |pre|);
    FinishLive(w, r, Own(pre, |pre|), outs, k, base);
  }

  lemma LoopEnds(r: Run, outs: seq<Slot>, k: Kind, base: seq<Slot>)
    requires Ends(r, [], outs, k, base)
    ensures Ends(LoopExit(r), [], outs, k, base)
  {
    KeepNone(base, k);
  }

  // Leaving a scope ends the lives of its values.
  lemma {:induction false} FinishLive(w: World, r: Run, es: seq<Entry>, outs: seq<Slot>, k: Kind, base: seq<Slot>)
    requires Tame(es) && TypedEntries(es, outs) && AllKind(outs, Result) && Ends(r, [], outs, k, base + Keep(Vals(es), k))
    ensures Ends(Finish(w, r, es), [], outs, k, base)
    decreases r.fuel, Weight(es), |es| + 1
  {
    hide Live, Unwind;
    if r.out == Stuck || r.out == OutOfFuel { return; }
    var extra := if r.out.Returned? then Keep(outs, k) else [];
    EntriesKind(es, outs);
    if k == Local { KeepOther(outs, Result, k); } else { KeepOther(Vals(es), Local, k); }
    KeepNone(base + Keep(Vals(es), k), k);
    KeepNone(base, k);
    assert base + extra + Keep(Vals(es), k) == base + Keep(Vals(es), k) + extra;
    UnwindLive(w, es, r.out == Threw, r.t, r.fuel, outs, k, base + extra);
    UnwindOutcome(w, es, r.out == Threw, r.t, r.fuel);
    assert base + [] == base;
  }

  lemma {:induction false} UnwindLive(w: World, es: seq<Entry>, exn: bool, t: Trace, fuel: nat, outs: seq<Slot>, k: Kind, base: seq<Slot>)
    requires Tame(es) && TypedEntries(es, outs) && AllKind(outs, Result) && Live(t, k, true) == Some(base + Keep(Vals(es), k))
    ensures var u := Unwind(w, es, exn, t, fuel);
            Live(u.t, k, true).Some? && (u.out == Normal ==> Live(u.t, k, true) == Some(base))
    decreases fuel, Weight(es), |es|
  {
    hide Live, Keep, Exec;
    KeepNone(base, k);
    if es != [] {
      var n := |es| - 1;
      var e := es[n];
      assert TameEntry(e) && TypedEntry(e, outs);
      match e {
        case Value(v) =>
          KeepOn(base, Vals(es[..n]), [v], k);
          DropOne(v, t, k, base + Keep(Vals(es[..n]), k));
          UnwindLive(w, es[..n], exn, Drop(v, t), fuel, outs, k, base);
        case Final(b) =>
          NoValue(es);
          CleanupLive(w, es, b, exn, t, fuel, outs, k, base);
        case Error(b) =>
          NoValue(es);
          if exn { CleanupLive(w, es, b, exn, t, fuel, outs, k, base); } else { UnwindLive(w, es[..n], exn, t, fuel, outs, k, base); }
      }
    }
  }

  lemma DropOne(v: Slot, t: Trace, k: Kind, base: seq<Slot>)
    requires Live(t, k, true) == Some(base + Keep([v], k))
    ensures Live(Drop(v, t), k, true) == Some(base)
  {
    KeepOne(v, k);
    KeepNone(base, k);
    LiveNext(t, Destroyed(v), k, true);
  }

  lemma NoValue(es: seq<Entry>)
    requires es != [] && !es[|es| - 1].Value?
    ensures Vals(es) == Vals(es[..|es| - 1])
  {
  }

  lemma {:induction false} CleanupLive(w: World, es: seq<Entry>, b: seq<Stmt>, exn: bool, t: Trace, fuel: nat, outs: seq<Slot>, k: Kind, base: seq<Slot>)
    requires Tame(es) && TypedEntries(es, outs) && AllKind(outs, Result) && Live(t, k, true) == Some(base + Keep(Vals(es), k))
    requires es != [] && (es[|es| - 1] == Final(b) || (exn && es[|es| - 1] == Error(b)))
    ensures var u := Unwind(w, es, exn, t, fuel);
            Live(u.t, k, true).Some? && (u.out == Normal ==> Live(u.t, k, true) == Some(base))
    decreases fuel, Weight(es), |es|, 0
  {
    hide Live, Keep;
    var base' := base + Keep(Vals(es), k);
    var n := |es| - 1;
    assert TameEntry(es[n]) && TypedEntry(es[n], outs);
    NoValue(es);
    OutcomeStmt(w, Block(b), t, fuel, false);
    StmtLive(w, Block(b), t, false, fuel, true, false, {}, outs, k, base');
    var r := Exec(w, Block(b), t, false, fuel);
    KeepNone(base', k);
    if r.out == Normal { UnwindLive(w, es[..n], exn, r.t, r.fuel, outs, k, base); }
  }

  lemma {:induction false} BlockLive(w: World, ss: seq<Stmt>, i: nat, t: Trace, check: bool, fuel: nat, cleanup: bool, inLoop: bool, scope: set<string>, outs: seq<Slot>, k: Kind, base: seq<Slot>)
    requires i <= |ss| && WellFormedAll(ss, |ss|, cleanup, inLoop, scope) && TypedAll(ss, outs) && AllKind(outs, Result)
    requires Live(t, k, true) == Some(base + Keep(Vals(Own(ss, i)), k))
    ensures Ends(ExecBlock(w, ss, i, t, check, fuel), [], outs, k, base)
    decreases fuel, SizeAll(ss), 1, |ss| - i
  {
    hide Live, Keep, Exec, Own, Finish, Unwind, Leave, FindLabel, Height, Visible, Size, SizeAll, Vals, Ends, TypedAll, AllKind, WellFormed, Typed, WellFormedAll, Pushes, LabelsOfAll;
    var base' := base + Keep(Vals(Own(ss, i)), k);
    if i == |ss| {
      EndedHere(t, fuel, outs, k, base');
      LeaveLive(w, Run(Normal, t, fuel), ss, i, cleanup, inLoop, scope, outs, k, base);
      return;
    }
    WellFormedItem(ss, |ss|, i, cleanup, inLoop, scope);
    SizeOfItem(ss, i);
    ItemTyped(ss, i, outs);
    StmtLive(w, ss[i], t, check, fuel, cleanup, inLoop, scope + Visible(ss, i), outs, k, base');
    var r := Exec(w, ss[i], t, check, fuel);
    if r.out == Normal {
      EndsNormal(r, Vals(Pushes(ss[i])), outs, k, base');
      OwnStep(ss, i, k, base);
      BlockLive(w, ss, i + 1, r.t, check, r.fuel, cleanup, inLoop, scope, outs, k, base);
    } else {
      EndsAbrupt(r, Vals(Pushes(ss[i])), outs, k, base');
      if r.out.Went? && FindLabel(ss, r.out.l, i) >= 0 {
        EndsWent(r, outs, k, base');
        GotoLive(w, ss, i, r, check, fuel, cleanup, inLoop, scope, outs, k, base);
        GotoEnds(w, ss, i, r, check, fuel, outs, k, base);
      } else {
        LeaveLive(w, r, ss, i, cleanup, inLoop, scope, outs, k, base);
      }
    }
  }

  lemma ItemTyped(ss: seq<Stmt>, i: nat, outs: seq<Slot>)
    requires i < |ss| && TypedAll(ss, outs)
    ensures Typed(ss[i], outs)
  {
  }

  lemma EndedHere(t: Trace, fuel: nat, outs: seq<Slot>, k: Kind, base: seq<Slot>)
    requires Live(t, k, true) == Some(base)
    ensures Ends(Run(Normal, t, fuel), [], outs, k, base)
  {
    KeepNone(base, k);
  }

  lemma EndsWent(r: Run, outs: seq<Slot>, k: Kind, base: seq<Slot>)
    requires Ends(r, [], outs, k, base) && r.out.Went?
    ensures Live(r.t, k, true) == Some(base)
  {
  }

  // However the goto's cleanup ends, nothing has been destroyed too often.
  lemma GotoEnds(w: World, ss: seq<Stmt>, i: nat, r: Run, check: bool, fuel: nat, outs: seq<Slot>, k: Kind, base: seq<Slot>)
    requires i < |ss| && r.out.Went? && FindLabel(ss, r.out.l, i) >= 0 && r.fuel <= fuel
    requires var q := FindLabel(ss, r.out.l, i);
             var u := Unwind(w, Own(ss, i)[Height(ss, q, i)..], false, r.t, r.fuel);
             && Halting(u.out) && Ends(u, [], outs, k, base + Keep(Vals(Own(ss, q + 1)), k))
             && (u.out == Normal && u.fuel > 0 ==> Ends(ExecBlock(w, ss, q + 1, u.t, check, u.fuel - 1), [], outs, k, base))
    ensures var q := FindLabel(ss, r.out.l, i);
            var u := Unwind(w, Own(ss, i)[Height(ss, q, i)..], false, r.t, r.fuel);
            Ends(if u.out != Normal then u else if u.fuel == 0 then Run(OutOfFuel, u.t, 0)
                 else ExecBlock(w, ss, q + 1, u.t, check, u.fuel - 1), [], outs, k, base)
  {
    hide Unwind, ExecBlock, Own, Vals, Keep, Live, FindLabel, Height;
  }

  lemma {:induction false} LeaveLive(w: World, r: Run, ss: seq<Stmt>, i: nat, cleanup: bool, inLoop: bool, scope: set<string>, outs: seq<Slot>, k: Kind, base: seq<Slot>)
    requires i <= |ss| && WellFormedAll(ss, |ss|, cleanup, inLoop, scope) && TypedAll(ss, outs) && AllKind(outs, Result)
    requires Ends(r, [], outs, k, base + Keep(Vals(Own(ss, i)), k))
    ensures Ends(Leave(w, r, ss, i), [], outs, k, base)
    decreases r.fuel, SizeAll(ss), 0
  {
    hide Ends, Finish, Live;
    if i < |ss| { WellFormedItem(ss, |ss|, i, cleanup, inLoop, scope); }
    OwnTame(ss, i, cleanup, inLoop, scope);
    OwnTyped(ss, i, outs);
    OwnLight(ss, i);
    FinishLive(w, r, Own(ss, i), outs, k, base);
  }

  // A goto destroys what was bound since its label was collected: just what is
  // not alive at the label.
  lemma {:induction false} GotoLive(w: World, ss: seq<Stmt>, i: nat, r: Run, check: bool, fuel: nat, cleanup: bool, inLoop: bool, scope: set<string>, outs: seq<Slot>, k: Kind, base: seq<Slot>)
    requires i < |ss| && WellFormedAll(ss, |ss|, cleanup, inLoop, scope) && TypedAll(ss, outs) && AllKind(outs, Result)
    requires r.out.Went? && FindLabel(ss, r.out.l, i) >= 0 && r.fuel <= fuel
    requires Live(r.t, k, true) == Some(base + Keep(Vals(Own(ss, i)), k))
    ensures var q := FindLabel(ss, r.out.l, i);
            var u := Unwind(w, Own(ss, i)[Height(ss, q, i)..], false, r.t, r.fuel);
            && Ends(u, [], outs, k, base + Keep(Vals(Own(ss, q + 1)), k)) && Halting(u.out)
            && (u.out == Normal && u.fuel > 0 ==> Ends(ExecBlock(w, ss, q + 1, u.t, check, u.fuel - 1), [], outs, k, base))
    decreases fuel, SizeAll(ss), 1, 0
  {
    hide Live, Keep, Exec, Own, Finish, Unwind, Visible, Size, SizeAll, Vals, ExecBlock, FindLabel;
    var q := FindLabel(ss, r.out.l, i);
    var h := Height(ss, q, i);
    var own := Own(ss, i);
    WellFormedItem(ss, |ss|, i, cleanup, inLoop, scope);
    OwnTame(ss, i, cleanup, inLoop, scope);
    OwnTyped(ss, i, outs);
    GotoSplit(ss, q, i, k, base);
    Suffixes(own, h, outs);
    KeptLight(ss, i, h);
    var base' := base + Keep(Vals(Own(ss, q + 1)), k);
    UnwindLive(w, own[h..], false, r.t, r.fuel, outs, k, base');
    UnwindOutcome(w, own[h..], false, r.t, r.fuel);
    var u := Unwind(w, own[h..], false, r.t, r.fuel);
    KeepNone(base', k);
    if u.out == Normal && u.fuel > 0 {
      BlockLive(w, ss, q + 1, u.t, check, u.fuel - 1, cleanup, inLoop, scope, outs, k, base);
    }
  }

  lemma Suffixes(es: seq<Entry>, h: nat, outs: seq<Slot>)
    requires h <= |es| && Tame(es) && TypedEntries(es, outs)
    ensures Tame(es[h..]) && TypedEntries(es[h..], outs)
  {
  }

  lemma GotoSplit(ss: seq<Stmt>, q: nat, i: nat, k: Kind, base: seq<Slot>)
    requires q < |ss| && ss[q].Label? && SegmentStart(ss, q) <= i <= |ss|
    ensures base + Keep(Vals(Own(ss, i)), k) == base + Keep(Vals(Own(ss, q + 1)), k) + Keep(Vals(Own(ss, i)[Height(ss, q, i)..]), k)
  {
    hide Keep, Vals;
    var m := SegmentStart(ss, q);
    OwnGrows(ss, m, i);
    var h := |Own(ss, m)|;
    assert Own(ss, i) == Own(ss, m) + Own(ss, i)[h..];
    ValsConcat(Own(ss, m), Own(ss, i)[h..]);
    KeepConcat(Vals(Own(ss, m)), Vals(Own(ss, i)[h..]), k);
    SegmentVals(ss, q);
    assert base + (Keep(Vals(Own(ss, m)), k) + Keep(Vals(Own(ss, i)[h..]), k))
        == base + Keep(Vals(Own(ss, m)), k) + Keep(Vals(Own(ss, i)[h..]), k);
  }

  // No value is bound between the start of a label's segment and the label.
  lemma SegmentVals(ss: seq<Stmt>, q: nat)
    requires q < |ss| && ss[q].Label?
    ensures Vals(Own(ss, q + 1)) == Vals(Own(ss, SegmentStart(ss, q)))
  {
    hide Vals;
    SameVals(ss, q);
    assert Own(ss, q + 1) == Own(ss, q) + [] == Own(ss, q);
  }

  lemma {:induction false} SameVals(ss: seq<Stmt>, q: nat)
    requires q <= |ss|
    ensures Vals(Own(ss, q)) == Vals(Own(ss, SegmentStart(ss, q)))
  {
    hide Vals, Pushes;
    if q > 0 && !ss[q - 1].Var? {
      SameVals(ss, q - 1);
      var own := Own(ss, q - 1);
      ValsConcat(own, Pushes(ss[q - 1]));
      NoVals(ss[q - 1]);
      assert Vals(own) + [] == Vals(own);
      assert SegmentStart(ss, q) == SegmentStart(ss, q - 1);
    }
  }

  lemma NoVals(s: Stmt)
    requires !s.Var?
    ensures Vals(Pushes(s)) == []
  {
  }

  // ----- the theorems -------------------------------------------------------

  // A body of a function whose results are outs.
  predicate Wholesome(body: Stmt, outs: seq<Slot>) {
    WellFormed(body, false, false, {}) && !Bare(body) && TypedPart(body, outs) && AllKind(outs, Result)
  }

  // What must be alive when the function is left.
  function Handed(r: Run, outs: seq<Slot>, k: Kind): seq<Slot> {
    if r.out.Returned? then Keep(outs, k) else []
  }

  // Counting a call in a cleanup body as having built its output whatever it
  // answered, everything is destroyed exactly once, newest first; a return
  // hands over the results, nothing else does.
  lemma Accounted(w: World, body: Stmt, outs: seq<Slot>, fuel: nat, k: Kind)
    requires Wholesome(body, outs)
    ensures var r := Exec(w, body, [], true, fuel);
            && Live(r.t, k, true).Some?
            && (r.out != Stuck && r.out != OutOfFuel ==> Live(r.t, k, true) == Some(Handed(r, outs, k)))
  {
    hide Exec, Keep;
    PartLive(w, body, [], true, fuel, false, false, {}, outs, k, []);
    KeepNone([], k);
    assert [] + Keep(outs, k) == Keep(outs, k);
  }

  // The call threw in a cleanup body, where nobody looks, and left an output
  // that was never built.
  predicate Missed(e: Event) {
    e.Called? && e.threw && !e.checked && !e.out.prim
  }

  predicate Clean(t: Trace) {
    forall i :: 0 <= i < |t| ==> !Missed(t[i])
  }

  lemma {:induction false} CleanLive(t: Trace, k: Kind)
    requires Clean(t)
    ensures Live(t, k, false) == Live(t, k, true)
  {
    if t != [] {
      CleanLive(t[..|t| - 1], k);
      assert !Missed(t[|t| - 1]);
    }
  }

  // Builds minus destructions.
  function Net(t: Trace, k: Kind, asIf: bool): int {
    if t == [] then 0
    else
      var e := t[|t| - 1];
      Net(t[..|t| - 1], k, asIf)
        + (if Builds(e, k, asIf) then 1 else if e.Destroyed? && e.v.kind == k then -1 else 0)
  }

  lemma {:induction false} LiveNet(t: Trace, k: Kind, asIf: bool)
    requires Live(t, k, asIf).Some?
    ensures |Live(t, k, asIf).value| == Net(t, k, asIf)
  {
    if t != [] { LiveNet(t[..|t| - 1], k, asIf); }
  }

  lemma {:induction false} NetGap(t: Trace, k: Kind)
    ensures Net(t, k, false) <= Net(t, k, true)
    ensures (exists i :: 0 <= i < |t| && Missed(t[i]) && t[i].out.kind == k) ==> Net(t, k, false) < Net(t, k, true)
  {
    if t != [] {
      var n := |t| - 1;
      NetGap(t[..n], k);
      if exists i :: 0 <= i < |t| && Missed(t[i]) && t[i].out.kind == k {
        var i :| 0 <= i < |t| && Missed(t[i]) && t[i].out.kind == k;
        if i < n { assert t[..n][i] == t[i]; }
      }
    }
  }

  // In a run that leaves the function, every value is destroyed exactly once, in
  // reverse order of construction, and nothing unbuilt is ever destroyed, if and
  // only if no call in a cleanup body threw where its output needs destroying.
  lemma ExactlyOnce(w: World, body: Stmt, outs: seq<Slot>, fuel: nat)
    requires Wholesome(body, outs)
    requires Exec(w, body, [], true, fuel).out != Stuck && Exec(w, body, [], true, fuel).out != OutOfFuel
    ensures var r := Exec(w, body, [], true, fuel);
            (forall k :: Live(r.t, k, false) == Some(Handed(r, outs, k))) <==> Clean(r.t)
  {
    var r := Exec(w, body, [], true, fuel);
    hide Live, Exec;
    forall k ensures Live(r.t, k, true) == Some(Handed(r, outs, k)) {
      Accounted(w, body, outs, fuel, k);
    }
    if Clean(r.t) {
      forall k ensures Live(r.t, k, false) == Some(Handed(r, outs, k)) { CleanLive(r.t, k); }
    } else {
      var i :| 0 <= i < |r.t| && Missed(r.t[i]);
      var k := r.t[i].out.kind;
      NetGap(r.t, k);
      LiveNet(r.t, k, true);
      if Live(r.t, k, false) == Some(Handed(r, outs, k)) { LiveNet(r.t, k, false); }
    }
  }

  // A cleanup body that makes one call, in a world where every call throws.

  function Failing(): seq<Stmt> { [Eval(Call(User(0), [], 0, false))] }

  function Throwing(): World { (t, f, args) => Reply(true, false) }

  function Unbuilt(): Slot { Slot(Temp, 0, false) }

  function Mishap(): Trace { [Called(User(0), [], Unbuilt(), false, true, false), Destroyed(Unbuilt())] }

  lemma FailingRuns()
    ensures Exec(Throwing(), Block(Failing()), [], false, 0) == Run(Normal, Mishap(), 0)
  {
    var w, ss := Throwing(), Failing();
    var e := ss[0].e;
    var t1 := [Called(User(0), [], Unbuilt(), false, true, false)];
    assert EvalArgs(w, [], 0, [], false) == Evaled(false, [], false, []);
    assert EvalRef(w, e, [], false) == Evaled(false, t1, false, [Unbuilt()]);
    assert [Unbuilt()][..0] == [];
    assert DropAll([], Mishap()) == Mishap();
    assert DropAll([Unbuilt()], t1) == Mishap();
    assert EvalWhole(w, e, [], false).t == Mishap();
    assert Exec(w, ss[0], [], false, 0) == Run(Normal, Mishap(), 0);
    assert Own(ss, 0) == [] && Own(ss, 1) == [];
    assert ExecBlock(w, ss, 1, Mishap(), false, 0) == Run(Normal, Mishap(), 0);
  }

  // What it failed to build is destroyed all the same.
  lemma CleanupThrow()
    ensures var body := Block([Finally(Failing())]);
            && Wholesome(body, [])
            && Exec(Throwing(), body, [], true, 0) == Run(Normal, Mishap(), 0)
            && Live(Mishap(), Temp, false) == None
  {
    var w, body := Throwing(), [Finally(Failing())];
    FailingRuns();
    hide Failing, EvalRef, EvalArgs;
    var es := [Final(Failing())];
    assert Own(body, 0) == [] && Own(body, 1) == es && es[..0] == [];
    assert Unwind(w, [], false, Mishap(), 0) == Run(Normal, Mishap(), 0);
    assert Unwind(w, es, false, [], 0) == Run(Normal, Mishap(), 0);
    assert ExecBlock(w, body, 1, [], true, 0) == Run(Normal, Mishap(), 0);
    assert Exec(w, body[0], [], true, 0) == Run(Normal, [], 0);
    FailingTyped();
  }

  lemma FailingTyped()
    ensures Wholesome(Block([Finally(Failing())]), [])
    ensures Live(Mishap(), Temp, false) == None
  {
    var body := [Finally(Failing())];
    assert WellFormedAll(Failing(), 1, true, false, {});
    assert LabelsOfAll(body[..0]) == {};
    assert WellFormedAll(body, 1, false, false, {});
    assert Mishap()[..1][..0] == [];
    assert Live(Mishap()[..1], Temp, false) == Some([]);
  }
}
