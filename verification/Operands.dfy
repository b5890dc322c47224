// What a call is given: for each operand, in order, the slot that holds the value
// the operand has been evaluated to.
module Operands {
  import opened Syntax
  import opened Semantics
  import Cfg

  // Evaluating e may store something in v, other than in its output.
  predicate WritesBelow(e: Expr, v: Slot) {
    match e
    case Lit(_, _) => false
    case Call(_, args, _, _) => exists i :: 0 <= i < |args| && (v == Home(args[i]) || WritesBelow(args[i], v))
    case And(l, r, _) => v == Home(l) || WritesBelow(l, v) || v == Home(r) || WritesBelow(r, v)
    case Or(l, r, _) => v == Home(l) || WritesBelow(l, v) || v == Home(r) || WritesBelow(r, v)
  }

  predicate Writes(e: Expr, v: Slot) {
    v == Home(e) || WritesBelow(e, v)
  }

  // No operand is evaluated in the slot of an earlier one.
  predicate Separate(args: seq<Expr>) {
    forall i, j :: 0 <= i < j < |args| ==> !Writes(args[j], Home(args[i]))
  }

  // ----- memory -------------------------------------------------------------

  lemma {:induction false} ReplayDrop(vs: seq<Slot>, t: Trace)
    ensures Replay(DropAll(vs, t)) == Replay(t) && LastWork(DropAll(vs, t)) == LastWork(t)
  {
    if vs != [] {
      var v := vs[|vs| - 1];
      ReplayDrop(vs[..|vs| - 1], Drop(v, t));
      Cfg.ReplayNext(t, Destroyed(v));
      LastNext(t, Destroyed(v));
    }
  }

  // The slot last stored or returned into.
  function LastWork(t: Trace): seq<Slot> {
    if t == [] then []
    else if t[|t| - 1].Destroyed? then LastWork(t[..|t| - 1])
    else [t[|t| - 1].out]
  }

  lemma LastNext(t: Trace, e: Event)
    ensures LastWork(t + [e]) == if e.Destroyed? then LastWork(t) else [e.out]
  {
    assert (t + [e])[..|t + [e]| - 1] == t;
  }

  // The value of an expression ends up in its output, and nothing but the output
  // and the temporaries of its operands changes.
  predicate Built(t: Trace, a: Evaled, out: Slot, v: Slot, written: bool) {
    && (!a.threw ==> Load(Replay(a.t), out) == a.flag && LastWork(a.t) == [out])
    && (!written ==> Load(Replay(a.t), v) == Load(Replay(t), v))
  }

  lemma {:induction false} IntoBuilds(w: World, e: Expr, out: Slot, t: Trace, check: bool, v: Slot)
    ensures Built(t, EvalInto(w, e, out, t, check), out, v, v == out || WritesBelow(e, v))
    decreases e, 1
  {
    hide Replay, LastWork;
    match e
    case Lit(b, _) =>
      Cfg.ReplayNext(t, Stored(out, b));
      LastNext(t, Stored(out, b));
    case Call(f, args, _, _) =>
      ArgsKeep(w, args, |args|, t, check, v);
      var a := EvalArgs(w, args, |args|, t, check);
      var reply := Answer(w, a.t, f, Homes(args));
      Cfg.ReplayNext(a.t, Called(f, Homes(args), out, reply.flag, reply.threw, check));
      LastNext(a.t, Called(f, Homes(args), out, reply.flag, reply.threw, check));
    case And(_, _, _) => BothBuild(w, e, out, t, check, v);
    case Or(_, _, _) => BothBuild(w, e, out, t, check, v);
  }

  lemma {:induction false} BothBuild(w: World, e: Expr, out: Slot, t: Trace, check: bool, v: Slot)
    requires e.And? || e.Or?
    ensures Built(t, EvalInto(w, e, out, t, check), out, v, v == out || WritesBelow(e, v))
    decreases e, 0
  {
    hide Replay, LastWork, EvalRef, DropAll;
    RefBuilds(w, e.l, t, check, v);
    var a := EvalRef(w, e.l, t, check);
    Cfg.ReplayNext(a.t, Stored(out, a.flag));
    LastNext(a.t, Stored(out, a.flag));
    RefBuilds(w, e.r, a.t, check, v);
    var b := EvalRef(w, e.r, a.t, check);
    Cfg.ReplayNext(b.t, Stored(out, b.flag));
    LastNext(b.t, Stored(out, b.flag));
    ReplayDrop(b.temps, b.t + [Stored(out, b.flag)]);
  }

  lemma {:induction false} RefBuilds(w: World, e: Expr, t: Trace, check: bool, v: Slot)
    ensures Built(t, EvalRef(w, e, t, check), Home(e), v, Writes(e, v))
    decreases e, 2
  {
    IntoBuilds(w, e, Home(e), t, check, v);
  }

  lemma {:induction false} ArgsKeep(w: World, args: seq<Expr>, n: nat, t: Trace, check: bool, v: Slot)
    requires n <= |args|
    ensures (forall i :: 0 <= i < n ==> !Writes(args[i], v)) ==> Load(Replay(EvalArgs(w, args, n, t, check).t), v) == Load(Replay(t), v)
    decreases args, n
  {
    hide Replay, EvalRef, WritesBelow, Writes;
    if n > 0 {
      ArgsKeep(w, args, n - 1, t, check, v);
      RefBuilds(w, args[n - 1], EvalArgs(w, args, n - 1, t, check).t, check, v);
    }
  }

  // ----- the theorems -------------------------------------------------------

  // Operand i as it is evaluated, behind those in front of it.
  function Operand(w: World, args: seq<Expr>, i: nat, t: Trace, check: bool): Evaled
    requires i < |args|
  {
    EvalRef(w, args[i], EvalArgs(w, args, i, t, check).t, check)
  }

  // The i-th slot is the one operand i has been built in as the last thing it did,
  // and, slots being separate, it holds the value of operand i when the call
  // begins.
  predicate Given(w: World, args: seq<Expr>, t: Trace, check: bool, ops: seq<Slot>) {
    && |ops| == |args|
    && (forall i :: 0 <= i < |args| ==> LastWork(Operand(w, args, i, t, check).t) == [ops[i]])
    && (Separate(args) ==> forall i :: 0 <= i < |args| ==>
          Load(Replay(EvalArgs(w, args, |args|, t, check).t), ops[i]) == Operand(w, args, i, t, check).flag)
  }

  lemma {:induction false} Reached(w: World, args: seq<Expr>, n: nat, i: nat, t: Trace, check: bool)
    requires i < n <= |args| && !EvalArgs(w, args, n, t, check).threw
    ensures var a := Operand(w, args, i, t, check);
            && !a.threw && LastWork(a.t) == [Home(args[i])]
            && (Separate(args) ==> Load(Replay(EvalArgs(w, args, n, t, check).t), Home(args[i])) == a.flag)
    decreases n
  {
    hide Replay, LastWork, EvalRef, WritesBelow, Writes;
    var before := EvalArgs(w, args, n - 1, t, check);
    RefBuilds(w, args[n - 1], before.t, check, Home(args[i]));
    if i < n - 1 { Reached(w, args, n - 1, i, t, check); }
  }

  lemma OperandsGiven(w: World, args: seq<Expr>, t: Trace, check: bool)
    requires !EvalArgs(w, args, |args|, t, check).threw
    ensures Given(w, args, t, check, Homes(args))
  {
    hide Replay, LastWork, EvalArgs, Operand, Separate;
    forall i | 0 <= i < |args|
      ensures LastWork(Operand(w, args, i, t, check).t) == [Homes(args)[i]]
      ensures Separate(args) ==> Load(Replay(EvalArgs(w, args, |args|, t, check).t), Homes(args)[i]) == Operand(w, args, i, t, check).flag
    {
      Reached(w, args, |args|, i, t, check);
    }
  }

  // A call whose operands did not throw is given the value of each, in order, and
  // is the last thing to happen.
  lemma CallGiven(w: World, e: Expr, out: Slot, t: Trace, check: bool)
    requires e.Call? && !EvalArgs(w, e.args, |e.args|, t, check).threw
    ensures var a, r := EvalArgs(w, e.args, |e.args|, t, check), EvalInto(w, e, out, t, check);
            && |r.t| == |a.t| + 1 && a.t < r.t
            && var c := r.t[|a.t|];
               c.Called? && c.f == e.f && c.out == out && c.flag == r.flag && Given(w, e.args, t, check, c.args)
  {
    OperandsGiven(w, e.args, t, check);
  }

  // So is a throw; it makes control leave with an exception wherever exceptions
  // are tested for, and destroys its operands last.
  lemma ThrowGiven(w: World, args: seq<Expr>, t: Trace, check: bool, fuel: nat)
    requires !EvalArgs(w, args, |args|, t, check).threw
    ensures var a, r := EvalArgs(w, args, |args|, t, check), Exec(w, Throw(args), t, check, fuel);
            exists c: Event :: c.Called? && c.f == ThrowValue && c.threw && Given(w, args, t, check, c.args)
                               && r == Run(if check then Threw else Stuck, DropAll(a.temps, a.t + [c]), fuel)
  {
    OperandsGiven(w, args, t, check);
    var a := EvalArgs(w, args, |args|, t, check);
    var c := Called(ThrowValue, Homes(args), Slot(Temp, 0, true), false, true, check);
    assert CallNow(w, ThrowValue, Homes(args), Slot(Temp, 0, true), a, check).t == a.t + [c];
  }
}
